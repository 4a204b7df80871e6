/**
 * The printable view of a stored invoice or quote: which headings, lines
 * and table rows it shows, and the file name it is exported under. Every
 * value here is read off the document record; nothing is recomputed.
 */
module InvoiceRender {
  import opened Common
  import opened Text

  /** One stored line of the document. */
  datatype LineItem = LineItem(repairType: string, description: Option<string>, amount: int)

  /** The stored document record as the view receives it. */
  datatype Document = Document(
    invoiceNumber: string,
    documentType: string,
    customerName: string,
    customerPhone: string,
    carModel: string,
    vehicleRegNumber: Option<string>,
    invoiceDate: string,
    repairType: string,
    description: Option<string>,
    status: string,
    totalAmount: int,
    invoiceItems: Option<seq<LineItem>>)

  /** A string field used as a JSX condition: missing and empty are both false. */
  predicate Truthy(s: Option<string>)
  {
    s.Some? && s.value != ""
  }

  predicate IsQuote(doc: Document)
  {
    doc.documentType == "quote"
  }

  // ---------------------------------------------------------------- headings and lines

  datatype Headings = Headings(billTo: string, details: string, number: string)

  /** "Quote To:" / "Quote Details:" / "Quote Number:" for a quote, the Invoice wording otherwise. */
  function DocumentHeadings(doc: Document): (r: Headings)
    ensures IsQuote(doc) ==> r == Headings("Quote To:", "Quote Details:", "Quote Number:")
    ensures !IsQuote(doc) ==> r == Headings("Invoice To:", "Invoice Details:", "Invoice Number:")
  {
    Headings(
      if IsQuote(doc) then "Quote To:" else "Invoice To:",
      if IsQuote(doc) then "Quote Details:" else "Invoice Details:",
      if IsQuote(doc) then "Quote Number:" else "Invoice Number:")
  }

  /** For a document of a known kind, every heading opens with that kind's capitalised name. */
  lemma HeadingsNameTheKind(doc: Document, k: DocKind)
    requires doc.documentType == KindName(k)
    ensures var w := Capitalize(KindName(k)); var h := DocumentHeadings(doc);
      && h.billTo == w + " To:"
      && h.details == w + " Details:"
      && h.number == w + " Number:"
  {
    CapitalizedKindWords();
    match k
    case InvoiceKind =>
      assert Capitalize(KindName(k)) == "Invoice";
      assert "Invoice" + " To:" == "Invoice To:";
      assert "Invoice" + " Details:" == "Invoice Details:";
      assert "Invoice" + " Number:" == "Invoice Number:";
    case QuoteKind =>
      assert Capitalize(KindName(k)) == "Quote";
      assert "Quote" + " To:" == "Quote To:";
      assert "Quote" + " Details:" == "Quote Details:";
      assert "Quote" + " Number:" == "Quote Number:";
  }

  /** The status line, upper-cased; quotes have none. */
  function StatusLine(doc: Document): (r: Option<string>)
    ensures r.Some? <==> !IsQuote(doc)
    ensures r.Some? ==> r.value == Upper(doc.status)
  {
    if !IsQuote(doc) then Some(Upper(doc.status)) else None
  }

  /** The "Reg:" line, shown only for a non-empty registration number. */
  function RegistrationLine(doc: Document): (r: Option<string>)
    ensures r.Some? <==> Truthy(doc.vehicleRegNumber)
    ensures r.Some? ==> r.value == "Reg: " + doc.vehicleRegNumber.value
  {
    if Truthy(doc.vehicleRegNumber) then Some("Reg: " + doc.vehicleRegNumber.value) else None
  }

  /** The repair-type line: "Multiple" when the stored type is "Multiple", the stored type otherwise. */
  function RepairTypeShown(doc: Document): string
  {
    if doc.repairType == "Multiple" then "Multiple" else doc.repairType
  }

  /** That conditional always shows the stored repair type. */
  lemma RepairTypeShownIsStored(doc: Document)
    ensures RepairTypeShown(doc) == doc.repairType
  {
  }

  // ---------------------------------------------------------------- the table

  /** A table row: bold title, optional detail line, amount. */
  datatype Row = Row(title: string, detail: Option<string>, amount: int)

  function DetailOf(s: Option<string>): (r: Option<string>)
    ensures r.Some? <==> Truthy(s)
    ensures r.Some? ==> r == s
  {
    if Truthy(s) then s else None
  }

  function ItemRow(item: LineItem): Row
  {
    Row(item.repairType, DetailOf(item.description), item.amount)
  }

  function ItemRows(items: seq<LineItem>): (r: seq<Row>)
    ensures |r| == |items|
    ensures forall i :: 0 <= i < |items| ==> r[i] == ItemRow(items[i])
  {
    if items == [] then [] else [ItemRow(items[0])] + ItemRows(items[1..])
  }

  /** The single row used when the document has no items: its repair type, description and total. */
  function FallbackRow(doc: Document): Row
  {
    Row(doc.repairType, DetailOf(doc.description), doc.totalAmount)
  }

  predicate HasItems(doc: Document)
  {
    doc.invoiceItems.Some? && |doc.invoiceItems.value| > 0
  }

  /** One row per stored item, in order; a single fallback row when there are none. */
  function TableRows(doc: Document): (r: seq<Row>)
    ensures |r| >= 1
    ensures HasItems(doc) ==> |r| == |doc.invoiceItems.value|
    ensures HasItems(doc) ==> forall i :: 0 <= i < |r| ==> r[i] == ItemRow(doc.invoiceItems.value[i])
    ensures !HasItems(doc) ==> r == [FallbackRow(doc)]
  {
    if HasItems(doc) then ItemRows(doc.invoiceItems.value) else [FallbackRow(doc)]
  }

  function RowsAmount(rows: seq<Row>): int
  {
    if rows == [] then 0 else rows[0].amount + RowsAmount(rows[1..])
  }

  // ---------------------------------------------------------------- totals, reference, file name

  /** The "Total:" line shows the stored total. */
  function TotalShown(doc: Document): int
  {
    doc.totalAmount
  }

  /** The shown total is not recomputed: changing the items does not change it. */
  lemma TotalShownIgnoresItems(doc: Document, items: Option<seq<LineItem>>)
    ensures TotalShown(doc.(invoiceItems := items)) == TotalShown(doc)
  {
  }

  /** A document whose table rows do not add up to the total it shows. */
  lemma TotalShownMayDifferFromRows()
    ensures var doc := Document("INV-1", "invoice", "", "", "", None, "", "Paint Job", None, "draft", 500,
                                Some([LineItem("Paint Job", None, 1200)]));
            TotalShown(doc) != RowsAmount(TableRows(doc))
  {
    var doc := Document("INV-1", "invoice", "", "", "", None, "", "Paint Job", None, "draft", 500,
                        Some([LineItem("Paint Job", None, 1200)]));
    var rows := TableRows(doc);
    assert rows == [ItemRow(LineItem("Paint Job", None, 1200))];
    assert RowsAmount(rows) == 1200 + RowsAmount([]);
  }

  /** The banking block's "Payment Reference:". */
  function PaymentReference(doc: Document): string
  {
    doc.invoiceNumber
  }

  /** The file name both Download and Print hand to the PDF generator, whatever the document type. */
  function ExportFilename(doc: Document): (r: string)
    ensures |r| == |doc.invoiceNumber| + 12
    ensures r[..8] == "Invoice-" && r[|r| - 4..] == ".pdf"
    ensures r[8..|r| - 4] == doc.invoiceNumber
  {
    "Invoice-" + doc.invoiceNumber + ".pdf"
  }

  /** Reading the document number back out of an exported file name. */
  function NumberFromFilename(f: string): (r: Option<string>)
    ensures r.Some? ==> "Invoice-" + r.value + ".pdf" == f
  {
    if |f| >= 12 && f[..8] == "Invoice-" && f[|f| - 4..] == ".pdf" then
      assert f == f[..8] + f[8..|f| - 4] + f[|f| - 4..];
      Some(f[8..|f| - 4])
    else None
  }

  lemma FilenameRoundTrip(doc: Document)
    ensures NumberFromFilename(ExportFilename(doc)) == Some(PaymentReference(doc))
  {
  }

  /** A quote is exported under the same "Invoice-" name as an invoice with its number. */
  lemma FilenameIgnoresDocumentType(doc: Document, t: string)
    ensures ExportFilename(doc.(documentType := t)) == ExportFilename(doc)
  {
  }

  /** The export settings Download and Print share; margin is in hundredths of an inch, quality in hundredths. */
  datatype ExportOptions = ExportOptions(
    marginHundredths: nat, filename: string, imageType: string, imageQualityHundredths: nat,
    canvasScale: nat, unit: string, format: string, orientation: string)

  function ExportSettings(doc: Document): (r: ExportOptions)
    ensures r.filename == ExportFilename(doc)
    ensures NumberFromFilename(r.filename) == Some(doc.invoiceNumber)
  {
    ExportOptions(50, ExportFilename(doc), "jpeg", 98, 2, "in", "a4", "portrait")
  }

  /** The modal's title bar: "Invoice PDF - " and the number. */
  function ViewerTitle(doc: Document): (r: string)
    ensures |r| == 14 + |doc.invoiceNumber|
    ensures r[..14] == "Invoice PDF - " && r[14..] == doc.invoiceNumber
  {
    "Invoice PDF - " + doc.invoiceNumber
  }
}
