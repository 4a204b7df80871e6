/**
 * The "Generate Invoice / Quote" editor: an ordered list of repair items
 * whose last entry is the fixed Labour line, a form record for the customer
 * and vehicle, the running total, and the payload posted when the form is
 * submitted.
 */
module RepairItems {
  import opened Common
  import opened Text
  import opened Amounts

  /** One line of the document; `amount` is the raw text of the number input. */
  datatype RepairItem = RepairItem(repairType: string, description: string, amount: string)

  /** The three inputs of an item row. */
  datatype ItemField = RepairTypeField | DescriptionField | AmountField

  const Blank := RepairItem("", "", "")
  const Labour := RepairItem("Labour", "Labour", "")

  /** The options of the Repair Type drop-down, "Select Type" (the empty value) included. */
  const RepairTypeOptions: seq<string> := [
    "", "Bumper Repair", "Dent Removal", "Paint Job", "Panel Replacement",
    "Scratch Repair", "Rust Repair", "Accident Damage", "Other"
  ]

  /** The shape the editor keeps: at least two items, the last one the Labour line. */
  predicate WellFormed(items: seq<RepairItem>)
  {
    && |items| >= 2
    && items[|items| - 1].repairType == "Labour"
    && items[|items| - 1].description == "Labour"
  }

  /** The list the editor starts with: one blank item, then Labour. */
  function InitialItems(): (r: seq<RepairItem>)
    ensures WellFormed(r) && |r| == 2 && r[0] == Blank && r[1] == Labour
    ensures Total(r) == 0
  {
    var r := [Blank, Labour];
    assert r[..1] == [Blank] && [Blank][..0] == [];
    EmptyAmountIsZero();
    assert Total([Blank]) == Total([]) + AmountOf("") == 0;
    assert Total(r) == Total([Blank]) + AmountOf("");
    r
  }

  // ---------------------------------------------------------------- total

  /** The running total: a left fold adding each item's parsed amount, 0 for one that does not parse. */
  function Total(items: seq<RepairItem>): nat
  {
    if items == [] then 0 else Total(items[..|items| - 1]) + AmountOf(items[|items| - 1].amount)
  }

  /** The same sum, folded from the other end: a reference definition. */
  function SumAmounts(items: seq<RepairItem>): nat
  {
    if items == [] then 0 else AmountOf(items[0].amount) + SumAmounts(items[1..])
  }

  lemma {:induction false} TotalAppend(s: seq<RepairItem>, t: seq<RepairItem>)
    ensures Total(s + t) == Total(s) + Total(t)
    decreases |t|
  {
    if t == [] {
      assert s + t == s;
    } else {
      var u := s + t;
      assert u[..|u| - 1] == s + t[..|t| - 1];
      assert u[|u| - 1] == t[|t| - 1];
      TotalAppend(s, t[..|t| - 1]);
    }
  }

  lemma TotalSingleton(x: RepairItem)
    ensures Total([x]) == AmountOf(x.amount)
  {
    assert [x][..0] == [];
  }

  lemma Decompose(s: seq<RepairItem>, i: nat)
    requires i < |s|
    ensures s == (s[..i] + [s[i]]) + s[i + 1..]
  {
  }

  lemma TotalSplit(a: seq<RepairItem>, x: RepairItem, b: seq<RepairItem>)
    ensures Total((a + [x]) + b) == Total(a) + AmountOf(x.amount) + Total(b)
  {
    TotalAppend(a + [x], b);
    TotalAppend(a, [x]);
    TotalSingleton(x);
  }

  /** The total does not depend on which end the sum starts from. */
  lemma {:induction false} TotalIsSumOfAmounts(items: seq<RepairItem>)
    ensures Total(items) == SumAmounts(items)
    decreases |items|
  {
    if items != [] {
      assert items == [items[0]] + items[1..];
      TotalAppend([items[0]], items[1..]);
      assert [items[0]][..0] == [];
      TotalIsSumOfAmounts(items[1..]);
    }
  }

  /** Every parsed amount is part of the total. */
  lemma TotalBoundsEachAmount(items: seq<RepairItem>, i: nat)
    requires i < |items|
    ensures AmountOf(items[i].amount) <= Total(items)
  {
    Decompose(items, i);
    TotalSplit(items[..i], items[i], items[i + 1..]);
  }

  // ---------------------------------------------------------------- edit one field

  function FieldOf(item: RepairItem, f: ItemField): string
  {
    match f
    case RepairTypeField => item.repairType
    case DescriptionField => item.description
    case AmountField => item.amount
  }

  /** The item with one field replaced. */
  function WithField(item: RepairItem, f: ItemField, v: string): (r: RepairItem)
    ensures FieldOf(r, f) == v
    ensures forall g :: g != f ==> FieldOf(r, g) == FieldOf(item, g)
  {
    match f
    case RepairTypeField => item.(repairType := v)
    case DescriptionField => item.(description := v)
    case AmountField => item.(amount := v)
  }

  /** Whether the input for field f of row i is enabled: the Labour row only lets its amount change. */
  predicate ControlEnabled(items: seq<RepairItem>, i: nat, f: ItemField)
  {
    i != |items| - 1 || f == AmountField
  }

  /** Field f of item i set to v, on a list value. */
  function ChangeItem(items: seq<RepairItem>, i: nat, f: ItemField, v: string): (r: seq<RepairItem>)
    requires i < |items|
    ensures |r| == |items|
    ensures FieldOf(r[i], f) == v
    ensures forall g :: g != f ==> FieldOf(r[i], g) == FieldOf(items[i], g)
    ensures forall j :: 0 <= j < |items| && j != i ==> r[j] == items[j]
  {
    items[i := WithField(items[i], f, v)]
  }

  /** An edit made through an enabled control keeps Labour last. */
  lemma EnabledChangeKeepsWellFormed(items: seq<RepairItem>, i: nat, f: ItemField, v: string)
    requires WellFormed(items) && i < |items| && ControlEnabled(items, i, f)
    ensures WellFormed(ChangeItem(items, i, f, v))
  {
  }

  /** Replacing one item changes the total by exactly the difference of the two amounts. */
  lemma ReplaceTotal(items: seq<RepairItem>, i: nat, x: RepairItem)
    requires i < |items|
    ensures Total(items[i := x]) + AmountOf(items[i].amount) == Total(items) + AmountOf(x.amount)
  {
    var a, y, b := items[..i], items[i], items[i + 1..];
    assert items == (a + [y]) + b;
    assert items[i := x] == (a + [x]) + b;
    TotalAppend(a + [y], b);
    TotalAppend(a, [y]);
    TotalAppend(a + [x], b);
    TotalAppend(a, [x]);
    TotalSingleton(y);
    TotalSingleton(x);
  }

  /** Editing a type or description never changes the total. */
  lemma TextChangeKeepsTotal(items: seq<RepairItem>, i: nat, f: ItemField, v: string)
    requires i < |items| && f != AmountField
    ensures Total(ChangeItem(items, i, f, v)) == Total(items)
  {
    ReplaceTotal(items, i, WithField(items[i], f, v));
  }

  // ---------------------------------------------------------------- add

  /** Where `splice(length - 1, 0, x)` inserts: a negative start counts from the end, clamped at 0. */
  function SpliceIndex(n: nat): nat
  {
    if n == 0 then 0 else n - 1
  }

  /** Inserting x at the position one before the end, as JavaScript's splice does, on a list value. */
  function InsertBeforeLast(items: seq<RepairItem>, x: RepairItem): (r: seq<RepairItem>)
    ensures |r| == |items| + 1
    ensures r[SpliceIndex(|items|)] == x
    ensures forall j :: 0 <= j < SpliceIndex(|items|) ==> r[j] == items[j]
    ensures forall j :: SpliceIndex(|items|) <= j < |items| ==> r[j + 1] == items[j]
  {
    var p := SpliceIndex(|items|);
    items[..p] + [x] + items[p..]
  }

  /** Adding an item keeps the list's shape: one longer, earlier items in order, Labour untouched and last. */
  lemma AddKeepsLabourLast(items: seq<RepairItem>)
    requires WellFormed(items)
    ensures WellFormed(InsertBeforeLast(items, Blank))
    ensures InsertBeforeLast(items, Blank)[..|items| - 1] == items[..|items| - 1]
    ensures InsertBeforeLast(items, Blank)[|items| - 1] == Blank
    ensures InsertBeforeLast(items, Blank)[|items|] == items[|items| - 1]
  {
  }

  lemma AddPreservesShape(items: seq<RepairItem>)
    ensures WellFormed(items) ==> WellFormed(InsertBeforeLast(items, Blank))
  {
    if WellFormed(items) {
      AddKeepsLabourLast(items);
    }
  }

  /** A blank item has no amount, so adding it leaves the total as it was. */
  lemma AddBlankKeepsTotal(items: seq<RepairItem>)
    ensures Total(InsertBeforeLast(items, Blank)) == Total(items)
  {
    var p := SpliceIndex(|items|);
    var a, b := items[..p], items[p..];
    assert items == a + b;
    assert InsertBeforeLast(items, Blank) == (a + [Blank]) + b;
    TotalAppend(a + [Blank], b);
    TotalAppend(a, [Blank]);
    TotalAppend(a, b);
    TotalSingleton(Blank);
    EmptyAmountIsZero();
  }

  // ---------------------------------------------------------------- remove

  /** Keeping every element whose index is not i. */
  function FilterOut(s: seq<RepairItem>, i: int): (r: seq<RepairItem>)
    ensures 0 <= i < |s| ==> r == s[..i] + s[i + 1..]
    ensures !(0 <= i < |s|) ==> r == s
  {
    if s == [] then []
    else
      var rest := FilterOut(s[1..], i - 1);
      assert 0 < i < |s| ==> s[1..][..i - 1] == s[1..i] && s[1..][i..] == s[i + 1..];
      if i == 0 then rest else [s[0]] + rest
  }

  /** Whether row i offers a remove button. */
  predicate RemoveOffered(items: seq<RepairItem>, i: int)
  {
    |items| > 2 && i != |items| - 1
  }

  /** `removeRepairItem(i)`: drop item i unless it is Labour or the list would go below two items. */
  function RemoveItem(items: seq<RepairItem>, i: int): (r: seq<RepairItem>)
    ensures RemoveOffered(items, i) && 0 <= i < |items| ==> r == items[..i] + items[i + 1..]
    ensures !(RemoveOffered(items, i) && 0 <= i < |items|) ==> r == items
    ensures |items| >= 2 ==> |r| >= 2
    ensures items != [] ==> r != [] && r[|r| - 1] == items[|items| - 1]
  {
    if RemoveOffered(items, i) then FilterOut(items, i) else items
  }

  lemma RemoveKeepsWellFormed(items: seq<RepairItem>, i: int)
    requires WellFormed(items)
    ensures WellFormed(RemoveItem(items, i))
  {
  }

  /** The remove button is shown on exactly the rows where pressing it changes the list. */
  lemma RemoveOfferedIffEffective(items: seq<RepairItem>, i: nat)
    requires i < |items|
    ensures RemoveOffered(items, i) <==> RemoveItem(items, i) != items
  {
    if RemoveOffered(items, i) {
      assert |RemoveItem(items, i)| == |items| - 1;
    }
  }

  /** Dropping item i takes exactly its amount off the total. */
  lemma TotalWithout(items: seq<RepairItem>, i: nat)
    requires i < |items|
    ensures Total(items[..i] + items[i + 1..]) + AmountOf(items[i].amount) == Total(items)
  {
    Decompose(items, i);
    TotalSplit(items[..i], items[i], items[i + 1..]);
    TotalAppend(items[..i], items[i + 1..]);
  }

  /** Removing an item lowers the total by that item's amount; a refused removal changes nothing. */
  lemma RemoveLowersTotal(items: seq<RepairItem>, i: int)
    ensures RemoveOffered(items, i) && 0 <= i < |items| ==>
      Total(RemoveItem(items, i)) + AmountOf(items[i].amount) == Total(items)
    ensures !(RemoveOffered(items, i) && 0 <= i < |items|) ==> Total(RemoveItem(items, i)) == Total(items)
  {
    if RemoveOffered(items, i) && 0 <= i < |items| {
      TotalWithout(items, i);
    }
  }

  // ---------------------------------------------------------------- the form record

  /** The editor's form record; every value is the text of an input. */
  datatype InvoiceFormData = InvoiceFormData(
    customerName: string,
    customerPhone: string,
    carModel: string,
    vehicleRegNumber: string,
    repairType: string,
    description: string,
    invoiceDate: string,
    totalAmount: string)

  /** The keys of the form record, by their `name` attribute. */
  datatype FormKey =
    | CustomerNameKey | CustomerPhoneKey | CarModelKey | VehicleRegNumberKey
    | RepairTypeKey | DescriptionKey | InvoiceDateKey | TotalAmountKey

  function FormValue(form: InvoiceFormData, key: FormKey): string
  {
    match key
    case CustomerNameKey => form.customerName
    case CustomerPhoneKey => form.customerPhone
    case CarModelKey => form.carModel
    case VehicleRegNumberKey => form.vehicleRegNumber
    case RepairTypeKey => form.repairType
    case DescriptionKey => form.description
    case InvoiceDateKey => form.invoiceDate
    case TotalAmountKey => form.totalAmount
  }

  /** `handleInputChange`: the record with the named key replaced. */
  function SetFormValue(form: InvoiceFormData, key: FormKey, v: string): (r: InvoiceFormData)
    ensures FormValue(r, key) == v
    ensures forall k :: k != key ==> FormValue(r, k) == FormValue(form, k)
  {
    match key
    case CustomerNameKey => form.(customerName := v)
    case CustomerPhoneKey => form.(customerPhone := v)
    case CarModelKey => form.(carModel := v)
    case VehicleRegNumberKey => form.(vehicleRegNumber := v)
    case RepairTypeKey => form.(repairType := v)
    case DescriptionKey => form.(description := v)
    case InvoiceDateKey => form.(invoiceDate := v)
    case TotalAmountKey => form.(totalAmount := v)
  }

  /** The intake quote the editor may be opened from (its `Quote` interface). */
  datatype QuoteSeed = QuoteSeed(
    id: string, name: string, phone: string, carModel: string, status: string,
    images: Option<seq<string>>, damageDescription: Option<string>)

  /** The form's first value: the quote's customer details, or empty fields; `today` is the current date. */
  function InitialForm(quote: Option<QuoteSeed>, today: string): (r: InvoiceFormData)
    ensures r.vehicleRegNumber == "" && r.repairType == "" && r.totalAmount == "" && r.invoiceDate == today
    ensures quote.None? ==> r.customerName == "" && r.customerPhone == "" && r.carModel == "" && r.description == ""
    ensures quote.Some? ==>
      && r.customerName == quote.value.name && r.customerPhone == quote.value.phone
      && r.carModel == quote.value.carModel
      && r.description == quote.value.damageDescription.GetOr("")
  {
    match quote
    case None => InvoiceFormData("", "", "", "", "", "", today, "")
    case Some(q) => InvoiceFormData(q.name, q.phone, q.carModel, "", "", q.damageDescription.GetOr(""), today, "")
  }

  // ---------------------------------------------------------------- the submitted payload

  /** The body posted to create the document. */
  datatype Payload = Payload(
    quoteId: Option<string>,
    customerName: string,
    customerPhone: string,
    carModel: string,
    vehicleRegNumber: string,
    repairType: string,
    description: string,
    invoiceDate: string,
    totalAmount: nat,
    repairItems: seq<RepairItem>,
    documentType: DocKind)

  /** One description segment: the item's type, a colon and a space, its description. */
  function Segment(item: RepairItem): string
  {
    item.repairType + ": " + item.description
  }

  function Segments(items: seq<RepairItem>): (r: seq<string>)
    ensures |r| == |items|
    ensures forall i :: 0 <= i < |items| ==> r[i] == Segment(items[i])
  {
    if items == [] then [] else [Segment(items[0])] + Segments(items[1..])
  }

  /**
   * The payload of `handleSubmit`: the form's fields, with `repair_type`,
   * `description` and `total_amount` replaced by values derived from the items.
   */
  function BuildPayload(quoteId: Option<string>, form: InvoiceFormData, items: seq<RepairItem>, kind: DocKind): (r: Payload)
    requires |items| > 0
    ensures r.quoteId == quoteId && r.documentType == kind && r.repairItems == items
    ensures r.customerName == form.customerName && r.customerPhone == form.customerPhone
    ensures r.carModel == form.carModel && r.vehicleRegNumber == form.vehicleRegNumber
    ensures r.invoiceDate == form.invoiceDate
  {
    Payload(
      quoteId, form.customerName, form.customerPhone, form.carModel, form.vehicleRegNumber,
      if |items| > 2 then "Multiple" else items[0].repairType,
      Join(Segments(items), "; "),
      form.invoiceDate,
      Total(items),
      items, kind)
  }

  /**
   * When the first item's type came from the drop-down (none of whose options
   * is "Multiple"), the payload says "Multiple" exactly when the list holds
   * more than two items; otherwise it names the first item's type.
   */
  lemma PayloadRepairType(quoteId: Option<string>, form: InvoiceFormData, items: seq<RepairItem>, kind: DocKind)
    requires |items| > 0 && items[0].repairType in RepairTypeOptions
    ensures BuildPayload(quoteId, form, items, kind).repairType == "Multiple" <==> |items| > 2
    ensures |items| <= 2 ==> BuildPayload(quoteId, form, items, kind).repairType == items[0].repairType
  {
  }

  /**
   * The description lists one "type: description" segment per item, in
   * order: splitting it at "; " gives the segments back whenever no item
   * text contains ';'.
   */
  lemma PayloadDescriptionLists(quoteId: Option<string>, form: InvoiceFormData, items: seq<RepairItem>, kind: DocKind)
    requires |items| > 0
    requires forall i :: 0 <= i < |items| ==> ';' !in items[i].repairType && ';' !in items[i].description
    ensures Split(BuildPayload(quoteId, form, items, kind).description) == Segments(items)
    ensures forall i :: 0 <= i < |items| ==>
      Split(BuildPayload(quoteId, form, items, kind).description)[i] == items[i].repairType + ": " + items[i].description
  {
    var segs := Segments(items);
    forall i | 0 <= i < |segs| ensures ';' !in segs[i] {
      SegmentHasNoSemicolon(items[i]);
    }
    SplitJoin(segs);
  }

  lemma SegmentHasNoSemicolon(item: RepairItem)
    requires ';' !in item.repairType && ';' !in item.description
    ensures ';' !in Segment(item)
  {
    var s := Segment(item);
    forall k | 0 <= k < |s| ensures s[k] != ';' {
      if k < |item.repairType| {
        assert s[k] == item.repairType[k];
      } else if k >= |item.repairType| + 2 {
        assert s[k] == item.description[k - |item.repairType| - 2];
      }
    }
  }

  /** The posted total is the sum of the parsed amounts. */
  lemma PayloadTotalIsSum(quoteId: Option<string>, form: InvoiceFormData, items: seq<RepairItem>, kind: DocKind)
    requires |items| > 0
    ensures BuildPayload(quoteId, form, items, kind).totalAmount == SumAmounts(items)
  {
    TotalIsSumOfAmounts(items);
  }

  /** The heading word and the submit button's label. */
  function KindLabel(k: DocKind): (r: string)
    ensures r == Capitalize(KindName(k))
  {
    if k == QuoteKind then "Quote" else "Invoice"
  }

  function SubmitLabel(k: DocKind, isLoading: bool): (r: string)
    ensures isLoading ==> r == "Creating..."
    ensures !isLoading ==> r == "Generate " + Capitalize(KindName(k))
  {
    if isLoading then "Creating..." else "Generate " + KindLabel(k)
  }

  /** The amount part of the "Total: R …" line reads back as the total. */
  lemma TotalLineReadsBack(items: seq<RepairItem>)
    ensures ParseAmount(FormatCents(Total(items))) == Some(Total(items))
  {
    ParseFormatRoundTrip(Total(items));
  }

  // ---------------------------------------------------------------- the editor's state

  /** The component's state: document kind, form record, item list and loading flag. */
  class NewInvoiceForm {
    var documentType: DocKind
    var form: InvoiceFormData
    var repairItems: seq<RepairItem>
    var isLoading: bool

    ghost predicate Valid()
      reads this
    {
      WellFormed(repairItems)
    }

    constructor (quote: Option<QuoteSeed>, today: string)
      ensures Valid()
      ensures documentType == InvoiceKind && !isLoading
      ensures form == InitialForm(quote, today)
      ensures repairItems == InitialItems()
    {
      documentType := InvoiceKind;
      form := InitialForm(quote, today);
      repairItems := [Blank, Labour];
      isLoading := false;
    }

    method SetDocumentType(k: DocKind)
      modifies this`documentType
      ensures documentType == k
    {
      documentType := k;
    }

    /** `handleInputChange`. */
    method ChangeInput(key: FormKey, v: string)
      modifies this`form
      ensures form == SetFormValue(old(form), key, v)
    {
      form := SetFormValue(form, key, v);
    }

    /** `handleRepairItemChange`: copy the list and assign one item by index. */
    method ChangeRepairItem(i: nat, f: ItemField, v: string)
      requires i < |repairItems|
      modifies this`repairItems
      ensures repairItems == ChangeItem(old(repairItems), i, f, v)
      ensures old(Valid()) && ControlEnabled(old(repairItems), i, f) ==> Valid()
    {
      var newItems := repairItems;
      newItems := newItems[i := WithField(newItems[i], f, v)];
      repairItems := newItems;
      if old(Valid()) && ControlEnabled(old(repairItems), i, f) {
        EnabledChangeKeepsWellFormed(old(repairItems), i, f, v);
      }
    }

    /** `addRepairItem`: splice a blank item in just before Labour. */
    method AddRepairItem()
      modifies this`repairItems
      ensures old(Valid()) ==> Valid()
      ensures repairItems == InsertBeforeLast(old(repairItems), Blank)
      ensures CalculateTotal() == old(CalculateTotal())
    {
      var oldItems := repairItems;
      var p := SpliceIndex(|oldItems|);
      var newItems := oldItems[..p] + [Blank] + oldItems[p..];
      assert newItems == InsertBeforeLast(oldItems, Blank);
      AddBlankKeepsTotal(oldItems);
      AddPreservesShape(oldItems);
      repairItems := newItems;
    }

    /** `removeRepairItem`. */
    method RemoveRepairItem(i: int)
      modifies this`repairItems
      ensures old(Valid()) ==> Valid()
      ensures repairItems == RemoveItem(old(repairItems), i)
    {
      if |repairItems| > 2 && i != |repairItems| - 1 {
        repairItems := FilterOut(repairItems, i);
      }
    }

    /** `calculateTotal`. */
    function CalculateTotal(): (r: nat)
      reads this
      ensures r == SumAmounts(repairItems)
    {
      TotalIsSumOfAmounts(repairItems);
      Total(repairItems)
    }

    /** The body `handleSubmit` posts. */
    function SubmissionPayload(quoteId: Option<string>): (r: Payload)
      reads this
      requires Valid()
      ensures r.totalAmount == CalculateTotal() && r.repairItems == repairItems
      ensures r.documentType == documentType
    {
      BuildPayload(quoteId, form, repairItems, documentType)
    }
  }
}
