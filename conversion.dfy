/**
 * The confirmation dialog shown before a document is converted from
 * invoice to quote or back: its wording, and which controls it offers
 * while the conversion is in flight.
 */
module Conversion {
  import opened Common
  import opened Text

  /** The kind a document is converted to: the other one. */
  function Toggle(k: DocKind): (r: DocKind)
    ensures r != k
  {
    if k == InvoiceKind then QuoteKind else InvoiceKind
  }

  /** Converting back returns the original kind. */
  lemma ToggleInvolution(k: DocKind)
    ensures Toggle(Toggle(k)) == k
  {
  }

  /** "Convert Invoice to Quote" / "Convert Quote to Invoice". */
  function Title(current: DocKind): string
  {
    "Convert " + Capitalize(KindName(current)) + " to " + Capitalize(KindName(Toggle(current)))
  }

  function Message(current: DocKind): string
  {
    "Are you sure you want to convert this " + KindName(current) + " to a " + KindName(Toggle(current)) + "?"
  }

  function Note(current: DocKind): string
  {
    "This will create a new " + KindName(Toggle(current)) + " based on the current " + KindName(current)
      + ". The original " + KindName(current) + " will remain unchanged."
  }

  /** The two titles the dialog can show. */
  lemma TitleWording()
    ensures Title(InvoiceKind) == "Convert Invoice to Quote"
    ensures Title(QuoteKind) == "Convert Quote to Invoice"
  {
    CapitalizedKindWords();
    assert Capitalize(KindName(InvoiceKind)) == "Invoice" && Capitalize(KindName(QuoteKind)) == "Quote";
    assert "Convert " + "Invoice" + " to " + "Quote" == "Convert Invoice to Quote";
    assert "Convert " + "Quote" + " to " + "Invoice" == "Convert Quote to Invoice";
  }

  /** Titles of the two directions differ, so the title says which way the conversion goes. */
  lemma TitleNamesDirection(a: DocKind, b: DocKind)
    requires a != b
    ensures Title(a) != Title(b)
  {
    TitleWording();
  }

  lemma MessageWording()
    ensures Message(InvoiceKind) == "Are you sure you want to convert this invoice to a quote?"
    ensures Message(QuoteKind) == "Are you sure you want to convert this quote to a invoice?"
  {
  }

  /** What the dialog shows when open. */
  datatype DialogView = DialogView(
    title: string,
    subtitle: string,
    message: string,
    note: string,
    closeDisabled: bool,
    cancelDisabled: bool,
    confirmDisabled: bool,
    confirmLabel: string)

  /** Nothing when closed; while loading every control is disabled and the button reads "Converting...". */
  function Render(isOpen: bool, current: DocKind, documentNumber: string, isLoading: bool): (r: Option<DialogView>)
    ensures r.None? <==> !isOpen
    ensures r.Some? ==> r.value.closeDisabled == isLoading && r.value.cancelDisabled == isLoading
                        && r.value.confirmDisabled == isLoading
    ensures r.Some? ==> r.value.confirmLabel == if isLoading then "Converting..." else "Convert"
    ensures r.Some? ==> r.value.title == Title(current) && r.value.subtitle == documentNumber
                        && r.value.message == Message(current)
  {
    if !isOpen then None
    else
      Some(DialogView(
        Title(current), documentNumber, Message(current), Note(current),
        isLoading, isLoading, isLoading,
        if isLoading then "Converting..." else "Convert"))
  }
}
