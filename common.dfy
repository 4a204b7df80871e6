/** Values shared by several screens of the back-office. */
module Common {

  datatype Option<+T> = None | Some(value: T) {
    /** `x || fallback` for a value that is either present or missing. */
    function GetOr(default: T): T {
      match this
      case Some(v) => v
      case None => default
    }
  }

  /** The two kinds of document the back-office produces ('invoice' | 'quote'). */
  datatype DocKind = InvoiceKind | QuoteKind

  /** The wire spelling of a document kind. */
  function KindName(k: DocKind): (r: string)
    ensures |r| > 0
  {
    match k
    case InvoiceKind => "invoice"
    case QuoteKind => "quote"
  }

  /**
   * What reading the stored login and its token yields: nothing stored,
   * something stored whose token is missing, empty or unreadable
   * (`Unreadable`), or a non-empty token (`HasToken`).
   */
  datatype StoredAuth = Missing | Unreadable | HasToken(token: Token)

  /** A token the pages accept: `if (!token)` rejects the empty string. */
  type Token = s: string | s != "" witness "token"

  /** The three Tailwind colour pairs a status badge can take. */
  datatype Badge =
    | Green   // bg-green-100 text-green-800
    | Blue    // bg-blue-100 text-blue-800
    | Yellow  // bg-yellow-100 text-yellow-800
}
