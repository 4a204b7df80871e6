/**
 * The admin dashboard of incoming quote requests: each request carries one
 * of three statuses, changed from a drop-down; the local list is updated
 * only once the backend has accepted the change.
 */
module QuoteRequests {
  import opened Common
  import opened ListOps

  /** The three statuses a quote request can have. */
  datatype QuoteStatus = Pending | Contacted | Completed

  datatype Quote = Quote(
    id: string,
    name: string,
    phone: string,
    carModel: string,
    status: QuoteStatus,
    images: Option<seq<string>>,
    description: Option<string>)

  /** The drop-down's option values, in order. */
  const StatusOptionValues: seq<string> := ["Pending", "Contacted", "Completed"]

  function StatusName(s: QuoteStatus): string
  {
    match s
    case Pending => "Pending"
    case Contacted => "Contacted"
    case Completed => "Completed"
  }

  /** The status a drop-down value stands for, if any. */
  function StatusFromOption(value: string): (r: Option<QuoteStatus>)
    ensures r.Some? <==> value in StatusOptionValues
  {
    if value == "Pending" then Some(Pending)
    else if value == "Contacted" then Some(Contacted)
    else if value == "Completed" then Some(Completed)
    else None
  }

  /** The status set is exactly the drop-down's options, and reading an option back gives its status. */
  lemma StatusOptionsRoundTrip(s: QuoteStatus)
    ensures StatusName(s) in StatusOptionValues
    ensures StatusFromOption(StatusName(s)) == Some(s)
  {
  }

  lemma StatusOptionsCoverStatuses()
    ensures forall v :: v in StatusOptionValues ==> StatusFromOption(v).Some? && StatusName(StatusFromOption(v).value) == v
    ensures |StatusOptionValues| == 3
  {
  }

  /** The by-id update: every quote with this id gets the new status; nothing else changes. */
  function SetQuoteStatus(quotes: seq<Quote>, id: string, newStatus: QuoteStatus): (r: seq<Quote>)
    ensures |r| == |quotes|
    ensures forall i :: 0 <= i < |quotes| && quotes[i].id == id ==> r[i] == quotes[i].(status := newStatus)
    ensures forall i :: 0 <= i < |quotes| && quotes[i].id != id ==> r[i] == quotes[i]
  {
    MapWhere(quotes, (q: Quote) => q.id == id, (q: Quote) => q.(status := newStatus))
  }

  /** Choosing the status a quote already has changes nothing. */
  lemma SetCurrentStatusIsNoOp(quotes: seq<Quote>, id: string, st: QuoteStatus)
    requires forall i :: 0 <= i < |quotes| && quotes[i].id == id ==> quotes[i].status == st
    ensures SetQuoteStatus(quotes, id, st) == quotes
  {
    var r := SetQuoteStatus(quotes, id, st);
    assert forall i :: 0 <= i < |quotes| ==> r[i] == quotes[i];
  }

  /** `status === 'Completed'` green, `'Contacted'` blue, otherwise yellow. */
  function QuoteBadge(s: QuoteStatus): (r: Badge)
    ensures r == Green <==> s == Completed
    ensures r == Blue <==> s == Contacted
    ensures r == Yellow <==> s.Pending?
  {
    if s == Completed then Green else if s == Contacted then Blue else Yellow
  }

  /** `images?.length || 0`: the count in the "Images (n):" heading. */
  function ImageCount(q: Quote): (r: nat)
    ensures q.images.None? ==> r == 0
    ensures q.images.Some? ==> r == |q.images.value|
  {
    match q.images
    case None => 0
    case Some(imgs) => |imgs|
  }

  /** "No images uploaded" replaces the gallery exactly when the count is 0. */
  predicate ShowsNoImagesNotice(q: Quote)
  {
    q.images.None? || |q.images.value| == 0
  }

  lemma NoImagesNoticeIffCountZero(q: Quote)
    ensures ShowsNoImagesNotice(q) <==> ImageCount(q) == 0
  {
  }

  class AdminDashboardPage {
    var quotes: seq<Quote>

    constructor ()
      ensures quotes == []
    {
      quotes := [];
    }

    /** The fetched list replaces the local one. */
    method ReceiveQuotes(data: seq<Quote>)
      modifies this
      ensures quotes == data
    {
      quotes := data;
    }

    /**
     * `handleStatusChange`: read the stored token, send the PUT, and only
     * if it resolves (`backendOk`) map the new status over the list. The
     * returned text is the alert shown, if any.
     */
    method ChangeStatus(id: string, newStatus: QuoteStatus, auth: StoredAuth, backendOk: bool) returns (alert: Option<string>)
      modifies this
      ensures auth.HasToken? && backendOk ==> quotes == SetQuoteStatus(old(quotes), id, newStatus)
      ensures !(auth.HasToken? && backendOk) ==> quotes == old(quotes)
      ensures auth == Missing ==> alert == Some("Not authenticated")
      ensures auth == Unreadable ==> alert == Some("Invalid authentication")
      ensures auth.HasToken? ==> alert == if backendOk then None else Some("Failed to update status")
    {
      match auth
      case Missing => return Some("Not authenticated");
      case Unreadable => return Some("Invalid authentication");
      case HasToken(_) =>
        if backendOk {
          quotes := SetQuoteStatus(quotes, id, newStatus);
          alert := None;
        } else {
          alert := Some("Failed to update status");
        }
    }
  }
}
