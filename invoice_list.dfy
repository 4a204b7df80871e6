/**
 * The invoice management page: the list of generated documents, ten to a
 * page, with Previous/Next buttons and a status drop-down per row whose
 * change is applied to the local list before the backend is asked.
 */
module InvoiceList {
  import opened Common
  import opened ListOps

  datatype Invoice = Invoice(
    id: string,
    invoiceNumber: string,
    customerName: string,
    customerPhone: string,
    carModel: string,
    vehicleRegNumber: Option<string>,
    repairType: string,
    description: Option<string>,
    invoiceDate: string,
    subtotal: int,
    vatAmount: int,
    totalAmount: int,
    status: string,
    createdAt: string)

  const InvoicesPerPage: nat := 10

  /** The options of the status drop-down. */
  const StatusOptions: seq<string> := ["draft", "sent", "paid"]

  // ---------------------------------------------------------------- pagination

  /** The page count: n divided by ten, rounded up; the fewest pages of ten that hold n invoices. */
  function TotalPages(n: nat): (r: nat)
    ensures n <= r * InvoicesPerPage
    ensures r > 0 ==> (r - 1) * InvoicesPerPage < n
    ensures r == 0 <==> n == 0
  {
    (n + InvoicesPerPage - 1) / InvoicesPerPage
  }

  /** The index of a page's first row. */
  function StartIndex(page: int): int
  {
    (page - 1) * InvoicesPerPage
  }

  /** How `Array.prototype.slice` reads one bound: negative counts from the end, then clamp to [0, n]. */
  function SliceBound(x: int, n: nat): (r: nat)
    ensures r <= n
    ensures 0 <= x <= n ==> r == x
  {
    if x < 0 then (if n + x < 0 then 0 else n + x) else if x > n then n else x
  }

  /** JavaScript's `slice(start, end)` on a list. */
  function Slice<T>(s: seq<T>, start: int, end: int): (r: seq<T>)
    ensures |r| <= |s|
    ensures 0 <= start <= end <= |s| ==> r == s[start..end]
    ensures 0 <= end <= start ==> r == []
  {
    var a := SliceBound(start, |s|);
    var b := SliceBound(end, |s|);
    if a < b then s[a..b] else []
  }

  /** The rows shown on a page: a JavaScript slice of ten rows from the page's first index. */
  function PageItems(invoices: seq<Invoice>, page: int): (r: seq<Invoice>)
    ensures |r| <= InvoicesPerPage
  {
    Slice(invoices, StartIndex(page), StartIndex(page) + InvoicesPerPage)
  }

  function Min(a: int, b: int): int { if a < b then a else b }

  /** Page p (p >= 1) is the run of at most ten invoices starting at (p - 1) * 10. */
  lemma PageContents(invoices: seq<Invoice>, page: int)
    requires page >= 1
    ensures PageItems(invoices, page) ==
      invoices[Min(|invoices|, StartIndex(page))..Min(|invoices|, StartIndex(page) + InvoicesPerPage)]
  {
  }

  /** A page from 1 on shows something exactly when it is one of the TotalPages pages. */
  lemma PageNonEmptyIffInRange(invoices: seq<Invoice>, page: int)
    requires page >= 1
    ensures PageItems(invoices, page) != [] <==> page <= TotalPages(|invoices|)
  {
    PageContents(invoices, page);
  }

  /** The pages 1..k, one after the other. */
  function PagesUpTo(invoices: seq<Invoice>, k: nat): seq<Invoice>
  {
    if k == 0 then [] else PagesUpTo(invoices, k - 1) + PageItems(invoices, k)
  }

  lemma {:induction false} PagesUpToIsPrefix(invoices: seq<Invoice>, k: nat)
    ensures PagesUpTo(invoices, k) == invoices[..Min(|invoices|, k * InvoicesPerPage)]
  {
    if k > 0 {
      PagesUpToIsPrefix(invoices, k - 1);
      PageContents(invoices, k);
      var n := |invoices|;
      var a := Min(n, (k - 1) * InvoicesPerPage);
      var b := Min(n, k * InvoicesPerPage);
      assert StartIndex(k) == (k - 1) * InvoicesPerPage;
      assert StartIndex(k) + InvoicesPerPage == k * InvoicesPerPage;
      assert invoices[..a] + invoices[a..b] == invoices[..b];
    }
  }

  /** The pages 1..TotalPages partition the list: read in order they give back every invoice once. */
  lemma PagesPartitionList(invoices: seq<Invoice>)
    ensures PagesUpTo(invoices, TotalPages(|invoices|)) == invoices
  {
    PagesUpToIsPrefix(invoices, TotalPages(|invoices|));
    assert invoices[..|invoices|] == invoices;
  }

  /** The Previous button: `Math.max(prev - 1, 1)`. */
  function PrevPage(page: int): (r: int)
    ensures r >= 1
    ensures page > 1 ==> r == page - 1
    ensures page <= 1 ==> r == 1
  {
    if page - 1 > 1 then page - 1 else 1
  }

  /** The Next button: one page on, but no further than the page count. */
  function NextPage(page: int, totalPages: nat): (r: int)
    ensures r <= totalPages && r <= page + 1
    ensures page < totalPages ==> r == page + 1
    ensures page + 1 >= totalPages ==> r == totalPages
  {
    if page + 1 < totalPages then page + 1 else totalPages
  }

  predicate PrevDisabled(page: int) { page == 1 }

  predicate NextDisabled(page: int, totalPages: nat) { page == totalPages }

  /** `totalPages || 1`: the "of N" in "Page p of N". */
  function PageCountLabel(totalPages: nat): (r: nat)
    ensures r >= 1
    ensures totalPages > 0 ==> r == totalPages
  {
    if totalPages > 0 then totalPages else 1
  }

  /** Paging with Previous and Next from a page in 1..TotalPages stays in that range while there are rows. */
  lemma PagingStaysInRange(n: nat, page: int)
    requires n > 0 && 1 <= page <= TotalPages(n)
    ensures 1 <= PrevPage(page) <= TotalPages(n)
    ensures 1 <= NextPage(page, TotalPages(n)) <= TotalPages(n)
  {
  }

  /**
   * With no invoices (the state before the first fetch returns) the Next
   * button is enabled on page 1 and leads to page 0, labelled "Page 0 of 1";
   * page 0 shows no rows whatever the list holds afterwards.
   */
  lemma NextOnEmptyListLeavesPageZero(later: seq<Invoice>)
    ensures !NextDisabled(1, TotalPages(0))
    ensures NextPage(1, TotalPages(0)) == 0
    ensures PageCountLabel(TotalPages(0)) == 1
    ensures PageItems(later, 0) == []
  {
  }

  /** Next clamped at the displayed page count, so that it never leaves page 1 for page 0. */
  function NextPageClamped(page: int, totalPages: nat): (r: int)
    ensures r <= PageCountLabel(totalPages) && r <= page + 1
    ensures page >= 1 ==> r >= 1
    ensures page < PageCountLabel(totalPages) ==> r == page + 1
  {
    var last := PageCountLabel(totalPages);
    if page + 1 < last then page + 1 else last
  }

  /** Where there is at least one page the clamped Next and the code's Next agree. */
  lemma NextPageClampedAgrees(page: int, totalPages: nat)
    requires totalPages > 0
    ensures NextPageClamped(page, totalPages) == NextPage(page, totalPages)
  {
  }

  // ---------------------------------------------------------------- status

  /** The optimistic update: every invoice with this id gets the new status; nothing else changes. */
  function SetStatus(invoices: seq<Invoice>, id: string, newStatus: string): (r: seq<Invoice>)
    ensures |r| == |invoices|
    ensures forall i :: 0 <= i < |invoices| && invoices[i].id == id ==> r[i] == invoices[i].(status := newStatus)
    ensures forall i :: 0 <= i < |invoices| && invoices[i].id != id ==> r[i] == invoices[i]
  {
    MapWhere(invoices, (inv: Invoice) => inv.id == id, (inv: Invoice) => inv.(status := newStatus))
  }


  /** Of two successive choices for one id, the later one wins. */
  lemma SetStatusLastWins(invoices: seq<Invoice>, id: string, a: string, b: string)
    ensures SetStatus(SetStatus(invoices, id, a), id, b) == SetStatus(invoices, id, b)
  {
    var r := SetStatus(SetStatus(invoices, id, a), id, b);
    assert forall i :: 0 <= i < |invoices| ==> r[i] == SetStatus(invoices, id, b)[i];
  }

  /** The "revert on error" map as written: each matching invoice gets its own current status again. */
  function RevertStatusAsWritten(invoices: seq<Invoice>, id: string): (r: seq<Invoice>)
    ensures |r| == |invoices|
  {
    MapWhere(invoices, (inv: Invoice) => inv.id == id, (inv: Invoice) => inv.(status := inv.status))
  }

  /** That map is the identity, so after a failed update the optimistic status stays. */
  lemma RevertAsWrittenKeepsOptimisticStatus(invoices: seq<Invoice>, id: string, newStatus: string)
    ensures RevertStatusAsWritten(invoices, id) == invoices
    ensures RevertStatusAsWritten(SetStatus(invoices, id, newStatus), id) == SetStatus(invoices, id, newStatus)
  {
    MapWhereIdentity(invoices, (inv: Invoice) => inv.id == id, (inv: Invoice) => inv.(status := inv.status));
    var after := SetStatus(invoices, id, newStatus);
    MapWhereIdentity(after, (inv: Invoice) => inv.id == id, (inv: Invoice) => inv.(status := inv.status));
  }

  /** A concrete list on which the failed update is not rolled back. */
  lemma RevertAsWrittenDoesNotRollBack()
    ensures var before := [Invoice("1", "INV-1", "", "", "", None, "", None, "", 0, 0, 0, "draft", "")];
            RevertStatusAsWritten(SetStatus(before, "1", "paid"), "1") != before
  {
    var before := [Invoice("1", "INV-1", "", "", "", None, "", None, "", 0, 0, 0, "draft", "")];
    RevertAsWrittenKeepsOptimisticStatus(before, "1", "paid");
    assert SetStatus(before, "1", "paid")[0].status == "paid";
  }

  /** The rollback the page evidently intends: matching invoices take back the status they had before. */
  function RestoreStatus(before: seq<Invoice>, current: seq<Invoice>, id: string): (r: seq<Invoice>)
    requires |before| == |current|
    ensures |r| == |current|
    ensures forall i :: 0 <= i < |current| && current[i].id == id ==> r[i] == current[i].(status := before[i].status)
    ensures forall i :: 0 <= i < |current| && current[i].id != id ==> r[i] == current[i]
  {
    if current == [] then []
    else
      [if current[0].id == id then current[0].(status := before[0].status) else current[0]]
      + RestoreStatus(before[1..], current[1..], id)
  }

  /** Restoring after the optimistic update gives back exactly the list before it. */
  lemma RestoreUndoesSetStatus(invoices: seq<Invoice>, id: string, newStatus: string)
    ensures RestoreStatus(invoices, SetStatus(invoices, id, newStatus), id) == invoices
  {
    var r := RestoreStatus(invoices, SetStatus(invoices, id, newStatus), id);
    assert forall i :: 0 <= i < |invoices| ==> r[i] == invoices[i];
  }

  /** The drop-down's colour: paid is green, sent is blue, anything else yellow. */
  function StatusBadge(status: string): (r: Badge)
    ensures r == Green <==> status == "paid"
    ensures r == Blue <==> status == "sent"
    ensures r == Yellow <==> status != "paid" && status != "sent"
  {
    if status == "paid" then Green else if status == "sent" then Blue else Yellow
  }

  /** The three options of the drop-down are told apart by colour. */
  lemma StatusOptionsHaveDistinctBadges()
    ensures forall i, j :: 0 <= i < j < |StatusOptions| ==> StatusBadge(StatusOptions[i]) != StatusBadge(StatusOptions[j])
  {
    assert StatusBadge("draft") == Yellow;
  }

  // ---------------------------------------------------------------- the page's state

  class InvoiceManagementPage {
    var invoices: seq<Invoice>
    var currentPage: int

    constructor ()
      ensures invoices == [] && currentPage == 1
    {
      invoices := [];
      currentPage := 1;
    }

    /** The fetched list, or the empty list when the response has none. */
    method ReceiveInvoices(data: Option<seq<Invoice>>)
      modifies this`invoices
      ensures invoices == data.GetOr([])
    {
      invoices := data.GetOr([]);
    }

    function PageCount(): nat
      reads this
    {
      TotalPages(|invoices|)
    }

    /** The rows on the current page. */
    function Shown(): (r: seq<Invoice>)
      reads this
      ensures |r| <= InvoicesPerPage
    {
      PageItems(invoices, currentPage)
    }

    method Previous()
      modifies this`currentPage
      ensures currentPage == PrevPage(old(currentPage)) && currentPage >= 1
    {
      currentPage := PrevPage(currentPage);
    }

    method Next()
      modifies this`currentPage
      ensures currentPage == NextPage(old(currentPage), PageCount()) && currentPage <= PageCount()
    {
      currentPage := NextPage(currentPage, TotalPages(|invoices|));
    }

    /**
     * `handleStatusChange`: read the stored token, apply the new status to
     * the local list, ask the backend (`backendOk` is whether the call
     * resolved with status 'success'), and on failure run the "revert" map.
     * The returned text is the alert shown, if any.
     */
    method ChangeStatus(id: string, newStatus: string, auth: StoredAuth, backendOk: bool) returns (alert: Option<string>)
      modifies this`invoices
      ensures auth.HasToken? ==> invoices == SetStatus(old(invoices), id, newStatus)
      ensures !auth.HasToken? ==> invoices == old(invoices)
      ensures auth == Missing ==> alert == Some("Not authenticated")
      ensures auth == Unreadable ==> alert == Some("Invalid authentication")
      ensures auth.HasToken? ==> alert == if backendOk then None else Some("Failed to update status. Please try again.")
    {
      match auth
      case Missing => return Some("Not authenticated");
      case Unreadable => return Some("Invalid authentication");
      case HasToken(_) =>
        invoices := SetStatus(invoices, id, newStatus);
        if backendOk {
          alert := None;
        } else {
          RevertAsWrittenKeepsOptimisticStatus(old(invoices), id, newStatus);
          invoices := RevertStatusAsWritten(invoices, id);
          alert := Some("Failed to update status. Please try again.");
        }
    }
  }
}
