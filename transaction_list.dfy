/**
 * The transaction table's state (components/transaction-list.tsx), without
 * its rendering: its own inline pagination at five rows per page, the delete
 * confirmation, and the edit dialog's open/close state.
 *
 * The `onDelete` and `onUpdate` props are recorded as call logs; what
 * `onUpdate` resolves to is an input.
 */
module TransactionList {
  import opened Model
  import Pagination
  import TransactionModal

  const PageSize: int := 5

  datatype Direction = Next | Previous

  /** paginationData: the page count, the slice bounds and the rows shown. */
  datatype PaginationData = PaginationData(totalPages: nat, startIndex: int, endIndex: int, rows: seq<Transaction>)

  /** The inline copy of the paging arithmetic; it agrees with the pagination hook at page size 5. */
  function PaginationFor(ts: seq<Transaction>, currentPage: int): (p: PaginationData)
    ensures p.totalPages == Pagination.PageCount(|ts|, PageSize)
    ensures p.endIndex - p.startIndex == PageSize && p.startIndex == (currentPage - 1) * PageSize
    ensures p.rows == Pagination.PageOf(ts, currentPage, PageSize)
    ensures currentPage >= 1 ==> |p.rows| <= PageSize
  {
    var totalPages := Pagination.CeilDiv(|ts|, PageSize);
    Pagination.CeilDivUnique(|ts|, PageSize, Pagination.PageCount(|ts|, PageSize));
    var startIndex := (currentPage - 1) * PageSize;
    var endIndex := startIndex + PageSize;
    PaginationData(totalPages, startIndex, endIndex, Pagination.Slice(ts, startIndex, endIndex))
  }

  /** More than one page exactly when there are more than five transactions. */
  lemma MultiplePagesIffOverPageSize(ts: seq<Transaction>, currentPage: int)
    ensures PaginationFor(ts, currentPage).totalPages > 1 <==> |ts| > PageSize
  {
    var p := Pagination.PageCount(|ts|, PageSize);
    if p > 1 {
      Pagination.MulLeMono(1, p - 1, PageSize);
    } else {
      Pagination.MulLeMono(p, 1, PageSize);
    }
  }

  /** What the update handler passes to `onUpdate`: the id and the edited record. */
  datatype UpdateCall = UpdateCall(id: string, record: TransactionModal.SubmitData)

  class TransactionListView {
    /** the `transactions` prop of the latest render */
    var transactions: seq<Transaction>
    /** whether the optional `onUpdate` prop was given */
    const hasOnUpdate: bool
    var deleteId: Option<string>
    var currentPage: int
    var isModalOpen: bool
    var editingTransaction: Option<Transaction>
    /** the ids passed to `onDelete`, in order */
    var deleteCalls: seq<string>
    /** the calls made to `onUpdate`, in order */
    var updateCalls: seq<UpdateCall>

    constructor (transactions: seq<Transaction>, hasOnUpdate: bool)
      ensures this.transactions == transactions && this.hasOnUpdate == hasOnUpdate
      ensures deleteId == None && currentPage == 1 && !isModalOpen && editingTransaction == None
      ensures deleteCalls == [] && updateCalls == []
      ensures PageInRange()
    {
      this.transactions := transactions;
      this.hasOnUpdate := hasOnUpdate;
      deleteId := None;
      currentPage := 1;
      isModalOpen := false;
      editingTransaction := None;
      deleteCalls := [];
      updateCalls := [];
    }

    function Paging(): PaginationData
      reads this
    {
      PaginationFor(transactions, currentPage)
    }

    /** The page shown exists (or is page 1 of an empty list). */
    predicate PageInRange()
      reads this
    {
      1 <= currentPage <= Pagination.Max(1, Paging().totalPages)
    }

    /** The page controls are rendered only when there is more than one page. */
    predicate ShowsPagination(): (b: bool)
      reads this
      ensures b <==> |transactions| > PageSize
    {
      MultiplePagesIffOverPageSize(transactions, currentPage);
      Paging().totalPages > 1
    }

    /** The empty-state card replaces the table when there are no transactions. */
    predicate ShowsEmptyState(): (b: bool)
      reads this
      ensures b <==> Paging().totalPages == 0 && Paging().rows == []
      ensures b ==> !ShowsPagination()
    {
      |transactions| == 0
    }

    /** A new render with another `transactions` prop; the local state is kept. */
    method ReceiveTransactions(ts: seq<Transaction>)
      modifies this`transactions
      ensures transactions == ts
    {
      transactions := ts;
    }

    method HandleDeleteClick(id: string)
      modifies this`deleteId
      ensures deleteId == Some(id)
    {
      deleteId := Some(id);
    }

    method HandleCancelDelete()
      modifies this`deleteId
      ensures deleteId == None
    {
      deleteId := None;
    }

    /**
     * handleConfirmDelete: with no pending id (absent or empty) nothing
     * happens; otherwise the id goes to `onDelete` once, the dialog closes,
     * and the page steps back if the deletion empties it.
     */
    method HandleConfirmDelete()
      modifies this`deleteCalls, this`deleteId, this`currentPage
      ensures old(deleteId).None? || old(deleteId).value == "" ==>
        deleteCalls == old(deleteCalls) && deleteId == old(deleteId) && currentPage == old(currentPage)
      ensures old(deleteId).Some? && old(deleteId).value != "" ==>
        && deleteCalls == old(deleteCalls) + [old(deleteId).value]
        && deleteId == None
        && currentPage == Pagination.AfterDeletion(old(currentPage), |transactions|, PageSize)
      ensures old(PageInRange()) && old(deleteId).Some? && old(deleteId).value != "" && |transactions| >= 1 ==>
        1 <= currentPage <= Pagination.Max(1, Pagination.PageCount(|transactions| - 1, PageSize))
    {
      if deleteId.None? || deleteId.value == "" {
        return;
      }
      deleteCalls := deleteCalls + [deleteId.value];
      deleteId := None;
      var newTotalPages := Pagination.CeilDiv(|transactions| - 1, PageSize);
      if currentPage > newTotalPages && newTotalPages > 0 {
        currentPage := newTotalPages;
      }
      if old(PageInRange()) && |transactions| >= 1 {
        Pagination.AfterDeletionInRange(old(currentPage), |transactions|, PageSize);
      }
    }

    /**
     * handleUpdateTransaction: a record without an id (absent or empty), or a
     * list without `onUpdate`, is ignored; otherwise `onUpdate` is called and
     * the dialog closes only if it reports success.
     */
    method HandleUpdateTransaction(record: TransactionModal.SubmitData, updateSucceeded: bool)
      modifies this`updateCalls, this`isModalOpen
      ensures record.id.None? || record.id.value == "" || !hasOnUpdate ==>
        updateCalls == old(updateCalls) && isModalOpen == old(isModalOpen)
      ensures record.id.Some? && record.id.value != "" && hasOnUpdate ==>
        && updateCalls == old(updateCalls) + [UpdateCall(record.id.value, record)]
        && isModalOpen == (old(isModalOpen) && !updateSucceeded)
    {
      if record.id.None? || record.id.value == "" || !hasOnUpdate {
        return;
      }
      updateCalls := updateCalls + [UpdateCall(record.id.value, record)];
      if updateSucceeded {
        isModalOpen := false;
      }
    }

    method HandleEditClick(t: Transaction)
      modifies this`editingTransaction, this`isModalOpen
      ensures editingTransaction == Some(t) && isModalOpen
    {
      editingTransaction := Some(t);
      isModalOpen := true;
    }

    method HandleCloseModal()
      modifies this`editingTransaction, this`isModalOpen
      ensures editingTransaction == None && !isModalOpen
    {
      isModalOpen := false;
      editingTransaction := None;
    }

    /** navigateToPage: one step, taken only if the target page exists. */
    method NavigateToPage(direction: Direction)
      modifies this`currentPage
      ensures currentPage == match direction
        case Next => if old(currentPage) < Paging().totalPages then old(currentPage) + 1 else old(currentPage)
        case Previous => if old(currentPage) > 1 then old(currentPage) - 1 else old(currentPage)
      ensures old(PageInRange()) ==> PageInRange()
    {
      var totalPages := Paging().totalPages;
      if direction == Next && currentPage < totalPages {
        currentPage := currentPage + 1;
      } else if direction == Previous && currentPage > 1 {
        currentPage := currentPage - 1;
      }
    }
  }
}
