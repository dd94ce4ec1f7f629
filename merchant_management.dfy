/**
 * The administrator's merchant list (src/views/MerchantManagement.tsx):
 * server-paginated, sortable, refreshed after the merchant dialog saves.
 */
module MerchantManagement {
  import opened Outcomes
  import opened MerchantModal

  datatype SortDirection = Asc | Desc

  /** One row of the list, as the server sends it. */
  datatype Merchant = Merchant(
    id: int, username: string, email: string, name: string,
    status: MerchantStatus, totalTransactionSum: real)

  /** The payload of `GET /merchant`. */
  datatype MerchantPage = MerchantPage(merchants: seq<Merchant>, totalPages: int)

  /** The query parameters of `GET /merchant`. */
  datatype ListQuery = ListQuery(pageNumber: int, pageSize: int, sortColumn: string, sortDirection: SortDirection)

  /** The active sort column and its direction. */
  datatype SortState = SortState(column: string, direction: SortDirection)

  /** The pager's two buttons. */
  datatype PagerButton = Previous | Next

  const InitialPageSize: int := 10
  const InitialSortColumn: string := "id"

  /** The other direction. */
  function Flip(d: SortDirection): (r: SortDirection)
    ensures r != d
  {
    if d == Asc then Desc else Asc
  }

  /**
   * `handleSort`: the active column flips its direction; another column
   * becomes active, ascending.  Either way the sort state changes, so every
   * click on a header triggers a new fetch.
   */
  function ToggleSort(s: SortState, column: string): (r: SortState)
    ensures r.column == column
    ensures column == s.column ==> r.direction != s.direction
    ensures column != s.column ==> r.direction == Asc
    ensures r != s
  {
    if column == s.column then SortState(column, Flip(s.direction)) else SortState(column, Asc)
  }

  /** The result of clicking the headers in `columns`, in order. */
  function ToggleAll(s: SortState, columns: seq<string>): SortState
    decreases |columns|
  {
    if columns == [] then s else ToggleAll(ToggleSort(s, columns[0]), columns[1..])
  }

  /** A sequence of `n` clicks on one column. */
  function Repeat<T>(x: T, n: nat): (r: seq<T>)
    ensures |r| == n && forall i :: 0 <= i < n ==> r[i] == x
  {
    if n == 0 then [] else [x] + Repeat(x, n - 1)
  }

  /**
   * Clicking the active column `n` times leaves it active, with its original
   * direction when `n` is even and the other one when `n` is odd.
   */
  lemma {:induction false} ToggleActiveColumn(s: SortState, n: nat)
    ensures ToggleAll(s, Repeat(s.column, n)) ==
              if n % 2 == 0 then s else SortState(s.column, Flip(s.direction))
    decreases n
  {
    if n > 0 {
      var once := ToggleSort(s, s.column);
      assert Repeat(s.column, n)[1..] == Repeat(once.column, n - 1);
      ToggleActiveColumn(once, n - 1);
    }
  }

  /** The Previous button is disabled exactly on the first page. */
  predicate PreviousEnabled(page: int)
  {
    page != 0
  }

  /** The Next button is disabled exactly on page `totalPages - 1`: an equality, not a bound. */
  predicate NextEnabled(page: int, totalPages: int)
  {
    page != totalPages - 1
  }

  /** A page index that the server's page count admits. */
  predicate PageInRange(page: int, totalPages: int)
  {
    0 <= page < totalPages
  }

  /**
   * The page after a click on a pager button: a disabled button does
   * nothing; an enabled one calls `handlePageChange` with the neighbouring page.
   */
  function Press(page: int, totalPages: int, b: PagerButton): (r: int)
    ensures PageInRange(page, totalPages) ==> PageInRange(r, totalPages)
    ensures b == Previous ==> r == if PreviousEnabled(page) then page - 1 else page
    ensures b == Next ==> r == if NextEnabled(page, totalPages) then page + 1 else page
  {
    match b
    case Previous => if PreviousEnabled(page) then page - 1 else page
    case Next => if NextEnabled(page, totalPages) then page + 1 else page
  }

  /** The page after a series of pager clicks while the page count stays put. */
  function PressAll(page: int, totalPages: int, buttons: seq<PagerButton>): int
    decreases |buttons|
  {
    if buttons == [] then page else PressAll(Press(page, totalPages, buttons[0]), totalPages, buttons[1..])
  }

  /** From a page in range, no series of pager clicks leaves the range. */
  lemma {:induction false} PressesStayInRange(page: int, totalPages: int, buttons: seq<PagerButton>)
    requires PageInRange(page, totalPages)
    ensures PageInRange(PressAll(page, totalPages, buttons), totalPages)
    decreases |buttons|
  {
    if buttons != [] {
      PressesStayInRange(Press(page, totalPages, buttons[0]), totalPages, buttons[1..]);
    }
  }

  /**
   * With a page count of 0 (the initial value, and what an empty listing
   * reports) the Next button is never disabled on a page from 0 up, so `n`
   * clicks walk `n` pages past any page that exists.
   */
  lemma {:induction false} NextRunsAwayWithoutPages(page: int, n: nat)
    requires page >= 0
    ensures PressAll(page, 0, Repeat(Next, n)) == page + n
    decreases n
  {
    if n > 0 {
      assert Repeat(Next, n)[1..] == Repeat(Next, n - 1);
      NextRunsAwayWithoutPages(page + 1, n - 1);
    }
  }

  /**
   * The list state after `fetchMerchants` resolves: a success replaces both
   * the rows and the page count, a failure keeps both.  The current page is
   * never adjusted, so a smaller page count can leave it out of range.
   */
  function AfterFetch(merchants: seq<Merchant>, totalPages: int, response: ApiResult<MerchantPage>): (r: MerchantPage)
    ensures response.Success? ==> r == response.payload
    ensures response.Failure? ==> r == MerchantPage(merchants, totalPages)
  {
    match response
    case Success(page) => page
    case Failure => MerchantPage(merchants, totalPages)
  }

  /**
   * A successful fetch reporting no more pages than the current page index
   * leaves that page out of range, whatever the rows and the old page count:
   * the page is not clamped.  A failed fetch never changes whether the page
   * is in range.
   */
  lemma FewerPagesLeavePageOutOfRange(merchants: seq<Merchant>, totalPages: int, page: int,
                                      response: ApiResult<MerchantPage>)
    ensures response.Success? && response.payload.totalPages <= page ==>
              !PageInRange(page, AfterFetch(merchants, totalPages, response).totalPages)
    ensures response.Failure? ==>
              (PageInRange(page, AfterFetch(merchants, totalPages, response).totalPages) <==>
                 PageInRange(page, totalPages))
  {
  }

  /** The whole state of the screen's component. */
  datatype ListState = ListState(
    merchants: seq<Merchant>, currentPage: int, pageSize: int, totalPages: int,
    sortColumn: string, sortDirection: SortDirection,
    selectedMerchant: Option<Merchant>, showMerchantModal: bool, showTransactionModal: bool)

  /** The state of a freshly mounted screen. */
  const InitialState: ListState :=
    ListState([], 0, InitialPageSize, 0, InitialSortColumn, Asc, None, false, false)

  /** The mounted merchant management screen. */
  class MerchantList {
    var merchants: seq<Merchant>
    var currentPage: int
    var pageSize: int
    var totalPages: int
    var sortColumn: string
    var sortDirection: SortDirection
    var selectedMerchant: Option<Merchant>
    var showMerchantModal: bool
    var showTransactionModal: bool

    /** All fields at once. */
    function State(): ListState
      reads this
    {
      ListState(merchants, currentPage, pageSize, totalPages, sortColumn, sortDirection,
                selectedMerchant, showMerchantModal, showTransactionModal)
    }

    /** The query a fetch sends: it is read from the current state. */
    function Query(): (q: ListQuery)
      reads this
      ensures q.pageNumber == currentPage && q.pageSize == pageSize
      ensures q.sortColumn == sortColumn && q.sortDirection == sortDirection
    {
      ListQuery(currentPage, pageSize, sortColumn, sortDirection)
    }

    /** Mounting: page 0 of 0, ten rows per page, sorted by id ascending, no rows. */
    constructor ()
      ensures State() == InitialState
    {
      merchants, currentPage, pageSize, totalPages := [], 0, InitialPageSize, 0;
      sortColumn, sortDirection := InitialSortColumn, Asc;
      selectedMerchant, showMerchantModal, showTransactionModal := None, false, false;
    }

    /**
     * `fetchMerchants`, run by the effect whenever the query changes and
     * after a save: sends the current query and applies `response`.
     */
    method FetchMerchants(response: ApiResult<MerchantPage>) returns (sent: ListQuery)
      modifies this
      ensures sent == old(Query())
      ensures MerchantPage(merchants, totalPages) == AfterFetch(old(merchants), old(totalPages), response)
      ensures State() == old(State()).(merchants := merchants, totalPages := totalPages)
      ensures response.Success? && response.payload.totalPages <= old(currentPage) ==>
                currentPage == old(currentPage) && !PageInRange(currentPage, totalPages)
    {
      sent := Query();
      if response.Success? {
        merchants := response.payload.merchants;
        totalPages := response.payload.totalPages;
      }
    }

    /** `handleSort`: a click on a column header. */
    method HandleSort(column: string)
      modifies this
      ensures SortState(sortColumn, sortDirection) == ToggleSort(SortState(old(sortColumn), old(sortDirection)), column)
      ensures State() == old(State()).(sortColumn := sortColumn, sortDirection := sortDirection)
      ensures Query() != old(Query())
    {
      var toggled := ToggleSort(SortState(sortColumn, sortDirection), column);
      sortColumn, sortDirection := toggled.column, toggled.direction;
    }

    /** `handlePageChange`: sets the page to its argument, without any bounds check. */
    method HandlePageChange(newPage: int)
      modifies this
      ensures State() == old(State()).(currentPage := newPage)
    {
      currentPage := newPage;
    }

    /** A click on Previous or Next; a disabled button does nothing. */
    method PressButton(b: PagerButton)
      modifies this
      ensures currentPage == Press(old(currentPage), totalPages, b)
      ensures State() == old(State()).(currentPage := currentPage)
      ensures PageInRange(old(currentPage), totalPages) ==> PageInRange(currentPage, totalPages)
    {
      if b == Previous && PreviousEnabled(currentPage) {
        HandlePageChange(currentPage - 1);
      } else if b == Next && NextEnabled(currentPage, totalPages) {
        HandlePageChange(currentPage + 1);
      }
    }

    /** The "Add Merchant" button opens the dialog in create mode. */
    method OpenMerchantModal()
      modifies this
      ensures State() == old(State()).(showMerchantModal := true)
    {
      showMerchantModal := true;
    }

    /** The dialog's `onClose`. */
    method CloseMerchantModal()
      modifies this
      ensures State() == old(State()).(showMerchantModal := false)
    {
      showMerchantModal := false;
    }

    /**
     * The dialog's `onSave`: closes the dialog and fetches the current query
     * again; `response` is that fetch's outcome.
     */
    method OnMerchantSaved(response: ApiResult<MerchantPage>) returns (sent: ListQuery)
      modifies this
      ensures sent == old(Query())
      ensures MerchantPage(merchants, totalPages) == AfterFetch(old(merchants), old(totalPages), response)
      ensures State() == old(State()).(merchants := merchants, totalPages := totalPages, showMerchantModal := false)
    {
      showMerchantModal := false;
      sent := FetchMerchants(response);
    }

    /** `handleMerchantClick`: a click on a row opens that merchant's transactions. */
    method HandleMerchantClick(m: Merchant)
      modifies this
      ensures State() == old(State()).(selectedMerchant := Some(m), showTransactionModal := true)
    {
      selectedMerchant := Some(m);
      showTransactionModal := true;
    }

    /** The transaction dialog's `onClose`; the selection is kept. */
    method CloseTransactionModal()
      modifies this
      ensures State() == old(State()).(showTransactionModal := false)
    {
      showTransactionModal := false;
    }
  }

  /**
   * Saving from the dialog: a successful submit calls `onSave`, which closes
   * the dialog and refetches; a failed one leaves the list, the dialog and
   * its form as they were.
   */
  method SubmitFromList(list: MerchantList, dialog: MerchantDialog,
                        submitted: ApiResult<()>, refetched: ApiResult<MerchantPage>)
    returns (sent: MerchantRequest)
    requires dialog.merchant.None?
    modifies list
    ensures sent == SubmitRequest(dialog.merchant, dialog.formData)
    ensures submitted.Failure? ==> list.State() == old(list.State())
    ensures submitted.Success? ==>
              list.State() == old(list.State()).(merchants := list.merchants, totalPages := list.totalPages,
                                                 showMerchantModal := false) &&
              MerchantPage(list.merchants, list.totalPages) ==
                AfterFetch(old(list.merchants), old(list.totalPages), refetched)
  {
    var saved;
    sent, saved := dialog.HandleSubmit(submitted);
    if saved {
      var _ := list.OnMerchantSaved(refetched);
    }
  }
}
