/**
 * The vacation-history store: one page of the signed-in employee's
 * vacation history, the paging fields that describe it, and the filters
 * the next request is built from.
 */
module VacationHistory {
  import opened Wrappers
  import opened Http

  /** One vacation taken, as the backend's VacationHistoryDTO carries it. */
  datatype VacationHistoryDTO = VacationHistoryDTO(
    startDate: string,
    endDate: string,
    vacationTypeName: string,
    reason: string,
    approvalStatus: string)

  class VacationHistoryStore {
    var vacationList: seq<VacationHistoryDTO>
    var currentPage: int
    var pageSize: int
    var totalPages: int
    var totalCount: int
    var startDate: string
    var endDate: string
    var employeeId: Option<int>
    var loading: bool

    /** The page on display, in the shape the server sends pages in. */
    function Shown(): PageResponse<VacationHistoryDTO>
      reads this
    {
      PageResponse(vacationList, currentPage, pageSize, totalCount, totalPages)
    }

    /** The initial state: first page, ten rows, nothing loaded, no
        filters. */
    constructor ()
      ensures Shown() == PageResponse([], 1, 10, 0, 0)
      ensures startDate == "" && endDate == "" && employeeId == None
      ensures !loading
    {
      vacationList := [];
      currentPage := 1;
      pageSize := 10;
      totalPages := 0;
      totalCount := 0;
      startDate := "";
      endDate := "";
      employeeId := None;
      loading := false;
    }

    /** `setFilterDates(start, end)`. */
    method SetFilterDates(start: string, end: string)
      modifies this
      ensures startDate == start && endDate == end
      ensures Shown() == old(Shown()) && employeeId == old(employeeId) && loading == old(loading)
    {
      startDate := start;
      endDate := end;
    }

    /** `setEmployeeId(employeeId)`; `None` is `null`. */
    method SetEmployeeId(id: Option<int>)
      modifies this
      ensures employeeId == id
      ensures Shown() == old(Shown()) && startDate == old(startDate) && endDate == old(endDate)
      ensures loading == old(loading)
    {
      employeeId := id;
    }

    /** `setPageSize(size)`: the size of the next request. */
    method SetPageSize(size: int)
      modifies this
      ensures pageSize == size
      ensures vacationList == old(vacationList) && currentPage == old(currentPage)
      ensures totalCount == old(totalCount) && totalPages == old(totalPages)
      ensures startDate == old(startDate) && endDate == old(endDate)
      ensures employeeId == old(employeeId) && loading == old(loading)
    {
      pageSize := size;
    }

    /** The `params` object `fetchVacationHistory(page)` assembles from the
        current page size and filters. */
    method RequestParams(page: int) returns (params: Params)
      ensures QueryFor(params, page, pageSize, startDate, endDate, employeeId)
    {
      params := map["page" := Number(page), "size" := Number(pageSize)];
      if startDate != "" {
        params := params["startDate" := Text(startDate)];
      }
      if endDate != "" {
        params := params["endDate" := Text(endDate)];
      }
      if employeeId.Some? {
        params := params["employeeId" := Number(employeeId.value)];
      }
    }

    /** `fetchVacationHistory(page)` up to its `await`: loading is on and
        the request is on its way with the returned query. */
    method BeginFetch(page: int) returns (params: Params)
      modifies this
      ensures loading
      ensures QueryFor(params, page, pageSize, startDate, endDate, employeeId)
      ensures Shown() == old(Shown())
      ensures startDate == old(startDate) && endDate == old(endDate) && employeeId == old(employeeId)
    {
      loading := true;
      params := RequestParams(page);
    }

    /** `fetchVacationHistory` from its `await` on: a resolved reply
        replaces the page on display with the server's page (its page and
        size win over the requested ones); a rejected one leaves it as it
        was and propagates. Loading is off either way. */
    method EndFetch(reply: Reply<PageResponse<VacationHistoryDTO>>) returns (outcome: Completion)
      modifies this
      ensures !loading
      ensures reply.Resolved? ==> outcome == Fulfilled && Shown() == reply.value
      ensures reply.Rejected? ==> outcome == Failed(Http(reply.error)) && Shown() == old(Shown())
      ensures startDate == old(startDate) && endDate == old(endDate) && employeeId == old(employeeId)
    {
      match reply {
        case Resolved(data) =>
          vacationList := data.items;
          currentPage := data.page;
          pageSize := data.size;
          totalCount := data.totalCount;
          totalPages := data.totalPages;
          outcome := Fulfilled;
        case Rejected(e) =>
          outcome := Failed(Http(e));
      }
      loading := false;
    }

    /** `fetchVacationHistory(page = 1)`, the server answering with
        `reply`. */
    method FetchVacationHistory(reply: Reply<PageResponse<VacationHistoryDTO>>, page: int := 1)
      returns (params: Params, outcome: Completion)
      modifies this
      ensures QueryFor(params, page, old(pageSize), old(startDate), old(endDate), old(employeeId))
      ensures !loading
      ensures reply.Resolved? ==> outcome == Fulfilled && Shown() == reply.value
      ensures reply.Rejected? ==> outcome == Failed(Http(reply.error)) && Shown() == old(Shown())
      ensures startDate == old(startDate) && endDate == old(endDate) && employeeId == old(employeeId)
    {
      params := BeginFetch(page);
      outcome := EndFetch(reply);
    }

    /** `resetFilters()`: the dates are cleared and the first page is
        fetched again, with the same employee and page size and without
        date parameters. */
    method ResetFilters(reply: Reply<PageResponse<VacationHistoryDTO>>)
      returns (params: Params, outcome: Completion)
      modifies this
      ensures startDate == "" && endDate == "" && employeeId == old(employeeId)
      ensures QueryFor(params, 1, old(pageSize), "", "", old(employeeId))
      ensures "startDate" !in params && "endDate" !in params
      ensures !loading
      ensures reply.Resolved? ==> outcome == Fulfilled && Shown() == reply.value
      ensures reply.Rejected? ==> outcome == Failed(Http(reply.error)) && Shown() == old(Shown())
    {
      startDate := "";
      endDate := "";
      params, outcome := FetchVacationHistory(reply, 1);
    }
  }
}
