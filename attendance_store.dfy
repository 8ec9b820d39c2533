/**
 * The personal-attendance store: one page of the employee's attendance
 * records and the paging fields that describe it.
 */
module PersonalAttendance {
  import opened Wrappers
  import opened Http

  /** One attendance record, as the backend's PersonalDTO carries it.
      The work duration is kept as a whole number of minutes. */
  datatype PersonalDTO = PersonalDTO(
    attendanceId: int,
    workDate: string,
    state: string,
    startTime: string,
    endTime: string,
    workDuration: int,
    workSystemName: string)

  class AttendanceStore {
    var personalList: seq<PersonalDTO>
    var currentPage: int
    var pageSize: int
    var totalPages: int
    var totalCount: int
    var loading: bool

    /** The page on display, in the shape the server sends pages in. */
    function Shown(): PageResponse<PersonalDTO>
      reads this
    {
      PageResponse(personalList, currentPage, pageSize, totalCount, totalPages)
    }

    /** The initial state: first page, ten rows, nothing loaded. */
    constructor ()
      ensures Shown() == PageResponse([], 1, 10, 0, 0)
      ensures !loading
    {
      personalList := [];
      currentPage := 1;
      pageSize := 10;
      totalPages := 0;
      totalCount := 0;
      loading := false;
    }

    /** The `params` of `fetchPersonal(page)`: the page and the current page
        size, and no other parameter (the store has no filters). */
    method RequestParams(page: int) returns (params: Params)
      ensures QueryFor(params, page, pageSize, "", "", None)
    {
      params := map["page" := Number(page), "size" := Number(pageSize)];
    }

    /** `fetchPersonal(page)` up to its `await`. */
    method BeginFetch(page: int) returns (params: Params)
      modifies this
      ensures loading
      ensures QueryFor(params, page, pageSize, "", "", None)
      ensures Shown() == old(Shown())
    {
      loading := true;
      params := RequestParams(page);
    }

    /** `fetchPersonal` from its `await` on: a resolved reply overwrites the
        list and every paging field; a rejected one changes none of them
        and propagates. Loading is off either way. */
    method EndFetch(reply: Reply<PageResponse<PersonalDTO>>) returns (outcome: Completion)
      modifies this
      ensures !loading
      ensures reply.Resolved? ==> outcome == Fulfilled && Shown() == reply.value
      ensures reply.Rejected? ==> outcome == Failed(Http(reply.error)) && Shown() == old(Shown())
    {
      match reply {
        case Resolved(data) =>
          personalList := data.items;
          currentPage := data.page;
          pageSize := data.size;
          totalCount := data.totalCount;
          totalPages := data.totalPages;
          outcome := Fulfilled;
        case Rejected(e) =>
          outcome := Failed(Http(e));
      }
      loading := false;
    }

    /** `fetchPersonal(page = 1)`, the server answering with `reply`. */
    method FetchPersonal(reply: Reply<PageResponse<PersonalDTO>>, page: int := 1)
      returns (params: Params, outcome: Completion)
      modifies this
      ensures QueryFor(params, page, old(pageSize), "", "", None)
      ensures !loading
      ensures reply.Resolved? ==> outcome == Fulfilled && Shown() == reply.value
      ensures reply.Rejected? ==> outcome == Failed(Http(reply.error)) && Shown() == old(Shown())
    {
      params := BeginFetch(page);
      outcome := EndFetch(reply);
    }
  }
}
