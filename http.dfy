/**
 * What the stores exchange with the HTTP client: the query parameters
 * they send, the reply the awaited call settles with, and the page
 * envelope the paginated endpoints return.
 */
module Http {
  import opened Wrappers

  /** Why the HTTP client rejected a request. */
  datatype HttpError = NetworkError | StatusError(status: int)

  /** How the awaited HTTP call settled: resolved with a value, or
      rejected with an error. */
  datatype Reply<T> = Resolved(value: T) | Rejected(error: HttpError)

  /** An exception a store action can raise: the client's rejection, or a
      TypeError from reading a property of `null`/`undefined`. */
  datatype Thrown = Http(cause: HttpError) | TypeError

  /** How an async store action's promise settles. */
  datatype Completion = Fulfilled | Failed(thrown: Thrown)

  /** One query-string value; the stores send numbers and strings. */
  datatype ParamValue = Number(n: int) | Text(s: string)

  /** The `params` object handed to the HTTP client. */
  type Params = map<string, ParamValue>

  /** One page of a list, as the backend's PageResponse<T> carries it
      (the attendance endpoint's PersonalPageResponse has the same shape). */
  datatype PageResponse<T> = PageResponse(
    items: seq<T>,
    page: int,
    size: int,
    totalCount: int,
    totalPages: int)

  /** The query a paginated list fetch of page `page` sends: always the
      page and the page size, a date only when it is non-empty, the
      employee only when one is set, and nothing else. A store without
      date or employee filters is described with empty dates and no
      employee. */
  ghost predicate QueryFor(params: Params, page: int, size: int,
                           startDate: string, endDate: string, employeeId: Option<int>)
  {
    && "page" in params && params["page"] == Number(page)
    && "size" in params && params["size"] == Number(size)
    && ("startDate" in params <==> startDate != "")
    && (startDate != "" ==> params["startDate"] == Text(startDate))
    && ("endDate" in params <==> endDate != "")
    && (endDate != "" ==> params["endDate"] == Text(endDate))
    && ("employeeId" in params <==> employeeId.Some?)
    && (employeeId.Some? ==> params["employeeId"] == Number(employeeId.value))
    && params.Keys <= {"page", "size", "startDate", "endDate", "employeeId"}
  }

  /** The query is fully determined by the page, the size and the filters:
      two queries that both meet `QueryFor` are the same map. */
  lemma QueryDetermined(p: Params, q: Params, page: int, size: int,
                        startDate: string, endDate: string, employeeId: Option<int>)
    requires QueryFor(p, page, size, startDate, endDate, employeeId)
    requires QueryFor(q, page, size, startDate, endDate, employeeId)
    ensures p == q
  {
    assert p.Keys == q.Keys;
    forall k | k in p ensures p[k] == q[k] {
    }
  }

  /** Without filters the query has exactly the page and the size. */
  lemma UnfilteredQueryKeys(params: Params, page: int, size: int)
    requires QueryFor(params, page, size, "", "", None)
    ensures params.Keys == {"page", "size"}
  {
  }
}
