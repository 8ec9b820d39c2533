/**
 * The organization store: the organization chart, one employee's
 * department and grade histories, and the loading flag and error message
 * of the chart.
 */
module Organization {
  import opened Wrappers
  import opened Js
  import opened Http

  /** What `loadOrganizationChart` puts in the chart for a response body:
      the envelope's payload when `success` and `data` are both truthy,
      else the body itself when it is a bare array, else an empty array.
      `None` when reading `data.success` throws (the body is `null` or
      `undefined`). */
  function ChartFrom(data: Json): (r: Option<Json>)
    ensures r.None? <==> Nullish(data)
    ensures r.Some? ==> IsArray(r.value) || (r.value == Prop(data, "data") && Truthy(r.value))
    ensures r.Some? && Truthy(Prop(data, "success")) && Truthy(Prop(data, "data")) ==>
      r.value == Prop(data, "data")
    ensures r.Some? && !IsArray(data) && !(Truthy(Prop(data, "success")) && Truthy(Prop(data, "data"))) ==>
      r.value == Arr([])
    ensures r.Some? && IsArray(data) ==> r.value == data
  {
    if Nullish(data) then None
    else if Truthy(Prop(data, "success")) && Truthy(Prop(data, "data")) then Some(Prop(data, "data"))
    else if IsArray(data) then Some(data)
    else Some(Arr([]))
  }

  /** What the history loaders put in their list for a response body: the
      payload when `success` and `data` are both truthy, else an empty
      array. `None` when reading `data.success` throws. */
  function HistoryFrom(data: Json): (r: Option<Json>)
    ensures r.None? <==> Nullish(data)
    ensures r.Some? ==> r.value == Arr([]) || (r.value == Prop(data, "data") && Truthy(r.value))
    ensures r.Some? && Truthy(Prop(data, "success")) && Truthy(Prop(data, "data")) ==>
      r.value == Prop(data, "data")
    ensures r.Some? && !(Truthy(Prop(data, "success")) && Truthy(Prop(data, "data"))) ==>
      r.value == Arr([])
  {
    if Nullish(data) then None
    else if Truthy(Prop(data, "success")) && Truthy(Prop(data, "data")) then Some(Prop(data, "data"))
    else Some(Arr([]))
  }

  /** A bare array is always taken as the chart: an array has no `success`
      property, so the envelope test cannot claim it. */
  lemma BareArrayChart(items: seq<Json>)
    ensures ChartFrom(Arr(items)) == Some(Arr(items))
  {
    assert Prop(Arr(items), "success") == Undefined;
  }

  /** The history loaders have no bare-array case: a non-empty array body
      empties the list, where the chart would have kept it. */
  lemma BareArrayHistory(items: seq<Json>)
    requires items != []
    ensures HistoryFrom(Arr(items)) == Some(Arr([]))
    ensures HistoryFrom(Arr(items)) != ChartFrom(Arr(items))
  {
    assert Prop(Arr(items), "success") == Undefined;
    BareArrayChart(items);
  }

  /** For an envelope body the chart and the history loaders agree. */
  lemma EnvelopeAgrees(data: Json)
    requires data.Obj?
    ensures ChartFrom(data) == HistoryFrom(data)
  {
  }

  /** The message shown when the chart cannot be loaded. */
  const ChartFailureMessage: string := "조직도 정보를 불러오는데 실패했습니다."

  class OrganizationStore {
    var organizationChart: Json
    var deptHistoryList: Json
    var gradeHistoryList: Json
    var isLoading: bool
    var error: Option<string>

    /** The initial state: three empty lists, not loading, no error. */
    constructor ()
      ensures organizationChart == Arr([]) && deptHistoryList == Arr([]) && gradeHistoryList == Arr([])
      ensures !isLoading && error == None
    {
      organizationChart := Arr([]);
      deptHistoryList := Arr([]);
      gradeHistoryList := Arr([]);
      isLoading := false;
      error := None;
    }

    /** `loadOrganizationChart()` up to its `await`: loading on, error
        cleared. */
    method BeginLoadOrganizationChart()
      modifies this
      ensures isLoading && error == None
      ensures organizationChart == old(organizationChart)
      ensures deptHistoryList == old(deptHistoryList) && gradeHistoryList == old(gradeHistoryList)
    {
      isLoading := true;
      error := None;
    }

    /** `loadOrganizationChart()` from its `await` on, the fetch settling
        with `reply` (the response body when it resolves). A usable body
        sets the chart; a rejected fetch, or a body whose `success` cannot
        be read, leaves the chart and sets the failure message. Nothing
        is rethrown; loading is off either way. */
    method EndLoadOrganizationChart(reply: Reply<Json>)
      modifies this
      ensures !isLoading
      ensures reply.Resolved? && ChartFrom(reply.value).Some? ==>
        organizationChart == ChartFrom(reply.value).value && error == old(error)
      ensures reply.Rejected? || ChartFrom(reply.value).None? ==>
        organizationChart == old(organizationChart) && error == Some(ChartFailureMessage)
      ensures deptHistoryList == old(deptHistoryList) && gradeHistoryList == old(gradeHistoryList)
    {
      match reply {
        case Resolved(data) =>
          var chart := ChartFrom(data);
          if chart.Some? {
            organizationChart := chart.value;
          } else {
            error := Some(ChartFailureMessage);
          }
        case Rejected(_) =>
          error := Some(ChartFailureMessage);
      }
      isLoading := false;
    }

    /** `loadOrganizationChart()`: afterwards the error is set exactly when
        the load failed. */
    method LoadOrganizationChart(reply: Reply<Json>)
      modifies this
      ensures !isLoading
      ensures reply.Resolved? && ChartFrom(reply.value).Some? ==>
        organizationChart == ChartFrom(reply.value).value && error == None
      ensures reply.Rejected? || ChartFrom(reply.value).None? ==>
        organizationChart == old(organizationChart) && error == Some(ChartFailureMessage)
      ensures deptHistoryList == old(deptHistoryList) && gradeHistoryList == old(gradeHistoryList)
    {
      BeginLoadOrganizationChart();
      EndLoadOrganizationChart(reply);
    }

    /** `loadDepartmentHistory(employeeId)`, the server answering the
        request for `employeeId` with `reply`. Only the department history
        can change; a failure is rethrown and changes nothing. */
    method LoadDepartmentHistory(employeeId: int, reply: Reply<Json>) returns (outcome: Completion)
      modifies this
      ensures reply.Resolved? && HistoryFrom(reply.value).Some? ==>
        outcome == Fulfilled && deptHistoryList == HistoryFrom(reply.value).value
      ensures reply.Resolved? && HistoryFrom(reply.value).None? ==>
        outcome == Failed(TypeError) && deptHistoryList == old(deptHistoryList)
      ensures reply.Rejected? ==>
        outcome == Failed(Http(reply.error)) && deptHistoryList == old(deptHistoryList)
      ensures organizationChart == old(organizationChart) && gradeHistoryList == old(gradeHistoryList)
      ensures isLoading == old(isLoading) && error == old(error)
    {
      match reply {
        case Resolved(data) =>
          var list := HistoryFrom(data);
          if list.Some? {
            deptHistoryList := list.value;
            outcome := Fulfilled;
          } else {
            outcome := Failed(TypeError);
          }
        case Rejected(e) =>
          outcome := Failed(Http(e));
      }
    }

    /** `loadGradeHistory(employeeId)`: as the department history, for the
        grade history. */
    method LoadGradeHistory(employeeId: int, reply: Reply<Json>) returns (outcome: Completion)
      modifies this
      ensures reply.Resolved? && HistoryFrom(reply.value).Some? ==>
        outcome == Fulfilled && gradeHistoryList == HistoryFrom(reply.value).value
      ensures reply.Resolved? && HistoryFrom(reply.value).None? ==>
        outcome == Failed(TypeError) && gradeHistoryList == old(gradeHistoryList)
      ensures reply.Rejected? ==>
        outcome == Failed(Http(reply.error)) && gradeHistoryList == old(gradeHistoryList)
      ensures organizationChart == old(organizationChart) && deptHistoryList == old(deptHistoryList)
      ensures isLoading == old(isLoading) && error == old(error)
    {
      match reply {
        case Resolved(data) =>
          var list := HistoryFrom(data);
          if list.Some? {
            gradeHistoryList := list.value;
            outcome := Fulfilled;
          } else {
            outcome := Failed(TypeError);
          }
        case Rejected(e) =>
          outcome := Failed(Http(e));
      }
    }
  }
}
