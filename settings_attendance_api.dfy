/**
 * The envelope adapter of the attendance-settings API: `unwrap` picks the
 * payload out of a response whose body may carry it under `data` or
 * under `result`, and `listWorkSystemTemplates` returns what it picks.
 */
module SettingsAttendanceApi {
  import opened Js
  import opened Http

  /** The response body, `res?.data`. */
  function Body(res: Json): Json {
    Prop(res, "data")
  }

  /** The first candidate that is not `undefined`, or `undefined` when all
      are: the reference definition of a priority selection. */
  function FirstDefined(candidates: seq<Json>): (r: Json)
    ensures r == Undefined <==> forall i | 0 <= i < |candidates| :: candidates[i] == Undefined
    ensures r != Undefined ==>
      exists i | 0 <= i < |candidates| ::
        candidates[i] == r && forall j | 0 <= j < i :: candidates[j] == Undefined
  {
    if |candidates| == 0 then Undefined
    else if candidates[0] != Undefined then candidates[0]
    else
      var r := FirstDefined(candidates[1..]);
      assert forall i | 1 <= i < |candidates| :: candidates[i] == candidates[1..][i - 1];
      r
  }

  /** `unwrap(res)`, with its three tests in the order the source makes
      them. The nested `body.data.data` test can never succeed (see
      NestedBranchUnreachable), so the payload is the first of `data` and
      `result` that is defined, and `undefined` when neither is. The
      diagnostic it logs on the last path is not modelled. */
  function Unwrap(res: Json): (r: Json)
    ensures r == FirstDefined([Prop(Body(res), "data"), Prop(Body(res), "result")])
    ensures Prop(Body(res), "data") != Undefined ==> r == Prop(Body(res), "data")
    ensures Prop(Body(res), "data") == Undefined ==> r == Prop(Body(res), "result")
    ensures r == Undefined <==>
      Prop(Body(res), "data") == Undefined && Prop(Body(res), "result") == Undefined
  {
    var body := Body(res);
    if Prop(body, "data") != Undefined then Prop(body, "data")
    else if Prop(body, "result") != Undefined then Prop(body, "result")
    else if Prop(Prop(body, "data"), "data") != Undefined then Prop(Prop(body, "data"), "data")
    else Undefined
  }

  /** The third test of `unwrap` is reached only when `body.data` is
      undefined, and then `body.data.data` is undefined too. */
  lemma NestedBranchUnreachable(res: Json)
    requires Prop(Body(res), "data") == Undefined
    requires Prop(Body(res), "result") == Undefined
    ensures Prop(Prop(Body(res), "data"), "data") == Undefined
  {
  }

  /** A doubly nested envelope `{data: {data: p}}` is unwrapped one level
      only: the result is `{data: p}`, never `p` itself. */
  lemma NestedEnvelopeUnwrapsOneLevel(p: Json)
    ensures Unwrap(Obj(map["data" := Obj(map["data" := Obj(map["data" := p])])]))
            == Obj(map["data" := p])
    ensures Unwrap(Obj(map["data" := Obj(map["data" := Obj(map["data" := p])])])) != p
  {
    var inner := Obj(map["data" := p]);
    assert Body(Obj(map["data" := Obj(map["data" := inner])])) == Obj(map["data" := inner]);
    assert inner != p;
  }

  /** A missing response, or one without a body, unwraps to `undefined`
      instead of throwing. */
  lemma UnwrapMissing(res: Json)
    requires Nullish(res) || Nullish(Body(res))
    ensures Unwrap(res) == Undefined
  {
  }

  /** `listWorkSystemTemplates()`: a rejected request propagates to the
      caller; a resolved one yields exactly what `unwrap` picks. */
  function ListWorkSystemTemplates(reply: Reply<Json>): (r: Reply<Json>)
    ensures r.Resolved? <==> reply.Resolved?
    ensures reply.Rejected? ==> r.error == reply.error
    ensures reply.Resolved? ==> r.value == Unwrap(reply.value)
  {
    match reply
    case Resolved(res) => Resolved(Unwrap(res))
    case Rejected(e) => Rejected(e)
  }
}
