/** A promise is modelled by the outcome it eventually settles to; scheduling and
    timing are not part of the model. */
module Promises {

  /** The terminal state of a promise. */
  datatype Outcome<+V, +E> = Fulfilled(value: V) | Rejected(reason: E)

  /** Anything that can be awaited: a promise, or a plain value, which
      `Promise.resolve` treats as already fulfilled with itself. */
  datatype Awaitable<+V, +E> = Plain(v: V) | Promise(outcome: Outcome<V, E>)

  /** `Promise.resolve(a)` followed by waiting for it to settle. */
  function Resolve<V, E>(a: Awaitable<V, E>): Outcome<V, E>
  {
    match a
    case Plain(v) => Fulfilled(v)
    case Promise(o) => o
  }

  /** `Promise.all`: fulfils with every value, in input order, when every input
      fulfils; otherwise rejects with a rejection reason of one of the inputs. */
  function All<V, E>(os: seq<Outcome<V, E>>): (r: Outcome<seq<V>, E>)
    ensures r.Fulfilled? <==> forall i :: 0 <= i < |os| ==> os[i].Fulfilled?
    ensures r.Fulfilled? ==> |r.value| == |os| && forall i :: 0 <= i < |os| ==> r.value[i] == os[i].value
    ensures r.Rejected? ==>
      exists i :: 0 <= i < |os| && os[i] == Rejected(r.reason) && forall j :: 0 <= j < i ==> os[j].Fulfilled?
    decreases |os|
  {
    if |os| == 0 then Fulfilled([])
    else
      match os[0]
      case Rejected(e) =>
        assert os[0] == Rejected(e);
        Rejected(e)
      case Fulfilled(v) =>
        match All(os[1..])
        case Rejected(e) =>
          ghost var k :| 0 <= k < |os[1..]| && os[1..][k] == Rejected(e) && forall j :: 0 <= j < k ==> os[1..][j].Fulfilled?;
          assert os[k + 1] == Rejected(e);
          Rejected(e)
        case Fulfilled(vs) => Fulfilled([v] + vs)
  }
}
