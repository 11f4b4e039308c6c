/** The two aggregation helpers of lib/utils/helpers.js: `settle`, which waits
    for every pending operation and records each outcome as data, and
    `bifurcate`, a stable two-way partition driven by an (element, index)
    predicate. */
module Helpers {
  import opened Promises

  /** The record `settle` produces for one input: `{response: v}` or `{error: e}`. */
  datatype Record<+V, +E> = ResponseRecord(response: V) | ErrorRecord(error: E)

  /** One input after `.then(response => ({response}), error => ({error}))`:
      both branches fulfil, so a rejection becomes an error record. */
  function SettleOne<V, E>(a: Awaitable<V, E>): Outcome<Record<V, E>, E>
  {
    match Resolve(a)
    case Fulfilled(v) => Fulfilled(ResponseRecord(v))
    case Rejected(e) => Fulfilled(ErrorRecord(e))
  }

  /** `settle(promises)`: the combined promise never rejects, has one record per
      input, and record i reflects the outcome of input i (not completion order). */
  function Settle<V, E>(ps: seq<Awaitable<V, E>>): (r: Outcome<seq<Record<V, E>>, E>)
    ensures r.Fulfilled?
    ensures |r.value| == |ps|
    ensures forall i :: 0 <= i < |ps| ==>
      match Resolve(ps[i])
      case Fulfilled(v) => r.value[i] == ResponseRecord(v)
      case Rejected(e) => r.value[i] == ErrorRecord(e)
  {
    All(seq(|ps|, i requires 0 <= i < |ps| => SettleOne(ps[i])))
  }

  /** A plain (non-promise) input is settled as a response carrying itself. */
  lemma SettlePlainValue<V, E>(ps: seq<Awaitable<V, E>>, i: nat)
    requires i < |ps| && ps[i].Plain?
    ensures Settle(ps).value[i] == ResponseRecord(ps[i].v)
  {
  }

  /** Even when every input rejects, the settled list holds one error record per
      input, carrying that input's reason. */
  lemma SettleAllRejected<V, E>(ps: seq<Awaitable<V, E>>)
    requires forall i :: 0 <= i < |ps| ==> Resolve(ps[i]).Rejected?
    ensures Settle(ps).Fulfilled?
    ensures forall i :: 0 <= i < |ps| ==> Settle(ps).value[i] == ErrorRecord(Resolve(ps[i]).reason)
  {
  }

  /** The elements of `s` whose predicate, called with the element and its
      original index, equals `want`, in their original order. */
  function Select<T>(s: seq<T>, p: (T, nat) -> bool, want: bool): seq<T>
    decreases |s|
  {
    if |s| == 0 then []
    else
      var n := |s| - 1;
      Select(s[..n], p, want) + (if p(s[n], n) == want then [s[n]] else [])
  }

  /** The original indices of the elements `Select` keeps, in increasing order. */
  function Positions<T>(s: seq<T>, p: (T, nat) -> bool, want: bool): seq<nat>
    decreases |s|
  {
    if |s| == 0 then []
    else
      var n := |s| - 1;
      Positions(s[..n], p, want) + (if p(s[n], n) == want then [n] else [])
  }

  /** `bifurcate(arr, predicate)`: one left-to-right pass pushing each element into
      bucket 0 when the predicate holds for (element, index) and into bucket 1
      otherwise. The input is a value and is not modified. */
  method Bifurcate<T>(arr: seq<T>, p: (T, nat) -> bool) returns (matching: seq<T>, rest: seq<T>)
    ensures matching == Select(arr, p, true)
    ensures rest == Select(arr, p, false)
  {
    matching, rest := [], [];
    var i := 0;
    while i < |arr|
      invariant 0 <= i <= |arr|
      invariant matching == Select(arr[..i], p, true)
      invariant rest == Select(arr[..i], p, false)
    {
      assert arr[..i + 1][..i] == arr[..i];
      if p(arr[i], i) {
        matching := matching + [arr[i]];
      } else {
        rest := rest + [arr[i]];
      }
      i := i + 1;
    }
    assert arr[..|arr|] == arr;
  }

  /** The indices `Positions` lists lie within the input, strictly increase, and
      are exactly those whose predicate at that element and index gives `want`. */
  lemma {:induction false} PositionsExact<T>(s: seq<T>, p: (T, nat) -> bool, want: bool)
    ensures forall k :: 0 <= k < |Positions(s, p, want)| ==> Positions(s, p, want)[k] < |s|
    ensures forall k, l :: 0 <= k < l < |Positions(s, p, want)| ==>
      Positions(s, p, want)[k] < Positions(s, p, want)[l]
    ensures forall i :: 0 <= i < |s| ==> (i in Positions(s, p, want) <==> p(s[i], i) == want)
    decreases |s|
  {
    if |s| > 0 {
      var n := |s| - 1;
      var s' := s[..n];
      PositionsExact(s', p, want);
      var pos' := Positions(s', p, want);
      assert forall i :: 0 <= i < n ==> s'[i] == s[i];
      if p(s[n], n) == want {
        assert Positions(s, p, want) == pos' + [n];
      } else {
        assert Positions(s, p, want) == pos';
      }
    }
  }

  /** Each bucket is the input read at the indices `Positions` lists: it has one
      element per listed index, and its k-th element is the input element at
      the k-th listed index. */
  lemma {:induction false} SelectIsSubsequence<T>(s: seq<T>, p: (T, nat) -> bool, want: bool)
    ensures |Select(s, p, want)| == |Positions(s, p, want)|
    ensures forall k :: 0 <= k < |Positions(s, p, want)| ==>
      Positions(s, p, want)[k] < |s| && Select(s, p, want)[k] == s[Positions(s, p, want)[k]]
    decreases |s|
  {
    if |s| > 0 {
      var n := |s| - 1;
      var s' := s[..n];
      SelectIsSubsequence(s', p, want);
      var sel' := Select(s', p, want);
      var pos' := Positions(s', p, want);
      assert forall k :: 0 <= k < |pos'| ==> s'[pos'[k]] == s[pos'[k]];
      if p(s[n], n) == want {
        assert Select(s, p, want) == sel' + [s[n]];
        assert Positions(s, p, want) == pos' + [n];
      } else {
        assert Select(s, p, want) == sel';
        assert Positions(s, p, want) == pos';
      }
    }
  }

  /** The two buckets together hold every input element exactly once: their
      lengths add up to the input's, and each input index is listed for
      exactly one of the two buckets. */
  lemma {:induction false} SelectPartitions<T>(s: seq<T>, p: (T, nat) -> bool)
    ensures |Select(s, p, true)| + |Select(s, p, false)| == |s|
    ensures forall i :: 0 <= i < |s| ==> (i in Positions(s, p, true) <==> i !in Positions(s, p, false))
    decreases |s|
  {
    PositionsExact(s, p, true);
    PositionsExact(s, p, false);
    if |s| > 0 {
      SelectPartitions(s[..|s| - 1], p);
    }
  }

  /** Every element of either bucket comes from the input. */
  lemma SelectFromInput<T>(s: seq<T>, p: (T, nat) -> bool, want: bool, x: T)
    requires x in Select(s, p, want)
    ensures x in s
  {
  }
}
