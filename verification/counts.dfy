/** The integer-valued hash maps the evaluator keeps per pronoun, with the
    semantics of the Trove `TObjectIntHashMap` operations it uses. */
module Counts {

  /** `get`: the count stored under `k`, or 0 when `k` has never been put. */
  function Get(m: map<string, int>, k: string): int
  {
    if k in m then m[k] else 0
  }

  /** `adjustOrPutValue(k, delta, delta)`: adds `delta` to the count under `k`, or puts
      `k` with count `delta` when it is absent. */
  function Increment(m: map<string, int>, k: string, delta: int): (r: map<string, int>)
    ensures r.Keys == m.Keys + {k}
    ensures Get(r, k) == Get(m, k) + delta
  {
    if k in m then m[k := m[k] + delta] else m[k := delta]
  }

  /** The effect of `n` calls of `adjustOrPutValue(k, 1, 1)`: nothing when
      `n` is 0 (the key is not even inserted), otherwise `n` added under `k`. */
  function AddCount(m: map<string, int>, k: string, n: nat): (r: map<string, int>)
    ensures r.Keys == if n == 0 then m.Keys else m.Keys + {k}
    ensures Get(r, k) == Get(m, k) + n
  {
    if n == 0 then m else Increment(m, k, n)
  }

  /** Adjusting the count under `k` leaves every other key's count alone. */
  lemma IncrementOthers(m: map<string, int>, k: string, delta: int, q: string)
    requires q != k
    ensures Get(Increment(m, k, delta), q) == Get(m, q)
  {
  }

  /** Adding under `k` leaves every other key's count alone. */
  lemma AddCountOthers(m: map<string, int>, k: string, n: nat, q: string)
    requires q != k
    ensures Get(AddCount(m, k, n), q) == Get(m, q)
  {
  }

  /** One more unit increment extends a run of `n` increments to `n + 1`. */
  lemma AddCountSucc(m: map<string, int>, k: string, n: nat)
    ensures Increment(AddCount(m, k, n), k, 1) == AddCount(m, k, n + 1)
  {
    var lhs, rhs := Increment(AddCount(m, k, n), k, 1), AddCount(m, k, n + 1);
    assert lhs.Keys == rhs.Keys;
    forall q | q in lhs
      ensures lhs[q] == rhs[q]
    {
      assert Get(lhs, q) == Get(rhs, q);
    }
  }

  /** The sum of all values of a map, in no particular order (what
      `forEachValue` with a summing procedure computes). */
  ghost function MapSum(m: map<string, int>): int
    decreases |m.Keys|
  {
    if m.Keys == {} then 0
    else
      var k :| k in m;
      assert m.Keys == (m - {k}).Keys + {k};
      m[k] + MapSum(m - {k})
  }

  /** Taking any one key out first gives the same sum. */
  lemma {:induction false} MapSumRemove(m: map<string, int>, k: string)
    requires k in m
    ensures MapSum(m) == m[k] + MapSum(m - {k})
    decreases |m.Keys|
  {
    var j :| j in m && MapSum(m) == m[j] + MapSum(m - {j});
    if j != k {
      assert (m - {j}).Keys + {j} == m.Keys;
      assert (m - {k}).Keys + {k} == m.Keys;
      MapSumRemove(m - {j}, k);
      MapSumRemove(m - {k}, j);
      assert m - {j} - {k} == m - {k} - {j};
    }
  }

  /** The sum of the counts `Get(m, p)` for the keys `ps`, in order. */
  function SumOver(m: map<string, int>, ps: seq<string>): int
  {
    if ps == [] then 0 else SumOver(m, ps[..|ps| - 1]) + Get(m, ps[|ps| - 1])
  }

  predicate Distinct(ps: seq<string>)
  {
    forall i, j :: 0 <= i < j < |ps| ==> ps[i] != ps[j]
  }

  /** A key outside `ps` does not affect the sum over `ps`. */
  lemma {:induction false} SumOverIgnores(m: map<string, int>, q: string, ps: seq<string>)
    requires q !in ps
    ensures SumOver(m - {q}, ps) == SumOver(m, ps)
  {
    if ps != [] {
      SumOverIgnores(m, q, ps[..|ps| - 1]);
    }
  }

  /** Summing over a duplicate-free list that covers every key gives the sum
      of all values. */
  lemma {:induction false} SumOverCovers(m: map<string, int>, ps: seq<string>)
    requires Distinct(ps)
    requires m.Keys <= set p | p in ps
    ensures SumOver(m, ps) == MapSum(m)
  {
    if ps == [] {
      assert m.Keys == {};
    } else {
      var init, last := ps[..|ps| - 1], ps[|ps| - 1];
      assert last !in init;
      if last in m {
        SumOverIgnores(m, last, init);
        SumOverCovers(m - {last}, init);
        MapSumRemove(m, last);
      } else {
        SumOverCovers(m, init);
      }
    }
  }

  /** Sums of non-negative counts are non-negative. */
  lemma {:induction false} SumOverNonNegative(m: map<string, int>, ps: seq<string>)
    requires forall q :: Get(m, q) >= 0
    ensures SumOver(m, ps) >= 0
  {
    if ps != [] {
      SumOverNonNegative(m, ps[..|ps| - 1]);
    }
  }

  /** Sums are monotone in the counts. */
  lemma {:induction false} SumOverMono(m1: map<string, int>, m2: map<string, int>, ps: seq<string>)
    requires forall q :: Get(m1, q) <= Get(m2, q)
    ensures SumOver(m1, ps) <= SumOver(m2, ps)
  {
    if ps != [] {
      SumOverMono(m1, m2, ps[..|ps| - 1]);
    }
  }
}
