/** The per-occurrence matching rule: candidate-aligned tokens are visited in
    order and each one consumes, when it can, one still-unused copy of the same
    word among the reference-aligned tokens. */
module Matching {

  /** What is left of the reference multiset, and how many candidate tokens
      found a match. */
  datatype Consumption = Consumption(rest: multiset<string>, count: nat)

  /** Greedy consumption of `refs` by the candidate tokens `cands`, taken
      from first to last. Every match removes exactly one reference token. */
  function Consume(refs: multiset<string>, cands: seq<string>): Consumption
  {
    if cands == [] then Consumption(refs, 0)
    else
      var before := Consume(refs, cands[..|cands| - 1]);
      var c := cands[|cands| - 1];
      if c in before.rest then Consumption(before.rest - multiset{c}, before.count + 1) else before
  }

  /** Every match uses up exactly one reference token, so the matches never
      outnumber the reference tokens or the candidate tokens. */
  lemma {:induction false} ConsumeAccounting(refs: multiset<string>, cands: seq<string>)
    ensures Consume(refs, cands).rest <= refs
    ensures Consume(refs, cands).count + |Consume(refs, cands).rest| == |refs|
    ensures Consume(refs, cands).count <= |cands|
  {
    if cands != [] {
      var init, c := cands[..|cands| - 1], cands[|cands| - 1];
      ConsumeAccounting(refs, init);
      var before := Consume(refs, init);
      if c in before.rest {
        assert before.rest == (before.rest - multiset{c}) + multiset{c};
      }
    }
  }

  /** Visiting candidate token k after the first k: it matches exactly when
      a copy of it is still unused, and then uses that copy up. */
  lemma ConsumeNext(refs: multiset<string>, cands: seq<string>, k: nat)
    requires k < |cands|
    ensures var before := Consume(refs, cands[..k]);
      Consume(refs, cands[..k + 1]) ==
        if cands[k] in before.rest then Consumption(before.rest - multiset{cands[k]}, before.count + 1) else before
  {
    assert cands[..k + 1][..k] == cands[..k];
  }

  /** Every multiset splits into its common part with `b` and its surplus over `b`. */
  lemma SplitCardinality(a: multiset<string>, b: multiset<string>)
    ensures |a| == |a * b| + |a - b|
  {
    assert a == (a * b) + (a - b);
  }

  /** Greedy consumption leaves exactly the reference tokens no candidate
      claimed, and its match count is the size of the multiset intersection
      of the two alignment lists. */
  lemma {:induction false} ConsumeIsIntersection(refs: multiset<string>, cands: seq<string>)
    ensures Consume(refs, cands).rest == refs - multiset(cands)
    ensures Consume(refs, cands).count == |refs * multiset(cands)|
  {
    if cands != [] {
      var init, c := cands[..|cands| - 1], cands[|cands| - 1];
      assert cands == init + [c];
      ConsumeIsIntersection(refs, init);
      var before := Consume(refs, init);
      var m := multiset(init);
      assert multiset(cands) == m + multiset{c};
      if c in before.rest {
        assert before.rest - multiset{c} == refs - (m + multiset{c});
      } else {
        assert before.rest == refs - (m + multiset{c});
      }
    }
    ConsumeAccounting(refs, cands);
    SplitCardinality(refs, multiset(cands));
  }

  /** The outcome does not depend on the order in which the candidate tokens
      are enumerated: any reordering leaves the same tokens unused and finds
      the same number of matches. */
  lemma ConsumeOrderIndependent(refs: multiset<string>, cands1: seq<string>, cands2: seq<string>)
    requires multiset(cands1) == multiset(cands2)
    ensures Consume(refs, cands1) == Consume(refs, cands2)
  {
    ConsumeIsIntersection(refs, cands1);
    ConsumeIsIntersection(refs, cands2);
  }

  /** Reference alignments [a, a, b] against candidate alignments [a, b, a]:
      both copies of a and the b are consumed, three matches in all. */
  lemma ConsumptionExample()
    ensures Consume(multiset(["a", "a", "b"]), ["a", "b", "a"]) == Consumption(multiset{}, 3)
  {
    ConsumeIsIntersection(multiset(["a", "a", "b"]), ["a", "b", "a"]);
    assert multiset(["a", "a", "b"]) == multiset(["a", "b", "a"]);
  }
}
