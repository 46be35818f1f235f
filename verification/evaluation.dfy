/** The matching engine: one forward pass over the reference source tokens,
    crediting every trigger pronoun's alignments to the document the cursor
    is in. */
module Evaluation {
  import opened Counts
  import opened Matching
  import opened Summaries
  import opened Segmenter

  /** The source side of an aligned corpus: its tokens, the target tokens
      aligned to each of them, and the index of each sentence's first token. */
  datatype AlignedCorpus = AlignedCorpus(tokens: seq<string>, aligned: seq<seq<string>>, sentenceStarts: seq<int>)

  /** A loaded corpus has one alignment list per source token. */
  predicate Loaded(c: AlignedCorpus)
  {
    |c.aligned| == |c.tokens|
  }

  /** What the pass needs: the candidate has an alignment list for every
      reference token index, the boundaries end at the corpus size, and a
      non-empty corpus has at least one document. */
  predicate Fits(reference: AlignedCorpus, candidate: AlignedCorpus, bounds: seq<int>)
  {
    && Loaded(reference)
    && |candidate.aligned| >= |reference.tokens|
    && |bounds| >= 1
    && bounds[|bounds| - 1] == |reference.tokens|
    && (|reference.tokens| > 0 ==> |bounds| >= 2)
  }

  /** The trigger test, exact and case-sensitive. */
  predicate IsTriggerWord(w: string)
  {
    w == "it" || w == "they" || w == "It" || w == "They"
  }

  /** The lowercase form of a trigger word, the key it is counted under. */
  function Bucket(w: string): (p: string)
    requires IsTriggerWord(w)
    ensures p == "it" || p == "they"
    ensures p == "it" <==> (w == "it" || w == "It")
  {
    if w == "It" then "it" else if w == "They" then "they" else w
  }

  /** Only the four exact spellings trigger; capitalised and plain forms share a key. */
  lemma TriggerCaseRule()
    ensures !IsTriggerWord("IT") && !IsTriggerWord("THEY") && !IsTriggerWord("its")
    ensures Bucket("It") == Bucket("it") == "it"
    ensures Bucket("They") == Bucket("they") == "they"
  {
  }

  /** The cursor loop: starting at document `d`, move forward while token `i`
      lies at or beyond the start of the next document. */
  function Advance(bounds: seq<int>, d: nat, i: int): (r: nat)
    requires d < |bounds| - 1 && i < bounds[|bounds| - 1]
    ensures d <= r < |bounds| - 1
    ensures i < bounds[r + 1]
    decreases |bounds| - d
  {
    if i >= bounds[d + 1] then Advance(bounds, d + 1, i) else d
  }

  /** The loop stops at the first document after `d` whose end lies beyond
      token `i`: every document start it moved past is at or before `i`. */
  lemma {:induction false} AdvanceSkips(bounds: seq<int>, d: nat, i: int, e: nat)
    requires d < |bounds| - 1 && i < bounds[|bounds| - 1]
    requires d < e <= Advance(bounds, d, i)
    ensures bounds[e] <= i
    decreases |bounds| - d
  {
    if e > d + 1 {
      AdvanceSkips(bounds, d + 1, i, e);
    }
  }

  /** The document the cursor is in when token `i` is visited. */
  function Cursor(bounds: seq<int>, i: nat): (r: nat)
    requires |bounds| >= 2 && i < bounds[|bounds| - 1]
    ensures r < |bounds| - 1
  {
    Advance(bounds, if i == 0 then 0 else Cursor(bounds, i - 1), i)
  }

  /** The cursor never moves back. */
  lemma {:induction false} CursorMonotone(bounds: seq<int>, i: nat, j: nat)
    requires |bounds| >= 2 && i <= j < bounds[|bounds| - 1]
    ensures Cursor(bounds, i) <= Cursor(bounds, j)
    decreases j
  {
    if i < j {
      CursorMonotone(bounds, i, j - 1);
    }
  }

  ghost predicate Nondecreasing(bounds: seq<int>)
  {
    forall j, k :: 0 <= j <= k < |bounds| ==> bounds[j] <= bounds[k]
  }

  /** With non-decreasing boundaries, token `i` is credited to the document
      whose span [bounds[d], bounds[d + 1]) holds it, a token at a boundary
      to the later document, and a token before the first boundary to
      document 0; no other document qualifies. */
  lemma {:induction false} CursorLocates(bounds: seq<int>, i: nat)
    requires |bounds| >= 2 && i < bounds[|bounds| - 1]
    requires Nondecreasing(bounds)
    ensures var d := Cursor(bounds, i); (d == 0 || bounds[d] <= i) && i < bounds[d + 1]
    ensures forall d :: 0 <= d < |bounds| - 1 && (d == 0 || bounds[d] <= i) && i < bounds[d + 1] ==> Cursor(bounds, i) == d
  {
    var prev := if i == 0 then 0 else Cursor(bounds, i - 1);
    if i > 0 {
      CursorLocates(bounds, i - 1);
    }
    var r := Cursor(bounds, i);
    if r > prev {
      AdvanceSkips(bounds, prev, i, r);
    }
    forall d | 0 <= d < |bounds| - 1 && (d == 0 || bounds[d] <= i) && i < bounds[d + 1]
      ensures r == d
    {
    }
  }

  /** The effect of visiting token `i`: nothing unless it is a trigger word;
      otherwise one occurrence of its lowercase form in the cursor's document. */
  function Step(reference: AlignedCorpus, candidate: AlignedCorpus, bounds: seq<int>,
                sums: seq<DocumentSummary>, i: nat): (r: seq<DocumentSummary>)
    requires Fits(reference, candidate, bounds) && |sums| == |bounds| - 1
    requires i < |reference.tokens|
    ensures |r| == |sums|
  {
    var token := reference.tokens[i];
    if !IsTriggerWord(token) then sums
    else
      var d := Cursor(bounds, i);
      sums[d := Occurrence(sums[d], Bucket(token), reference.aligned[i], candidate.aligned[i])]
  }

  /** Visiting token `i` changes nothing unless it is one of the four trigger
      spellings; a trigger changes only the cursor's document, and there only
      the counts under its lowercase form, which rise by the numbers of
      reference and candidate alignments and by their common part. */
  lemma StepIsLocal(reference: AlignedCorpus, candidate: AlignedCorpus, bounds: seq<int>,
                    sums: seq<DocumentSummary>, i: nat, e: nat, q: string)
    requires Fits(reference, candidate, bounds) && |sums| == |bounds| - 1
    requires i < |reference.tokens| && e < |sums|
    ensures var r, token := Step(reference, candidate, bounds, sums, i), reference.tokens[i];
      && (!IsTriggerWord(token) ==> r == sums)
      && (e != Cursor(bounds, i) ==> r[e] == sums[e])
      && (IsTriggerWord(token) && q != Bucket(token) ==>
            Get(r[e].refOccurrences, q) == Get(sums[e].refOccurrences, q) &&
            Get(r[e].candOccurrences, q) == Get(sums[e].candOccurrences, q) &&
            Get(r[e].matches, q) == Get(sums[e].matches, q))
      && (IsTriggerWord(token) && e == Cursor(bounds, i) && q == Bucket(token) ==>
            var refs, cands := reference.aligned[i], candidate.aligned[i];
            Get(r[e].refOccurrences, q) == Get(sums[e].refOccurrences, q) + |refs| &&
            Get(r[e].candOccurrences, q) == Get(sums[e].candOccurrences, q) + |cands| &&
            Get(r[e].matches, q) == Get(sums[e].matches, q) + |multiset(refs) * multiset(cands)|)
  {
    var token := reference.tokens[i];
    if IsTriggerWord(token) && e == Cursor(bounds, i) && q != Bucket(token) {
      OccurrenceOtherKeys(sums[e], Bucket(token), reference.aligned[i], candidate.aligned[i], q);
    }
  }

  /** The summaries after visiting tokens 0 .. n-1, starting from `sums`. */
  function Evaluated(reference: AlignedCorpus, candidate: AlignedCorpus, bounds: seq<int>,
                     sums: seq<DocumentSummary>, n: nat): (r: seq<DocumentSummary>)
    requires Fits(reference, candidate, bounds) && |sums| == |bounds| - 1
    requires n <= |reference.tokens|
    ensures |r| == |sums|
  {
    if n == 0 then sums
    else Step(reference, candidate, bounds, Evaluated(reference, candidate, bounds, sums, n - 1), n - 1)
  }

  /** The pass never relabels a document. */
  lemma {:induction false} EvaluatedKeepsLabels(reference: AlignedCorpus, candidate: AlignedCorpus,
                                                bounds: seq<int>, sums: seq<DocumentSummary>, n: nat)
    requires Fits(reference, candidate, bounds) && |sums| == |bounds| - 1
    requires n <= |reference.tokens|
    ensures forall d :: 0 <= d < |sums| ==> Evaluated(reference, candidate, bounds, sums, n)[d].docid == sums[d].docid
  {
    if n > 0 {
      EvaluatedKeepsLabels(reference, candidate, bounds, sums, n - 1);
    }
  }

  /** The pass keeps the counter invariant: summed over a document's
      occurrences, no pronoun has more matches than reference or candidate
      occurrences. */
  lemma {:induction false} EvaluatedMatchesBounded(reference: AlignedCorpus, candidate: AlignedCorpus,
                                                   bounds: seq<int>, sums: seq<DocumentSummary>, n: nat)
    requires Fits(reference, candidate, bounds) && |sums| == |bounds| - 1
    requires n <= |reference.tokens|
    requires AllMatchesBounded(sums)
    ensures AllMatchesBounded(Evaluated(reference, candidate, bounds, sums, n))
  {
    if n > 0 {
      EvaluatedMatchesBounded(reference, candidate, bounds, sums, n - 1);
      var before := Evaluated(reference, candidate, bounds, sums, n - 1);
      var i := n - 1;
      var after := Step(reference, candidate, bounds, before, i);
      if IsTriggerWord(reference.tokens[i]) {
        var d := Cursor(bounds, i);
        OccurrencePreservesBound(before[d], Bucket(reference.tokens[i]), reference.aligned[i], candidate.aligned[i]);
        forall e | 0 <= e < |after|
          ensures MatchesBounded(after[e])
        {
          assert e != d ==> after[e] == before[e];
        }
      }
    }
  }

  /** What one trigger occurrence at token `i` adds to counter `c`: its
      reference alignments, its candidate alignments, or their common part. */
  function Contribution(reference: AlignedCorpus, candidate: AlignedCorpus, bounds: seq<int>, i: nat, c: Counter): nat
    requires Fits(reference, candidate, bounds) && i < |reference.tokens|
  {
    match c
    case RefOccurrences => |reference.aligned[i]|
    case CandOccurrences => |candidate.aligned[i]|
    case Matches => |multiset(reference.aligned[i]) * multiset(candidate.aligned[i])|
  }

  /** What token `i` adds to counter `c` of document `e` under pronoun `q`:
      its contribution if it is a trigger with lowercase form `q` that the
      cursor places in `e`, and nothing otherwise. */
  function Share(reference: AlignedCorpus, candidate: AlignedCorpus, bounds: seq<int>,
                 e: nat, q: string, c: Counter, i: nat): nat
    requires Fits(reference, candidate, bounds) && i < |reference.tokens|
  {
    var token := reference.tokens[i];
    if IsTriggerWord(token) && Bucket(token) == q && Cursor(bounds, i) == e
    then Contribution(reference, candidate, bounds, i, c) else 0
  }

  /** What token `i` adds to counter `c` of document `e` under pronoun `q`
      when documents are read as ranges of token indices: its contribution if
      it is a trigger with lowercase form `q` inside `e`'s range (document 0
      also takes the tokens before the first boundary), and nothing otherwise. */
  function RangeShare(reference: AlignedCorpus, candidate: AlignedCorpus, bounds: seq<int>,
                      e: nat, q: string, c: Counter, i: nat): nat
    requires Fits(reference, candidate, bounds) && i < |reference.tokens| && e < |bounds| - 1
  {
    var token := reference.tokens[i];
    if IsTriggerWord(token) && Bucket(token) == q && (e == 0 || bounds[e] <= i) && i < bounds[e + 1]
    then Contribution(reference, candidate, bounds, i, c) else 0
  }

  /** With non-decreasing boundaries the cursor's share and the range share
      agree, so a token's share goes to the document whose range holds it. */
  lemma ShareLocated(reference: AlignedCorpus, candidate: AlignedCorpus, bounds: seq<int>,
                     e: nat, q: string, c: Counter, i: nat)
    requires Fits(reference, candidate, bounds) && Nondecreasing(bounds)
    requires i < |reference.tokens| && e < |bounds| - 1
    ensures Share(reference, candidate, bounds, e, q, c, i) == RangeShare(reference, candidate, bounds, e, q, c, i)
  {
    CursorLocates(bounds, i);
  }

  /** The range shares of document `e` over tokens 0 .. n-1. */
  function RangeTally(reference: AlignedCorpus, candidate: AlignedCorpus, bounds: seq<int>,
                      e: nat, q: string, c: Counter, n: nat): nat
    requires Fits(reference, candidate, bounds) && n <= |reference.tokens| && e < |bounds| - 1
  {
    if n == 0 then 0
    else RangeTally(reference, candidate, bounds, e, q, c, n - 1) + RangeShare(reference, candidate, bounds, e, q, c, n - 1)
  }

  /** A direct count over tokens 0 .. n-1: the shares of document `e` under
      pronoun `q`. */
  function Tally(reference: AlignedCorpus, candidate: AlignedCorpus, bounds: seq<int>,
                 e: nat, q: string, c: Counter, n: nat): nat
    requires Fits(reference, candidate, bounds) && n <= |reference.tokens|
  {
    if n == 0 then 0
    else Tally(reference, candidate, bounds, e, q, c, n - 1) + Share(reference, candidate, bounds, e, q, c, n - 1)
  }

  /** Visiting token `i` adds exactly its share to each counter. */
  lemma StepCounts(reference: AlignedCorpus, candidate: AlignedCorpus, bounds: seq<int>,
                   sums: seq<DocumentSummary>, i: nat, e: nat, q: string, c: Counter)
    requires Fits(reference, candidate, bounds) && |sums| == |bounds| - 1
    requires i < |reference.tokens| && e < |sums|
    ensures Get(CounterOf(Step(reference, candidate, bounds, sums, i)[e], c), q)
         == Get(CounterOf(sums[e], c), q) + Share(reference, candidate, bounds, e, q, c, i)
  {
    StepIsLocal(reference, candidate, bounds, sums, i, e, q);
  }

  /** Extending a pass by token `i` adds exactly that token's share to each
      counter. */
  lemma EvaluatedNextStep(reference: AlignedCorpus, candidate: AlignedCorpus, bounds: seq<int>,
                          sums: seq<DocumentSummary>, i: nat, e: nat, q: string, c: Counter)
    requires Fits(reference, candidate, bounds) && |sums| == |bounds| - 1
    requires i < |reference.tokens| && e < |sums|
    ensures Get(CounterOf(Evaluated(reference, candidate, bounds, sums, i + 1)[e], c), q)
         == Get(CounterOf(Evaluated(reference, candidate, bounds, sums, i)[e], c), q)
            + Share(reference, candidate, bounds, e, q, c, i)
  {
    StepCounts(reference, candidate, bounds, Evaluated(reference, candidate, bounds, sums, i), i, e, q, c);
  }

  /** After the pass over tokens 0 .. n-1, each counter of each document
      holds what it held before plus the direct tally of the triggers
      credited to that document under that pronoun. */
  lemma {:induction false} EvaluatedCounts(reference: AlignedCorpus, candidate: AlignedCorpus, bounds: seq<int>,
                          sums: seq<DocumentSummary>, n: nat, e: nat, q: string, c: Counter)
    requires Fits(reference, candidate, bounds) && |sums| == |bounds| - 1
    requires n <= |reference.tokens| && e < |sums|
    ensures Get(CounterOf(Evaluated(reference, candidate, bounds, sums, n)[e], c), q)
         == Get(CounterOf(sums[e], c), q) + Tally(reference, candidate, bounds, e, q, c, n)
  {
    var k := 0;
    while k < n
      invariant k <= n
      invariant Get(CounterOf(Evaluated(reference, candidate, bounds, sums, k)[e], c), q)
             == Get(CounterOf(sums[e], c), q) + Tally(reference, candidate, bounds, e, q, c, k)
    {
      EvaluatedNextStep(reference, candidate, bounds, sums, k, e, q, c);
      k := k + 1;
    }
  }

  /** With non-decreasing boundaries the cursor's tally of a document is the
      tally of the trigger tokens inside its range. */
  lemma {:induction false} TallyLocated(reference: AlignedCorpus, candidate: AlignedCorpus, bounds: seq<int>,
                                        e: nat, q: string, c: Counter, n: nat)
    requires Fits(reference, candidate, bounds) && Nondecreasing(bounds)
    requires n <= |reference.tokens| && e < |bounds| - 1
    ensures Tally(reference, candidate, bounds, e, q, c, n) == RangeTally(reference, candidate, bounds, e, q, c, n)
  {
    var k := 0;
    while k < n
      invariant k <= n
      invariant Tally(reference, candidate, bounds, e, q, c, k) == RangeTally(reference, candidate, bounds, e, q, c, k)
    {
      ShareLocated(reference, candidate, bounds, e, q, c, k);
      k := k + 1;
    }
  }

  /** Visiting token `i` creates a key in a counter exactly when it gives
      that key a positive share; keys are never removed. */
  lemma StepKeys(reference: AlignedCorpus, candidate: AlignedCorpus, bounds: seq<int>,
                 sums: seq<DocumentSummary>, i: nat, e: nat, q: string, c: Counter)
    requires Fits(reference, candidate, bounds) && |sums| == |bounds| - 1
    requires i < |reference.tokens| && e < |sums|
    ensures q in CounterOf(Step(reference, candidate, bounds, sums, i)[e], c)
        <==> q in CounterOf(sums[e], c) || Share(reference, candidate, bounds, e, q, c, i) > 0
  {
    var token := reference.tokens[i];
    if IsTriggerWord(token) && Cursor(bounds, i) == e {
      var refs, cands := reference.aligned[i], candidate.aligned[i];
      ConsumeIsIntersection(multiset(refs), cands);
    }
  }

  /** Extending a pass by token `i` creates exactly the keys that token
      gives a positive share. */
  lemma EvaluatedNextKeys(reference: AlignedCorpus, candidate: AlignedCorpus, bounds: seq<int>,
                          sums: seq<DocumentSummary>, i: nat, e: nat, q: string, c: Counter)
    requires Fits(reference, candidate, bounds) && |sums| == |bounds| - 1
    requires i < |reference.tokens| && e < |sums|
    ensures q in CounterOf(Evaluated(reference, candidate, bounds, sums, i + 1)[e], c)
        <==> q in CounterOf(Evaluated(reference, candidate, bounds, sums, i)[e], c)
             || Share(reference, candidate, bounds, e, q, c, i) > 0
  {
    StepKeys(reference, candidate, bounds, Evaluated(reference, candidate, bounds, sums, i), i, e, q, c);
  }

  /** After the pass over tokens 0 .. n-1, a pronoun is a key of a
      document's counter exactly when it was before or some of those tokens
      gave it a positive share there: an empty alignment list leaves no key. */
  lemma {:induction false} EvaluatedKeys(reference: AlignedCorpus, candidate: AlignedCorpus, bounds: seq<int>,
                                         sums: seq<DocumentSummary>, n: nat, e: nat, q: string, c: Counter)
    requires Fits(reference, candidate, bounds) && |sums| == |bounds| - 1
    requires n <= |reference.tokens| && e < |sums|
    ensures q in CounterOf(Evaluated(reference, candidate, bounds, sums, n)[e], c)
        <==> q in CounterOf(sums[e], c) || Tally(reference, candidate, bounds, e, q, c, n) > 0
  {
    var k := 0;
    while k < n
      invariant k <= n
      invariant q in CounterOf(Evaluated(reference, candidate, bounds, sums, k)[e], c)
            <==> q in CounterOf(sums[e], c) || Tally(reference, candidate, bounds, e, q, c, k) > 0
    {
      EvaluatedNextKeys(reference, candidate, bounds, sums, k, e, q, c);
      k := k + 1;
    }
  }

  /** What visiting candidate token k does to the counters and to the
      unused reference tokens. */
  lemma CandidateStep(s0: DocumentSummary, p: string, R: multiset<string>, cands: seq<string>, k: nat)
    requires k < |cands|
    ensures Increment(AddCount(s0.candOccurrences, p, k), p, 1) == AddCount(s0.candOccurrences, p, k + 1)
    ensures var done, next := Consume(R, cands[..k]), Consume(R, cands[..k + 1]);
      if cands[k] in done.rest then
        next.rest == done.rest - multiset{cands[k]} &&
        Increment(AddCount(s0.matches, p, done.count), p, 1) == AddCount(s0.matches, p, next.count)
      else next == done
  {
    ConsumeNext(R, cands, k);
    AddCountSucc(s0.candOccurrences, p, k);
    AddCountSucc(s0.matches, p, Consume(R, cands[..k]).count);
  }

  /** The work done for one trigger occurrence (the body of the pass after
      the trigger test): build the reference multiset afresh, count every
      reference token, then visit the candidate tokens in order, counting each
      and letting it consume one copy of itself from the multiset if one is
      left. */
  method CountOccurrence(s0: DocumentSummary, p: string, refs: seq<string>, cands: seq<string>)
    returns (s: DocumentSummary)
    ensures s == Occurrence(s0, p, refs, cands)
  {
    var refOccurrences, candOccurrences, matches := s0.refOccurrences, s0.candOccurrences, s0.matches;
    var refwords: multiset<string> := multiset{};
    for j := 0 to |refs|
      invariant refwords == multiset(refs[..j])
      invariant refOccurrences == AddCount(s0.refOccurrences, p, j)
    {
      refwords := refwords + multiset{refs[j]};
      AddCountSucc(s0.refOccurrences, p, j);
      refOccurrences := Increment(refOccurrences, p, 1);
      assert refs[..j + 1] == refs[..j] + [refs[j]];
    }
    assert refs[..|refs|] == refs;

    ghost var R := multiset(refs);
    for k := 0 to |cands|
      invariant refwords == Consume(R, cands[..k]).rest
      invariant candOccurrences == AddCount(s0.candOccurrences, p, k)
      invariant matches == AddCount(s0.matches, p, Consume(R, cands[..k]).count)
    {
      var c := cands[k];
      CandidateStep(s0, p, R, cands, k);
      candOccurrences := Increment(candOccurrences, p, 1);
      if c in refwords {
        matches := Increment(matches, p, 1);
        refwords := refwords - multiset{c};
      }
    }
    assert cands[..|cands|] == cands;
    s := s0.(refOccurrences := refOccurrences, candOccurrences := candOccurrences, matches := matches);
  }

  /** The evaluator: the two corpora, the document boundaries and one
      summary per document, which `Evaluate` updates in place. */
  class PronounEvaluation {
    const reference: AlignedCorpus
    const candidate: AlignedCorpus
    const docBoundaries: seq<int>
    var summaries: seq<DocumentSummary>

    ghost predicate Valid()
      reads this
    {
      Fits(reference, candidate, docBoundaries) && |summaries| == |docBoundaries| - 1
    }

    /** Takes the loaded corpora and the boundary file's segmentation. */
    constructor (reference: AlignedCorpus, candidate: AlignedCorpus, seg: Segmentation)
      requires Fits(reference, candidate, seg.boundaries)
      requires |seg.summaries| == |seg.boundaries| - 1
      ensures Valid()
      ensures this.reference == reference && this.candidate == candidate
      ensures docBoundaries == seg.boundaries && summaries == seg.summaries
    {
      this.reference := reference;
      this.candidate := candidate;
      docBoundaries := seg.boundaries;
      summaries := seg.summaries;
    }

    /** One pass over the reference source tokens, accumulating into the
        current summaries (a second call adds a second pass on top). */
    method Evaluate() returns (result: seq<DocumentSummary>)
      requires Valid()
      modifies this
      ensures Valid()
      ensures summaries == Evaluated(reference, candidate, docBoundaries, old(summaries), |reference.tokens|)
      ensures result == summaries
    {
      var size := |reference.tokens|;
      var docno: nat := 0;
      var cidx := 0;
      while cidx < size
        invariant |summaries| == |docBoundaries| - 1
        invariant 0 <= cidx <= size
        invariant size > 0 ==> docno < |summaries|
        invariant docno == if cidx == 0 then 0 else Cursor(docBoundaries, cidx - 1)
        invariant summaries == Evaluated(reference, candidate, docBoundaries, old(summaries), cidx)
      {
        ghost var start, visited := docno, summaries;
        while cidx >= docBoundaries[docno + 1]
          invariant start <= docno < |summaries|
          invariant Advance(docBoundaries, docno, cidx) == Advance(docBoundaries, start, cidx)
          decreases |summaries| - docno
        {
          docno := docno + 1;
        }
        assert docno == Cursor(docBoundaries, cidx);

        var token := reference.tokens[cidx];
        if IsTriggerWord(token) {
          var s := CountOccurrence(summaries[docno], Bucket(token), reference.aligned[cidx], candidate.aligned[cidx]);
          summaries := summaries[docno := s];
        }
        assert summaries == Step(reference, candidate, docBoundaries, visited, cidx);
        cidx := cidx + 1;
      }
      result := summaries;
    }
  }
}
