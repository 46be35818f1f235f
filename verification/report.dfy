/** The integer part of the report: the reporting pronoun set, the
    per-document and per-pronoun sums and the grand totals from which
    precision, recall and F1 are formed. */
module Report {
  import opened Wrappers
  import opened Counts
  import opened Summaries
  import opened Segmenter
  import opened Evaluation

  /** The reporting pronoun set: the keys of the documents' candidate
      occurrence maps. */
  function PronounSet(eval: seq<DocumentSummary>): set<string>
  {
    if eval == [] then {} else PronounSet(eval[..|eval| - 1]) + eval[|eval| - 1].candOccurrences.Keys
  }

  /** A pronoun is reported exactly when some document has a candidate
      token aligned to it; one that only reference tokens align to is not. */
  lemma {:induction false} PronounSetMembers(eval: seq<DocumentSummary>, p: string)
    ensures p in PronounSet(eval) <==> exists d :: 0 <= d < |eval| && p in eval[d].candOccurrences
  {
    if eval != [] {
      var init := eval[..|eval| - 1];
      PronounSetMembers(init, p);
      if p in PronounSet(init) {
        var d :| 0 <= d < |init| && p in init[d].candOccurrences;
        assert eval[d] == init[d];
      }
      if exists d :: 0 <= d < |eval| && p in eval[d].candOccurrences {
        var d :| 0 <= d < |eval| && p in eval[d].candOccurrences;
        if d < |init| {
          assert init[d] == eval[d];
        }
      }
    }
  }

  /** Starting from summaries with empty candidate counters, a pronoun is
      reported exactly when, in some document, triggers of that lowercase
      form have candidate alignments. */
  lemma ReportedPronouns(reference: AlignedCorpus, candidate: AlignedCorpus, bounds: seq<int>,
                         sums: seq<DocumentSummary>, p: string)
    requires Fits(reference, candidate, bounds) && |sums| == |bounds| - 1
    requires forall d :: 0 <= d < |sums| ==> sums[d].candOccurrences == map[]
    ensures p in PronounSet(Evaluated(reference, candidate, bounds, sums, |reference.tokens|))
        <==> exists d :: 0 <= d < |sums| && Tally(reference, candidate, bounds, d, p, CandOccurrences, |reference.tokens|) > 0
  {
    var n := |reference.tokens|;
    var eval := Evaluated(reference, candidate, bounds, sums, n);
    PronounSetMembers(eval, p);
    if p in PronounSet(eval) {
      var d :| 0 <= d < |eval| && p in eval[d].candOccurrences;
      EvaluatedKeys(reference, candidate, bounds, sums, n, d, p, CandOccurrences);
      assert Tally(reference, candidate, bounds, d, p, CandOccurrences, n) > 0;
    } else {
      forall d | 0 <= d < |sums|
        ensures Tally(reference, candidate, bounds, d, p, CandOccurrences, n) == 0
      {
        EvaluatedKeys(reference, candidate, bounds, sums, n, d, p, CandOccurrences);
        assert p !in eval[d].candOccurrences;
      }
    }
  }

  /** The sum over all documents of one counter, restricted to `ps`. */
  function Total(eval: seq<DocumentSummary>, c: Counter, ps: seq<string>): int
  {
    if eval == [] then 0
    else Total(eval[..|eval| - 1], c, ps) + SumOver(CounterOf(eval[|eval| - 1], c), ps)
  }

  /** The sum over all documents of one counter for the pronoun `p`. */
  function PronounTotal(eval: seq<DocumentSummary>, c: Counter, p: string): int
  {
    if eval == [] then 0
    else PronounTotal(eval[..|eval| - 1], c, p) + Get(CounterOf(eval[|eval| - 1], c), p)
  }

  /** The sum over all documents of every candidate occurrence count,
      whatever its key. */
  ghost function CandTotal(eval: seq<DocumentSummary>): int
  {
    if eval == [] then 0
    else CandTotal(eval[..|eval| - 1]) + MapSum(eval[|eval| - 1].candOccurrences)
  }

  /** The integer results: the reported pronouns, per-pronoun matches and
      reference occurrences, per-document matches and reference occurrences
      over the reported pronouns, and the three totals. */
  datatype Report = Report(
    pronouns: seq<string>,
    pronounMatches: map<string, int>,
    pronounOccurrences: map<string, int>,
    docMatches: seq<int>,
    docOccurrences: seq<int>,
    totalMatches: int,
    totalOccurrences: int,
    totalCandOccurrences: int)

  /** Gathers the candidate occurrence keys of every document into a set and
      lists that set. */
  method CollectPronouns(eval: seq<DocumentSummary>) returns (pronouns: seq<string>)
    ensures Distinct(pronouns)
    ensures forall p :: p in pronouns <==> p in PronounSet(eval)
  {
    var pset: set<string> := {};
    for d := 0 to |eval|
      invariant pset == PronounSet(eval[..d])
    {
      assert eval[..d + 1][..d] == eval[..d];
      pset := pset + eval[d].candOccurrences.Keys;
    }
    assert eval[..|eval|] == eval;
    pronouns := ToList(pset);
  }

  /** The set's elements listed once each (`toArray`); the order is not
      modelled. */
  method ToList(pset: set<string>) returns (pronouns: seq<string>)
    ensures Distinct(pronouns)
    ensures forall p :: p in pronouns <==> p in pset
  {
    pronouns := [];
    var rest := pset;
    while rest != {}
      invariant Distinct(pronouns)
      invariant forall p :: p in pronouns <==> p in pset && p !in rest
      invariant rest <= pset
      decreases |rest|
    {
      var p :| p in rest;
      pronouns := pronouns + [p];
      rest := rest - {p};
    }
  }

  /** `forEachValue` with the summing procedure: adds every value of `m` to
      the running count. */
  method AddValues(count0: int, m: map<string, int>) returns (count: int)
    ensures count == count0 + MapSum(m)
  {
    count := count0;
    var rest := m;
    while rest != map[]
      invariant count + MapSum(rest) == count0 + MapSum(m)
      decreases |rest.Keys|
    {
      var k :| k in rest;
      MapSumRemove(rest, k);
      assert rest.Keys == (rest - {k}).Keys + {k};
      count := count + rest[k];
      rest := rest - {k};
    }
  }

  /** The inner reporting loop for one document: for every reported
      pronoun, add the document's matches and reference occurrences into the
      per-pronoun totals, and sum them for the document. */
  method AddDocument(pronMatches0: map<string, int>, pronOccurrences0: map<string, int>,
                     s: DocumentSummary, pronouns: seq<string>)
    returns (pronMatches: map<string, int>, pronOccurrences: map<string, int>, docMatches: int, docOccurrences: int)
    requires Distinct(pronouns)
    ensures docMatches == SumOver(s.matches, pronouns)
    ensures docOccurrences == SumOver(s.refOccurrences, pronouns)
    ensures forall k :: 0 <= k < |pronouns| ==>
      Get(pronMatches, pronouns[k]) == Get(pronMatches0, pronouns[k]) + Get(s.matches, pronouns[k]) &&
      Get(pronOccurrences, pronouns[k]) == Get(pronOccurrences0, pronouns[k]) + Get(s.refOccurrences, pronouns[k])
  {
    pronMatches, pronOccurrences := pronMatches0, pronOccurrences0;
    docMatches, docOccurrences := 0, 0;
    for j := 0 to |pronouns|
      invariant docMatches == SumOver(s.matches, pronouns[..j])
      invariant docOccurrences == SumOver(s.refOccurrences, pronouns[..j])
      invariant forall k :: 0 <= k < |pronouns| ==>
        Get(pronMatches, pronouns[k]) == Get(pronMatches0, pronouns[k]) + (if k < j then Get(s.matches, pronouns[k]) else 0) &&
        Get(pronOccurrences, pronouns[k]) == Get(pronOccurrences0, pronouns[k]) + (if k < j then Get(s.refOccurrences, pronouns[k]) else 0)
    {
      var p := pronouns[j];
      var m := Get(s.matches, p);
      var o := Get(s.refOccurrences, p);
      forall k | 0 <= k < |pronouns| && k != j
        ensures Get(Increment(pronMatches, p, m), pronouns[k]) == Get(pronMatches, pronouns[k])
        ensures Get(Increment(pronOccurrences, p, o), pronouns[k]) == Get(pronOccurrences, pronouns[k])
      {
        IncrementOthers(pronMatches, p, m, pronouns[k]);
        IncrementOthers(pronOccurrences, p, o, pronouns[k]);
      }
      pronMatches := Increment(pronMatches, p, m);
      pronOccurrences := Increment(pronOccurrences, p, o);
      docMatches := docMatches + m;
      docOccurrences := docOccurrences + o;
      assert pronouns[..j + 1][..j] == pronouns[..j];
    }
    assert pronouns[..|pronouns|] == pronouns;
  }

  /** What the reporting loops compute from the summaries `eval` for the
      pronoun list `pronouns`: per document, its matches and reference
      occurrences summed over the pronouns; per pronoun, its matches and
      reference occurrences summed over the documents; the two grand totals
      over the pronouns; and the sum of every candidate counter. */
  ghost predicate Tabulates(rep: Report, eval: seq<DocumentSummary>, pronouns: seq<string>)
  {
    && rep.pronouns == pronouns
    && |rep.docMatches| == |eval| && |rep.docOccurrences| == |eval|
    && (forall d :: 0 <= d < |eval| ==>
         rep.docMatches[d] == SumOver(eval[d].matches, pronouns) &&
         rep.docOccurrences[d] == SumOver(eval[d].refOccurrences, pronouns))
    && (forall k :: 0 <= k < |pronouns| ==>
         Get(rep.pronounMatches, pronouns[k]) == PronounTotal(eval, Matches, pronouns[k]) &&
         Get(rep.pronounOccurrences, pronouns[k]) == PronounTotal(eval, RefOccurrences, pronouns[k]))
    && rep.totalMatches == Total(eval, Matches, pronouns)
    && rep.totalOccurrences == Total(eval, RefOccurrences, pronouns)
    && rep.totalCandOccurrences == CandTotal(eval)
  }

  /** The reporting loops: for every document, sum its matches and reference
      occurrences over the reported pronouns, add them into the per-pronoun
      and grand totals, and add all its candidate occurrences to the
      candidate total. */
  method Aggregate(eval: seq<DocumentSummary>, pronouns: seq<string>) returns (rep: Report)
    requires Distinct(pronouns)
    ensures Tabulates(rep, eval, pronouns)
  {
    var pronMatches: map<string, int> := map[];
    var pronOccurrences: map<string, int> := map[];
    var docMatchesList: seq<int> := [];
    var docOccurrencesList: seq<int> := [];
    var totalMatches, totalOccurrences, candCount := 0, 0, 0;
    for d := 0 to |eval|
      invariant |docMatchesList| == d && |docOccurrencesList| == d
      invariant forall e :: 0 <= e < d ==>
        docMatchesList[e] == SumOver(eval[e].matches, pronouns) &&
        docOccurrencesList[e] == SumOver(eval[e].refOccurrences, pronouns)
      invariant forall k :: 0 <= k < |pronouns| ==>
        Get(pronMatches, pronouns[k]) == PronounTotal(eval[..d], Matches, pronouns[k]) &&
        Get(pronOccurrences, pronouns[k]) == PronounTotal(eval[..d], RefOccurrences, pronouns[k])
      invariant totalMatches == Total(eval[..d], Matches, pronouns)
      invariant totalOccurrences == Total(eval[..d], RefOccurrences, pronouns)
      invariant candCount == CandTotal(eval[..d])
    {
      var s := eval[d];
      assert eval[..d + 1][..d] == eval[..d];
      var docMatches, docOccurrences;
      pronMatches, pronOccurrences, docMatches, docOccurrences := AddDocument(pronMatches, pronOccurrences, s, pronouns);
      docMatchesList := docMatchesList + [docMatches];
      docOccurrencesList := docOccurrencesList + [docOccurrences];
      totalMatches := totalMatches + docMatches;
      totalOccurrences := totalOccurrences + docOccurrences;
      candCount := AddValues(candCount, s.candOccurrences);
    }
    assert eval[..|eval|] == eval;
    rep := Report(pronouns, pronMatches, pronOccurrences, docMatchesList, docOccurrencesList,
                  totalMatches, totalOccurrences, candCount);
  }

  /** Summed over the documents, no pronoun has more matches than reference
      occurrences or than candidate occurrences. */
  lemma {:induction false} PronounTotalsBounded(eval: seq<DocumentSummary>, p: string)
    requires AllMatchesBounded(eval)
    ensures 0 <= PronounTotal(eval, Matches, p) <= PronounTotal(eval, RefOccurrences, p)
    ensures PronounTotal(eval, Matches, p) <= PronounTotal(eval, CandOccurrences, p)
  {
    if eval != [] {
      var init := eval[..|eval| - 1];
      assert MatchesBounded(eval[|eval| - 1]);
      assert AllMatchesBounded(init) by {
        forall d | 0 <= d < |init| ensures MatchesBounded(init[d]) {
          assert init[d] == eval[d];
        }
      }
      PronounTotalsBounded(init, p);
    }
  }

  /** The same holds of the totals over any list of pronouns. */
  lemma {:induction false} TotalsBounded(eval: seq<DocumentSummary>, ps: seq<string>)
    requires AllMatchesBounded(eval)
    ensures 0 <= Total(eval, Matches, ps) <= Total(eval, RefOccurrences, ps)
    ensures Total(eval, Matches, ps) <= Total(eval, CandOccurrences, ps)
  {
    if eval != [] {
      var init, last := eval[..|eval| - 1], eval[|eval| - 1];
      assert MatchesBounded(last);
      assert AllMatchesBounded(init) by {
        forall d | 0 <= d < |init| ensures MatchesBounded(init[d]) {
          assert init[d] == eval[d];
        }
      }
      TotalsBounded(init, ps);
      SumOverNonNegative(last.matches, ps);
      SumOverMono(last.matches, last.refOccurrences, ps);
      SumOverMono(last.matches, last.candOccurrences, ps);
    }
  }

  /** When the pronoun list covers every candidate occurrence key without
      repetition, the candidate total of all values equals the sum over the
      list. */
  lemma {:induction false} CandTotalByPronoun(eval: seq<DocumentSummary>, ps: seq<string>)
    requires Distinct(ps)
    requires forall p :: p in PronounSet(eval) ==> p in ps
    ensures CandTotal(eval) == Total(eval, CandOccurrences, ps)
  {
    if eval != [] {
      var init, last := eval[..|eval| - 1], eval[|eval| - 1];
      CandTotalByPronoun(init, ps);
      SumOverCovers(last.candOccurrences, ps);
    }
  }

  /** The program's run after loading: segment, evaluate once from the empty
      summaries, collect the reporting pronouns and aggregate. A bad boundary
      line ends the run with its error; otherwise the totals satisfy
      matches <= reference occurrences and matches <= candidate occurrences,
      so precision and recall are at most 1. */
  method Run(reference: AlignedCorpus, candidate: AlignedCorpus, lines: seq<BoundaryLine>)
    returns (r: Result<Report, BoundaryError>, ghost seg: Segmentation, ghost eval: seq<DocumentSummary>)
    requires Loaded(reference) && |candidate.aligned| >= |reference.tokens|
    requires |lines| > 0 || |reference.tokens| == 0
    ensures r.Success? <==> forall k :: 0 <= k < |lines| ==> LineError(lines[k], k, reference.sentenceStarts).None?
    ensures r.Failure? ==>
      r.error.line < |lines| &&
      LineError(lines[r.error.line], r.error.line, reference.sentenceStarts) == Some(r.error) &&
      forall j :: 0 <= j < r.error.line ==> LineError(lines[j], j, reference.sentenceStarts).None?
    ensures r.Success? ==>
      && SegmentsAs(seg, lines, reference.sentenceStarts, |reference.tokens|)
      && eval == Evaluated(reference, candidate, seg.boundaries, seg.summaries, |reference.tokens|)
    ensures r.Success? ==>
      var rep := r.value;
      && Distinct(rep.pronouns)
      && (forall p :: p in rep.pronouns <==> p in PronounSet(eval))
      && Tabulates(rep, eval, rep.pronouns)
      && rep.totalCandOccurrences == Total(eval, CandOccurrences, rep.pronouns)
      && |rep.docMatches| == |lines|
      && 0 <= rep.totalMatches <= rep.totalOccurrences
      && rep.totalMatches <= rep.totalCandOccurrences
  {
    var result := Segment(lines, reference.sentenceStarts, |reference.tokens|);
    if result.Failure? {
      r, seg, eval := Failure(result.error), Segmentation([], []), [];
      return;
    }
    var segmentation := result.value;
    seg := segmentation;
    assert AllMatchesBounded(segmentation.summaries) by {
      forall d | 0 <= d < |segmentation.summaries| ensures MatchesBounded(segmentation.summaries[d]) {
        EmptySummaryBounded(Label(lines[d], d));
      }
    }
    var evaluator := new PronounEvaluation(reference, candidate, segmentation);
    var summaries := evaluator.Evaluate();
    eval := summaries;
    EvaluatedMatchesBounded(reference, candidate, segmentation.boundaries, segmentation.summaries, |reference.tokens|);
    var pronouns := CollectPronouns(summaries);
    var rep := Aggregate(summaries, pronouns);
    TotalsBounded(eval, pronouns);
    CandTotalByPronoun(eval, pronouns);
    r := Success(rep);
  }
}
