/** The per-document accumulator and the effect of one trigger occurrence on it. */
module Summaries {
  import opened Counts
  import opened Matching

  /** A document's label and its three pronoun-keyed counters: reference
      tokens aligned to the pronoun, candidate tokens aligned to it, and
      candidate tokens that matched a reference token. */
  datatype DocumentSummary = DocumentSummary(
    docid: string,
    refOccurrences: map<string, int>,
    candOccurrences: map<string, int>,
    matches: map<string, int>)

  /** One of a summary's three counters. */
  datatype Counter = Matches | RefOccurrences | CandOccurrences

  function CounterOf(s: DocumentSummary, c: Counter): map<string, int>
  {
    match c
    case Matches => s.matches
    case RefOccurrences => s.refOccurrences
    case CandOccurrences => s.candOccurrences
  }

  function EmptySummary(docid: string): (s: DocumentSummary)
    ensures s.docid == docid
    ensures s.refOccurrences == map[] && s.candOccurrences == map[] && s.matches == map[]
    ensures forall p :: Get(s.refOccurrences, p) == 0 && Get(s.candOccurrences, p) == 0 && Get(s.matches, p) == 0
  {
    DocumentSummary(docid, map[], map[], map[])
  }

  /** One occurrence of pronoun `p` with reference alignments `refs` and
      candidate alignments `cands`: a fresh reference multiset is built from
      `refs`, every reference token counts one reference occurrence, every
      candidate token one candidate occurrence, and every candidate token that
      can consume a reference token one match. */
  function Occurrence(s: DocumentSummary, p: string, refs: seq<string>, cands: seq<string>): (r: DocumentSummary)
    ensures r.docid == s.docid
    ensures Get(r.refOccurrences, p) == Get(s.refOccurrences, p) + |refs|
    ensures Get(r.candOccurrences, p) == Get(s.candOccurrences, p) + |cands|
    ensures Get(r.matches, p) == Get(s.matches, p) + |multiset(refs) * multiset(cands)|
    ensures Get(r.matches, p) - Get(s.matches, p) <= |refs|
    ensures Get(r.matches, p) - Get(s.matches, p) <= |cands|
  {
    ConsumeAccounting(multiset(refs), cands);
    ConsumeIsIntersection(multiset(refs), cands);
    s.(refOccurrences := AddCount(s.refOccurrences, p, |refs|),
       candOccurrences := AddCount(s.candOccurrences, p, |cands|),
       matches := AddCount(s.matches, p, Consume(multiset(refs), cands).count))
  }

  /** An occurrence of `p` leaves the counts of every other pronoun alone. */
  lemma OccurrenceOtherKeys(s: DocumentSummary, p: string, refs: seq<string>, cands: seq<string>, q: string)
    requires q != p
    ensures var r := Occurrence(s, p, refs, cands);
      Get(r.refOccurrences, q) == Get(s.refOccurrences, q) &&
      Get(r.candOccurrences, q) == Get(s.candOccurrences, q) &&
      Get(r.matches, q) == Get(s.matches, q)
  {
    AddCountOthers(s.refOccurrences, p, |refs|, q);
    AddCountOthers(s.candOccurrences, p, |cands|, q);
    AddCountOthers(s.matches, p, Consume(multiset(refs), cands).count, q);
  }

  /** The counter invariant: no pronoun has more matches than reference
      occurrences or than candidate occurrences, and no count is negative. */
  ghost predicate MatchesBounded(s: DocumentSummary)
  {
    forall p :: 0 <= Get(s.matches, p) <= Get(s.refOccurrences, p) && Get(s.matches, p) <= Get(s.candOccurrences, p)
  }

  ghost predicate AllMatchesBounded(sums: seq<DocumentSummary>)
  {
    forall d :: 0 <= d < |sums| ==> MatchesBounded(sums[d])
  }

  /** A fresh summary satisfies the counter invariant. */
  lemma EmptySummaryBounded(docid: string)
    ensures MatchesBounded(EmptySummary(docid))
  {
  }

  /** An occurrence keeps the counter invariant. */
  lemma OccurrencePreservesBound(s: DocumentSummary, p: string, refs: seq<string>, cands: seq<string>)
    requires MatchesBounded(s)
    ensures MatchesBounded(Occurrence(s, p, refs, cands))
  {
    var r := Occurrence(s, p, refs, cands);
    forall q
      ensures 0 <= Get(r.matches, q) <= Get(r.refOccurrences, q) && Get(r.matches, q) <= Get(r.candOccurrences, q)
    {
      assert 0 <= Get(s.matches, q) <= Get(s.refOccurrences, q) && Get(s.matches, q) <= Get(s.candOccurrences, q);
      if q != p {
        OccurrenceOtherKeys(s, p, refs, cands, q);
      }
    }
  }
}
