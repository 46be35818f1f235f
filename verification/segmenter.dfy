/** The document segmenter: the constructor's loop over the lines of the
    document-boundary file. */
module Segmenter {
  import opened Wrappers
  import opened Summaries

  /** One line of the boundary file, already split at every single
      whitespace character, with the value `Integer.parseInt` gives its first
      field (`None` exactly when `Integer.parseInt` would throw on it). */
  datatype BoundaryLine = BoundaryLine(fields: seq<string>, number: Option<int>)

  /** The fatal conditions, each naming the 0-based line it was met on. */
  datatype BoundaryError =
    | InvalidLine(line: nat)     // neither one nor two fields
    | NotANumber(line: nat)      // first field does not parse
    | NoSuchSentence(line: nat)  // sentence number outside the corpus

  /** Token-index boundaries (one per line plus the closing corpus size) and
      one empty summary per line. */
  datatype Segmentation = Segmentation(boundaries: seq<int>, summaries: seq<DocumentSummary>)

  function Digit(n: nat): (c: char)
    requires n < 10
    ensures '0' <= c <= '9' && c as int - '0' as int == n
  {
    ['0', '1', '2', '3', '4', '5', '6', '7', '8', '9'][n]
  }

  predicate IsDecimal(s: string)
  {
    forall i :: 0 <= i < |s| ==> '0' <= s[i] <= '9'
  }

  /** The value of a string of decimal digits. */
  function DecimalValue(s: string): nat
    requires IsDecimal(s)
  {
    if s == [] then 0 else 10 * DecimalValue(s[..|s| - 1]) + (s[|s| - 1] as int - '0' as int)
  }

  /** `Integer.toString` of a non-negative number: its decimal digits, with no
      leading zero. */
  function NatToString(n: nat): (s: string)
    ensures |s| >= 1 && IsDecimal(s)
    ensures s[0] == '0' ==> s == "0"
    ensures DecimalValue(s) == n
  {
    if n < 10 then [Digit(n)]
    else
      var init := NatToString(n / 10);
      assert (init + [Digit(n % 10)])[..|init|] == init;
      init + [Digit(n % 10)]
  }

  /** The check a line must pass, in the order the source makes it: the field
      count, then the number, then the sentence lookup. */
  function LineError(line: BoundaryLine, k: nat, sentenceStarts: seq<int>): Option<BoundaryError>
  {
    if |line.fields| != 1 && |line.fields| != 2 then Some(InvalidLine(k))
    else if line.number.None? then Some(NotANumber(k))
    else if !(0 <= line.number.value < |sentenceStarts|) then Some(NoSuchSentence(k))
    else None
  }

  /** The document label: the second field when there is one, otherwise
      "Document k" with k the line's 0-based position. */
  function Label(line: BoundaryLine, k: nat): (id: string)
    requires |line.fields| == 1 || |line.fields| == 2
    ensures |line.fields| == 2 ==> id == line.fields[1]
    ensures |line.fields| == 1 ==> id == "Document " + NatToString(k)
    ensures |line.fields| == 1 ==> |id| > 9 && id[..9] == "Document " && IsDecimal(id[9..]) && DecimalValue(id[9..]) == k
  {
    if |line.fields| == 2 then line.fields[1]
    else
      var digits := NatToString(k);
      assert ("Document " + digits)[9..] == digits;
      "Document " + digits
  }

  /** The segmentation that boundary lines describe when all are valid: line k starts
      document k at the first token of its sentence and labels it, and the
      corpus size closes the last document. */
  predicate SegmentsAs(seg: Segmentation, lines: seq<BoundaryLine>, sentenceStarts: seq<int>, size: int)
  {
    && |seg.boundaries| == |lines| + 1 && |seg.summaries| == |lines|
    && seg.boundaries[|lines|] == size
    && forall k :: 0 <= k < |lines| ==> Starts(seg.boundaries[k], seg.summaries[k], lines[k], k, sentenceStarts)
  }

  /** Line k is valid, and document k starts at the first token of its
      sentence with an empty summary under its label. */
  predicate Starts(start: int, summary: DocumentSummary, line: BoundaryLine, k: nat, sentenceStarts: seq<int>)
  {
    && LineError(line, k, sentenceStarts).None?
    && start == sentenceStarts[line.number.value]
    && summary == EmptySummary(Label(line, k))
  }

  /** A valid line extends a segmented prefix by one document. */
  lemma StartsAppend(boundaries: seq<int>, summaries: seq<DocumentSummary>, lines: seq<BoundaryLine>, sentenceStarts: seq<int>, docno: nat)
    requires |boundaries| == docno && |summaries| == docno && docno < |lines|
    requires forall k :: 0 <= k < docno ==> Starts(boundaries[k], summaries[k], lines[k], k, sentenceStarts)
    requires LineError(lines[docno], docno, sentenceStarts).None?
    ensures var b, s := boundaries + [sentenceStarts[lines[docno].number.value]], summaries + [EmptySummary(Label(lines[docno], docno))];
      forall k :: 0 <= k < docno + 1 ==> Starts(b[k], s[k], lines[k], k, sentenceStarts)
  {
    var b, s := boundaries + [sentenceStarts[lines[docno].number.value]], summaries + [EmptySummary(Label(lines[docno], docno))];
    forall k | 0 <= k < docno + 1
      ensures Starts(b[k], s[k], lines[k], k, sentenceStarts)
    {
      if k < docno {
        assert b[k] == boundaries[k] && s[k] == summaries[k];
      }
    }
  }

  /** Reads the boundary lines in order. The first line that fails its check
      ends the run with that error; otherwise line k starts document k at the
      first token of its sentence, and the corpus size closes the last one. */
  method Segment(lines: seq<BoundaryLine>, sentenceStarts: seq<int>, size: int)
    returns (r: Result<Segmentation, BoundaryError>)
    ensures r.Success? <==> forall k :: 0 <= k < |lines| ==> LineError(lines[k], k, sentenceStarts).None?
    ensures r.Failure? ==>
      r.error.line < |lines| &&
      LineError(lines[r.error.line], r.error.line, sentenceStarts) == Some(r.error) &&
      forall j :: 0 <= j < r.error.line ==> LineError(lines[j], j, sentenceStarts).None?
    ensures r.Success? ==> SegmentsAs(r.value, lines, sentenceStarts, size)
  {
    var boundaries: seq<int> := [];
    var summaries: seq<DocumentSummary> := [];
    var docno := 0;
    while docno < |lines|
      invariant docno <= |lines|
      invariant |boundaries| == docno && |summaries| == docno
      invariant forall k :: 0 <= k < docno ==> Starts(boundaries[k], summaries[k], lines[k], k, sentenceStarts)
    {
      var line := lines[docno];
      var error := LineError(line, docno, sentenceStarts);
      if error.Some? {
        assert error.value.line == docno;
        assert forall j :: 0 <= j < docno ==> LineError(lines[j], j, sentenceStarts).None?;
        return Failure(error.value);
      }
      StartsAppend(boundaries, summaries, lines, sentenceStarts, docno);
      var docid := Label(line, docno);
      boundaries := boundaries + [sentenceStarts[line.number.value]];
      summaries := summaries + [EmptySummary(docid)];
      docno := docno + 1;
    }
    boundaries := boundaries + [size];
    assert SegmentsAs(Segmentation(boundaries, summaries), lines, sentenceStarts, size);
    r := Success(Segmentation(boundaries, summaries));
  }
}
