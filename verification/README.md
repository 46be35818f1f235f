# Pronoun evaluation, modelled in Dafny

This project models the scoring core of the DiscoMT pronoun evaluation
(`java/discomt/eval/PronounEvaluation.java`). The tool reads a
word-aligned reference translation, a word-aligned candidate translation
and a document-boundary file. For every occurrence of the English pronouns
*it*/*they* (and their capitalised forms *It*/*They*) in the source text,
it compares the target words aligned to that token in the reference with
those aligned to it in the candidate. Each candidate word consumes at most
one equal reference word. Per document and per pronoun it counts reference
occurrences, candidate occurrences and matches. It then reports per-pronoun
totals, per-document totals, and the grand totals behind precision and recall.

The model is organised in modules that follow the program:

- `Counts` (counts.dfy): the Trove `TObjectIntHashMap<String>` counters as
  `map<string, int>`. A missing key reads as 0 (`Get`), and
  `adjustOrPutValue(k, d, d)` is `Increment`. The module also defines map
  sums: `MapSum` is the `forEachValue` total, and `SumOver` sums the keys
  listed in a sequence.
- `Matching` (matching.dfy): the per-occurrence greedy consumption of
  reference words by candidate words, through the `refwords` multiset.
- `Summaries` (summaries.dfy): `DocumentSummary` and the effect of one
  pronoun occurrence on it.
- `Segmenter` (segmenter.dfy): the constructor's loop over the
  document-boundary lines. It computes document start offsets and labels,
  and rejects bad lines.
- `Evaluation` (evaluation.dfy): the token pass of `evaluate()`, with its
  document cursor. The class `PronounEvaluation` holds the corpora, the
  boundaries and the mutable list of summaries, and its `Evaluate` method
  updates that list in place.
- `Report` (report.dfy): the integer aggregation in `main`. It also has
  `Run`, which composes segmentation, evaluation and aggregation.

The token pass has two specifications. `Step` describes visiting one token.
`Evaluated` folds `Step` over the first `n` tokens, starting from the
summaries already held, so calling `evaluate()` twice accumulates counts
twice, as the Java object does. The imperative `Evaluate` is proved equal
to `Evaluated` over all tokens. The properties are then proved about
`Evaluated`: locality, exact increments, and the bound of matches by
occurrences. A closed form is also proved (`EvaluatedCounts`): each counter
of each document equals its initial value plus a direct tally over the
tokens (`Tally`). For non-decreasing boundaries, that tally equals the
tally of the trigger tokens inside the document's range (`TallyLocated`).
Likewise, a pronoun becomes a key of a counter exactly when its tally there
is positive (`EvaluatedKeys`).

Greedy consumption (`Matching.Consume`) follows the loop order of the
source. It is proved to equal the multiset intersection of the reference
and candidate words. Hence the order of the candidate words does not matter.
For reference words `a a b` and candidate words `a b a`, the result is three
matches (`Matching.ConsumptionExample`).

## Model

| member | source | states |
|---|---|---|
| Counts.Get | java/discomt/eval/PronounEvaluation.java:167 | definition of Trove `get`: the count stored under a key, and 0 for a key that is absent |
| Counts.Increment | java/discomt/eval/PronounEvaluation.java:78 | `adjustOrPutValue(k, d, d)`: the key set gains `k` and the count read at `k` rises by exactly `d` (from 0 if absent) |
| Counts.IncrementOthers | java/discomt/eval/PronounEvaluation.java:173-174 | incrementing one key leaves the count of every other key unchanged |
| Counts.AddCount | java/discomt/eval/PronounEvaluation.java:76-79 | `n` unit increments of one key raise its count by `n`, and add the key only when `n > 0` (an empty alignment list creates no entry) |
| Counts.AddCountSucc | java/discomt/eval/PronounEvaluation.java:76-79 | one more unit increment after `n` of them equals `n + 1` of them, which is the step of the per-word loops |
| Counts.MapSum | java/discomt/eval/PronounEvaluation.java:151-158 | definition of the `forEachValue` summing total: the sum of all values of a map |
| Counts.SumOver | java/discomt/eval/PronounEvaluation.java:166-176 | definition of a document's sum of one counter over a pronoun list, each count read with `get` (0 for an absent pronoun), as `docMatches`/`docOccurrences` accumulate it |
| Counts.MapSumRemove | java/discomt/eval/PronounEvaluation.java:151-158 | the `forEachValue` total of a map equals any one entry plus the total of the rest, so it does not depend on iteration order |
| Counts.SumOverCovers | java/discomt/eval/PronounEvaluation.java:166-177 | summing a map over a duplicate-free key list that covers all its keys gives the whole-map total |
| Counts.SumOverNonNegative | java/discomt/eval/PronounEvaluation.java:175-176 | a sum over a list of counts that are all non-negative is non-negative |
| Counts.SumOverMono | java/discomt/eval/PronounEvaluation.java:175-176 | if every count of one map is at most the same key's count in another, then its sum over any key list is at most the other's |
| Matching.Consume | java/discomt/eval/PronounEvaluation.java:75-88 | definition of the candidate loop: candidate words are visited in order, and each one matches and removes one copy of itself if one is still left in the reference multiset |
| Matching.ConsumeAccounting | java/discomt/eval/PronounEvaluation.java:75-88 | consumption only removes reference words; each match removes exactly one (matches + remaining = reference words); there are at most as many matches as candidate words |
| Matching.ConsumeNext | java/discomt/eval/PronounEvaluation.java:83-88 | one more candidate word matches exactly when an equal reference word is still unconsumed, and then consumes one copy of it |
| Matching.ConsumeIsIntersection | java/discomt/eval/PronounEvaluation.java:75-88 | greedy consumption leaves the reference multiset minus the candidate multiset, and counts the size of their intersection |
| Matching.ConsumeOrderIndependent | java/discomt/eval/PronounEvaluation.java:83-88 | two orderings of the same candidate words give the same matches and leftovers |
| Matching.ConsumptionExample | java/discomt/eval/PronounEvaluation.java:75-88 | reference `a a b` against candidate `a b a` gives 3 matches and consumes every reference word |
| Summaries.EmptySummary | java/discomt/eval/PronounEvaluation.java:211-220 | a new summary keeps its id, and all three of its counters are empty maps with no keys, so each reads 0 for every pronoun and contributes no pronoun to the reported set |
| Summaries.Occurrence | java/discomt/eval/PronounEvaluation.java:74-89 | one occurrence raises the pronoun's reference occurrences by the number of reference alignments, its candidate occurrences by the number of candidate alignments, and its matches by the size of their multiset intersection; the added matches are at most each of the first two; the id is unchanged |
| Summaries.OccurrenceOtherKeys | java/discomt/eval/PronounEvaluation.java:78-86 | an occurrence of one pronoun leaves the counts of every other key unchanged |
| Summaries.EmptySummaryBounded | java/discomt/eval/PronounEvaluation.java:52 | a freshly created summary satisfies 0 <= matches <= reference occurrences and matches <= candidate occurrences, for every key |
| Summaries.OccurrencePreservesBound | java/discomt/eval/PronounEvaluation.java:74-89 | an occurrence preserves that bound for every key |
| Segmenter.NatToString | java/discomt/eval/PronounEvaluation.java:45 | `Integer.toString` of a non-negative number: non-empty decimal digits, with no leading zero, that read back as the number |
| Segmenter.LineError | java/discomt/eval/PronounEvaluation.java:42-51 | definition of the checks on one boundary line, in the source's order: the field count must be 1 or 2, then the first field must be a number, then that sentence must exist |
| Segmenter.SegmentsAs | java/discomt/eval/PronounEvaluation.java:35-55 | definition of the segmentation valid lines describe: line `k` starts document `k` at its sentence's first token with an empty summary under its label, and the corpus size closes the last document |
| Segmenter.Label | java/discomt/eval/PronounEvaluation.java:41-45 | a two-field line is labelled by its second field; a one-field line on line `k` is labelled exactly `"Document "` followed by `Integer.toString(k)` (`NatToString`), so there is no padding and the label reads back as `k` |
| Segmenter.StartsAppend | java/discomt/eval/PronounEvaluation.java:44-53 | one valid line extends a correctly segmented prefix by exactly one document: its sentence's first token and an empty summary under its label |
| Segmenter.Segment | java/discomt/eval/PronounEvaluation.java:35-55 | fails exactly when some line has a field count other than 1 or 2, a non-numeric first field, or a sentence number out of range, and then reports the first such line; otherwise it returns the segmentation `SegmentsAs` describes |
| Evaluation.IsTriggerWord | java/discomt/eval/PronounEvaluation.java:120-122 | definition of the trigger test: exactly the four spellings `it`, `they`, `It` and `They` |
| Evaluation.Bucket | java/discomt/eval/PronounEvaluation.java:68-72 | a trigger word is counted under its lowercase form, so `It`/`it` go to "it" and `They`/`they` go to "they" |
| Evaluation.TriggerCaseRule | java/discomt/eval/PronounEvaluation.java:71-72 | `IT`, `THEY` and `its` are not triggers, and each capitalised trigger shares its lowercase bucket |
| Evaluation.Advance | java/discomt/eval/PronounEvaluation.java:63-64 | the cursor loop stops at a document not before where it started, whose next boundary lies beyond the token |
| Evaluation.Cursor | java/discomt/eval/PronounEvaluation.java:59-64 | definition of the document cursor: starting from document 0, the cursor loop runs again for each token in turn; the result is always a valid document index |
| Evaluation.AdvanceSkips | java/discomt/eval/PronounEvaluation.java:63-64 | every boundary the cursor loop steps over is at or before the token |
| Evaluation.CursorMonotone | java/discomt/eval/PronounEvaluation.java:59-64 | the document cursor never moves backwards as the token index grows |
| Evaluation.CursorLocates | java/discomt/eval/PronounEvaluation.java:59-64 | for non-decreasing boundaries, token `i` is assigned the unique document `d` with `bounds[d] <= i < bounds[d+1]`; tokens before the first boundary go to document 0 |
| Evaluation.Step | java/discomt/eval/PronounEvaluation.java:62-89 | visiting one token keeps the number of summaries |
| Evaluation.StepIsLocal | java/discomt/eval/PronounEvaluation.java:63-89 | visiting a non-trigger token changes nothing; visiting a trigger changes only the cursor's document, and there only the counts under the trigger's lowercase form, which rise exactly by the reference alignments, the candidate alignments and their common part |
| Evaluation.Evaluated | java/discomt/eval/PronounEvaluation.java:58-118 | the pass keeps the number of summaries |
| Evaluation.EvaluatedKeepsLabels | java/discomt/eval/PronounEvaluation.java:58-118 | the pass never changes a document's id |
| Evaluation.EvaluatedMatchesBounded | java/discomt/eval/PronounEvaluation.java:58-118 | if every summary has 0 <= matches <= reference occurrences and matches <= candidate occurrences for every pronoun, the pass keeps it so |
| Evaluation.StepCounts | java/discomt/eval/PronounEvaluation.java:63-89 | visiting one token adds to each counter of each document exactly that token's share: its reference alignments, candidate alignments or their common part if it is a trigger whose lowercase form is the counter's pronoun and the cursor is in that document, and nothing otherwise |
| Evaluation.EvaluatedNextStep | java/discomt/eval/PronounEvaluation.java:62-89 | extending the pass by one token adds exactly that token's share to every counter |
| Evaluation.EvaluatedCounts | java/discomt/eval/PronounEvaluation.java:58-118 | after the pass over the first `n` tokens, every counter of every document equals its initial value plus a direct tally of the shares of those tokens |
| Evaluation.ShareLocated | java/discomt/eval/PronounEvaluation.java:59-89 | for non-decreasing boundaries, a token's share goes to the document whose range holds it, so the tally counts exactly the triggers inside each document's range |
| Evaluation.TallyLocated | java/discomt/eval/PronounEvaluation.java:59-89 | for non-decreasing boundaries, the cursor's tally of a document equals the tally of the trigger tokens inside its range (`RangeTally`), so the counts after the pass depend only on the document ranges |
| Evaluation.StepKeys | java/discomt/eval/PronounEvaluation.java:76-86 | visiting a token creates a key in a counter exactly when it gives that key a positive share, and never removes a key |
| Evaluation.EvaluatedNextKeys | java/discomt/eval/PronounEvaluation.java:62-89 | extending the pass by one token creates exactly the keys that token gives a positive share |
| Evaluation.EvaluatedKeys | java/discomt/eval/PronounEvaluation.java:58-118 | after the pass, a pronoun is a key of a document's counter exactly when it was one before, or the tally of its shares there is positive; a trigger with an empty alignment list creates no key |
| Evaluation.CandidateStep | java/discomt/eval/PronounEvaluation.java:83-88 | one iteration of the candidate loop is one unit increment of candidate occurrences, and a match increment exactly when consumption matched the word |
| Evaluation.CountOccurrence | java/discomt/eval/PronounEvaluation.java:74-89 | the two per-word loops, with a fresh `refwords` multiset, produce exactly `Summaries.Occurrence` |
| Evaluation.PronounEvaluation.constructor | java/discomt/eval/PronounEvaluation.java:28-56 | the evaluator holds the two corpora, the segmentation's boundaries and its summaries |
| Evaluation.PronounEvaluation.Evaluate | java/discomt/eval/PronounEvaluation.java:58-118 | the in-place pass leaves the summary list equal to `Evaluated` over every source token, starting from the list it held, and returns that list |
| Report.PronounSetMembers | java/discomt/eval/PronounEvaluation.java:133-135 | a pronoun is reported exactly when some document has a candidate-occurrence entry for it |
| Report.PronounSet | java/discomt/eval/PronounEvaluation.java:133-135 | definition of the reported pronoun set: the union of the documents' candidate-occurrence keys |
| Report.ReportedPronouns | java/discomt/eval/PronounEvaluation.java:133-135 | starting from empty candidate counters, a pronoun is reported exactly when, in some document, the triggers of that lowercase form have a positive tally of candidate alignments |
| Report.CollectPronouns | java/discomt/eval/PronounEvaluation.java:133-136 | the pronoun array has no duplicates and holds exactly the union of all documents' candidate-occurrence keys |
| Report.ToList | java/discomt/eval/PronounEvaluation.java:136 | `toArray` lists each set member exactly once |
| Report.AddValues | java/discomt/eval/PronounEvaluation.java:151-158 | the `forEachValue` counter adds the sum of all values of the map |
| Report.AddDocument | java/discomt/eval/PronounEvaluation.java:163-177 | one document's inner loop: its matches and its reference occurrences summed over the reported pronouns, each added to that pronoun's running total |
| Report.Aggregate | java/discomt/eval/PronounEvaluation.java:144-185 | the report `Tabulates` the summaries for the given pronoun list: per document, its matches and reference occurrences summed over the pronouns; per pronoun, its totals over the documents; the total matches and reference occurrences summed over documents; and the candidate total summed over every candidate counter |
| Report.Tabulates | java/discomt/eval/PronounEvaluation.java:144-185 | definition of what the reporting loops compute from the summaries for a pronoun list (see `Aggregate`) |
| Report.Total | java/discomt/eval/PronounEvaluation.java:175-181 | definition of a grand total: one counter summed over the listed pronouns and over all documents |
| Report.PronounTotal | java/discomt/eval/PronounEvaluation.java:173-174 | definition of a per-pronoun total: one counter of one pronoun summed over all documents |
| Report.CandTotal | java/discomt/eval/PronounEvaluation.java:183-185 | definition of the candidate total: the sum of every value of every document's candidate counter |
| Report.PronounTotalsBounded | java/discomt/eval/PronounEvaluation.java:173-174 | given the per-summary bound, each pronoun's total matches lie between 0 and its total reference occurrences, and are at most its total candidate occurrences |
| Report.TotalsBounded | java/discomt/eval/PronounEvaluation.java:175-185 | given the per-summary bound, 0 <= total matches <= total reference occurrences, and total matches <= candidate occurrences over the same pronouns |
| Report.CandTotalByPronoun | java/discomt/eval/PronounEvaluation.java:133-136 | because the reported pronouns cover every candidate key, the `forEachValue` candidate total equals the candidate occurrences summed over the reported pronouns |
| Report.Run | java/discomt/eval/PronounEvaluation.java:130-185 | the run fails exactly when a boundary line is bad, and then with the error of the first bad line; otherwise the segmentation is the one the lines describe, the summaries are `Evaluated` over every token from that segmentation's empty summaries, the pronoun list is duplicate-free and holds exactly the reported pronoun set, the report `Tabulates` those summaries for that list, the candidate total equals the candidate occurrences summed over the list, there is one row per document, and 0 <= matches <= reference occurrences and matches <= candidate occurrences, so recall and precision never exceed 1 |

## Left out

- Reading the files (`AlignedCorpus.loadCorpus`, `BufferedReader`): the corpora are given as values of tokens, alignment lists and sentence start offsets. The corpus class `AlignedCorpus` is not part of this model.
- `String.split("\\s")` and `Integer.parseInt`: a boundary line is given as its list of fields and the parsed value of its first field, or `None` exactly when `Integer.parseInt` would throw on that field (it accepts a leading `+` or `-` and rejects values outside the 32-bit range).
- `System.exit(1)` on an invalid boundary line, and the exceptions from `parseInt` and `getSentenceStart`: these end the run, and are modelled as a `Failure` naming the line.
- The argument-count check and usage message in `main` (lines 125-128).
- Verbose tracing (lines 91-114) and all printing and formatting (lines 139-142, 165, 170-172, 179, 187-203, 206-209).
- The floating-point ratio, recall, precision and F1 (lines 178, 193-197). The model proves the integer bounds that keep recall and precision at most 1.
- `Arrays.sort(pronouns)` (line 137): the order of the reported pronouns only affects output order. `CollectPronouns` returns them in no particular order.
- Java's 32-bit `int` overflow: counts and totals are unbounded integers.
- `toLowerCase` in general: it is only ever applied to the four trigger spellings, so `Bucket` is written out for them.
- Evaluation.Bucket: assumes a default locale in which `toLowerCase` maps `I` to `i` and `T` to `t`. Under a Turkish or Azeri default locale, `"It".toLowerCase()` at line 72 gives a dotless `ı`. `It` and `it` would then be counted under different keys, and that key would be reported as a separate pronoun. The model does not capture this; `Bucket` and `TriggerCaseRule` hold only under that locale assumption.
- Report.Run: requires a non-empty boundary file when the corpus is non-empty, because the source then throws an `IndexOutOfBoundsException` at line 63. It also requires alignment lists for every reference token, and candidate alignments at least as long, because `getAlignedElements` would otherwise fail.
- Evaluation.CursorLocates: assumes non-decreasing document boundaries. The source does not check this. Without it, the cursor still never moves back (`CursorMonotone`), but a token may go to a document whose range does not contain it.
- The source does not check that the reference and the candidate have the same number of tokens. The model, like the source, reads candidate alignments by the reference token index.
- As in the source, the total of reference occurrences (`Report.Aggregate`) only sums pronouns that occur as keys of some candidate counter. A pronoun seen only on the reference side never enters the totals.
