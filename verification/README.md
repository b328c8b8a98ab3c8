# Aspect-based sentiment evaluation, modelled in Dafny

This project models the scoring core of an evaluation script for aspect-based sentiment analysis
on restaurant reviews. A gold file and a prediction file each list aspect spans, one per line. A
line gives the review (document) id, a category, an unused field, the start and end character
offsets, and a sentiment, separated by tabs. The script does four things:

- It indexes the gold spans by document, as four parallel lists (starts, ends, categories,
  sentiments) in file order, and counts them.
- It classifies every prediction as a full match, one or more partial matches, or no match. The
  rules are positional: an exact-start probe, then a scan over the document's gold start values.
  Every lookup resolves a start value to the first gold span that has it.
- It counts full, partial and category-agreeing matches and keeps the matched pairs.
- It counts sentiment agreement over the matched pairs. A separate review-level mode gives the
  share of distinct gold lines that also occur in the predicted file.

Modules, leaves first:

- `Base` (base.dfy): `Option`, `Result`, the `Error` kinds, and `Collect` (first failure wins).
- `Fields` (fields.dfy): `rstrip('\r\n')` and `split('\t')` on one line.
- `Records` (records.dfy): gold and predicted records read from the fields of a line.
- `GoldIndex` (gold_index.dfy): the gold dictionary and the gold size.
- `SpanMatch` (span_match.dfy): the matching policy for one prediction.
- `Aggregate` (aggregate.dfy): the pass over all predictions and its counters.
- `Sentiment` (sentiment.dfy): sentiment agreement and review-level accuracy.
- `Evaluation` (evaluation.dfy): the aspect-level mode end to end, without the printing.
- `Scenarios` (scenarios.dfy): small concrete inputs that pin the policy down.

The Python exceptions become `Failure` values. Each file is read line by line and the first
failing line stops the run; the gold file is read before the predicted file:

- an `IndexError` on a short line becomes `MissingField`;
- a `ValueError` from `int()` becomes `NotAnInteger`;
- the `KeyError` for a prediction whose document is not in the gold file becomes `UnknownDocument`;
- the `ZeroDivisionError` on an empty gold file in the review-level mode becomes `DivisionByZero`.

Four consequences of the code are easy to miss, and the model keeps them:

- An exact (start, end) equality with a gold span is not always a full match. The probe only looks
  at the first gold span with the prediction's start. Suppose a prediction is identical to a later
  span that repeats that start value, the first span with that start ends elsewhere, and the later
  span does not end before it starts. Then the prediction is not a full match and gets at least one
  partial record (`DuplicateStartNotFull`). Without those two conditions it can still be a full
  match (the first span may have the same end too) or get no record at all (an inverted span).
- Every partial record holds the first span with its start value: the span the start value resolves
  to, whichever span's end let the forward search succeed. The scan's first record comes from the first firing position
  (`ScanFirstRecord`, `DuplicateStartScenario`). An exact-end hit records its span and the scan goes
  on to the next position; any other hit records its span and ends the scan (`ScanStep`). So further
  records follow only after exact-end hits.
- After a failed forward search, the second branch is never tried for the same start value.
  Its guard `start > s_pos` is the negation of the first branch's guard.
- A predicted line needs only five fields. Sentiment agreement compares the gold sentiment with the
  LAST field of the predicted line, which is the sentiment only on a six-field line. `Prediction.last`
  holds that field.

## Model

| member | source | states |
|---|---|---|
| `Fields.StripEol` | evaluation.py:38 | the result is a prefix of the line, does not end in a line break, and only line-break characters were removed |
| `Fields.SplitTabs` | evaluation.py:38 | one more field than there are tabs, no field holds a tab, and joining the fields with tabs gives the line back |
| `Fields.SplitJoin` | evaluation.py:64 | splitting the tab-join of tab-free fields gives those fields back |
| `Records.ParseGoldFields` | evaluation.py:38-44 | a gold line reads iff it has at least six fields and both offsets parse; the record takes document, category, offsets and sentiment from fields 0, 1, 3, 4, 5; the errors come in the order the source meets them: field 3 missing or not an integer, then field 4 missing or not an integer, then field 5 missing |
| `Records.ParsePredFields` | evaluation.py:64-66 | a predicted line reads iff it has at least five fields and both offsets parse; `last` is the final field; the errors come in source order: field 3 missing or not an integer, then field 4 missing or not an integer |
| `Records.ParseGoldLine` | evaluation.py:38 | a gold line that reads has at least five tabs once stripped, and its document, category and sentiment hold no tab |
| `Records.ParsePredLine` | evaluation.py:64 | a predicted line that reads has at least four tabs once stripped; its document, category and last field hold no tab, and the last field does not end in a line break |
| `Records.GoldLineRoundTrip` | evaluation.py:37-44 | writing a gold record as a tab-separated line and reading it back gives the same record |
| `Records.ParseGoldLines` | evaluation.py:36-44 | all gold lines read iff each one does, one record per line in order; otherwise the error is that of the first malformed line |
| `Records.ParsePredLines` | evaluation.py:61-66 | all predicted lines read iff each one does, one prediction per line in order; otherwise the error is that of the first malformed line |
| `GoldIndex.Insert` | evaluation.py:39-44 | filing a record creates its document's entry on first sight (appending the document to the key order), appends the record's start, end, category and sentiment to that entry's four lists, and leaves every other entry alone |
| `GoldIndex.Build` | evaluation.py:34-44 | the index is valid: distinct keys, the same keys as the map, and four lists of equal length per document |
| `GoldIndex.RecordsOfNonEmpty` | evaluation.py:39-40 | a document has records iff some record names it |
| `GoldIndex.BuildKeepsFileOrder` | evaluation.py:39-44 | each document's lists are the columns of exactly that document's records in file order; a document has an entry iff it has a record |
| `GoldIndex.SumSizes` | evaluation.py:46 | the sum over the listed keys is zero iff every listed document has no category, and is at least each listed document's count |
| `GoldIndex.GoldSize` | evaluation.py:46 | the gold size is zero iff no document has a span, and is at least every document's span count |
| `GoldIndex.GoldSizeCountsRecords` | evaluation.py:46 | the sum of the category-list lengths over the keys equals the number of gold records |
| `GoldIndex.GoldInfo` | evaluation.py:30-48 | the returned index is valid and the returned size is the number of records |
| `GoldIndex.GoldInfoLines` | evaluation.py:30-48 | from raw lines it succeeds iff every line reads, and then the gold size is the number of lines a document is a key iff some gold line names it, and the index is the one built from the records read, each document's four lists holding its records' columns in file order; otherwise the error is that of the first malformed line |
| `SpanMatch.FirstIndexOf` | evaluation.py:69 | `list.index`: the position of the first occurrence of the value |
| `SpanMatch.ForwardHit` | evaluation.py:107-109 | the search over `ends[i:]` succeeds iff `s_pos <= end` and some end from position `i` on is at least `end` |
| `SpanMatch.Scan` | evaluation.py:88-145 | at most one record per remaining scan position; every record pairs the prediction with the first gold span of its start value and satisfies the partial-match relation; every record but the last is an exact-end hit |
| `SpanMatch.Classify` | evaluation.py:68-145 | a full match coincides with the prediction's offsets and is the first span with its start; partial records number at most the gold spans and are all sound |
| `SpanMatch.FullMatchIff` | evaluation.py:68-87 | full match iff the first gold span with the prediction's start has the prediction's end, and that span is recorded |
| `SpanMatch.ScanStep` | evaluation.py:88-145 | at a firing position the scan records the first span of that position's start value; after an exact-end hit it goes on to the next position, after any other hit it stops, and a position that does not fire adds nothing |
| `SpanMatch.ScanLength` | evaluation.py:88-145 | the scan records one match per exact-end hit before the first position whose hit ends the scan, plus one for that position when it exists |
| `SpanMatch.ScanEmptyIff` | evaluation.py:88-145 | the scan records nothing iff no position fires under the reference condition `Fires` |
| `SpanMatch.ScanFirstRecord` | evaluation.py:107-127 | the first record is the first span of the first firing position's start value: the span that start value resolves to, whichever span's end let the forward search succeed |
| `SpanMatch.NoMatchIff` | evaluation.py:68-145 | no record at all iff the probe fails and no scan position fires |
| `SpanMatch.DuplicateStartNotFull` | evaluation.py:68-70 | a prediction equal to a later span that repeats an earlier start, where the first span with that start ends elsewhere and the later span does not end before it starts, is not a full match but gets at least one partial record |
| `SpanMatch.NoOverlapNoMatch` | evaluation.py:88-145 | non-empty gold spans lying wholly before or after the prediction give no match |
| `Aggregate.EmitPartials` | evaluation.py:92-105 | the partial counter grows by the number of records and the records are appended in order; the partial category counter grows by at most that many; the full side and the total stay |
| `Aggregate.EmitPartialsConsistent` | evaluation.py:92-105 | recording sound partial matches keeps the counters consistent |
| `Aggregate.Step` | evaluation.py:63 | every predicted line adds one to the total, whatever its outcome; its effect on the other counters is `Aggregate.StepCounts` |
| `Aggregate.StepCounts` | evaluation.py:71-76 | a full match adds exactly one full record, raises exactly one of the two category counters by one, and leaves the partial counter and list alone; otherwise the partial counter and list grow by the records emitted, the partial category counter by at most that many, and the full side stays |
| `Aggregate.StepConsistent` | evaluation.py:63-145 | scoring one prediction keeps the counters consistent |
| `Aggregate.Run` | evaluation.py:61-67 | the run succeeds iff every prediction's document is in the gold index; otherwise it fails with the first unknown document; `total` is the number of predictions |
| `Aggregate.RunConsistent` | evaluation.py:56-147 | after a run the counters are consistent: list lengths equal counters, `full_cat <= full <= total`, `full_cat + partial_cat <= full + partial`, full records coincide with their gold span, partial records overlap it |
| `Aggregate.RunPairsOutcomes` | evaluation.py:56-147 | after a run the full list is the pairs of the full outcomes and the partial list the concatenated records of the partial outcomes, in prediction order, against the reference `Outcomes` (each prediction classified on its own) |
| `Aggregate.RunCountsOutcomes` | evaluation.py:56-147 | after a run `full` is the number of full outcomes, `partial` the number of partial records, `full_cat` the category agreements among the full pairs, and `full_cat + partial_cat` the full count plus the category agreements among the partial records |
| `Aggregate.ReadPrediction` | evaluation.py:64-67 | a predicted line is usable iff it reads and its document is a gold key; the line's own error comes first, then the unknown document |
| `Aggregate.RunLines` | evaluation.py:61-67 | scoring raw lines succeeds iff every line reads and names a gold document; otherwise the error is that of the first such failing line in file order; `total` is the number of lines |
| `Aggregate.RunLinesIsRun` | evaluation.py:61-67 | scoring raw lines that all read equals scoring the predictions they read as, including which unknown document stops the run |
| `Aggregate.RunLinesConsistent` | evaluation.py:61-147 | after a run over raw lines the counters are consistent |
| `Sentiment.SentimentMatches` | evaluation.py:150-162 | the count lies between 0 and the number of pairs |
| `Sentiment.SentimentMatchesAppend` | evaluation.py:156-160 | counting over two lists of pairs adds up |
| `Sentiment.SentimentMatchesAll` | evaluation.py:156-162 | the count equals the number of pairs iff every pair's sentiments agree |
| `Sentiment.SentimentMatchesNone` | evaluation.py:156-162 | the count is zero iff no pair's sentiments agree |
| `Sentiment.OverallAccuracy` | evaluation.py:165-173 | fails iff the gold file has no lines; otherwise lies in [0, 1], is 1 iff every gold line is predicted, and 0 iff none is |
| `Sentiment.AccuracyAppendPrediction` | evaluation.py:169-173 | with no predicted lines the accuracy is 0; one more predicted line raises it by one over the number of distinct gold lines when it is a gold line not predicted before and leaves it unchanged otherwise, which fixes the value as the share of distinct gold lines predicted |
| `Sentiment.DuplicatesCollapse` | evaluation.py:170-171 | the accuracy depends only on which lines occur, not on how often |
| `Evaluation.ScoreAspects` | evaluation.py:202-205 | succeeds iff every gold line reads and every predicted line reads and names a document some gold line names; otherwise the first malformed gold line's error, or when the gold file reads, the first failing predicted line's error; on success the gold size is the number of gold lines, `total` the number of predicted lines, the counters are consistent, and the two sentiment counts are the agreement counts of the full and of the partial records |
| `Evaluation.ScoreAspectsIsRun` | evaluation.py:202-203 | on success both files read, and the reported counters are those of the matching run over the predictions as read, against the index built from the gold records as read |
| `Scenarios.ExactSpanScenario` | evaluation.py:68-87 | a prediction identical to the only gold span is one full match with agreeing category and sentiment |
| `Scenarios.OverrunScenario` | evaluation.py:107-127 | gold (0,5) and prediction (0,7) with no later end to reach: no match |
| `Scenarios.DuplicateStartScenario` | evaluation.py:107-127 | gold (0,5),(0,7) and prediction (0,7): one partial record, holding the gold span (0,5) |
| `Scenarios.RepeatedPartialScenario` | evaluation.py:89-106 | two gold spans ending at the prediction's end give that one prediction two partial records |
| `Scenarios.CollapseScenario` | evaluation.py:170-173 | gold lines a, a, b against predicted line a gives 1/2 |

## Left out

- `check_path_exists` and `check_file_extension` (evaluation.py:9-27): they only wrap `os.path` library behaviour.
- `main`, argument parsing and the printed report (evaluation.py:176-233): the float ratios are not
  modelled. `Evaluation.ScoreAspects` gives the counts they are computed from.
- Opening and reading files: files are sequences of lines, already read.
- Python's `int()` is the parameter `parseInt`. Its lexical rules (signs, spaces, underscores) are
  not modelled.
- `Sentiment.SentimentMatches`: the source adds up a float starting at `0.`. The model counts with
  a natural number, which agrees while the count stays below 2^53.
- `Sentiment.OverallAccuracy`: the result is an exact real quotient. Floating-point rounding is not modelled.
- `Aggregate.RunLines` reads and looks up every line before matching, where the source matches each
  line before reading the next. Matching cannot fail, so the result and the error are the same.
- A match record keeps the predicted line's document, category, offsets and last field, not the
  whole list of fields. The other fields are never read again.
- When an exception aborts the source midway (a partly filled gold dictionary, a `total` already
  incremented), that state is not modelled. The model returns only the error.
