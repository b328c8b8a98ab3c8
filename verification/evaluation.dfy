/** The aspect-level scoring mode end to end, without the printing of ratios. */
module Evaluation {
  import opened Base
  import opened Records
  import opened GoldIndex
  import opened Aggregate
  import opened Sentiment

  /** The numbers the report's ratios are computed from. */
  datatype Report = Report(counters: Counters, goldSize: nat, fullSentiment: nat, partialSentiment: nat)

  /** A predicted line reads and names a document that some gold line names. */
  predicate PredictionKnown(goldLines: seq<string>, line: string, parseInt: IntParser) {
    ParsePredLine(line, parseInt).Success? && NamesDocument(goldLines, ParsePredLine(line, parseInt).value.doc, parseInt)
  }

  /** Indexes the gold lines, scores the predicted lines against them, and counts sentiment
      agreement over the full and the partial records. The gold file is read first, so its first
      malformed line wins; then the first predicted line that is malformed or names a document
      the gold file lacks. */
  function ScoreAspects(goldLines: seq<string>, predLines: seq<string>, parseInt: IntParser): (r: Result<Report>)
    ensures r.Success? <==>
      && (forall m :: 0 <= m < |goldLines| ==> ParseGoldLine(goldLines[m], parseInt).Success?)
      && (forall m :: 0 <= m < |predLines| ==> PredictionKnown(goldLines, predLines[m], parseInt))
    ensures r.Failure? && !(forall m :: 0 <= m < |goldLines| ==> ParseGoldLine(goldLines[m], parseInt).Success?) ==>
      exists m :: 0 <= m < |goldLines| && ParseGoldLine(goldLines[m], parseInt) == Failure(r.error)
        && (forall j :: 0 <= j < m ==> ParseGoldLine(goldLines[j], parseInt).Success?)
    ensures r.Failure? && (forall m :: 0 <= m < |goldLines| ==> ParseGoldLine(goldLines[m], parseInt).Success?) ==>
      exists m :: 0 <= m < |predLines| && !PredictionKnown(goldLines, predLines[m], parseInt)
        && (forall j :: 0 <= j < m ==> PredictionKnown(goldLines, predLines[j], parseInt))
        && (ParsePredLine(predLines[m], parseInt).Failure? ==> r.error == ParsePredLine(predLines[m], parseInt).error)
        && (ParsePredLine(predLines[m], parseInt).Success? ==>
              r.error == UnknownDocument(ParsePredLine(predLines[m], parseInt).value.doc))
    ensures r.Success? ==> r.value.goldSize == |goldLines| && r.value.counters.total == |predLines|
    ensures r.Success? ==> Consistent(r.value.counters)
    ensures r.Success? ==>
      && r.value.fullSentiment == SentimentMatches(r.value.counters.fullPairs)
      && r.value.partialSentiment == SentimentMatches(r.value.counters.partialPairs)
    ensures r.Success? ==>
      r.value.fullSentiment <= r.value.counters.full && r.value.partialSentiment <= r.value.counters.partial
  {
    match GoldInfoLines(goldLines, parseInt)
    case Failure(e) => Failure(e)
    case Success(info) =>
      var ix := info.0;
      forall m | 0 <= m < |predLines|
        ensures ReadPrediction(ix, predLines[m], parseInt).Success? <==> PredictionKnown(goldLines, predLines[m], parseInt)
      {
      }
      match RunLines(ix, predLines, parseInt)
      case Failure(e) => Failure(e)
      case Success(c) =>
        RunLinesConsistent(ix, predLines, parseInt);
        Success(Report(c, info.1, SentimentMatches(c.fullPairs), SentimentMatches(c.partialPairs)))
  }

  /** A successful report holds the counters of the matching run over the predicted lines as
      read, against the index built from the gold lines as read. */
  lemma {:induction false} ScoreAspectsIsRun(goldLines: seq<string>, predLines: seq<string>, parseInt: IntParser)
    ensures ScoreAspects(goldLines, predLines, parseInt).Success? ==>
      && ParseGoldLines(goldLines, parseInt).Success? && ParsePredLines(predLines, parseInt).Success?
      && Run(Build(ParseGoldLines(goldLines, parseInt).value), ParsePredLines(predLines, parseInt).value).Success?
      && ScoreAspects(goldLines, predLines, parseInt).value.counters
         == Run(Build(ParseGoldLines(goldLines, parseInt).value), ParsePredLines(predLines, parseInt).value).value
  {
    if ScoreAspects(goldLines, predLines, parseInt).Success? {
      var info := GoldInfoLines(goldLines, parseInt).value;
      var ix := info.0;
      assert ix == Build(ParseGoldLines(goldLines, parseInt).value);
      var preds := ParsePredLines(predLines, parseInt).value;
      RunLinesIsRun(ix, predLines, preds, parseInt);
      assert RunLines(ix, predLines, parseInt).Success?;
    }
  }
}
