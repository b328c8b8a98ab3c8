/** Running the matcher over the whole prediction stream and counting what it records. */
module Aggregate {
  import opened Base
  import opened Records
  import opened GoldIndex
  import opened SpanMatch

  /** The counters and match lists of one scoring run. */
  datatype Counters = Counters(
    full: nat, partial: nat, fullCat: nat, partialCat: nat,
    fullPairs: seq<MatchPair>, partialPairs: seq<MatchPair>,
    total: nat)

  const Zero := Counters(0, 0, 0, 0, [], [], 0)

  /** A record whose gold category equals the prediction's category. */
  predicate CategoryAgrees(m: MatchPair) {
    m.gold.category == m.pred.category
  }

  /** The number of records whose categories agree. */
  function CatAgree(ps: seq<MatchPair>): (n: nat)
    ensures n <= |ps|
  {
    if |ps| == 0 then 0
    else CatAgree(ps[..|ps| - 1]) + (if CategoryAgrees(ps[|ps| - 1]) then 1 else 0)
  }

  /** Every full record coincides with its gold span. */
  predicate AllExact(ps: seq<MatchPair>) {
    |ps| == 0 || (AllExact(ps[..|ps| - 1]) && ps[|ps| - 1].gold.start == ps[|ps| - 1].pred.start
                  && ps[|ps| - 1].gold.end == ps[|ps| - 1].pred.end)
  }

  /** Every partial record satisfies the partial-match relation with its gold span. */
  predicate AllOverlap(ps: seq<MatchPair>) {
    |ps| == 0 || (AllOverlap(ps[..|ps| - 1]) && PartialCond(ps[|ps| - 1].pred, ps[|ps| - 1].gold))
  }

  /** The recursive forms say the same as quantifying over every record. */
  lemma {:induction false} AllExactOverlapMeaning(ps: seq<MatchPair>)
    ensures AllExact(ps) <==> forall m :: 0 <= m < |ps| ==>
      ps[m].gold.start == ps[m].pred.start && ps[m].gold.end == ps[m].pred.end
    ensures AllOverlap(ps) <==> forall m :: 0 <= m < |ps| ==> PartialCond(ps[m].pred, ps[m].gold)
  {
    if |ps| > 0 {
      var init := ps[..|ps| - 1];
      AllExactOverlapMeaning(init);
      assert forall m :: 0 <= m < |init| ==> init[m] == ps[m];
    }
  }

  /** What holds of the counters after every prediction: each list has as many records as its
      counter says, every full record coincides with its gold span, every partial record overlaps
      its gold span, and the category counters are determined by the recorded pairs (a full match
      whose category differs counts towards the partial category counter). */
  predicate Consistent(c: Counters) {
    && |c.fullPairs| == c.full
    && |c.partialPairs| == c.partial
    && c.full <= c.total
    && c.fullCat == CatAgree(c.fullPairs)
    && c.fullCat + c.partialCat == c.full + CatAgree(c.partialPairs)
    && AllExact(c.fullPairs)
    && AllOverlap(c.partialPairs)
  }

  /** Records one partial match; the category counter moves only when the categories agree. */
  function EmitPartial(c: Counters, pair: MatchPair, category: string): Counters {
    c.(partial := c.partial + 1,
       partialPairs := c.partialPairs + [pair],
       partialCat := c.partialCat + (if pair.gold.category == category then 1 else 0))
  }

  /** Records the partial matches of one prediction, in the order the scan emits them. */
  function EmitPartials(c: Counters, ps: seq<MatchPair>, category: string): (r: Counters)
    ensures r.partial == c.partial + |ps| && r.partialPairs == c.partialPairs + ps
    ensures r.full == c.full && r.fullCat == c.fullCat && r.fullPairs == c.fullPairs && r.total == c.total
    ensures c.partialCat <= r.partialCat <= c.partialCat + |ps|
  {
    if |ps| == 0 then c
    else
      var init := ps[..|ps| - 1];
      assert ps == init + [ps[|ps| - 1]];
      EmitPartial(EmitPartials(c, init, category), ps[|ps| - 1], category)
  }

  /** Emitting partial records that satisfy the partial-match relation keeps the counters consistent. */
  lemma {:induction false} EmitPartialsConsistent(c: Counters, ps: seq<MatchPair>, category: string)
    requires Consistent(c)
    requires forall m :: 0 <= m < |ps| ==> ps[m].pred.category == category && PartialCond(ps[m].pred, ps[m].gold)
    ensures Consistent(EmitPartials(c, ps, category))
    decreases |ps|
  {
    if |ps| > 0 {
      var init := ps[..|ps| - 1];
      var last := ps[|ps| - 1];
      EmitPartialsConsistent(c, init, category);
      var mid := EmitPartials(c, init, category);
      assert (mid.partialPairs + [last])[..|mid.partialPairs|] == mid.partialPairs;
    }
  }

  /** Recording a full match whose gold span coincides with the prediction keeps the counters consistent. */
  lemma FullRecordConsistent(c: Counters, pair: MatchPair, category: string)
    requires Consistent(c) && c.full < c.total
    requires pair.pred.category == category
    requires pair.gold.start == pair.pred.start && pair.gold.end == pair.pred.end
    ensures pair.gold.category == category ==>
      Consistent(c.(full := c.full + 1, fullCat := c.fullCat + 1, fullPairs := c.fullPairs + [pair]))
    ensures pair.gold.category != category ==>
      Consistent(c.(full := c.full + 1, partialCat := c.partialCat + 1, fullPairs := c.fullPairs + [pair]))
  {
    assert (c.fullPairs + [pair])[..|c.fullPairs|] == c.fullPairs;
  }

  /** Scores one prediction against its document's gold spans. */
  function Step(c: Counters, g: DocGold, p: Prediction): (r: Counters)
    requires Parallel(g)
    ensures r.total == c.total + 1
  {
    var c1 := c.(total := c.total + 1);
    match Classify(g, p)
    case Full(pair) =>
      if pair.gold.category == p.category then
        c1.(full := c.full + 1, fullCat := c.fullCat + 1, fullPairs := c.fullPairs + [pair])
      else
        c1.(full := c.full + 1, partialCat := c.partialCat + 1, fullPairs := c.fullPairs + [pair])
    case Partials(ps) =>
      EmitPartials(c1, ps, p.category)
  }

  /** What one prediction does to the counters: a full match adds exactly one full record and
      leaves the partial side alone; otherwise one partial record per emission and the full side
      is left alone. */
  lemma StepCounts(c: Counters, g: DocGold, p: Prediction)
    requires Parallel(g)
    ensures Classify(g, p).Full? ==>
      && Step(c, g, p).full == c.full + 1
      && Step(c, g, p).fullPairs == c.fullPairs + [Classify(g, p).pair]
      && Step(c, g, p).partial == c.partial && Step(c, g, p).partialPairs == c.partialPairs
      && Step(c, g, p).fullCat + Step(c, g, p).partialCat == c.fullCat + c.partialCat + 1
      && Step(c, g, p).fullCat >= c.fullCat && Step(c, g, p).partialCat >= c.partialCat
    ensures Classify(g, p).Partials? ==>
      && Step(c, g, p).full == c.full && Step(c, g, p).fullPairs == c.fullPairs
      && Step(c, g, p).fullCat == c.fullCat
      && c.partialCat <= Step(c, g, p).partialCat <= c.partialCat + |Classify(g, p).pairs|
      && Step(c, g, p).partial == c.partial + |Classify(g, p).pairs|
      && Step(c, g, p).partialPairs == c.partialPairs + Classify(g, p).pairs
  {
  }

  /** Scoring one more prediction keeps the counters consistent. */
  lemma StepConsistent(c: Counters, g: DocGold, p: Prediction)
    requires Parallel(g) && Consistent(c)
    ensures Consistent(Step(c, g, p))
  {
    var c1 := c.(total := c.total + 1);
    match Classify(g, p)
    case Full(pair) =>
      FullRecordConsistent(c1, pair, p.category);
    case Partials(ps) =>
      forall m | 0 <= m < |ps|
        ensures ps[m].pred.category == p.category && PartialCond(ps[m].pred, ps[m].gold)
      {
        assert PartialSound(g, p, ps[m]);
      }
      EmitPartialsConsistent(c1, ps, p.category);
  }

  /** The prediction `m` is the first whose document the gold index lacks. */
  predicate FirstUnknown(ix: Index, preds: seq<Prediction>, m: int) {
    && 0 <= m < |preds| && preds[m].doc !in ix.docs
    && forall j :: 0 <= j < m ==> preds[j].doc in ix.docs
  }

  /** Scores the predictions in file order. A prediction whose document has no gold entry stops
      the run with that document's name. */
  function Run(ix: Index, preds: seq<Prediction>): (r: Result<Counters>)
    requires Valid(ix)
    ensures r.Success? <==> forall m :: 0 <= m < |preds| ==> preds[m].doc in ix.docs
    ensures r.Failure? ==> exists m :: FirstUnknown(ix, preds, m) && r.error == UnknownDocument(preds[m].doc)
    ensures r.Success? ==> r.value.total == |preds|
  {
    if |preds| == 0 then Success(Zero)
    else
      var init := preds[..|preds| - 1];
      var p := preds[|preds| - 1];
      assert forall m :: 0 <= m < |init| ==> init[m] == preds[m];
      match Run(ix, init)
      case Failure(e) =>
        var m :| FirstUnknown(ix, init, m) && e == UnknownDocument(init[m].doc);
        assert FirstUnknown(ix, preds, m);
        Failure(e)
      case Success(c) =>
        if p.doc !in ix.docs then
          assert FirstUnknown(ix, preds, |preds| - 1);
          Failure(UnknownDocument(p.doc))
        else
          Success(Step(c, ix.docs[p.doc], p))
  }

  /** After a successful run the counters are consistent: every prediction is counted, at most
      one full match per prediction, and the category counters never exceed the matches. */
  lemma {:induction false} RunConsistent(ix: Index, preds: seq<Prediction>)
    requires Valid(ix) && Run(ix, preds).Success?
    ensures Consistent(Run(ix, preds).value)
    ensures Run(ix, preds).value.fullCat <= Run(ix, preds).value.full <= Run(ix, preds).value.total
    ensures Run(ix, preds).value.fullCat + Run(ix, preds).value.partialCat
         <= Run(ix, preds).value.full + Run(ix, preds).value.partial
  {
    if |preds| > 0 {
      var init := preds[..|preds| - 1];
      var p := preds[|preds| - 1];
      assert forall m :: 0 <= m < |init| ==> init[m] == preds[m];
      RunConsistent(ix, init);
      var c := Run(ix, init).value;
      assert Run(ix, preds) == Success(Step(c, ix.docs[p.doc], p));
      StepConsistent(c, ix.docs[p.doc], p);
    }
    ConsistentBounds(Run(ix, preds).value);
  }

  /** The bounds the consistency invariant implies. */
  lemma ConsistentBounds(c: Counters)
    requires Consistent(c)
    ensures c.fullCat <= c.full <= c.total
    ensures c.fullCat + c.partialCat <= c.full + c.partial
  {
  }

  /** Reference definition: the outcome of every prediction against its document's gold spans,
      in file order. */
  function Outcomes(ix: Index, preds: seq<Prediction>): (os: seq<Outcome>)
    requires Valid(ix)
    requires forall m :: 0 <= m < |preds| ==> preds[m].doc in ix.docs
    ensures |os| == |preds|
    ensures forall m :: 0 <= m < |preds| ==> os[m] == Classify(ix.docs[preds[m].doc], preds[m])
  {
    seq(|preds|, m requires 0 <= m < |preds| => Classify(ix.docs[preds[m].doc], preds[m]))
  }

  /** The pairs of the full outcomes, in order. */
  function FullPairsOf(os: seq<Outcome>): seq<MatchPair> {
    if |os| == 0 then []
    else FullPairsOf(os[..|os| - 1]) + (if os[|os| - 1].Full? then [os[|os| - 1].pair] else [])
  }

  /** The partial records of all outcomes, one outcome's records after the previous one's. */
  function PartialPairsOf(os: seq<Outcome>): seq<MatchPair> {
    if |os| == 0 then []
    else PartialPairsOf(os[..|os| - 1]) + (if os[|os| - 1].Partials? then os[|os| - 1].pairs else [])
  }

  /** The match lists of a run are read off the outcomes of its predictions: the full list holds
      the full outcomes' pairs and the partial list the partial outcomes' records, in file order. */
  lemma {:induction false} RunPairsOutcomes(ix: Index, preds: seq<Prediction>)
    requires Valid(ix) && Run(ix, preds).Success?
    ensures Run(ix, preds).value.fullPairs == FullPairsOf(Outcomes(ix, preds))
    ensures Run(ix, preds).value.partialPairs == PartialPairsOf(Outcomes(ix, preds))
  {
    if |preds| > 0 {
      var init := preds[..|preds| - 1];
      var p := preds[|preds| - 1];
      assert forall m :: 0 <= m < |init| ==> init[m] == preds[m];
      var c := Run(ix, init).value;
      var g := ix.docs[p.doc];
      var os := Outcomes(ix, preds);
      assert os[..|os| - 1] == Outcomes(ix, init);
      assert os[|os| - 1] == Classify(g, p);
      RunPairsOutcomes(ix, init);
      assert Run(ix, preds) == Success(Step(c, g, p));
      StepCounts(c, g, p);
    }
  }

  /** Every counter of a run is determined by the outcomes of its predictions: the number of full
      outcomes, the number of partial records, and the category agreements among them. */
  lemma RunCountsOutcomes(ix: Index, preds: seq<Prediction>)
    requires Valid(ix) && Run(ix, preds).Success?
    ensures Run(ix, preds).value.full == |FullPairsOf(Outcomes(ix, preds))|
    ensures Run(ix, preds).value.partial == |PartialPairsOf(Outcomes(ix, preds))|
    ensures Run(ix, preds).value.fullCat == CatAgree(FullPairsOf(Outcomes(ix, preds)))
    ensures Run(ix, preds).value.fullCat + Run(ix, preds).value.partialCat
         == |FullPairsOf(Outcomes(ix, preds))| + CatAgree(PartialPairsOf(Outcomes(ix, preds)))
  {
    RunPairsOutcomes(ix, preds);
    RunConsistent(ix, preds);
  }

  /** Reads one predicted line and looks its document up: the line's own error first, then an
      unknown document. */
  function ReadPrediction(ix: Index, line: string, parseInt: IntParser): (r: Result<Prediction>)
    ensures r.Success? <==> ParsePredLine(line, parseInt).Success? && ParsePredLine(line, parseInt).value.doc in ix.docs
    ensures r.Success? ==> r == ParsePredLine(line, parseInt)
    ensures ParsePredLine(line, parseInt).Failure? ==> r == ParsePredLine(line, parseInt)
    ensures ParsePredLine(line, parseInt).Success? && r.Failure? ==>
      r.error == UnknownDocument(ParsePredLine(line, parseInt).value.doc)
  {
    match ParsePredLine(line, parseInt)
    case Failure(e) => Failure(e)
    case Success(p) => if p.doc in ix.docs then Success(p) else Failure(UnknownDocument(p.doc))
  }

  /** Every predicted line read and looked up, in file order. */
  function ReadAll(ix: Index, lines: seq<string>, parseInt: IntParser): (rs: seq<Result<Prediction>>)
    ensures |rs| == |lines|
    ensures forall m :: 0 <= m < |lines| ==> rs[m] == ReadPrediction(ix, lines[m], parseInt)
  {
    seq(|lines|, m requires 0 <= m < |lines| => ReadPrediction(ix, lines[m], parseInt))
  }

  /** Scores the raw lines of the prediction file. Each line is read, then looked up, in file
      order; the first line that is malformed or names an unknown document stops the run with
      that line's error. Matching itself cannot fail, so the run succeeds exactly when every line
      reads and is known. */
  function RunLines(ix: Index, lines: seq<string>, parseInt: IntParser): (r: Result<Counters>)
    requires Valid(ix)
    ensures r.Success? <==> forall m :: 0 <= m < |lines| ==> ReadPrediction(ix, lines[m], parseInt).Success?
    ensures r.Failure? ==>
      exists m :: 0 <= m < |lines| && ReadPrediction(ix, lines[m], parseInt) == Failure(r.error)
        && (forall j :: 0 <= j < m ==> ReadPrediction(ix, lines[j], parseInt).Success?)
    ensures r.Success? ==> r.value.total == |lines|
  {
    match Collect(ReadAll(ix, lines, parseInt))
    case Failure(e) => Failure(e)
    case Success(preds) =>
      assert forall m :: 0 <= m < |preds| ==> ReadPrediction(ix, lines[m], parseInt) == Success(preds[m]);
      Success(Run(ix, preds).value)
  }

  /** When every line reads as a prediction, reading and looking a line up fails exactly on an
      unknown document. */
  lemma ReadAllKnown(ix: Index, lines: seq<string>, preds: seq<Prediction>, parseInt: IntParser)
    requires |lines| == |preds|
    requires forall m :: 0 <= m < |lines| ==> ParsePredLine(lines[m], parseInt) == Success(preds[m])
    ensures forall m :: 0 <= m < |lines| ==>
      ReadAll(ix, lines, parseInt)[m]
        == if preds[m].doc in ix.docs then Success(preds[m]) else Failure(UnknownDocument(preds[m].doc))
  {
  }

  /** When every line reads as a prediction, scoring the lines is scoring those predictions,
      including which unknown document stops the run. */
  lemma {:induction false} RunLinesIsRun(ix: Index, lines: seq<string>, preds: seq<Prediction>, parseInt: IntParser)
    requires Valid(ix) && |lines| == |preds|
    requires forall m :: 0 <= m < |lines| ==> ParsePredLine(lines[m], parseInt) == Success(preds[m])
    ensures RunLines(ix, lines, parseInt) == Run(ix, preds)
  {
    var items := ReadAll(ix, lines, parseInt);
    ReadAllKnown(ix, lines, preds, parseInt);
    var all := Collect(items);
    if all.Success? {
      assert forall m :: 0 <= m < |preds| ==> all.value[m] == preds[m];
      assert all.value == preds;
    } else {
      var m :| 0 <= m < |items| && items[m] == Failure(all.error) && (forall j :: 0 <= j < m ==> items[j].Success?);
      assert FirstUnknown(ix, preds, m);
      FirstUnknownUnique(ix, preds, m);
    }
  }

  /** Only one prediction can be the first with an unknown document, so a failed run names it. */
  lemma FirstUnknownUnique(ix: Index, preds: seq<Prediction>, m: int)
    requires Valid(ix) && FirstUnknown(ix, preds, m)
    ensures Run(ix, preds) == Failure(UnknownDocument(preds[m].doc))
  {
    assert Run(ix, preds).Failure?;
    var k :| FirstUnknown(ix, preds, k) && Run(ix, preds).error == UnknownDocument(preds[k].doc);
    assert preds[k].doc !in ix.docs && preds[m].doc !in ix.docs;
    assert k == m;
  }

  /** After a successful run over raw lines the counters are consistent too. */
  lemma RunLinesConsistent(ix: Index, lines: seq<string>, parseInt: IntParser)
    requires Valid(ix) && RunLines(ix, lines, parseInt).Success?
    ensures Consistent(RunLines(ix, lines, parseInt).value)
  {
    var preds := Collect(ReadAll(ix, lines, parseInt)).value;
    RunConsistent(ix, preds);
  }
}
