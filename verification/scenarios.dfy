/** Small worked inputs that pin down the matching policy on concrete spans. */
module Scenarios {
  import opened Base
  import opened Records
  import opened GoldIndex
  import opened SpanMatch
  import opened Aggregate
  import opened Sentiment

  /** A prediction identical to the only gold span: one full match, categories and sentiments agree. */
  lemma ExactSpanScenario()
    ensures
      var gold := [GoldRecord("doc1", "food", 0, 5, "pos")];
      var r := Run(Build(gold), [Prediction("doc1", "food", 0, 5, "pos")]);
      && r.Success? && r.value.full == 1 && r.value.fullCat == 1 && r.value.partial == 0
      && SentimentMatches(r.value.fullPairs) == 1
  {
    var gold := [GoldRecord("doc1", "food", 0, 5, "pos")];
    var ix := Build(gold);
    assert ix.docs["doc1"] == DocGold([0], [5], ["food"], ["pos"]);
    var p := Prediction("doc1", "food", 0, 5, "pos");
    assert FirstIndexOf([0], 0) == 0;
    assert Classify(ix.docs["doc1"], p) == Full(MatchPair(GoldSpan(0, 5, "food", "pos"), p));
  }

  /** A prediction running past the end of the only gold span, with no later end to reach: no match. */
  lemma OverrunScenario()
    ensures Classify(DocGold([0], [5], ["food"], ["pos"]), Prediction("d", "food", 0, 7, "pos")) == Partials([])
  {
    var g := DocGold([0], [5], ["food"], ["pos"]);
    var p := Prediction("d", "food", 0, 7, "pos");
    assert FirstIndexOf([0], 0) == 0;
    assert Scan(g, p, 1) == [];
  }

  /** A prediction identical to the second of two spans sharing a start: the first span is
      consulted, the forward search finds the second span's end, and the first span is what
      gets recorded, as a partial match. */
  lemma DuplicateStartScenario()
    ensures
      var g := DocGold([0, 0], [5, 7], ["food", "service"], ["pos", "neg"]);
      var p := Prediction("d", "service", 0, 7, "neg");
      Classify(g, p) == Partials([MatchPair(GoldSpan(0, 5, "food", "pos"), p)])
  {
    var g := DocGold([0, 0], [5, 7], ["food", "service"], ["pos", "neg"]);
    var p := Prediction("d", "service", 0, 7, "neg");
    assert FirstIndexOf([0, 0], 0) == 0;
    assert ForwardHit([5, 7], 1, 0, 7);
  }

  /** Two gold spans ending where the prediction ends, both starting inside it: the exact-end
      branch fires twice, so one prediction yields two partial records. */
  lemma RepeatedPartialScenario()
    ensures
      var g := DocGold([2, 5], [10, 10], ["food", "food"], ["pos", "pos"]);
      var p := Prediction("d", "food", 0, 10, "pos");
      Classify(g, p) == Partials([MatchPair(GoldSpan(2, 10, "food", "pos"), p), MatchPair(GoldSpan(5, 10, "food", "pos"), p)])
  {
    var g := DocGold([2, 5], [10, 10], ["food", "food"], ["pos", "pos"]);
    var p := Prediction("d", "food", 0, 10, "pos");
    assert FirstIndexOf([2, 5], 2) == 0;
    assert FirstIndexOf([2, 5], 5) == 1;
    assert Scan(g, p, 2) == [];
  }

  /** Repeated gold lines collapse: two distinct gold lines, one of them predicted, gives one half. */
  lemma CollapseScenario()
    ensures OverallAccuracy(["a\n", "a\n", "b\n"], ["a\n"]) == Success(0.5)
  {
    var gold := LineSet(["a\n", "a\n", "b\n"]);
    var pred := LineSet(["a\n"]);
    assert gold == {"a\n", "b\n"};
    assert pred == {"a\n"};
    assert gold * pred == {"a\n"};
    assert "a\n" != "b\n";
    assert |gold| == 2;
  }
}
