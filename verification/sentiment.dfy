/** Sentiment agreement over matched pairs, and the review-level accuracy over raw lines. */
module Sentiment {
  import opened Base
  import opened SpanMatch

  /** The last gold field (the sentiment) equals the last field of the predicted line. */
  predicate SentimentAgrees(m: MatchPair) {
    m.gold.sentiment == m.pred.last
  }

  /** The number of pairs whose sentiments agree. */
  function SentimentMatches(pairs: seq<MatchPair>): (n: nat)
    ensures n <= |pairs|
  {
    if |pairs| == 0 then 0
    else (if SentimentAgrees(pairs[0]) then 1 else 0) + SentimentMatches(pairs[1..])
  }

  /** Counting over two lists adds up. */
  lemma {:induction false} SentimentMatchesAppend(a: seq<MatchPair>, b: seq<MatchPair>)
    ensures SentimentMatches(a + b) == SentimentMatches(a) + SentimentMatches(b)
    decreases |a|
  {
    if |a| == 0 {
      assert a + b == b;
    } else {
      assert (a + b)[1..] == a[1..] + b;
      SentimentMatchesAppend(a[1..], b);
    }
  }

  /** Every pair counts exactly when every pair agrees. */
  lemma {:induction false} SentimentMatchesAll(pairs: seq<MatchPair>)
    ensures SentimentMatches(pairs) == |pairs| <==> forall m :: 0 <= m < |pairs| ==> SentimentAgrees(pairs[m])
    decreases |pairs|
  {
    if |pairs| > 0 {
      SentimentMatchesAll(pairs[1..]);
      assert forall m :: 1 <= m < |pairs| ==> pairs[m] == pairs[1..][m - 1];
    }
  }

  /** No pair counts exactly when no pair agrees. */
  lemma {:induction false} SentimentMatchesNone(pairs: seq<MatchPair>)
    ensures SentimentMatches(pairs) == 0 <==> forall m :: 0 <= m < |pairs| ==> !SentimentAgrees(pairs[m])
    decreases |pairs|
  {
    if |pairs| > 0 {
      SentimentMatchesNone(pairs[1..]);
      assert forall m :: 1 <= m < |pairs| ==> pairs[m] == pairs[1..][m - 1];
    }
  }

  /** The distinct lines of a file. */
  function LineSet(lines: seq<string>): (s: set<string>)
    ensures forall l :: l in s <==> l in lines
  {
    set l | l in lines
  }

  /** A subset is no larger than its superset. */
  lemma {:induction false} SubsetSize(a: set<string>, b: set<string>)
    requires a <= b
    ensures |a| <= |b|
    ensures |a| == |b| ==> a == b
    decreases |b|
  {
    if b != {} {
      var x :| x in b;
      SubsetSize(a - {x}, b - {x});
      assert |b - {x}| == |b| - 1;
      if x in a {
        assert |a - {x}| == |a| - 1;
        if |a| == |b| {
          assert a == (a - {x}) + {x};
          assert b == (b - {x}) + {x};
        }
      } else {
        assert a - {x} == a;
      }
    }
  }

  /** A ratio of a part to a positive whole lies in [0, 1], and is 1 or 0 only at the ends. */
  lemma RatioBounds(part: nat, whole: nat)
    requires part <= whole && whole > 0
    ensures 0.0 <= part as real / whole as real <= 1.0
    ensures part as real / whole as real == 1.0 <==> part == whole
    ensures part as real / whole as real == 0.0 <==> part == 0
  {
    var r := part as real / whole as real;
    assert r * whole as real == part as real;
  }

  /** The lines two files share, compared with the distinct lines of the first. */
  lemma CommonLines(goldLines: seq<string>, predLines: seq<string>)
    ensures |LineSet(goldLines) * LineSet(predLines)| <= |LineSet(goldLines)|
    ensures |LineSet(goldLines) * LineSet(predLines)| == |LineSet(goldLines)| <==>
      forall l :: l in goldLines ==> l in predLines
    ensures |LineSet(goldLines) * LineSet(predLines)| == 0 <==>
      forall l :: l in goldLines ==> l !in predLines
  {
    var gold := LineSet(goldLines);
    var common := gold * LineSet(predLines);
    SubsetSize(common, gold);
    if forall l :: l in goldLines ==> l in predLines {
      assert common == gold;
    }
    if common == gold {
      forall l | l in goldLines
        ensures l in predLines
      {
        assert l in common;
      }
    }
    if common != {} {
      var x :| x in common;
      assert x in goldLines && x in predLines;
    } else {
      forall l | l in goldLines
        ensures l !in predLines
      {
        assert l !in common;
      }
    }
  }

  /** A file has no distinct lines exactly when it has no lines. */
  lemma NoLines(lines: seq<string>)
    ensures |LineSet(lines)| == 0 <==> |lines| == 0
  {
    if |lines| > 0 {
      assert lines[0] in LineSet(lines);
    }
  }

  /** Review-level accuracy: the share of distinct gold lines that also occur among the
      predicted lines. An empty gold file leaves the ratio undefined. */
  function OverallAccuracy(goldLines: seq<string>, predLines: seq<string>): (r: Result<real>)
    ensures r.Failure? <==> |goldLines| == 0
    ensures r.Failure? ==> r.error == DivisionByZero
    ensures r.Success? ==> 0.0 <= r.value <= 1.0
    ensures r.Success? ==> (r.value == 1.0 <==> forall l :: l in goldLines ==> l in predLines)
    ensures r.Success? ==> (r.value == 0.0 <==> forall l :: l in goldLines ==> l !in predLines)
  {
    var gold := LineSet(goldLines);
    var pred := LineSet(predLines);
    NoLines(goldLines);
    if |gold| == 0 then Failure(DivisionByZero)
    else
      CommonLines(goldLines, predLines);
      RatioBounds(|gold * pred|, |gold|);
      Success(|gold * pred| as real / |gold| as real)
  }

  /** One more predicted line adds to the shared distinct lines exactly when it is a gold line
      not predicted before. */
  lemma CommonGrows(goldLines: seq<string>, predLines: seq<string>, l: string)
    ensures |LineSet(goldLines) * LineSet(predLines + [l])|
         == |LineSet(goldLines) * LineSet(predLines)| + (if l in goldLines && l !in predLines then 1 else 0)
  {
    var gold := LineSet(goldLines);
    var pred := LineSet(predLines);
    assert LineSet(predLines + [l]) == pred + {l};
    if l in goldLines && l !in predLines {
      assert gold * (pred + {l}) == (gold * pred) + {l};
    } else {
      assert gold * (pred + {l}) == gold * pred;
    }
  }

  /** The accuracy of a non-empty gold file, as the ratio of its two counts. */
  lemma AccuracyRatio(goldLines: seq<string>, predLines: seq<string>)
    requires |goldLines| > 0
    ensures |LineSet(goldLines)| > 0
    ensures OverallAccuracy(goldLines, predLines)
      == Success(|LineSet(goldLines) * LineSet(predLines)| as real / |LineSet(goldLines)| as real)
  {
    NoLines(goldLines);
  }

  /** Adding one to the numerator adds one share of the denominator. */
  lemma ShareStep(n: nat, d: nat)
    requires d > 0
    ensures (n + 1) as real / d as real == n as real / d as real + 1.0 / d as real
  {
  }

  /** One more predicted line raises the accuracy by one distinct gold line's share when it is a
      gold line not predicted before, and leaves it alone otherwise. With the empty prediction
      file at 0, this fixes the accuracy as the share of distinct gold lines predicted. */
  lemma AccuracyAppendPrediction(goldLines: seq<string>, predLines: seq<string>, l: string)
    requires |goldLines| > 0
    ensures OverallAccuracy(goldLines, []) == Success(0.0)
    ensures OverallAccuracy(goldLines, predLines + [l]).Success? && OverallAccuracy(goldLines, predLines).Success?
    ensures OverallAccuracy(goldLines, predLines + [l]).value == OverallAccuracy(goldLines, predLines).value
      + (if l in goldLines && l !in predLines then 1.0 / |LineSet(goldLines)| as real else 0.0)
  {
    AccuracyRatio(goldLines, []);
    AccuracyRatio(goldLines, predLines);
    AccuracyRatio(goldLines, predLines + [l]);
    assert LineSet(goldLines) * LineSet([]) == {};
    CommonGrows(goldLines, predLines, l);
    ShareStep(|LineSet(goldLines) * LineSet(predLines)|, |LineSet(goldLines)|);
  }

  /** Repeated lines collapse: the accuracy depends only on which lines occur, not how often. */
  lemma DuplicatesCollapse(g1: seq<string>, g2: seq<string>, p1: seq<string>, p2: seq<string>)
    requires forall l :: l in g1 <==> l in g2
    requires forall l :: l in p1 <==> l in p2
    ensures OverallAccuracy(g1, p1) == OverallAccuracy(g2, p2)
  {
    assert LineSet(g1) == LineSet(g2);
    assert LineSet(p1) == LineSet(p2);
  }
}
