/** Classifying one prediction against the gold spans of its document. */
module SpanMatch {
  import opened Records
  import opened GoldIndex

  /** The gold fields a match record keeps: start, end, category, sentiment. */
  datatype GoldSpan = GoldSpan(start: int, end: int, category: string, sentiment: string)

  /** A gold span paired with the prediction it was matched to. */
  datatype MatchPair = MatchPair(gold: GoldSpan, pred: Prediction)

  /** The verdict for one prediction: one full match, or any number of partial
      matches (none meaning the prediction matched nothing). */
  datatype Outcome = Full(pair: MatchPair) | Partials(pairs: seq<MatchPair>)

  /** `i` is the position of the first occurrence of `v` in `xs`. */
  predicate IsFirst(xs: seq<int>, i: int, v: int) {
    0 <= i < |xs| && xs[i] == v && forall j :: 0 <= j < i ==> xs[j] != v
  }

  /** The position list lookup resolves a value to: its first occurrence. */
  function FirstIndexOf(xs: seq<int>, v: int): (i: nat)
    requires v in xs
    ensures IsFirst(xs, i, v)
  {
    if xs[0] == v then 0 else 1 + FirstIndexOf(xs[1..], v)
  }

  /** The gold span at position `i`, as a match record stores it. */
  function SpanAt(g: DocGold, i: nat): GoldSpan
    requires Parallel(g) && i < |g.starts|
  {
    GoldSpan(g.starts[i], g.ends[i], g.cats[i], g.sents[i])
  }

  /** The span a start value resolves to: the first gold span with that start. */
  function FirstSpanWithStart(g: DocGold, s: int): GoldSpan
    requires Parallel(g) && s in g.starts
  {
    SpanAt(g, FirstIndexOf(g.starts, s))
  }

  /** The exact-start probe: the first span starting where the prediction starts also ends where it ends. */
  predicate ProbeHits(g: DocGold, p: Prediction)
    requires Parallel(g)
  {
    p.start in g.starts && g.ends[FirstIndexOf(g.starts, p.start)] == p.end
  }

  /** The forward search over the ends from position `from` on: is there an end `e` with `s <= hi <= e`? */
  function ForwardHit(ends: seq<int>, from: nat, s: int, hi: int): (hit: bool)
    requires from <= |ends|
    ensures hit <==> s <= hi && exists j :: from <= j < |ends| && hi <= ends[j]
    decreases |ends| - from
  {
    if from == |ends| then false
    else if s <= hi <= ends[from] then true
    else ForwardHit(ends, from + 1, s, hi)
  }

  /** The positional relation every partial match satisfies: the gold span starts inside the
      prediction's reach, or ends inside the prediction. */
  predicate PartialCond(p: Prediction, gold: GoldSpan) {
    || (p.start <= gold.start && (gold.end == p.end || gold.start <= p.end))
    || (p.start < gold.end <= p.end)
  }

  /** A partial record is sound: it pairs this prediction with the first gold span of its start
      value, and the two satisfy the partial-match relation. */
  predicate PartialSound(g: DocGold, p: Prediction, m: MatchPair)
    requires Parallel(g)
  {
    && m.pred == p
    && m.gold.start in g.starts
    && m.gold == FirstSpanWithStart(g, m.gold.start)
    && PartialCond(p, m.gold)
  }

  /** The scan over gold start values from position `k` on. An exact-end hit records a partial
      match and goes on to the next start value; a forward-search hit, which records the span
      the start value resolves to, and a hit of the second branch both end the scan. */
  function Scan(g: DocGold, p: Prediction, k: nat): (r: seq<MatchPair>)
    requires Parallel(g) && k <= |g.starts|
    ensures |r| <= |g.starts| - k
    ensures forall m :: 0 <= m < |r| ==> PartialSound(g, p, r[m])
    ensures forall m :: 0 <= m < |r| - 1 ==> r[m].gold.end == p.end && p.start <= r[m].gold.start
    decreases |g.starts| - k
  {
    if k == |g.starts| then []
    else
      var s := g.starts[k];
      var i := FirstIndexOf(g.starts, s);
      var pair := MatchPair(SpanAt(g, i), p);
      if p.start <= s then
        if g.ends[i] == p.end then [pair] + Scan(g, p, k + 1)
        else if ForwardHit(g.ends, i, s, p.end) then [pair]
        else Scan(g, p, k + 1)
      else if p.start < g.ends[i] <= p.end then [pair]
      else Scan(g, p, k + 1)
  }

  /** The whole matching policy for one prediction: the exact-start probe, then the scan. */
  function Classify(g: DocGold, p: Prediction): (r: Outcome)
    requires Parallel(g)
    ensures r.Full? ==> r.pair.pred == p && r.pair.gold.start == p.start && r.pair.gold.end == p.end
    ensures r.Full? ==> p.start in g.starts && r.pair.gold == FirstSpanWithStart(g, p.start)
    ensures r.Partials? ==> |r.pairs| <= |g.starts|
    ensures r.Partials? ==> forall m :: 0 <= m < |r.pairs| ==> PartialSound(g, p, r.pairs[m])
  {
    if ProbeHits(g, p) then Full(MatchPair(FirstSpanWithStart(g, p.start), p))
    else Partials(Scan(g, p, 0))
  }

  /** Reference condition for the scan position `k`: the step of the scan at this position
      records a match. The span consulted is the first one with the start value found at `k`. */
  predicate Fires(g: DocGold, p: Prediction, k: nat)
    requires Parallel(g) && k < |g.starts|
  {
    var s := g.starts[k];
    var i := FirstIndexOf(g.starts, s);
    if p.start <= s then
      g.ends[i] == p.end || (s <= p.end && exists j :: i <= j < |g.ends| && p.end <= g.ends[j])
    else
      p.start < g.ends[i] <= p.end
  }

  /** The position `k` is an exact-end hit: its start value is within the prediction's reach and
      the first span with that start ends where the prediction ends. */
  predicate ExactEndHit(g: DocGold, p: Prediction, k: nat)
    requires Parallel(g) && k < |g.starts|
  {
    p.start <= g.starts[k] && g.ends[FirstIndexOf(g.starts, g.starts[k])] == p.end
  }

  /** One step of the scan: a firing position records the first span of its start value first;
      an exact-end hit then goes on with the next position, any other firing position ends the
      scan, and a position that does not fire passes straight on to the next. */
  lemma ScanStep(g: DocGold, p: Prediction, k: nat)
    requires Parallel(g) && k < |g.starts|
    ensures Fires(g, p, k) ==>
      Scan(g, p, k) != [] && Scan(g, p, k)[0].gold == FirstSpanWithStart(g, g.starts[k])
    ensures ExactEndHit(g, p, k) ==>
      Fires(g, p, k)
      && Scan(g, p, k) == [MatchPair(FirstSpanWithStart(g, g.starts[k]), p)] + Scan(g, p, k + 1)
    ensures Fires(g, p, k) && !ExactEndHit(g, p, k) ==>
      Scan(g, p, k) == [MatchPair(FirstSpanWithStart(g, g.starts[k]), p)]
    ensures !Fires(g, p, k) ==> Scan(g, p, k) == Scan(g, p, k + 1)
  {
  }

  /** The scan records nothing exactly when no position from `k` on fires. */
  lemma {:induction false} ScanEmptyIff(g: DocGold, p: Prediction, k: nat)
    requires Parallel(g) && k <= |g.starts|
    ensures Scan(g, p, k) == [] <==> forall m :: k <= m < |g.starts| ==> !Fires(g, p, m)
    decreases |g.starts| - k
  {
    if k < |g.starts| {
      ScanEmptyIff(g, p, k + 1);
      ScanStep(g, p, k);
    }
  }

  /** The first position from `k` on whose hit ends the scan, or the end of the starts if none does. */
  function FirstStop(g: DocGold, p: Prediction, k: nat): (m: nat)
    requires Parallel(g) && k <= |g.starts|
    ensures k <= m <= |g.starts|
    ensures m < |g.starts| ==> Fires(g, p, m) && !ExactEndHit(g, p, m)
    ensures forall m' :: k <= m' < m ==> !Fires(g, p, m') || ExactEndHit(g, p, m')
    decreases |g.starts| - k
  {
    if k == |g.starts| || (Fires(g, p, k) && !ExactEndHit(g, p, k)) then k else FirstStop(g, p, k + 1)
  }

  /** The number of exact-end hits at the positions from `k` up to, not including, `e`. */
  function ExactHits(g: DocGold, p: Prediction, k: nat, e: nat): nat
    requires Parallel(g) && k <= e <= |g.starts|
    decreases e - k
  {
    if k == e then 0 else (if ExactEndHit(g, p, k) then 1 else 0) + ExactHits(g, p, k + 1, e)
  }

  /** The scan records one match per exact-end hit before the first position whose hit ends it,
      and one more for that position when there is one. */
  lemma {:induction false} ScanLength(g: DocGold, p: Prediction, k: nat)
    requires Parallel(g) && k <= |g.starts|
    ensures |Scan(g, p, k)| == ExactHits(g, p, k, FirstStop(g, p, k)) + (if FirstStop(g, p, k) < |g.starts| then 1 else 0)
    decreases |g.starts| - k
  {
    if k < |g.starts| {
      ScanStep(g, p, k);
      if !(Fires(g, p, k) && !ExactEndHit(g, p, k)) {
        ScanLength(g, p, k + 1);
      }
    }
  }

  /** The first position from `k` on that fires, or the end of the starts if none does. */
  function FirstFiring(g: DocGold, p: Prediction, k: nat): (m: nat)
    requires Parallel(g) && k <= |g.starts|
    ensures k <= m <= |g.starts|
    ensures m < |g.starts| ==> Fires(g, p, m)
    ensures forall m' :: k <= m' < m ==> !Fires(g, p, m')
    decreases |g.starts| - k
  {
    if k == |g.starts| || Fires(g, p, k) then k else FirstFiring(g, p, k + 1)
  }

  /** When the scan records something, its first record is the first span of the start value
      found at the first firing position: the span the start value resolves to, whichever
      span's end let the forward search succeed. */
  lemma {:induction false} ScanFirstRecord(g: DocGold, p: Prediction, k: nat)
    requires Parallel(g) && k <= |g.starts|
    ensures Scan(g, p, k) != [] ==>
      FirstFiring(g, p, k) < |g.starts|
      && Scan(g, p, k)[0].gold == FirstSpanWithStart(g, g.starts[FirstFiring(g, p, k)])
    decreases |g.starts| - k
  {
    if k < |g.starts| {
      ScanStep(g, p, k);
      if !Fires(g, p, k) {
        ScanFirstRecord(g, p, k + 1);
      }
    }
  }

  /** A prediction is a full match exactly when the first gold span with its start also has its end;
      that span is the one recorded. */
  lemma FullMatchIff(g: DocGold, p: Prediction)
    requires Parallel(g)
    ensures Classify(g, p).Full? <==> exists i :: IsFirst(g.starts, i, p.start) && g.ends[i] == p.end
    ensures forall i :: IsFirst(g.starts, i, p.start) && g.ends[i] == p.end ==>
      Classify(g, p) == Full(MatchPair(SpanAt(g, i), p))
  {
    if p.start in g.starts {
      var f := FirstIndexOf(g.starts, p.start);
      forall i | IsFirst(g.starts, i, p.start)
        ensures i == f
      {
        FirstIndexUnique(g.starts, i, f, p.start);
      }
    }
  }

  /** No full match and no position of the scan fires: then, and only then, nothing is recorded. */
  lemma NoMatchIff(g: DocGold, p: Prediction)
    requires Parallel(g)
    ensures Classify(g, p) == Partials([]) <==>
      && (forall i :: IsFirst(g.starts, i, p.start) ==> g.ends[i] != p.end)
      && (forall m :: 0 <= m < |g.starts| ==> !Fires(g, p, m))
  {
    FullMatchIff(g, p);
    ScanEmptyIff(g, p, 0);
  }

  /** A prediction identical to a gold span whose start value already occurred earlier in the
      document is not a full match, though it does get a partial record. */
  lemma DuplicateStartNotFull(g: DocGold, p: Prediction, i: nat, j: nat)
    requires Parallel(g)
    requires IsFirst(g.starts, i, p.start) && i < j < |g.starts|
    requires g.starts[j] == p.start && g.ends[j] == p.end && g.ends[i] != p.end
    requires g.starts[j] <= g.ends[j]
    ensures Classify(g, p).Partials? && Classify(g, p).pairs != []
  {
    FullMatchIff(g, p);
    assert FirstIndexOf(g.starts, g.starts[i]) == i by {
      FirstIndexUnique(g.starts, FirstIndexOf(g.starts, g.starts[i]), i, p.start);
    }
    assert Fires(g, p, i) by {
      assert i <= j < |g.ends| && p.end <= g.ends[j];
    }
    ScanEmptyIff(g, p, 0);
  }

  /** A value has only one first occurrence. */
  lemma FirstIndexUnique(xs: seq<int>, i: int, j: int, v: int)
    requires IsFirst(xs, i, v) && IsFirst(xs, j, v)
    ensures i == j
  {
  }

  /** Gold spans that are non-empty and lie entirely before or after the prediction
      (ending at or before its start, or starting after its end) give no match at all. */
  lemma NoOverlapNoMatch(g: DocGold, p: Prediction)
    requires Parallel(g)
    requires forall i :: 0 <= i < |g.starts| ==>
      g.starts[i] < g.ends[i] && (p.end < g.starts[i] || g.ends[i] <= p.start)
    ensures Classify(g, p) == Partials([])
  {
    forall m | 0 <= m < |g.starts|
      ensures !Fires(g, p, m)
    {
      var i := FirstIndexOf(g.starts, g.starts[m]);
      assert g.starts[i] == g.starts[m];
    }
    NoMatchIff(g, p);
  }
}
