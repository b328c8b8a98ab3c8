/** The gold standard grouped by document: four parallel lists per document, in file order. */
module GoldIndex {
  import opened Base
  import opened Records

  /** The starts, ends, categories and sentiments of one document's gold spans. */
  datatype DocGold = DocGold(starts: seq<int>, ends: seq<int>, cats: seq<string>, sents: seq<string>)

  /** The four lists describe the same spans: they have one entry per span. */
  predicate Parallel(d: DocGold) {
    |d.ends| == |d.starts| && |d.cats| == |d.starts| && |d.sents| == |d.starts|
  }

  /** The gold dictionary: `order` lists its keys in insertion order, as the dictionary iterates them. */
  datatype Index = Index(order: seq<string>, docs: map<string, DocGold>)

  predicate Distinct(xs: seq<string>) {
    forall a, b :: 0 <= a < b < |xs| ==> xs[a] != xs[b]
  }

  /** What every index built from a gold file satisfies. */
  predicate Valid(ix: Index) {
    && Distinct(ix.order)
    && (forall k :: k in ix.order ==> k in ix.docs)
    && (forall k :: k in ix.docs ==> k in ix.order)
    && (forall k :: k in ix.docs ==> Parallel(ix.docs[k]))
  }

  const NoSpans := DocGold([], [], [], [])

  /** Adds one gold span at the end of its document's lists. */
  function Append(d: DocGold, r: GoldRecord): DocGold {
    DocGold(d.starts + [r.start], d.ends + [r.end], d.cats + [r.category], d.sents + [r.sentiment])
  }

  /** Files one gold record, creating its document's entry on first sight. */
  function Insert(ix: Index, r: GoldRecord): (next: Index)
    ensures next.docs.Keys == ix.docs.Keys + {r.doc}
    ensures forall k :: k in ix.docs && k != r.doc ==> next.docs[k] == ix.docs[k]
    ensures r.doc in ix.docs ==> next.order == ix.order
    ensures r.doc !in ix.docs ==> next.order == ix.order + [r.doc]
    ensures var before := if r.doc in ix.docs then ix.docs[r.doc] else NoSpans;
      && next.docs[r.doc].starts == before.starts + [r.start] && next.docs[r.doc].ends == before.ends + [r.end]
      && next.docs[r.doc].cats == before.cats + [r.category] && next.docs[r.doc].sents == before.sents + [r.sentiment]
  {
    if r.doc in ix.docs then Index(ix.order, ix.docs[r.doc := Append(ix.docs[r.doc], r)])
    else Index(ix.order + [r.doc], ix.docs[r.doc := Append(NoSpans, r)])
  }

  /** Filing a record keeps the index valid. */
  lemma InsertValid(ix: Index, r: GoldRecord)
    requires Valid(ix)
    ensures Valid(Insert(ix, r))
  {
    if r.doc !in ix.docs {
      var order := ix.order + [r.doc];
      forall a, b | 0 <= a < b < |order|
        ensures order[a] != order[b]
      {
        if b == |ix.order| {
          assert order[a] == ix.order[a];
        }
      }
    }
  }

  /** Indexes the gold records in file order. */
  function Build(rs: seq<GoldRecord>): (ix: Index)
    ensures Valid(ix)
  {
    if |rs| == 0 then Index([], map[])
    else
      var prev := Build(rs[..|rs| - 1]);
      var r := rs[|rs| - 1];
      InsertValid(prev, r);
      Insert(prev, r)
  }

  /** Reference definition: the records of document `d`, in file order. */
  function RecordsOf(rs: seq<GoldRecord>, d: string): seq<GoldRecord> {
    if |rs| == 0 then []
    else RecordsOf(rs[..|rs| - 1], d) + (if rs[|rs| - 1].doc == d then [rs[|rs| - 1]] else [])
  }

  /** A document has records exactly when one of the records names it. */
  lemma {:induction false} RecordsOfNonEmpty(rs: seq<GoldRecord>, d: string)
    ensures |RecordsOf(rs, d)| > 0 <==> exists j :: 0 <= j < |rs| && rs[j].doc == d
  {
    if |rs| > 0 {
      var init := rs[..|rs| - 1];
      RecordsOfNonEmpty(init, d);
      assert forall j :: 0 <= j < |init| ==> init[j] == rs[j];
      if rs[|rs| - 1].doc != d {
        assert forall j :: 0 <= j < |rs| && rs[j].doc == d ==> j < |init|;
      }
    }
  }

  /** The four lists of a sequence of records, read off field by field. */
  function Columns(recs: seq<GoldRecord>): (d: DocGold)
    ensures Parallel(d) && |d.starts| == |recs|
    ensures forall i :: 0 <= i < |recs| ==>
      d.starts[i] == recs[i].start && d.ends[i] == recs[i].end
      && d.cats[i] == recs[i].category && d.sents[i] == recs[i].sentiment
  {
    if |recs| == 0 then NoSpans else Append(Columns(recs[..|recs| - 1]), recs[|recs| - 1])
  }

  lemma ColumnsAppend(recs: seq<GoldRecord>, r: GoldRecord)
    ensures Columns(recs + [r]) == Append(Columns(recs), r)
  {
    assert (recs + [r])[..|recs|] == recs;
  }

  /** A document's lists hold exactly that document's records, in the order the file gives them;
      a document that never occurs has no entry and no records. */
  lemma {:induction false} BuildKeepsFileOrder(rs: seq<GoldRecord>, d: string)
    ensures d in Build(rs).docs ==> Build(rs).docs[d] == Columns(RecordsOf(rs, d)) && |RecordsOf(rs, d)| > 0
    ensures d !in Build(rs).docs ==> RecordsOf(rs, d) == []
  {
    if |rs| > 0 {
      var init := rs[..|rs| - 1];
      var r := rs[|rs| - 1];
      BuildKeepsFileOrder(init, d);
      var prev := Build(init);
      var docs := Build(rs).docs;
      assert docs == Insert(prev, r).docs;
      if r.doc == d {
        assert RecordsOf(rs, d) == RecordsOf(init, d) + [r];
        ColumnsAppend(RecordsOf(init, d), r);
        if d !in prev.docs {
          assert Columns([]) == NoSpans;
        }
      } else {
        assert RecordsOf(rs, d) == RecordsOf(init, d) + [];
        assert RecordsOf(init, d) + [] == RecordsOf(init, d);
        assert d in docs <==> d in prev.docs;
        assert d in docs ==> docs[d] == prev.docs[d];
      }
    }
  }

  /** The span count summed over the dictionary's keys in iteration order. */
  function SumSizes(order: seq<string>, docs: map<string, DocGold>): (n: nat)
    requires forall k :: k in order ==> k in docs
    ensures n == 0 <==> forall i :: 0 <= i < |order| ==> |docs[order[i]].cats| == 0
    ensures forall i :: 0 <= i < |order| ==> |docs[order[i]].cats| <= n
  {
    if |order| == 0 then 0
    else SumSizes(order[..|order| - 1], docs) + |docs[order[|order| - 1]].cats|
  }

  /** The number of gold spans, counted through the category lists. */
  function GoldSize(ix: Index): (n: nat)
    requires Valid(ix)
    ensures n == 0 <==> forall k :: k in ix.docs ==> |ix.docs[k].cats| == 0
    ensures forall k :: k in ix.docs ==> |ix.docs[k].cats| <= n
  {
    SumSizes(ix.order, ix.docs)
  }

  /** Changing the value of a key the order does not list leaves the sum alone. */
  lemma {:induction false} SumSizesFrame(order: seq<string>, docs: map<string, DocGold>, d: string, v: DocGold)
    requires forall k :: k in order ==> k in docs
    requires d !in order
    ensures SumSizes(order, docs[d := v]) == SumSizes(order, docs)
  {
    if |order| > 0 {
      SumSizesFrame(order[..|order| - 1], docs, d, v);
    }
  }

  /** Growing one listed document by one span grows the sum by one. */
  lemma {:induction false} SumSizesBump(order: seq<string>, docs: map<string, DocGold>, d: string, v: DocGold)
    requires forall k :: k in order ==> k in docs
    requires Distinct(order) && d in order
    requires |v.cats| == |docs[d].cats| + 1
    ensures SumSizes(order, docs[d := v]) == SumSizes(order, docs) + 1
  {
    var init := order[..|order| - 1];
    var last := order[|order| - 1];
    if last == d {
      forall a | 0 <= a < |init|
        ensures init[a] != d
      {
        assert order[a] != order[|order| - 1];
      }
      SumSizesFrame(init, docs, d, v);
    } else {
      assert d in init by {
        var a :| 0 <= a < |order| && order[a] == d;
        assert a < |order| - 1;
        assert init[a] == d;
      }
      SumSizesBump(init, docs, d, v);
    }
  }

  /** The gold size equals the number of gold records read. */
  lemma {:induction false} GoldSizeCountsRecords(rs: seq<GoldRecord>)
    ensures GoldSize(Build(rs)) == |rs|
  {
    if |rs| > 0 {
      var init := rs[..|rs| - 1];
      var r := rs[|rs| - 1];
      var prev := Build(init);
      GoldSizeCountsRecords(init);
      if r.doc in prev.docs {
        SumSizesBump(prev.order, prev.docs, r.doc, Append(prev.docs[r.doc], r));
      } else {
        SumSizesFrame(prev.order, prev.docs, r.doc, Append(NoSpans, r));
        var next := Build(rs);
        assert next.order[..|next.order| - 1] == prev.order;
      }
    }
  }

  /** The gold index together with the gold size, from the gold records. */
  function GoldInfo(rs: seq<GoldRecord>): (info: (Index, nat))
    ensures Valid(info.0)
    ensures info.1 == |rs|
    ensures forall d :: d in info.0.docs ==> info.0.docs[d] == Columns(RecordsOf(rs, d)) && |RecordsOf(rs, d)| > 0
    ensures forall d :: d !in info.0.docs ==> RecordsOf(rs, d) == []
  {
    var ix := Build(rs);
    GoldSizeCountsRecords(rs);
    forall d
      ensures d in ix.docs ==> ix.docs[d] == Columns(RecordsOf(rs, d)) && |RecordsOf(rs, d)| > 0
      ensures d !in ix.docs ==> RecordsOf(rs, d) == []
    {
      BuildKeepsFileOrder(rs, d);
    }
    (ix, GoldSize(ix))
  }

  /** The gold index from the raw lines of the gold file; the size is the number of lines. */
  function GoldInfoLines(lines: seq<string>, parseInt: IntParser): (r: Result<(Index, nat)>)
    ensures r.Success? <==> forall m :: 0 <= m < |lines| ==> ParseGoldLine(lines[m], parseInt).Success?
    ensures r.Success? ==> Valid(r.value.0) && r.value.1 == |lines|
    ensures r.Success? ==> forall d :: d in r.value.0.docs <==> NamesDocument(lines, d, parseInt)
    ensures r.Success? ==>
      && ParseGoldLines(lines, parseInt).Success?
      && r.value.0 == Build(ParseGoldLines(lines, parseInt).value)
      && forall d :: d in r.value.0.docs ==> r.value.0.docs[d] == Columns(RecordsOf(ParseGoldLines(lines, parseInt).value, d))
    ensures r.Failure? ==>
      exists m :: 0 <= m < |lines| && ParseGoldLine(lines[m], parseInt) == Failure(r.error)
        && (forall j :: 0 <= j < m ==> ParseGoldLine(lines[j], parseInt).Success?)
  {
    match ParseGoldLines(lines, parseInt)
    case Failure(e) => Failure(e)
    case Success(rs) =>
      var info := GoldInfo(rs);
      forall d
        ensures d in info.0.docs <==> NamesDocument(lines, d, parseInt)
      {
        RecordsOfNonEmpty(rs, d);
        if d in info.0.docs {
          var j :| 0 <= j < |rs| && rs[j].doc == d;
          assert ParseGoldLine(lines[j], parseInt) == Success(rs[j]);
        }
        if NamesDocument(lines, d, parseInt) {
          var j :| 0 <= j < |lines| && ParseGoldLine(lines[j], parseInt).Success? && ParseGoldLine(lines[j], parseInt).value.doc == d;
          assert rs[j].doc == d;
        }
      }
      Success(info)
  }
}
