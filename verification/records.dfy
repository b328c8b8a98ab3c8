/** One gold or predicted annotation, read from the fields of a line. */
module Records {
  import opened Base
  import opened Fields

  /** A gold line: document, category, an unused field, start, end, sentiment. */
  datatype GoldRecord = GoldRecord(doc: string, category: string, start: int, end: int, sentiment: string)

  /** A predicted line. `last` is the line's final field, the one sentiment scoring reads;
      on a well-formed six-field line it is the sentiment. */
  datatype Prediction = Prediction(doc: string, category: string, start: int, end: int, last: string)

  /** The integer conversion applied to offset fields; its lexical rules are not modelled. */
  type IntParser = string -> Option<int>

  /** Reads fields 3, 4 and 5 in that order, failing at the first one that is missing or not an
      integer: a short line with an unparsable start gives the conversion error, not the missing field. */
  function ParseGoldFields(fields: seq<string>, parseInt: IntParser): (r: Result<GoldRecord>)
    ensures r.Success? <==> |fields| >= 6 && parseInt(fields[3]).Some? && parseInt(fields[4]).Some?
    ensures r.Success? ==>
      && r.value.doc == fields[0] && r.value.category == fields[1] && r.value.sentiment == fields[5]
      && parseInt(fields[3]) == Some(r.value.start) && parseInt(fields[4]) == Some(r.value.end)
    ensures |fields| < 4 ==> r == Failure(MissingField(|fields|))
    ensures |fields| >= 4 && parseInt(fields[3]).None? ==> r == Failure(NotAnInteger(fields[3]))
    ensures |fields| == 4 && parseInt(fields[3]).Some? ==> r == Failure(MissingField(4))
    ensures |fields| >= 5 && parseInt(fields[3]).Some? && parseInt(fields[4]).None? ==> r == Failure(NotAnInteger(fields[4]))
    ensures |fields| == 5 && parseInt(fields[3]).Some? && parseInt(fields[4]).Some? ==> r == Failure(MissingField(5))
  {
    if |fields| < 4 then Failure(MissingField(|fields|))
    else match parseInt(fields[3])
      case None => Failure(NotAnInteger(fields[3]))
      case Some(start) =>
        if |fields| < 5 then Failure(MissingField(4))
        else match parseInt(fields[4])
          case None => Failure(NotAnInteger(fields[4]))
          case Some(end) =>
            if |fields| < 6 then Failure(MissingField(5))
            else Success(GoldRecord(fields[0], fields[1], start, end, fields[5]))
  }

  /** Reads fields 3 and 4 only; a predicted line needs five fields, not six. */
  function ParsePredFields(fields: seq<string>, parseInt: IntParser): (r: Result<Prediction>)
    requires |fields| >= 1
    ensures r.Success? <==> |fields| >= 5 && parseInt(fields[3]).Some? && parseInt(fields[4]).Some?
    ensures r.Success? ==>
      && r.value.doc == fields[0] && r.value.category == fields[1] && r.value.last == fields[|fields| - 1]
      && parseInt(fields[3]) == Some(r.value.start) && parseInt(fields[4]) == Some(r.value.end)
    ensures |fields| < 4 ==> r == Failure(MissingField(|fields|))
    ensures |fields| >= 4 && parseInt(fields[3]).None? ==> r == Failure(NotAnInteger(fields[3]))
    ensures |fields| == 4 && parseInt(fields[3]).Some? ==> r == Failure(MissingField(4))
    ensures |fields| >= 5 && parseInt(fields[3]).Some? && parseInt(fields[4]).None? ==> r == Failure(NotAnInteger(fields[4]))
  {
    if |fields| < 4 then Failure(MissingField(|fields|))
    else match parseInt(fields[3])
      case None => Failure(NotAnInteger(fields[3]))
      case Some(start) =>
        if |fields| < 5 then Failure(MissingField(4))
        else match parseInt(fields[4])
          case None => Failure(NotAnInteger(fields[4]))
          case Some(end) => Success(Prediction(fields[0], fields[1], start, end, fields[|fields| - 1]))
  }

  /** A raw gold line: strip the line break, split on tabs, read the record. A record needs at
      least five tabs on the stripped line, and none of its text fields holds a tab. */
  function ParseGoldLine(line: string, parseInt: IntParser): (r: Result<GoldRecord>)
    ensures r.Success? ==> TabCount(StripEol(line)) >= 5
    ensures r.Success? ==> '\t' !in r.value.doc && '\t' !in r.value.category && '\t' !in r.value.sentiment
  {
    ParseGoldFields(SplitTabs(StripEol(line)), parseInt)
  }

  /** A raw predicted line, read the same way. It needs at least four tabs, and its last field,
      the one sentiment scoring reads, holds no tab and does not end in a line break. */
  function ParsePredLine(line: string, parseInt: IntParser): (r: Result<Prediction>)
    ensures r.Success? ==> TabCount(StripEol(line)) >= 4
    ensures r.Success? ==> '\t' !in r.value.doc && '\t' !in r.value.category && '\t' !in r.value.last
    ensures r.Success? ==> |r.value.last| == 0 || !IsEol(r.value.last[|r.value.last| - 1])
  {
    var s := StripEol(line);
    var fields := SplitTabs(s);
    JoinTabsEndsWithLast(fields);
    ParsePredFields(fields, parseInt)
  }

  /** The line a gold record is written as, given the texts of its two offsets. */
  function GoldLine(r: GoldRecord, unused: string, startText: string, endText: string): string {
    JoinTabs([r.doc, r.category, unused, startText, endText, r.sentiment]) + "\n"
  }

  /** Writing a gold record and reading it back gives the record, when no field holds a tab or line break. */
  lemma GoldLineRoundTrip(r: GoldRecord, unused: string, startText: string, endText: string, parseInt: IntParser)
    requires CleanField(r.doc) && CleanField(r.category) && CleanField(unused) && CleanField(r.sentiment)
    requires CleanField(startText) && CleanField(endText)
    requires parseInt(startText) == Some(r.start) && parseInt(endText) == Some(r.end)
    ensures ParseGoldLine(GoldLine(r, unused, startText, endText), parseInt) == Success(r)
  {
    var fields := [r.doc, r.category, unused, startText, endText, r.sentiment];
    var joined := JoinTabs(fields);
    assert JoinTabs(fields[5..]) == r.sentiment;
    assert JoinTabs(fields[4..]) == endText + "\t" + r.sentiment;
    assert JoinTabs(fields[3..]) == startText + "\t" + (endText + "\t" + r.sentiment);
    assert JoinTabs(fields[2..]) == unused + "\t" + (startText + "\t" + (endText + "\t" + r.sentiment));
    assert JoinTabs(fields[1..]) == r.category + "\t" + (unused + "\t" + (startText + "\t" + (endText + "\t" + r.sentiment)));
    assert joined == r.doc + "\t" + r.category + "\t" + unused + "\t" + startText + "\t" + endText + "\t" + r.sentiment;
    assert |joined| > 0 ==> !IsEol(joined[|joined| - 1]) by {
      if |r.sentiment| > 0 {
        assert joined[|joined| - 1] == r.sentiment[|r.sentiment| - 1];
      } else {
        assert joined[|joined| - 1] == '\t';
      }
    }
    StripEolAppended(joined, "\n");
    forall i | 0 <= i < |fields|
      ensures '\t' !in fields[i]
    {
      assert CleanField(fields[i]);
    }
    SplitJoin(fields);
  }

  /** Reads every gold line in file order and stops at the first malformed one. */
  function ParseGoldLines(lines: seq<string>, parseInt: IntParser): (r: Result<seq<GoldRecord>>)
    ensures r.Success? <==> forall m :: 0 <= m < |lines| ==> ParseGoldLine(lines[m], parseInt).Success?
    ensures r.Success? ==> |r.value| == |lines|
    ensures r.Success? ==> forall m :: 0 <= m < |lines| ==> ParseGoldLine(lines[m], parseInt) == Success(r.value[m])
    ensures r.Failure? ==>
      exists m :: 0 <= m < |lines| && ParseGoldLine(lines[m], parseInt) == Failure(r.error)
        && (forall j :: 0 <= j < m ==> ParseGoldLine(lines[j], parseInt).Success?)
  {
    var items := seq(|lines|, m requires 0 <= m < |lines| => ParseGoldLine(lines[m], parseInt));
    assert forall m :: 0 <= m < |lines| ==> items[m] == ParseGoldLine(lines[m], parseInt);
    Collect(items)
  }

  /** Reads every predicted line in file order and stops at the first malformed one. */
  function ParsePredLines(lines: seq<string>, parseInt: IntParser): (r: Result<seq<Prediction>>)
    ensures r.Success? <==> forall m :: 0 <= m < |lines| ==> ParsePredLine(lines[m], parseInt).Success?
    ensures r.Success? ==> |r.value| == |lines|
    ensures r.Success? ==> forall m :: 0 <= m < |lines| ==> ParsePredLine(lines[m], parseInt) == Success(r.value[m])
    ensures r.Failure? ==>
      exists m :: 0 <= m < |lines| && ParsePredLine(lines[m], parseInt) == Failure(r.error)
        && (forall j :: 0 <= j < m ==> ParsePredLine(lines[j], parseInt).Success?)
  {
    var items := seq(|lines|, m requires 0 <= m < |lines| => ParsePredLine(lines[m], parseInt));
    assert forall m :: 0 <= m < |lines| ==> items[m] == ParsePredLine(lines[m], parseInt);
    Collect(items)
  }

  /** Some gold line reads as a record of document `d`. */
  predicate NamesDocument(lines: seq<string>, d: string, parseInt: IntParser) {
    exists j :: 0 <= j < |lines| && ParseGoldLine(lines[j], parseInt).Success? && ParseGoldLine(lines[j], parseInt).value.doc == d
  }
}
