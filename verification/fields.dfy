/** Turning one line of an annotation file into its tab-separated fields. */
module Fields {

  /** The characters removed from the end of a line before it is split. */
  predicate IsEol(c: char) {
    c == '\r' || c == '\n'
  }

  /** A field that survives a write-then-read cycle: no tab, no line break. */
  predicate CleanField(f: string) {
    forall i :: 0 <= i < |f| ==> f[i] != '\t' && !IsEol(f[i])
  }

  /** Removes every trailing carriage return and line feed, in any mix. */
  function StripEol(line: string): (r: string)
    ensures r <= line
    ensures |r| == 0 || !IsEol(r[|r| - 1])
    ensures forall i :: |r| <= i < |line| ==> IsEol(line[i])
  {
    if |line| > 0 && IsEol(line[|line| - 1]) then StripEol(line[..|line| - 1]) else line
  }

  /** The number of tab characters in `s`. */
  function TabCount(s: string): nat {
    if |s| == 0 then 0 else (if s[0] == '\t' then 1 else 0) + TabCount(s[1..])
  }

  /** Glues fields back together with one tab between neighbours. */
  function JoinTabs(fields: seq<string>): string
    requires |fields| >= 1
  {
    if |fields| == 1 then fields[0] else fields[0] + "\t" + JoinTabs(fields[1..])
  }

  /** The joined line ends with the last field. */
  lemma {:induction false} JoinTabsEndsWithLast(fields: seq<string>)
    requires |fields| >= 1
    ensures |fields[|fields| - 1]| <= |JoinTabs(fields)|
    ensures JoinTabs(fields)[|JoinTabs(fields)| - |fields[|fields| - 1]|..] == fields[|fields| - 1]
    decreases |fields|
  {
    if |fields| > 1 {
      var rest := JoinTabs(fields[1..]);
      var last := fields[|fields| - 1];
      JoinTabsEndsWithLast(fields[1..]);
      assert fields[1..][|fields[1..]| - 1] == last;
      var joined := fields[0] + "\t" + rest;
      assert joined[|joined| - |last|..] == rest[|rest| - |last|..];
    }
  }

  /** Splits on every tab; an empty line and a trailing tab both yield an empty field. */
  function SplitTabs(s: string): (fields: seq<string>)
    ensures |fields| == TabCount(s) + 1
    ensures forall i :: 0 <= i < |fields| ==> '\t' !in fields[i]
    ensures JoinTabs(fields) == s
  {
    if |s| == 0 then [""]
    else
      var rest := SplitTabs(s[1..]);
      if s[0] == '\t' then
        assert ([""] + rest)[1..] == rest;
        [""] + rest
      else
        var r := [[s[0]] + rest[0]] + rest[1..];
        assert |rest| > 1 ==> r[1..] == rest[1..];
        assert s == [s[0]] + s[1..];
        r
  }

  /** Splitting a field with no tab in front of more text only extends the first field. */
  lemma {:induction false} SplitTabsPrefix(a: string, t: string)
    requires '\t' !in a
    ensures SplitTabs(a + t) == [a + SplitTabs(t)[0]] + SplitTabs(t)[1..]
    decreases |a|
  {
    if |a| > 0 {
      assert (a + t)[1..] == a[1..] + t;
      assert a[0] != '\t';
      SplitTabsPrefix(a[1..], t);
      assert [a[0]] + (a[1..] + SplitTabs(t)[0]) == a + SplitTabs(t)[0];
    } else {
      var ft := SplitTabs(t);
      assert a + t == t;
      assert a + ft[0] == ft[0];
      assert ft == [ft[0]] + ft[1..];
    }
  }

  /** Joining tab-free fields and splitting again gives the same fields back. */
  lemma {:induction false} SplitJoin(fields: seq<string>)
    requires |fields| >= 1
    requires forall i :: 0 <= i < |fields| ==> '\t' !in fields[i]
    ensures SplitTabs(JoinTabs(fields)) == fields
    decreases |fields|
  {
    if |fields| == 1 {
      SplitTabsPrefix(fields[0], "");
      assert fields[0] + "" == fields[0];
    } else {
      var rest := JoinTabs(fields[1..]);
      SplitJoin(fields[1..]);
      assert fields[0] + "\t" + rest == fields[0] + ("\t" + rest);
      SplitTabsPrefix(fields[0], "\t" + rest);
      assert ("\t" + rest)[1..] == rest;
      assert SplitTabs("\t" + rest) == [""] + fields[1..];
      assert fields[0] + "" == fields[0];
      assert fields == [fields[0]] + fields[1..];
    }
  }

  /** Appending line-break characters to a line whose end is clean is undone by StripEol. */
  lemma {:induction false} StripEolAppended(s: string, eol: string)
    requires |s| == 0 || !IsEol(s[|s| - 1])
    requires forall i :: 0 <= i < |eol| ==> IsEol(eol[i])
    ensures StripEol(s + eol) == s
    decreases |eol|
  {
    if |eol| > 0 {
      assert (s + eol)[..|s + eol| - 1] == s + eol[..|eol| - 1];
      StripEolAppended(s, eol[..|eol| - 1]);
    } else {
      assert s + eol == s;
    }
  }
}
