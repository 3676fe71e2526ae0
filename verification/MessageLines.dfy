/**
 * Splitting keeps lines (src/services/whatsapp-message-split.ts:8-78): where every line of a text fits, none is
 * broken and no two are joined, within a chunk or across chunks.
 */
module MessageLines {
  import opened JsText
  import opened MessageSplit

  /** What each line shows, blank lines left out. */
  function Written(lines: seq<Text>): seq<Text> {
    if lines == [] then []
    else (if Visible(lines[0]) == [] then [] else [Visible(lines[0])]) + Written(lines[1..])
  }

  function WrittenLines(t: Text): seq<Text> {
    Written(Lines(t))
  }

  /** The written lines of several texts, one text after the other. */
  function WrittenAll(ts: seq<Text>): seq<Text> {
    if ts == [] then [] else WrittenLines(ts[0]) + WrittenAll(ts[1..])
  }

  predicate ShortLines(t: Text, max: int) {
    forall i :: 0 <= i < |Lines(t)| ==> |Lines(t)[i]| <= max
  }

  // ---- Lines of put-together texts ----

  lemma {:induction false} WrittenConcat(a: seq<Text>, b: seq<Text>)
    ensures Written(a + b) == Written(a) + Written(b)
  {
    hide Visible;
    if a == [] {
      assert a + b == b;
    } else {
      assert (a + b)[1..] == a[1..] + b;
      WrittenConcat(a[1..], b);
      Associate(if Visible(a[0]) == [] then [] else [Visible(a[0])], Written(a[1..]), Written(b));
    }
  }

  lemma {:induction false} WrittenAllConcat(a: seq<Text>, b: seq<Text>)
    ensures WrittenAll(a + b) == WrittenAll(a) + WrittenAll(b)
  {
    hide WrittenLines;
    if a == [] {
      assert a + b == b;
    } else {
      assert (a + b)[1..] == a[1..] + b;
      WrittenAllConcat(a[1..], b);
      Associate(WrittenLines(a[0]), WrittenAll(a[1..]), WrittenAll(b));
    }
  }

  lemma LinesStep(c: CodeUnit, t: Text)
    ensures Lines([c] + t) ==
            if c == NEWLINE then [[]] + Lines(t) else [[c] + Lines(t)[0]] + Lines(t)[1..]
  {
    assert ([c] + t)[1..] == t;
  }

  lemma Regroup(d: CodeUnit, xs: seq<Text>, ys: seq<Text>)
    requires xs != []
    ensures [[d] + (xs + ys)[0]] + (xs + ys)[1..] == [[d] + xs[0]] + xs[1..] + ys
    ensures [[]] + (xs + ys) == [[]] + xs + ys
  {}

  lemma HeadOfJoined(a: Text, b: Text)
    requires a != []
    ensures a == [a[0]] + a[1..] && a + [NEWLINE] + b == [a[0]] + (a[1..] + [NEWLINE] + b)
  {}

  lemma {:induction false} LinesJoin(a: Text, b: Text)
    ensures Lines(a + [NEWLINE] + b) == Lines(a) + Lines(b)
  {
    hide Lines;
    if a == [] {
      BlankLine();
      assert a + [NEWLINE] + b == [NEWLINE] + b;
      LinesStep(NEWLINE, b);
    } else {
      LinesJoin(a[1..], b);
      HeadOfJoined(a, b);
      LinesStep(a[0], a[1..]);
      LinesStep(a[0], a[1..] + [NEWLINE] + b);
      Regroup(a[0], Lines(a[1..]), Lines(b));
    }
  }

  lemma WrittenJoin(a: Text, b: Text)
    ensures WrittenLines(a + [NEWLINE] + b) == WrittenLines(a) + WrittenLines(b)
  {
    hide Lines, Written;
    LinesJoin(a, b);
    WrittenConcat(Lines(a), Lines(b));
  }

  lemma BlankLine()
    ensures Lines([]) == [[]] && WrittenLines([]) == []
  {
    assert Written([[]]) == (if Visible([]) == [] then [] else [Visible([])]) + Written([]);
  }

  /** A space more at either end of a text leaves its written lines. */
  lemma SpaceBefore(c: CodeUnit, t: Text)
    requires IsSpace(c)
    ensures WrittenLines([c] + t) == WrittenLines(t)
  {
    assert ([c] + t)[1..] == t;
    var ls := Lines(t);
    if c == NEWLINE {
      assert [c] + t == [] + [NEWLINE] + t;
      WrittenJoin([], t);
      BlankLine();
    } else {
      var first := [c] + ls[0];
      assert Lines([c] + t) == [first] + ls[1..];
      VisibleStep(first);
      assert first[1..] == ls[0];
      assert ([first] + ls[1..])[1..] == ls[1..];
    }
  }

  lemma {:induction false} LinesSnoc(t: Text, c: CodeUnit)
    requires c != NEWLINE
    ensures var ls, n := Lines(t), |Lines(t)| - 1; Lines(t + [c]) == ls[..n] + [ls[n] + [c]]
  {
    if t == [] {
      assert t + [c] == [c] + [];
      LinesStep(c, []);
      BlankLine();
      assert [[]][..0] + [[] + [c]] == [[c] + []] + [[]][1..];
    } else {
      LinesSnoc(t[1..], c);
      assert t == [t[0]] + t[1..] && t + [c] == [t[0]] + (t[1..] + [c]);
      LinesStep(t[0], t[1..]);
      LinesStep(t[0], t[1..] + [c]);
      hide Lines;
      var ls, n := Lines(t[1..]), |Lines(t[1..])| - 1;
      SnocUnder(t[0], ls, c);
    }
  }

  /** Putting a unit before the first line and one after the last can be done in either order. */
  lemma SnocUnder(d: CodeUnit, ls: seq<Text>, c: CodeUnit)
    requires ls != []
    ensures var n := |ls| - 1;
            var more, before := ls[..n] + [ls[n] + [c]], [[d] + ls[0]] + ls[1..];
            && [[d] + more[0]] + more[1..] == before[..n] + [before[n] + [c]]
            && [[]] + more == ([[]] + ls)[..n + 1] + [([[]] + ls)[n + 1] + [c]]
  {
    if |ls| == 1 { assert [d] + (ls[0] + [c]) == [d] + ls[0] + [c]; }
  }

  lemma SpaceAfter(t: Text, c: CodeUnit)
    requires IsSpace(c)
    ensures WrittenLines(t + [c]) == WrittenLines(t)
  {
    if c == NEWLINE {
      assert t + [c] == t + [NEWLINE] + [];
      WrittenJoin(t, []);
      BlankLine();
    } else {
      hide Lines;
      var ls, n := Lines(t), |Lines(t)| - 1;
      LinesSnoc(t, c);
      WrittenConcat(ls[..n], [ls[n] + [c]]);
      WrittenConcat(ls[..n], [ls[n]]);
      assert ls == ls[..n] + [ls[n]];
      VisibleConcat(ls[n], [c]);
      VisibleStep([c]);
      SameVisible(ls[n] + [c], ls[n]);
    }
  }

  lemma SameVisible(a: Text, b: Text)
    requires Visible(a) == Visible(b)
    ensures Written([a]) == Written([b])
  {
    assert [a][1..] == [] && [b][1..] == [];
  }

  lemma {:induction false} TrimStartKeepsLines(t: Text)
    ensures WrittenLines(TrimStart(t)) == WrittenLines(t)
  {
    hide WrittenLines;
    if t != [] && IsSpace(t[0]) {
      TrimStartKeepsLines(t[1..]);
      assert [t[0]] + t[1..] == t;
      SpaceBefore(t[0], t[1..]);
    }
  }

  lemma {:induction false} TrimEndKeepsLines(t: Text)
    ensures WrittenLines(TrimEnd(t)) == WrittenLines(t)
  {
    hide WrittenLines;
    if t != [] && IsSpace(t[|t| - 1]) {
      TrimEndKeepsLines(t[..|t| - 1]);
      assert t[..|t| - 1] + [t[|t| - 1]] == t;
      SpaceAfter(t[..|t| - 1], t[|t| - 1]);
    }
  }

  lemma TrimKeepsLines(t: Text)
    ensures WrittenLines(Trim(t)) == WrittenLines(t)
  {
    TrimStartKeepsLines(t);
    TrimEndKeepsLines(TrimStart(t));
  }

  // ---- Paragraphs ----

  lemma {:induction false} SkippingKeepsLines(t: Text, max: int)
    ensures WrittenLines(SkipNewlines(t)) == WrittenLines(t)
    ensures ShortLines(t, max) ==> ShortLines(SkipNewlines(t), max)
  {
    if t != [] && t[0] == NEWLINE {
      SkippingKeepsLines(t[1..], max);
      assert [t[0]] + t[1..] == t;
      SpaceBefore(t[0], t[1..]);
      assert Lines(t) == [[]] + Lines(t[1..]);
      assert forall i :: 0 <= i < |Lines(t[1..])| ==> Lines(t[1..])[i] == Lines(t)[i + 1];
    }
  }

  lemma ShortHalves(a: Text, b: Text, max: int)
    requires ShortLines(a + [NEWLINE] + b, max)
    ensures ShortLines(a, max) && ShortLines(b, max)
  {
    hide Lines;
    LinesJoin(a, b);
    var ls := Lines(a) + Lines(b);
    forall i | 0 <= i < |Lines(a)| ensures |Lines(a)[i]| <= max { assert ls[i] == Lines(a)[i]; }
    forall i | 0 <= i < |Lines(b)| ensures |Lines(b)[i]| <= max { assert ls[|Lines(a)| + i] == Lines(b)[i]; }
  }

  lemma {:induction false} ParagraphsKeepLines(t: Text, max: int)
    ensures WrittenAll(Paragraphs(t)) == WrittenLines(t)
    ensures ShortLines(t, max) ==> forall i :: 0 <= i < |Paragraphs(t)| ==> ShortLines(Paragraphs(t)[i], max)
    decreases |t|
  {
    hide WrittenLines, ShortLines;
    var i := FirstGap(t, 0);
    if i == |t| {
      assert WrittenAll([t]) == WrittenLines(t) + WrittenAll([]);
    } else {
      var after := t[i + 1..];
      assert t == t[..i] + [NEWLINE] + after && t[i..][1..] == after;
      var rest := SkipNewlines(t[i..]);
      assert rest == SkipNewlines(after) == SkipNewlines(after[1..]);
      WrittenJoin(t[..i], after);
      SkippingKeepsLines(after, max);
      if ShortLines(t, max) { ShortHalves(t[..i], after, max); }
      ParagraphsKeepLines(rest, max);
      assert Paragraphs(t) == [t[..i]] + Paragraphs(rest) && Paragraphs(t)[1..] == Paragraphs(rest);
    }
  }

  // ---- Packing ----

  function Content(s: Pack): seq<Text> {
    WrittenAll(s.parts) + WrittenLines(s.current)
  }

  lemma WrittenOne(t: Text)
    ensures WrittenAll([t]) == WrittenLines(t)
  {
    assert WrittenAll([t]) == WrittenLines(t) + WrittenAll([]);
  }

  lemma FlushKeepsLines(s: Pack)
    ensures Content(Flush(s)) == Content(s)
  {
    hide WrittenLines, WrittenAll;
    TrimKeepsLines(s.current);
    BlankLine();
    WrittenAllConcat(s.parts, [Trim(s.current)]);
    WrittenOne(Trim(s.current));
  }

  /** A line has no line break of its own. */
  predicate Unbroken(line: Text) {
    Lines(line) == [line]
  }

  lemma {:induction false} LinesAreUnbroken(t: Text)
    ensures forall i :: 0 <= i < |Lines(t)| ==> Unbroken(Lines(t)[i])
  {
    if t == [] {
      assert Unbroken([]);
    } else {
      LinesAreUnbroken(t[1..]);
      var ls := Lines(t[1..]);
      if t[0] == NEWLINE {
        assert Unbroken([]);
        assert forall i :: 1 <= i < |Lines(t)| ==> Lines(t)[i] == ls[i - 1];
      } else {
        assert Unbroken(ls[0]);
        assert ([t[0]] + ls[0])[1..] == ls[0];
        assert Lines([t[0]] + ls[0]) == [[t[0]] + ls[0]] + [ls[0]][1..] == [[t[0]] + ls[0]];
        assert forall i :: 1 <= i < |Lines(t)| ==> Lines(t)[i] == ls[i];
      }
    }
  }

  lemma LineStaysWhole(s: Pack, line: Text, max: int)
    requires |line| <= max && Unbroken(line)
    ensures Content(AddLine(s, line, max)) == Content(s) + Written([line])
  {
    hide WrittenAll, Flush, Lines, Written;
    BlankLine();
    if |Joined(s.current, [NEWLINE], line)| <= max {
      WrittenJoin(s.current, line);
      Associate(WrittenAll(s.parts), WrittenLines(s.current), WrittenLines(line));
    } else {
      FlushKeepsLines(s);
      FlushEmpties(s);
    }
  }

  lemma {:induction false} LinesStayWhole(s: Pack, lines: seq<Text>, max: int)
    requires forall i :: 0 <= i < |lines| ==> |lines[i]| <= max && Unbroken(lines[i])
    ensures Content(AddLines(s, lines, max)) == Content(s) + Written(lines)
    decreases |lines|
  {
    hide Content, AddLine, Written, Unbroken;
    if lines == [] {
      NothingWritten();
    } else {
      LineStaysWhole(s, lines[0], max);
      LinesStayWhole(AddLine(s, lines[0], max), lines[1..], max);
      assert lines == [lines[0]] + lines[1..];
      WrittenConcat([lines[0]], lines[1..]);
      Associate(Content(s), Written([lines[0]]), Written(lines[1..]));
    }
  }

  lemma NothingWritten()
    ensures Written([]) == [] && WrittenAll([]) == []
  {}

  lemma UnitStaysWhole(s: Pack, unit: Text, max: int)
    requires ShortLines(unit, max)
    ensures Content(AddUnit(s, unit, max)) == Content(s) + WrittenLines(unit)
  {
    hide WrittenAll, Flush, Lines, Written, AddLines;
    BlankLine();
    if unit != [] {
      if |Joined(s.current, [NEWLINE, NEWLINE], unit)| <= max {
        assert s.current + [NEWLINE, NEWLINE] + unit == s.current + [NEWLINE] + ([] + [NEWLINE] + unit);
        WrittenJoin(s.current, [] + [NEWLINE] + unit);
        WrittenJoin([], unit);
        Associate(WrittenAll(s.parts), WrittenLines(s.current), WrittenLines(unit));
      } else {
        FlushKeepsLines(s);
        FlushEmpties(s);
        if |unit| > max {
          LinesAreUnbroken(unit);
          LinesStayWhole(Flush(s), Lines(unit), max);
        }
      }
    }
  }

  lemma {:induction false} UnitsStayWhole(s: Pack, units: seq<Text>, max: int)
    requires forall i :: 0 <= i < |units| ==> ShortLines(units[i], max)
    ensures Content(AddUnits(s, units, max)) == Content(s) + WrittenAll(units)
    decreases |units|
  {
    hide Content, AddUnit, WrittenLines, ShortLines;
    if units == [] {
      NothingWritten();
    } else {
      UnitStaysWhole(s, units[0], max);
      UnitsStayWhole(AddUnit(s, units[0], max), units[1..], max);
      Associate(Content(s), WrittenLines(units[0]), WrittenAll(units[1..]));
    }
  }

  /** Where every line fits, the chunks' written lines are the text's, each whole and on its own. */
  lemma LinesSurvive(t: Text, max: int)
    requires max >= 1 && ShortLines(t, max)
    ensures WrittenAll(Chunks(t, max)) == WrittenLines(t)
  {
    hide WrittenLines, ShortLines, AddUnits, Paragraphs, Flush, WrittenAll;
    WrittenOne(t);
    if |t| > max {
      var start := Pack([], []);
      ParagraphsKeepLines(t, max);
      UnitsStayWhole(start, Paragraphs(t), max);
      var s := AddUnits(start, Paragraphs(t), max);
      FlushKeepsLines(s);
      FlushEmpties(s);
      BlankLine();
      NothingWritten();
      assert Content(start) == [] && Content(Flush(s)) == WrittenAll(Flush(s).parts);
      if Flush(s).parts == [] { BlankChunk(t, max); }
    }
  }

  lemma BlankChunk(t: Text, max: int)
    requires |t| > max >= 1 && WrittenLines(t) == []
    ensures WrittenAll([Slice(t, 0, max)]) == []
  {
    hide WrittenAll;
    NoneWrittenIff(Lines(t));
    VisibleOfLines(t);
    assert Slice(t, 0, max) == t[..max] && t == t[..max] + t[max..];
    VisibleConcat(t[..max], t[max..]);
    VisibleOfLines(t[..max]);
    NoneWrittenIff(Lines(t[..max]));
    WrittenOne(t[..max]);
  }

  lemma {:induction false} NoneWrittenIff(lines: seq<Text>)
    ensures Written(lines) == [] <==> VisibleAll(lines) == []
  {
    hide Visible;
    if lines != [] { NoneWrittenIff(lines[1..]); }
  }

  lemma VisibleOfLines(t: Text)
    ensures VisibleAll(Lines(t)) == Visible(t)
  {}

  /** A part's first line is its label; its other lines are its chunk's. */
  lemma LabelIsItsOwnLine(i: nat, n: nat, chunk: Text)
    ensures Lines(Label(i, n) + chunk) == Lines(Label(i, n)[..|Label(i, n)| - 1]) + Lines(chunk)
  {
    hide Decimal;
    var tag := Label(i, n);
    assert tag + chunk == tag[..|tag| - 1] + [NEWLINE] + chunk;
    LinesJoin(tag[..|tag| - 1], chunk);
  }

  /** Part 3 of 12 is headed "(3/12)". */
  lemma LabelReads()
    ensures Label(3, 12) == [40, 51, 47, 49, 50, 41, NEWLINE]
  {
    assert Decimal(3) == [51] && Decimal(12) == Decimal(1) + [50] == [49, 50];
  }

  /** So with the labels taken off, a message's written lines are its body's. */
  lemma MessageKeepsLines(body: Text, max: int)
    requires Terminates(body, max) && Trim(body) != []
    requires |Trim(body)| > max ==> ShortLines(Trim(body), max - Reserve(body, max))
    ensures WrittenAll(FinalChunks(body, max)) == WrittenLines(body)
  {
    hide WrittenLines, ShortLines, Chunks, Trim, WrittenAll;
    TrimKeepsLines(body);
    WrittenOne(Trim(body));
    if |Trim(body)| > max { LinesSurvive(Trim(body), max - Reserve(body, max)); }
  }

  // ---- Greedy packing of paragraphs ----

  /** Paragraphs with a blank line between any two. */
  function JoinBlank(units: seq<Text>): Text {
    if units == [] then []
    else
      var n := |units| - 1;
      if n == 0 then units[0] else JoinBlank(units[..n]) + [NEWLINE, NEWLINE] + units[n]
  }

  function NonEmpty(units: seq<Text>): seq<Text> {
    if units == [] then [] else (if units[0] == [] then [] else [units[0]]) + NonEmpty(units[1..])
  }

  function Concat(groups: seq<seq<Text>>): seq<Text> {
    if groups == [] then [] else groups[0] + Concat(groups[1..])
  }

  /** Each group joined and trimmed; one that is blank gives no chunk. */
  function Rendered(groups: seq<seq<Text>>): seq<Text> {
    if groups == [] then []
    else (if Trim(JoinBlank(groups[0])) == [] then [] else [Trim(JoinBlank(groups[0]))]) + Rendered(groups[1..])
  }

  /** Groups fit, and none could have taken the first paragraph of the next. */
  predicate Greedy(groups: seq<seq<Text>>, max: int) {
    && (forall i :: 0 <= i < |groups| ==> |JoinBlank(groups[i])| <= max)
    && (forall i :: 1 <= i < |groups| ==>
          groups[i] != [] && |JoinBlank(groups[i - 1])| + 2 + |groups[i][0]| > max)
  }

  predicate AllShort(units: seq<Text>, max: int) {
    forall i :: 0 <= i < |units| ==> |units[i]| <= max
  }

  lemma JoinMore(g: seq<Text>, unit: Text)
    requires unit != [] && forall i :: 0 <= i < |g| ==> g[i] != []
    ensures JoinBlank(g + [unit]) == Joined(JoinBlank(g), [NEWLINE, NEWLINE], unit)
    ensures JoinBlank(g) == [] <==> g == []
  {
    assert (g + [unit])[..|g|] == g;
  }

  lemma {:induction false} GroupsOf(s: Pack, g: seq<Text>, units: seq<Text>, max: int) returns (groups: seq<seq<Text>>)
    requires s.current == JoinBlank(g) && |s.current| <= max && AllShort(units, max)
    requires forall i :: 0 <= i < |g| ==> g[i] != []
    ensures groups != [] && g <= groups[0] && Concat(groups) == g + NonEmpty(units) && Greedy(groups, max)
    ensures Flush(AddUnits(s, units, max)).parts == s.parts + Rendered(groups)
    decreases |units|
  {
    hide Trim, JoinBlank, Rendered, Greedy;
    if units == [] {
      groups := [g];
      LastGroup(s, g, max);
    } else if units[0] == [] {
      groups := GroupsOf(s, g, units[1..], max);
    } else {
      var u, rest := units[0], units[1..];
      JoinMore(g, u);
      if |Joined(s.current, [NEWLINE, NEWLINE], u)| <= max {
        groups := GroupsOf(AddUnit(s, u, max), g + [u], rest, max);
        Associate(g, [u], NonEmpty(rest));
      } else {
        JoinMore([], u);
        assert [] + [u] == [u];
        var later := GroupsOf(Flush(s).(current := u), [u], rest, max);
        groups := [g] + later;
        NextGroup(s, g, u, rest, later, max);
      }
    }
  }

  lemma LastGroup(s: Pack, g: seq<Text>, max: int)
    requires s.current == JoinBlank(g) && |s.current| <= max
    ensures Greedy([g], max) && Concat([g]) == g && Flush(s).parts == s.parts + Rendered([g])
  {
    hide Trim, JoinBlank;
    assert Concat([g]) == g + Concat([]);
    assert Rendered([g]) == (if Trim(JoinBlank(g)) == [] then [] else [Trim(JoinBlank(g))]) + Rendered([]);
  }

  lemma NextGroup(s: Pack, g: seq<Text>, u: Text, rest: seq<Text>, later: seq<seq<Text>>, max: int)
    requires s.current == JoinBlank(g) && |s.current| <= max && |s.current| + 2 + |u| > max && u != []
    requires later != [] && [u] <= later[0] && Concat(later) == [u] + NonEmpty(rest) && Greedy(later, max)
    ensures Greedy([g] + later, max) && Concat([g] + later) == g + NonEmpty([u] + rest)
    ensures Flush(s).parts + Rendered(later) == s.parts + Rendered([g] + later)
  {
    hide Trim, JoinBlank;
    var groups := [g] + later;
    assert groups[1..] == later && ([u] + rest)[1..] == rest;
    forall i | 1 <= i < |groups|
      ensures groups[i] != [] && |JoinBlank(groups[i - 1])| + 2 + |groups[i][0]| > max
    {
      if i > 1 { assert groups[i] == later[i - 1] && groups[i - 1] == later[i - 2]; }
    }
  }

  /**
   * Where every paragraph fits, a text's chunks are its paragraphs in groups, blank lines between those of a group,
   * and every group is as full as it could be.
   */
  lemma ParagraphsArePackedGreedily(t: Text, max: int) returns (groups: seq<seq<Text>>)
    requires |t| > max >= 1 && AllShort(Paragraphs(t), max) && Visible(t) != []
    ensures Concat(groups) == NonEmpty(Paragraphs(t)) && Greedy(groups, max)
    ensures Chunks(t, max) == Rendered(groups)
  {
    hide Paragraphs, AddUnits, Trim, Flush;
    groups := GroupsOf(Pack([], []), [], Paragraphs(t), max);
    assert [] + NonEmpty(Paragraphs(t)) == NonEmpty(Paragraphs(t));
    assert [] + Rendered(groups) == Rendered(groups);
    PackedParagraphs(t, max);
    NothingShown();
  }
}
