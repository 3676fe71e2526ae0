/** Splitting a long WhatsApp body into labelled chunks (src/services/whatsapp-message-split.ts). */
module MessageSplit {
  import opened JsText

  const LABEL_RESERVE := 12

  // ---- Separators ----

  predicate GapAt(t: Text, i: nat) {
    i + 1 < |t| && t[i] == NEWLINE && t[i + 1] == NEWLINE
  }

  /** Where the first run of two or more newlines begins; the length of the text if there is none. */
  function FirstGap(t: Text, from: nat): (i: nat)
    requires from <= |t|
    ensures from <= i <= |t|
    ensures i < |t| ==> GapAt(t, i)
    ensures forall k :: from <= k < i ==> !GapAt(t, k)
    decreases |t| - from
  {
    if from == |t| || GapAt(t, from) then from else FirstGap(t, from + 1)
  }

  function SkipNewlines(t: Text): (r: Text)
    ensures |r| <= |t| && Visible(r) == Visible(t)
    ensures r != [] ==> r[0] != NEWLINE
  {
    if t != [] && t[0] == NEWLINE then SkipNewlines(t[1..]) else t
  }

  /** split(/\n\n+/). */
  function Paragraphs(t: Text): (ps: seq<Text>)
    ensures ps != [] && VisibleAll(ps) == Visible(t)
    decreases |t|
  {
    var i := FirstGap(t, 0);
    if i == |t| then
      assert VisibleAll([t]) == Visible(t) + VisibleAll([]);
      [t]
    else
      var rest := SkipNewlines(t[i..]);
      assert SkipNewlines(t[i..]) == SkipNewlines(t[i..][1..]);
      var ps := [t[..i]] + Paragraphs(rest);
      assert t == t[..i] + t[i..];
      VisibleConcat(t[..i], t[i..]);
      assert ps[1..] == Paragraphs(rest);
      ps
  }

  /** split("\n"). */
  function Lines(t: Text): (ls: seq<Text>)
    ensures ls != [] && VisibleAll(ls) == Visible(t)
  {
    if t == [] then
      assert VisibleAll([t]) == Visible(t) + VisibleAll([]);
      [t]
    else
      var ls := Lines(t[1..]);
      if t[0] == NEWLINE then
        var r := [[]] + ls;
        assert r[1..] == ls;
        r
      else
        var r := [[t[0]] + ls[0]] + ls[1..];
        assert r[1..] == ls[1..];
        assert ([t[0]] + ls[0])[1..] == ls[0];
        VisibleStep([t[0]] + ls[0]);
        VisibleStep(t);
        r
  }

  function VisibleAll(ts: seq<Text>): Text {
    if ts == [] then [] else Visible(ts[0]) + VisibleAll(ts[1..])
  }

  lemma {:induction false} VisibleAllConcat(a: seq<Text>, b: seq<Text>)
    ensures VisibleAll(a + b) == VisibleAll(a) + VisibleAll(b)
  {
    if a == [] {
      assert a + b == b;
    } else {
      assert (a + b)[1..] == a[1..] + b;
      VisibleAllConcat(a[1..], b);
      Associate(Visible(a[0]), VisibleAll(a[1..]), VisibleAll(b));
    }
  }

  // ---- Packing ----

  /** Finished parts and the part being filled. */
  datatype Pack = Pack(parts: seq<Text>, current: Text)

  function Flush(s: Pack): Pack {
    Pack(if Trim(s.current) != [] then s.parts + [Trim(s.current)] else s.parts, [])
  }

  /** A text cut every max units. Below one unit the cutting of a text never ends; what stands here is then unused. */
  function Slices(t: Text, max: int): (ps: seq<Text>)
    ensures forall k :: 0 <= k < |ps| ==> 1 <= |ps[k]| <= max
    ensures max >= 1 ==> VisibleAll(ps) == Visible(t)
    decreases |t|
  {
    if t == [] || max < 1 then []
    else if |t| <= max then
      assert VisibleAll([t]) == Visible(t) + VisibleAll([]);
      [t]
    else
      var ps := [t[..max]] + Slices(t[max..], max);
      assert t == t[..max] + t[max..] && ps[1..] == Slices(t[max..], max);
      VisibleConcat(t[..max], t[max..]);
      ps
  }

  function Joined(current: Text, separator: Text, unit: Text): Text {
    if current != [] then current + separator + unit else unit
  }

  function AddLine(s: Pack, line: Text, max: int): Pack
  {
    if |Joined(s.current, [NEWLINE], line)| <= max then s.(current := Joined(s.current, [NEWLINE], line))
    else if |line| <= max then Flush(s).(current := line)
    else Pack(Flush(s).parts + Slices(line, max), [])
  }

  function AddLines(s: Pack, lines: seq<Text>, max: int): Pack
    decreases |lines|
  {
    if lines == [] then s else AddLines(AddLine(s, lines[0], max), lines[1..], max)
  }

  function AddUnit(s: Pack, unit: Text, max: int): Pack
  {
    if unit == [] then s
    else if |Joined(s.current, [NEWLINE, NEWLINE], unit)| <= max
        then s.(current := Joined(s.current, [NEWLINE, NEWLINE], unit))
    else if |unit| <= max then Flush(s).(current := unit)
    else AddLines(Flush(s), Lines(unit), max)
  }

  function AddUnits(s: Pack, units: seq<Text>, max: int): Pack
    decreases |units|
  {
    if units == [] then s else AddUnits(AddUnit(s, units[0], max), units[1..], max)
  }

  /** splitAtBoundaries: paragraphs packed greedily, long ones by lines, long lines by length. */
  function Chunks(t: Text, max: int): seq<Text>
  {
    if |t| <= max then [t]
    else
      var parts := Flush(AddUnits(Pack([], []), Paragraphs(t), max)).parts;
      if parts != [] then parts else [Slice(t, 0, max)]
  }

  /** A text of line breaks alone has nothing to cut, whatever the limit. */
  predicate OnlyBreaks(t: Text) {
    forall i :: 0 <= i < |t| ==> t[i] == NEWLINE
  }

  lemma {:induction false} LinesOfBreaks(t: Text)
    requires OnlyBreaks(t)
    ensures forall i :: 0 <= i < |Lines(t)| ==> Lines(t)[i] == []
  {
    if t != [] {
      LinesOfBreaks(t[1..]);
      assert Lines(t) == [[]] + Lines(t[1..]);
    }
  }

  lemma {:induction false} SkipBreaks(t: Text)
    requires OnlyBreaks(t)
    ensures SkipNewlines(t) == []
  {
    if t != [] { SkipBreaks(t[1..]); }
  }

  lemma ParagraphsOfBreaks(t: Text)
    requires OnlyBreaks(t)
    ensures forall i :: 0 <= i < |Paragraphs(t)| ==> OnlyBreaks(Paragraphs(t)[i])
  {
    var i := FirstGap(t, 0);
    if i < |t| {
      SkipBreaks(t[i..]);
      NoParagraphs();
      assert Paragraphs(t) == [t[..i]] + Paragraphs([]);
    }
  }

  // ---- The imperative form: two closures over parts and current ----

  class Packer {
    var parts: seq<Text>
    var current: Text

    ghost function State(): Pack
      reads this
    {
      Pack(parts, current)
    }

    constructor ()
      ensures State() == Pack([], [])
    {
      parts, current := [], [];
    }

    method FlushCurrent()
      modifies this
      ensures State() == Flush(old(State()))
    {
      var t := Trim(current);
      if t != [] { parts := parts + [t]; }
      current := [];
    }

    method AppendUnit(unit: Text, max: int)
      requires max >= 1 || OnlyBreaks(unit)
      modifies this
      ensures State() == AddUnit(old(State()), unit, max)
    {
      if unit == [] { return; }
      var candidate := if current != [] then current + [NEWLINE, NEWLINE] + unit else unit;
      if |candidate| <= max {
        current := candidate;
        return;
      }
      FlushCurrent();
      if |unit| <= max {
        current := unit;
        return;
      }
      var lines := Lines(unit);
      if OnlyBreaks(unit) { LinesOfBreaks(unit); }
      ghost var start := State();
      var k := 0;
      while k < |lines|
        invariant 0 <= k <= |lines|
        invariant AddLines(start, lines, max) == AddLines(State(), lines[k..], max)
      {
        AppendLine(lines[k], max);
        assert lines[k..][1..] == lines[k + 1..];
        k := k + 1;
      }
    }

    /** One turn of the loop over lines. */
    method AppendLine(line: Text, max: int)
      requires line == [] || max >= 1
      modifies this
      ensures State() == AddLine(old(State()), line, max)
    {
      var lineCand := if current != [] then current + [NEWLINE] + line else line;
      if |lineCand| <= max {
        current := lineCand;
        return;
      }
      FlushCurrent();
      if |line| <= max {
        current := line;
        return;
      }
      PushSlices(line, max);
    }

    /** The innermost loop: cut a long line every max units. */
    method PushSlices(line: Text, max: int)
      requires line == [] || max >= 1
      modifies this`parts
      ensures parts == old(parts) + Slices(line, max)
    {
      hide Slices, From;
      var i := 0;
      SliceStart(line);
      while i < |line|
        invariant 0 <= i
        invariant old(parts) + Slices(line, max) == parts + Slices(From(line, i), max)
      {
        var end := if i + max < |line| then i + max else |line|;
        SliceStep(line, i, max);
        Associate(parts, [line[i..end]], Slices(From(line, i + max), max));
        parts := parts + [line[i..end]];
        i := i + max;
      }
      SlicePast(line, i, max);
    }
  }

  lemma SliceStart(line: Text)
    ensures From(line, 0) == line
  {}

  lemma SlicePast(line: Text, i: nat, max: int)
    requires i >= |line|
    ensures Slices(From(line, i), max) == []
  {}

  function From(t: Text, i: nat): Text {
    if i < |t| then t[i..] else []
  }

  lemma SliceStep(line: Text, i: nat, max: nat)
    requires max >= 1 && i < |line|
    ensures Slices(From(line, i), max) ==
            [line[i..if i + max < |line| then i + max else |line|]] + Slices(From(line, i + max), max)
  {
    var rest := line[i..];
    if |rest| > max {
      assert rest[..max] == line[i..i + max] && rest[max..] == line[i + max..];
    } else {
      assert rest == line[i..|line|];
    }
  }

  lemma NoParagraphs()
    ensures Paragraphs([]) == [[]]
  {}

  lemma UnitsStep(s: Pack, units: seq<Text>, max: int)
    requires units != []
    ensures AddUnits(s, units, max) == AddUnits(AddUnit(s, units[0], max), units[1..], max)
  {}

  lemma UnitsDone(s: Pack, units: seq<Text>, max: int)
    requires units == []
    ensures AddUnits(s, units, max) == s
  {}

  method SplitAtBoundaries(text: Text, max: int) returns (chunks: seq<Text>)
    requires max >= 1 || OnlyBreaks(text)
    ensures chunks == Chunks(text, max)
  {
    hide AddUnits, Paragraphs, Flush, Slice;
    if |text| <= max { return [text]; }
    if OnlyBreaks(text) { ParagraphsOfBreaks(text); }
    var packer := new Packer();
    var paras := Paragraphs(text);
    var k := 0;
    assert paras[0..] == paras;
    while k < |paras|
      invariant 0 <= k <= |paras|
      invariant fresh(packer)
      invariant AddUnits(Pack([], []), paras, max) == AddUnits(packer.State(), paras[k..], max)
    {
      UnitsStep(packer.State(), paras[k..], max);
      packer.AppendUnit(paras[k], max);
      assert paras[k..][1..] == paras[k + 1..];
      k := k + 1;
    }
    UnitsDone(packer.State(), paras[k..], max);
    packer.FlushCurrent();
    return if |packer.parts| > 0 then packer.parts else [Slice(text, 0, max)];
  }

  // ---- What packing keeps ----

  ghost predicate Fits(s: Pack, max: nat) {
    |s.current| <= max && forall k :: 0 <= k < |s.parts| ==> 1 <= |s.parts[k]| <= max
  }

  function Shown(s: Pack): Text {
    VisibleAll(s.parts) + Visible(s.current)
  }

  lemma VisibleSingle(t: Text)
    ensures VisibleAll([t]) == Visible(t)
  {
    assert VisibleAll([t]) == Visible(t) + VisibleAll([]);
  }

  lemma FlushKeeps(s: Pack, max: nat)
    requires Fits(s, max)
    ensures Fits(Flush(s), max) && Shown(Flush(s)) == Shown(s)
  {
    TrimKeeps(s.current);
    var t := Trim(s.current);
    VisibleAllConcat(s.parts, [t]);
    VisibleSingle(t);
  }

  lemma JoinedShows(current: Text, separator: Text, unit: Text)
    requires Visible(separator) == []
    ensures Visible(Joined(current, separator, unit)) == Visible(current) + Visible(unit)
  {
    VisibleConcat(current, separator);
    VisibleConcat(current + separator, unit);
  }

  lemma NewlinesHidden()
    ensures Visible([NEWLINE]) == [] && Visible([NEWLINE, NEWLINE]) == []
  {
    VisibleStep([NEWLINE]);
    VisibleStep([NEWLINE, NEWLINE]);
    assert [NEWLINE, NEWLINE][1..] == [NEWLINE];
  }

  lemma LineKeeps(s: Pack, line: Text, max: nat)
    requires max >= 1 && Fits(s, max)
    ensures Fits(AddLine(s, line, max), max) && Shown(AddLine(s, line, max)) == Shown(s) + Visible(line)
  {
    hide Visible, VisibleAll, Slices, Flush;
    NewlinesHidden();
    if |Joined(s.current, [NEWLINE], line)| <= max {
      JoinedShows(s.current, [NEWLINE], line);
      Associate(VisibleAll(s.parts), Visible(s.current), Visible(line));
    } else {
      FlushKeeps(s, max);
      FlushEmpties(s);
      var f := Flush(s);
      VisibleAllConcat(f.parts, Slices(line, max));
      assert Shown(f) == VisibleAll(f.parts)
          && Shown(Pack(f.parts + Slices(line, max), [])) == VisibleAll(f.parts + Slices(line, max));
    }
  }

  lemma FlushEmpties(s: Pack)
    ensures Flush(s).current == [] && Visible([]) == []
  {}

  lemma {:induction false} LinesKeep(s: Pack, lines: seq<Text>, max: nat)
    requires max >= 1 && Fits(s, max)
    ensures Fits(AddLines(s, lines, max), max) && Shown(AddLines(s, lines, max)) == Shown(s) + VisibleAll(lines)
    decreases |lines|
  {
    hide Shown, AddLine, Fits;
    if lines != [] {
      LineKeeps(s, lines[0], max);
      LinesKeep(AddLine(s, lines[0], max), lines[1..], max);
      Associate(Shown(s), Visible(lines[0]), VisibleAll(lines[1..]));
    }
  }

  lemma UnitKeeps(s: Pack, unit: Text, max: nat)
    requires max >= 1 && Fits(s, max)
    ensures Fits(AddUnit(s, unit, max), max) && Shown(AddUnit(s, unit, max)) == Shown(s) + Visible(unit)
  {
    hide Visible, VisibleAll, AddLines, Lines, Flush;
    NewlinesHidden();
    FlushEmpties(s);
    if unit != [] {
      if |Joined(s.current, [NEWLINE, NEWLINE], unit)| <= max {
        JoinedShows(s.current, [NEWLINE, NEWLINE], unit);
        Associate(VisibleAll(s.parts), Visible(s.current), Visible(unit));
      } else {
        FlushKeeps(s, max);
        if |unit| > max { LinesKeep(Flush(s), Lines(unit), max); }
      }
    }
  }

  lemma {:induction false} UnitsKeep(s: Pack, units: seq<Text>, max: nat)
    requires max >= 1 && Fits(s, max)
    ensures Fits(AddUnits(s, units, max), max) && Shown(AddUnits(s, units, max)) == Shown(s) + VisibleAll(units)
    decreases |units|
  {
    hide Shown, AddUnit, Fits;
    if units != [] {
      UnitKeeps(s, units[0], max);
      UnitsKeep(AddUnit(s, units[0], max), units[1..], max);
      Associate(Shown(s), Visible(units[0]), VisibleAll(units[1..]));
    }
  }

  lemma PackedParagraphs(t: Text, max: nat)
    requires max >= 1
    ensures var parts := Flush(AddUnits(Pack([], []), Paragraphs(t), max)).parts;
            VisibleAll(parts) == Visible(t) && forall k :: 0 <= k < |parts| ==> 1 <= |parts[k]| <= max
  {
    hide Visible, VisibleAll, AddUnits, Paragraphs, Flush;
    NothingShown();
    var s := AddUnits(Pack([], []), Paragraphs(t), max);
    UnitsKeep(Pack([], []), Paragraphs(t), max);
    FlushKeeps(s, max);
    FlushEmpties(s);
    assert Shown(Pack([], [])) == [] && Shown(Flush(s)) == VisibleAll(Flush(s).parts);
  }

  /** Every chunk fits, and the chunks in order hold every visible unit of the text and no other. */
  lemma ChunksKeep(t: Text, max: nat)
    requires max >= 1
    ensures Chunks(t, max) != [] && VisibleAll(Chunks(t, max)) == Visible(t)
    ensures forall k :: 0 <= k < |Chunks(t, max)| ==> |Chunks(t, max)[k]| <= max
    ensures |t| > max ==> forall k :: 0 <= k < |Chunks(t, max)| ==> Chunks(t, max)[k] != []
  {
    hide Visible, VisibleAll, AddUnits, Paragraphs, Flush;
    if |t| <= max {
      VisibleSingle(t);
    } else {
      PackedParagraphs(t, max);
      NothingShown();
      if Flush(AddUnits(Pack([], []), Paragraphs(t), max)).parts == [] { BlankStart(t, max); }
    }
  }

  /** A text that shows nothing has a start that shows nothing either. */
  lemma BlankStart(t: Text, max: nat)
    requires max <= |t| && Visible(t) == []
    ensures VisibleAll([t[..max]]) == []
  {
    assert t == t[..max] + t[max..];
    VisibleConcat(t[..max], t[max..]);
    VisibleSingle(t[..max]);
  }

  lemma NothingShown()
    ensures VisibleAll([]) == [] && Visible([]) == []
  {}

  // ---- Labels ----

  /** "(i/n)" and a newline. */
  function Label(i: nat, n: nat): Text {
    [40] + Decimal(i) + [47] + Decimal(n) + [41, NEWLINE]
  }

  function LabelAll(chunks: seq<Text>, i: nat, n: nat): (parts: seq<Text>)
    ensures |parts| == |chunks|
    ensures forall k :: 0 <= k < |chunks| ==> parts[k] == Label(i + k, n) + chunks[k]
  {
    if chunks == [] then [] else [Label(i, n) + chunks[0]] + LabelAll(chunks[1..], i + 1, n)
  }

  lemma LabelLength(i: nat, n: nat)
    requires i <= n
    ensures |Label(i, n)| <= |Label(n, n)| == 2 * |Decimal(n)| + 4
    ensures |Label(n, n)| <= LABEL_RESERVE <==> n <= 9999
  {
    DecimalLength(i, n);
  }

  /** How many chunks the first pass makes, with 12 units kept back for labels. */
  function FirstCount(body: Text, max: int): nat
  {
    |Chunks(Trim(body), max - LABEL_RESERVE)|
  }

  /** The units kept back in the pass that counts. */
  function Reserve(body: Text, max: int): nat
  {
    var longest := |Label(FirstCount(body, max), FirstCount(body, max))|;
    if longest > LABEL_RESERVE then longest else LABEL_RESERVE
  }

  /**
   * Each pass over a text that is too long must leave at least one unit per chunk; with none the program
   * never stops cutting (MessageSplitStops.StopsIff).
   */
  predicate Terminates(body: Text, max: int) {
    |Trim(body)| <= max || Trim(body) == [] || (max > LABEL_RESERVE && max > Reserve(body, max))
  }

  /** The unlabelled chunks the message is finally cut into. */
  function FinalChunks(body: Text, max: int): seq<Text>
    requires Terminates(body, max)
  {
    if |Trim(body)| <= max || Trim(body) == [] then [Trim(body)] else Chunks(Trim(body), max - Reserve(body, max))
  }

  function Message(body: Text, max: int): seq<Text>
    requires Terminates(body, max)
  {
    var chunks := FinalChunks(body, max);
    if |chunks| == 1 then chunks else LabelAll(chunks, 1, |chunks|)
  }

  /** An empty body under a limit below zero comes back as it is. */
  lemma EmptyBody(max: int)
    requires max < 0
    ensures Chunks([], max - LABEL_RESERVE) == [[]] && |Label(1, 1)| <= LABEL_RESERVE
  {
    NoParagraphs();
    assert AddUnits(Pack([], []), [[]], max - LABEL_RESERVE) == Pack([], []);
    assert Trim([]) == [] && Slice([], 0, max - LABEL_RESERVE) == [];
    LabelLength(1, 1);
  }

  /** splitWhatsAppMessage. */
  method SplitWhatsAppMessage(body: Text, max: int) returns (parts: seq<Text>)
    requires Terminates(body, max)
    ensures parts == Message(body, max)
  {
    hide Chunks, Label, Trim, LabelAll;
    var trimmed := Trim(body);
    if |trimmed| <= max { return [trimmed]; }
    if trimmed == [] { EmptyBody(max); }
    var contentMax := max - LABEL_RESERVE;
    var chunks := SplitAtBoundaries(trimmed, contentMax);
    var maxLabel := |Label(|chunks|, |chunks|)|;
    if maxLabel > LABEL_RESERVE {
      contentMax := max - maxLabel;
      chunks := SplitAtBoundaries(trimmed, contentMax);
    }
    if |chunks| == 1 { return chunks; }
    parts := LabelChunks(chunks);
  }

  /** chunks.map: put each chunk under its label. */
  method LabelChunks(chunks: seq<Text>) returns (parts: seq<Text>)
    ensures parts == LabelAll(chunks, 1, |chunks|)
  {
    hide Label;
    parts := [];
    var i := 0;
    while i < |chunks|
      invariant 0 <= i <= |chunks| && |parts| == i
      invariant forall k :: 0 <= k < i ==> parts[k] == Label(k + 1, |chunks|) + chunks[k]
    {
      parts := parts + [Label(i + 1, |chunks|) + chunks[i]];
      i := i + 1;
    }
    var n := |chunks|;
    assert forall k :: 0 <= k < n ==> LabelAll(chunks, 1, n)[k] == Label(1 + k, n) + chunks[k];
  }

  /** The chunks without their labels spell out the body's visible text, in order. */
  lemma MessageKeepsContent(body: Text, max: int)
    requires Terminates(body, max)
    ensures var chunks := FinalChunks(body, max);
            && VisibleAll(chunks) == Visible(body)
            && |Message(body, max)| == |chunks|
            && (|chunks| > 1 ==> forall k :: 0 <= k < |chunks| ==>
                 Message(body, max)[k] == Label(k + 1, |chunks|) + chunks[k])
  {
    hide Visible, VisibleAll, Chunks, Label;
    TrimKeeps(body);
    VisibleSingle(Trim(body));
    if |Trim(body)| > max && Trim(body) != [] { ChunksKeep(Trim(body), max - Reserve(body, max)); }
  }

  /**
   * Every part, label included, fits the limit whenever the first pass makes at most 9999 chunks,
   * and past that whenever the second pass needs no more digits than the first.
   */
  lemma MessageFits(body: Text, max: int)
    requires Terminates(body, max)
    requires |Trim(body)| > max ==>
               FirstCount(body, max) <= 9999
               || |Decimal(|FinalChunks(body, max)|)| <= |Decimal(FirstCount(body, max))|
    ensures forall k :: 0 <= k < |Message(body, max)| ==> |Message(body, max)[k]| <= if max < 0 then 0 else max
  {
    hide Chunks, Decimal, Label, Trim, LabelAll;
    if |Trim(body)| > max && Trim(body) != [] {
      var chunks := FinalChunks(body, max);
      ChunksKeep(Trim(body), max - Reserve(body, max));
      LabelLength(FirstCount(body, max), FirstCount(body, max));
      LabelsFit(FirstCount(body, max), |chunks|);
      forall k | 0 <= k < |chunks| && |chunks| > 1 ensures |Message(body, max)[k]| <= max {
        LabelLength(k + 1, |chunks|);
      }
    }
  }

  /** No label of the final count is longer than what the first count kept back for it. */
  lemma LabelsFit(first: nat, final: nat)
    requires final == first || |Decimal(final)| <= |Decimal(first)|
    ensures |Label(final, final)| <=
        if |Label(first, first)| > LABEL_RESERVE then |Label(first, first)| else LABEL_RESERVE
  {
    LabelLength(first, first);
    LabelLength(final, final);
  }
}
