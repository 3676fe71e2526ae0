/**
 * When splitting stops (src/services/whatsapp-message-split.ts). The one caller in the program uses the default
 * limit; the function is exported with the limit as a parameter, so every limit is considered here.
 */
module MessageSplitStops {
  import opened Wrappers
  import opened JsText
  import opened MessageSplit

  /** The greatest length of a string. */
  const MAX_STRING := 0x1F_FFFF_FFFF_FFFF

  // ---- The program with its cutting loop cut off after n turns; None when that is not enough ----

  /** for (i = start; i < line.length; i += max): all other loops run over a list. */
  function SlicesWithin(line: Text, i: int, max: int, n: nat): Option<seq<Text>>
    decreases n
  {
    if i >= |line| then Some([])
    else if n == 0 then None
    else
      var rest := SlicesWithin(line, i + max, max, n - 1);
      if rest.None? then None else Some([Slice(line, i, i + max)] + rest.value)
  }

  function AddLineWithin(s: Pack, line: Text, max: int, n: nat): Option<Pack> {
    if |Joined(s.current, [NEWLINE], line)| <= max then Some(s.(current := Joined(s.current, [NEWLINE], line)))
    else if |line| <= max then Some(Flush(s).(current := line))
    else
      var slices := SlicesWithin(line, 0, max, n);
      if slices.None? then None else Some(Pack(Flush(s).parts + slices.value, []))
  }

  function AddLinesWithin(s: Pack, lines: seq<Text>, max: int, n: nat): Option<Pack>
    decreases |lines|
  {
    if lines == [] then Some(s)
    else
      var next := AddLineWithin(s, lines[0], max, n);
      if next.None? then None else AddLinesWithin(next.value, lines[1..], max, n)
  }

  function AddUnitWithin(s: Pack, unit: Text, max: int, n: nat): Option<Pack> {
    if unit == [] then Some(s)
    else if |Joined(s.current, [NEWLINE, NEWLINE], unit)| <= max then
      Some(s.(current := Joined(s.current, [NEWLINE, NEWLINE], unit)))
    else if |unit| <= max then Some(Flush(s).(current := unit))
    else AddLinesWithin(Flush(s), Lines(unit), max, n)
  }

  function AddUnitsWithin(s: Pack, units: seq<Text>, max: int, n: nat): Option<Pack>
    decreases |units|
  {
    if units == [] then Some(s)
    else
      var next := AddUnitWithin(s, units[0], max, n);
      if next.None? then None else AddUnitsWithin(next.value, units[1..], max, n)
  }

  function ChunksWithin(t: Text, max: int, n: nat): Option<seq<Text>> {
    if |t| <= max then Some([t])
    else
      var packed := AddUnitsWithin(Pack([], []), Paragraphs(t), max, n);
      if packed.None? then None
      else
        var parts := Flush(packed.value).parts;
        Some(if parts != [] then parts else [Slice(t, 0, max)])
  }

  /** splitWhatsAppMessage, for any limit. */
  function MessageWithin(body: Text, max: int, n: nat): Option<seq<Text>> {
    if |Trim(body)| <= max then Some([Trim(body)])
    else
      var first := ChunksWithin(Trim(body), max - LABEL_RESERVE, n);
      if first.None? then None
      else
        var maxLabel := |Label(|first.value|, |first.value|)|;
        var chunks := if maxLabel > LABEL_RESERVE then ChunksWithin(Trim(body), max - maxLabel, n) else first;
        if chunks.None? then None
        else Some(if |chunks.value| == 1 then chunks.value else LabelAll(chunks.value, 1, |chunks.value|))
  }

  ghost predicate Stops(body: Text, max: int) {
    exists n: nat :: MessageWithin(body, max, n).Some?
  }

  // ---- From one unit on the loop ends, after at most as many turns as the line is long ----

  /** The outcome within n turns is none or the specified one, and is there once n is large enough. */
  predicate Agrees<T(==)>(within: Option<T>, whole: T, enough: bool) {
    (within == None || within == Some(whole)) && (enough ==> within.Some?)
  }

  lemma {:induction false} SlicesAgree(line: Text, i: nat, max: int, n: nat)
    requires max >= 1
    ensures Agrees(SlicesWithin(line, i, max, n), Slices(From(line, i), max), n >= |line| - i)
    decreases n
  {
    hide Slices, From, Slice;
    if i >= |line| {
      SlicePast(line, i, max);
    } else {
      SliceStep(line, i, max);
      SliceIsPart(line, i, max);
      OneTurn(line, i, max, n);
      hide SlicesWithin;
      if n > 0 { SlicesAgree(line, i + max, max, n - 1); }
    }
  }

  lemma OneTurn(line: Text, i: int, max: int, n: nat)
    requires i < |line|
    ensures n == 0 ==> SlicesWithin(line, i, max, n) == None
    ensures n > 0 ==>
              var rest := SlicesWithin(line, i + max, max, n - 1);
              SlicesWithin(line, i, max, n) == if rest.None? then None else Some([Slice(line, i, i + max)] + rest.value)
  {
    hide Slice;
  }

  lemma SliceIsPart(line: Text, i: nat, max: int)
    requires max >= 1 && i < |line|
    ensures Slice(line, i, i + max) == line[i..if i + max < |line| then i + max else |line|]
  {}

  lemma LineAgrees(s: Pack, line: Text, max: int, n: nat)
    requires max >= 1
    ensures Agrees(AddLineWithin(s, line, max, n), AddLine(s, line, max), n >= |line|)
  {
    hide Slices, From, SlicesWithin, Flush;
    SliceStart(line);
    SlicesAgree(line, 0, max, n);
  }

  predicate AllWithin(ts: seq<Text>, n: nat) {
    forall i :: 0 <= i < |ts| ==> |ts[i]| <= n
  }

  lemma {:induction false} LinesAgree(s: Pack, lines: seq<Text>, max: int, n: nat)
    requires max >= 1
    ensures Agrees(AddLinesWithin(s, lines, max, n), AddLines(s, lines, max), AllWithin(lines, n))
    decreases |lines|
  {
    hide AddLine, AddLineWithin;
    if lines != [] {
      LineAgrees(s, lines[0], max, n);
      LinesAgree(AddLine(s, lines[0], max), lines[1..], max, n);
    }
  }

  lemma UnitAgrees(s: Pack, unit: Text, max: int, n: nat)
    requires max >= 1
    ensures Agrees(AddUnitWithin(s, unit, max, n), AddUnit(s, unit, max), n >= |unit|)
  {
    hide AddLines, AddLinesWithin, Lines, Flush;
    LinesAgree(Flush(s), Lines(unit), max, n);
    ExtentOfLines(unit);
    EachWithinExtent(Lines(unit), 1);
  }

  lemma {:induction false} UnitsAgree(s: Pack, units: seq<Text>, max: int, n: nat)
    requires max >= 1
    ensures Agrees(AddUnitsWithin(s, units, max, n), AddUnits(s, units, max), AllWithin(units, n))
    decreases |units|
  {
    hide AddUnit, AddUnitWithin;
    if units != [] {
      UnitAgrees(s, units[0], max, n);
      UnitsAgree(AddUnit(s, units[0], max), units[1..], max, n);
    }
  }

  lemma ChunksAgree(t: Text, max: int, n: nat)
    requires max >= 1
    ensures Agrees(ChunksWithin(t, max, n), Chunks(t, max), n >= |t|)
  {
    hide AddUnits, AddUnitsWithin, Paragraphs, Flush;
    UnitsAgree(Pack([], []), Paragraphs(t), max, n);
    ExtentOfParagraphs(t);
    EachWithinExtent(Paragraphs(t), 2);
  }

  lemma {:induction false} EachWithinExtent(ts: seq<Text>, gap: nat)
    ensures forall i :: 0 <= i < |ts| ==> |ts[i]| + gap <= Extent(ts, gap)
  {
    if ts != [] {
      EachWithinExtent(ts[1..], gap);
      assert forall i :: 1 <= i < |ts| ==> ts[i] == ts[1..][i - 1];
    }
  }

  // ---- Below one unit it never ends ----

  /** The counter of the cutting loop never reaches the end of a line. */
  lemma {:induction false} CuttingGoesOn(line: Text, i: int, max: int, n: nat)
    requires max <= 0 && i < |line|
    ensures SlicesWithin(line, i, max, n) == None
    decreases n
  {
    if n > 0 { CuttingGoesOn(line, i + max, max, n - 1); }
  }

  lemma {:induction false} SomeLineIsCut(s: Pack, lines: seq<Text>, max: int, n: nat)
    requires max <= 0 && s.current == [] && VisibleAll(lines) != []
    ensures AddLinesWithin(s, lines, max, n) == None
    decreases |lines|
  {
    hide Slice;
    if lines[0] != [] {
      CuttingGoesOn(lines[0], 0, max, n);
    } else {
      var next := AddLineWithin(s, lines[0], max, n);
      assert next.Some? && next.value.current == [] && Visible([]) == [];
      SomeLineIsCut(next.value, lines[1..], max, n);
    }
  }

  lemma {:induction false} SomeUnitIsCut(s: Pack, units: seq<Text>, max: int, n: nat)
    requires max <= 0 && s.current == [] && VisibleAll(units) != []
    ensures AddUnitsWithin(s, units, max, n) == None
    decreases |units|
  {
    hide AddLinesWithin, Lines;
    NothingShown();
    if Visible(units[0]) != [] {
      SomeLineIsCut(Flush(s), Lines(units[0]), max, n);
    } else {
      var next := AddUnitWithin(s, units[0], max, n);
      if next.Some? {
        CurrentStaysEmpty(s, units[0], max, n);
        SomeUnitIsCut(next.value, units[1..], max, n);
      }
    }
  }

  lemma CurrentStaysEmpty(s: Pack, unit: Text, max: int, n: nat)
    requires max <= 0 && s.current == [] && AddUnitWithin(s, unit, max, n).Some?
    ensures AddUnitWithin(s, unit, max, n).value.current == []
  {
    if unit != [] { LinesStayEmpty(Flush(s), Lines(unit), max, n); }
  }

  lemma {:induction false} LinesStayEmpty(s: Pack, lines: seq<Text>, max: int, n: nat)
    requires max <= 0 && s.current == [] && AddLinesWithin(s, lines, max, n).Some?
    ensures AddLinesWithin(s, lines, max, n).value.current == []
    decreases |lines|
  {
    hide SlicesWithin;
    if lines != [] { LinesStayEmpty(AddLineWithin(s, lines[0], max, n).value, lines[1..], max, n); }
  }

  lemma TextIsCut(t: Text, max: int, n: nat)
    requires max <= 0 && Visible(t) != []
    ensures ChunksWithin(t, max, n) == None
  {
    hide AddUnitsWithin, Paragraphs, Flush;
    NothingShown();
    SomeUnitIsCut(Pack([], []), Paragraphs(t), max, n);
  }

  lemma TrimmedIsVisible(body: Text)
    requires Trim(body) != []
    ensures Visible(Trim(body)) != []
  {
    TrimStartKeeps(body);
    TrimEndKeeps(TrimStart(body));
    VisibleStep(TrimStart(body));
  }

  // ---- Together ----

  /** Whatever comes back within n turns is the specified message, and n as long as the body is enough. */
  lemma MessageAgrees(body: Text, max: int, n: nat)
    requires Terminates(body, max)
    ensures Agrees(MessageWithin(body, max, n), Message(body, max), n >= |body|)
  {
    hide Chunks, ChunksWithin, Trim, Label, LabelAll;
    TrimKeeps(body);
    if Trim(body) == [] && max < 0 {
      EmptyWithin(max - LABEL_RESERVE, n);
      LabelLength(1, 1);
    } else if |Trim(body)| > max {
      ChunksAgree(Trim(body), max - LABEL_RESERVE, n);
      ChunksAgree(Trim(body), max - Reserve(body, max), n);
    }
  }

  lemma EmptyWithin(max: int, n: nat)
    requires max < 0
    ensures ChunksWithin([], max, n) == Some([[]])
  {
    NoParagraphs();
    assert AddUnitsWithin(Pack([], []), [[]], max, n) == Some(Pack([], []));
    assert Trim([]) == [] && Slice([], 0, max) == [];
  }

  lemma OtherwiseNever(body: Text, max: int, n: nat)
    requires !Terminates(body, max)
    ensures MessageWithin(body, max, n) == None
  {
    hide Chunks, ChunksWithin, Trim, Label, LabelAll;
    TrimmedIsVisible(body);
    if max <= LABEL_RESERVE {
      TextIsCut(Trim(body), max - LABEL_RESERVE, n);
    } else {
      ChunksAgree(Trim(body), max - LABEL_RESERVE, n);
      TextIsCut(Trim(body), max - Reserve(body, max), n);
    }
  }

  /** The program stops exactly when each pass it makes leaves a unit for content, and then gives the message. */
  lemma StopsIff(body: Text, max: int)
    ensures Stops(body, max) <==> Terminates(body, max)
    ensures Terminates(body, max) ==> forall n: nat :: MessageWithin(body, max, n).Some? ==>
              MessageWithin(body, max, n).value == Message(body, max)
  {
    hide MessageWithin, Terminates, Message;
    if Terminates(body, max) {
      forall n: nat ensures Agrees(MessageWithin(body, max, n), Message(body, max), n >= |body|) {
        MessageAgrees(body, max, n);
      }
      assert MessageWithin(body, max, |body|).Some?;
    } else {
      forall n: nat ensures MessageWithin(body, max, n) == None {
        OtherwiseNever(body, max, n);
      }
    }
  }

  /** Two letters under a limit of one are cut forever. */
  lemma NeverStops()
    ensures !Stops([97, 97], 1)
  {
    hide Chunks;
    SolidIsWhole([97, 97]);
    StopsIff([97, 97], 1);
  }

  /** Splitting into at most 9999 chunks stops, for every limit that leaves room for a label. */
  lemma UpTo9999ChunksStop(body: Text, max: int)
    requires max > LABEL_RESERVE && FirstCount(body, max) <= 9999
    ensures Terminates(body, max) && forall k :: 0 <= k < |Message(body, max)| ==> |Message(body, max)[k]| <= max
  {
    LabelLength(FirstCount(body, max), FirstCount(body, max));
    MessageFits(body, max);
  }

  // ---- How many chunks there can be ----

  /** The length of texts with gaps of a given size between them. */
  function Extent(ts: seq<Text>, gap: nat): nat {
    if ts == [] then 0 else |ts[0]| + gap + Extent(ts[1..], gap)
  }

  lemma {:induction false} ExtentOfLines(t: Text)
    ensures Extent(Lines(t), 1) == |t| + 1
  {
    if t == [] {
      assert Extent([[]], 1) == 1 + Extent([], 1);
    } else {
      ExtentOfLines(t[1..]);
      var ls := Lines(t[1..]);
      if t[0] == NEWLINE {
        assert Lines(t) == [[]] + ls && Lines(t)[1..] == ls;
      } else {
        assert Lines(t) == [[t[0]] + ls[0]] + ls[1..] && Lines(t)[1..] == ls[1..];
      }
    }
  }

  lemma {:induction false} ExtentOfParagraphs(t: Text)
    ensures Extent(Paragraphs(t), 2) <= |t| + 2
    decreases |t|
  {
    var i := FirstGap(t, 0);
    if i == |t| {
      assert Extent([t], 2) == |t| + 2 + Extent([], 2);
    } else {
      var rest := SkipNewlines(t[i..]);
      assert rest == SkipNewlines(t[i..][1..]) == SkipNewlines(t[i..][1..][1..]);
      ExtentOfParagraphs(rest);
      assert Paragraphs(t) == [t[..i]] + Paragraphs(rest) && Paragraphs(t)[1..] == Paragraphs(rest);
    }
  }

  lemma {:induction false} SliceCount(t: Text, max: int)
    ensures |Slices(t, max)| <= |t|
    decreases |t|
  {
    if |t| > max >= 1 { SliceCount(t[max..], max); }
  }

  lemma {:induction false} LineCount(s: Pack, lines: seq<Text>, max: int)
    ensures |AddLines(s, lines, max).parts| <= |s.parts| + Extent(lines, 1)
    decreases |lines|
  {
    hide Slices;
    if lines != [] {
      SliceCount(lines[0], max);
      LineCount(AddLine(s, lines[0], max), lines[1..], max);
    }
  }

  lemma {:induction false} UnitCount(s: Pack, units: seq<Text>, max: int)
    ensures |AddUnits(s, units, max).parts| <= |s.parts| + Extent(units, 2)
    decreases |units|
  {
    hide Lines, AddLines;
    if units != [] {
      ExtentOfLines(units[0]);
      LineCount(Flush(s), Lines(units[0]), max);
      UnitCount(AddUnit(s, units[0], max), units[1..], max);
    }
  }

  lemma ChunkCount(t: Text, max: int)
    ensures |Chunks(t, max)| <= |t| + 3
  {
    hide AddUnits, Paragraphs;
    UnitCount(Pack([], []), Paragraphs(t), max);
    ExtentOfParagraphs(t);
  }

  lemma FourDigits(n: nat)
    ensures n <= 9999 ==> |Decimal(n)| <= 4
    ensures |Decimal(n)| <= 4 + |Decimal(n / 10000)|
  {
    DecimalLength(n, n);
    if n > 9999 {
      assert |Decimal(n)| == 1 + |Decimal(n / 10)| && |Decimal(n / 10)| == 1 + |Decimal(n / 10 / 10)|;
      assert |Decimal(n / 10 / 10)| == 1 + |Decimal(n / 10 / 10 / 10)|;
      assert |Decimal(n / 10 / 10 / 10)| == 1 + |Decimal(n / 10 / 10 / 10 / 10)|;
      assert n / 10 / 10 / 10 / 10 == n / 10000;
    }
  }

  /**
   * From a limit of 37 on, so also at the 1600 the program uses, splitting stops for every string that
   * section 6.1.4 of ECMA-262 allows.
   */
  lemma EveryStringStops(body: Text, max: int)
    requires |body| <= MAX_STRING && max >= 37
    ensures Terminates(body, max)
  {
    hide Decimal, Chunks;
    var n := FirstCount(body, max);
    TrimKeeps(body);
    ChunkCount(Trim(body), max - LABEL_RESERVE);
    FourDigits(n);
    FourDigits(n / 10000);
    FourDigits(n / 10000 / 10000);
    FourDigits(n / 10000 / 10000 / 10000);
    assert n / 10000 / 10000 / 10000 <= 9999;
    LabelLength(n, n);
  }

  // ---- Past 9999 chunks ----

  /** A text with neither white space nor line breaks is one paragraph and one line. */
  predicate Solid(t: Text) {
    forall i :: 0 <= i < |t| ==> !IsSpace(t[i])
  }

  lemma {:induction false} SolidIsOneLine(t: Text)
    requires Solid(t)
    ensures Lines(t) == [t]
  {
    if t != [] {
      SolidIsOneLine(t[1..]);
      assert [t[0]] + t[1..] == t;
    }
  }

  lemma SolidIsWhole(t: Text)
    requires Solid(t)
    ensures Trim(t) == t && Paragraphs(t) == [t]
  {
    var i := FirstGap(t, 0);
    assert i == |t|;
  }

  lemma {:induction false} EvenSlices(t: Text, max: int, q: nat)
    requires max >= 1 && |t| == q * max
    ensures |Slices(t, max)| == q && forall k :: 0 <= k < q ==> |Slices(t, max)[k]| == max
    decreases q
  {
    if q > 1 {
      assert q * max == (q - 1) * max + max && (q - 1) * max >= max;
      assert |t| > max && |t[max..]| == (q - 1) * max;
      EvenSlices(t[max..], max, q - 1);
    }
  }

  lemma SolidChunks(t: Text, max: int)
    requires Solid(t) && |t| > max >= 1
    ensures Chunks(t, max) == Slices(t, max)
  {
    hide Slices, Paragraphs, Lines;
    SolidIsWhole(t);
    SolidIsOneLine(t);
    SliceCount(t, max);
    assert AddLines(Pack([], []), [t], max) == AddLine(Pack([], []), t, max);
    assert Flush(Pack([], [])) == Pack([], []);
    assert AddUnits(Pack([], []), [t], max) == AddUnit(Pack([], []), t, max) == Pack(Slices(t, max), []);
    assert Slices(t, max) != [] by { SomeSlice(t, max); }
  }

  lemma SomeSlice(t: Text, max: int)
    requires t != [] && max >= 1
    ensures Slices(t, max) != []
  {}

  /** n over k, rounded up. */
  function Ceiling(n: nat, k: int): nat
    requires k >= 1
  {
    (n + k - 1) / k
  }

  lemma QuotientIs(a: nat, k: int, q: nat)
    requires k >= 1 && q * k <= a < (q + 1) * k
    ensures a / k == q
  {
    var r := a / k;
    assert a == r * k + a % k;
    Multiples(r, q, k);
    Multiples(q, r, k);
  }

  lemma Multiples(i: int, j: int, k: int)
    requires k >= 1
    ensures (i + 1) * k == i * k + k
    ensures i < j ==> (i + 1) * k <= j * k
  {
    if i < j { assert j * k - (i + 1) * k == (j - i - 1) * k; }
  }

  /** Every slice before the last is full. */
  lemma {:induction false} FullSlices(t: Text, max: int)
    requires max >= 1 && t != []
    ensures var n := |Slices(t, max)|; n >= 1 && (n - 1) * max < |t| <= n * max
    ensures forall k :: 0 <= k < |Slices(t, max)| - 1 ==> |Slices(t, max)[k]| == max
    decreases |t|
  {
    if |t| > max {
      var rest := Slices(t[max..], max);
      assert Slices(t, max) == [t[..max]] + rest;
      FullSlices(t[max..], max);
      hide Slices;
      OneMore(|rest|, max, |t|);
    }
  }

  lemma OneMore(n: nat, max: int, length: int)
    requires (n - 1) * max < length - max <= n * max
    ensures n * max < length <= (n + 1) * max
  {
    assert n * max == (n - 1) * max + max && (n + 1) * max == n * max + max;
  }

  /** How many chunks a text without white space makes. */
  lemma SolidCount(t: Text, max: int)
    requires Solid(t) && |t| > max >= 1
    ensures |Chunks(t, max)| == Ceiling(|t|, max)
    ensures forall k :: 0 <= k < |Chunks(t, max)| - 1 ==> |Chunks(t, max)[k]| == max
  {
    hide Slices, Chunks;
    SolidChunks(t, max);
    FullSlices(t, max);
    var n := |Slices(t, max)|;
    assert n * max == (n - 1) * max + max && (n + 1) * max == n * max + max;
    QuotientIs(|t| + max - 1, max, n);
  }

  /** The chunks of the two passes over a body without white space, from its length and the limit. */
  lemma SolidCounts(body: Text, max: int)
    requires Solid(body) && body != [] && |body| > max && Terminates(body, max)
    ensures max > LABEL_RESERVE && FirstCount(body, max) == Ceiling(|body|, max - LABEL_RESERVE)
    ensures var n := FirstCount(body, max);
            Reserve(body, max) == if n <= 9999 then LABEL_RESERVE else 2 * |Decimal(n)| + 4
    ensures Reserve(body, max) < max && |FinalChunks(body, max)| == Ceiling(|body|, max - Reserve(body, max))
    ensures forall k :: 0 <= k < |FinalChunks(body, max)| - 1 ==>
              |FinalChunks(body, max)[k]| == max - Reserve(body, max)
  {
    hide Chunks, Decimal, Label, Trim, Ceiling;
    SolidIsWhole(body);
    SolidCount(body, max - LABEL_RESERVE);
    LabelLength(FirstCount(body, max), FirstCount(body, max));
    SolidCount(body, max - Reserve(body, max));
  }

  /** Past 9999 chunks, when the second pass needs more digits, the part numbered like the first count is too long. */
  lemma SolidPartExceeds(body: Text, max: int)
    requires Solid(body) && body != [] && |body| > max && Terminates(body, max)
    requires FirstCount(body, max) > 9999 && |Decimal(|FinalChunks(body, max)|)| > |Decimal(FirstCount(body, max))|
    ensures var k := FirstCount(body, max) - 1;
            && k < |Message(body, max)|
            && |Message(body, max)[k]| == max + |Decimal(|Message(body, max)|)| - |Decimal(k + 1)|
  {
    hide Chunks, Decimal, Trim, Ceiling, FirstCount, Reserve, LabelAll;
    SolidIsWhole(body);
    SolidCounts(body, max);
    var first, n := FirstCount(body, max), |FinalChunks(body, max)|;
    if n <= first { DecimalLength(n, first); }
    assert Message(body, max)[first - 1] == Label(first, n) + FinalChunks(body, max)[first - 1];
  }

  /**
   * A body without white space is cut into parts that all fit exactly when it is not cut, or into at most 9999
   * chunks at first, or the second pass needs no more digits than the first; SolidCounts gives both counts.
   */
  lemma SolidFitsIff(body: Text, max: int)
    requires Solid(body) && Terminates(body, max)
    ensures (forall k :: 0 <= k < |Message(body, max)| ==> |Message(body, max)[k]| <= if max < 0 then 0 else max)
            <==> |body| <= max || body == [] || FirstCount(body, max) <= 9999
                 || |Decimal(|FinalChunks(body, max)|)| <= |Decimal(FirstCount(body, max))|
  {
    hide Decimal, Trim, FirstCount, FinalChunks, Message, Terminates;
    SolidIsWhole(body);
    if |body| > max && body != [] && FirstCount(body, max) > 9999
       && |Decimal(|FinalChunks(body, max)|)| > |Decimal(FirstCount(body, max))| {
      SolidPartExceeds(body, max);
      assert |Message(body, max)| == |FinalChunks(body, max)| by { AsManyParts(body, max); }
      assert max >= 0 by { SolidCounts(body, max); }
    } else if |body| <= max || body == [] {
      Uncut(body, max);
    } else {
      MessageFits(body, max);
    }
  }

  lemma AsManyParts(body: Text, max: int)
    requires Terminates(body, max)
    ensures |Message(body, max)| == |FinalChunks(body, max)|
  {}

  lemma Uncut(body: Text, max: int)
    requires Trim(body) == body && (|body| <= max || body == [])
    ensures Terminates(body, max) && Message(body, max) == [body]
  {}

  function Letters(n: nat): Text {
    seq(n, i => 97)
  }

  /**
   * Past 9999 chunks the parts can exceed the limit: 100002 letters at a limit of 15 make 33334 chunks
   * first, whose labels take 14 units, and 100002 chunks then, whose last label alone takes 16.
   */
  lemma MessageCanExceed()
    ensures var body := Letters(100002);
            && Terminates(body, 15) && FirstCount(body, 15) == 33334
            && |Message(body, 15)| == 100002 && |Message(body, 15)[100001]| == 17
  {
    hide Chunks, Slices, Decimal, Trim, Letters;
    var body := Letters(100002);
    LettersAreSolid(100002);
    SolidIsWhole(body);
    SolidChunks(body, 3);
    EvenSlices(body, 3, 33334);
    SolidChunks(body, 1);
    EvenSlices(body, 1, 100002);
    LabelLength(33334, 33334);
    LabelLength(100002, 100002);
    Widths();
  }

  /** At the limit the program uses too: 99999 chunks at first, 100126 then, and part 99999 takes 1601 units. */
  lemma SessionMessageCanExceed()
    ensures var body, max := Letters(99999 * 1588), 1600;
            && Terminates(body, max) && FirstCount(body, max) == 99999 && |Message(body, max)| == 100126
            && |Message(body, max)[99998]| == 1601
  {
    hide Chunks, Slices, Decimal, Trim, Letters, LabelAll;
    var body, max := Letters(99999 * 1588), 1600;
    LettersAreSolid(99999 * 1588);
    SolidIsWhole(body);
    SolidCount(body, 1588);
    EvenSlices(body, 1588, 99999);
    SolidChunks(body, 1588);
    LabelLength(99999, 99999);
    SessionWidths();
    SolidCount(body, 1586);
    AsManyParts(body, max);
    assert Ceiling(99999 * 1588, 1586) == 100126;
    SolidPartExceeds(body, max);
  }

  lemma SessionWidths()
    ensures |Decimal(99999)| == 5 && |Decimal(100126)| == 6
  {
    assert |Decimal(9)| == 1 && |Decimal(99)| == 2 && |Decimal(999)| == 3 && |Decimal(9999)| == 4;
    assert |Decimal(1)| == 1 && |Decimal(10)| == 2 && |Decimal(100)| == 3 && |Decimal(1001)| == 4;
    assert |Decimal(10012)| == 5;
  }

  lemma LettersAreSolid(n: nat)
    ensures Solid(Letters(n)) && |Letters(n)| == n
  {}

  lemma Widths()
    ensures |Decimal(33334)| == 5 && |Decimal(100002)| == 6
  {
    assert |Decimal(3)| == 1 && |Decimal(33)| == 2 && |Decimal(333)| == 3 && |Decimal(3333)| == 4;
    assert |Decimal(1)| == 1 && |Decimal(10)| == 2 && |Decimal(100)| == 3 && |Decimal(1000)| == 4
        && |Decimal(10000)| == 5;
  }
}
