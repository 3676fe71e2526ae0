/** Text as the program sees it: sequences of UTF-16 code units. */
module JsText {
  type CodeUnit = c: int | 0 <= c < 0x1_0000
  type Text = seq<CodeUnit>

  const NEWLINE: CodeUnit := 10
  const DASH: CodeUnit := 45

  /** The digits of a natural number, most significant first, as a template literal prints it. */
  function Decimal(n: nat): (t: Text)
    ensures |t| >= 1
    ensures forall i :: 0 <= i < |t| ==> 48 <= t[i] <= 57
  {
    if n < 10 then [48 + n] else Decimal(n / 10) + [48 + n % 10]
  }

  function ValueOf(t: Text): int {
    if t == [] then 0 else var last: int := t[|t| - 1]; 10 * ValueOf(t[..|t| - 1]) + last - 48
  }

  lemma {:induction false} DecimalRoundTrip(n: nat)
    ensures ValueOf(Decimal(n)) == n
  {
    if n < 10 {
      assert Decimal(n)[..0] == [];
    } else {
      DecimalRoundTrip(n / 10);
      assert Decimal(n)[..|Decimal(n)| - 1] == Decimal(n / 10);
    }
  }

  function IntText(n: int): Text {
    if n < 0 then [DASH] + Decimal(-n) else Decimal(n)
  }

  function IntValue(t: Text): int {
    if t != [] && t[0] == DASH then -ValueOf(t[1..]) else ValueOf(t)
  }

  lemma IntTextRoundTrip(n: int)
    ensures IntValue(IntText(n)) == n
  {
    DecimalRoundTrip(if n < 0 then -n else n);
    if n < 0 { assert IntText(n)[1..] == Decimal(-n); }
  }

  lemma IntTextInjective(m: int, n: int)
    requires IntText(m) == IntText(n)
    ensures m == n
  {
    IntTextRoundTrip(m);
    IntTextRoundTrip(n);
  }

  /** More digits only for larger numbers; four digits reach 9999. */
  lemma {:induction false} DecimalLength(m: nat, n: nat)
    requires m <= n
    ensures |Decimal(m)| <= |Decimal(n)|
    ensures n <= 9999 ==> |Decimal(n)| <= 4
    ensures n > 9999 ==> |Decimal(n)| >= 5
    decreases n
  {
    if n >= 10 {
      DecimalLength(if m >= 10 then m / 10 else 0, n / 10);
    }
    assert n <= 9 ==> |Decimal(n)| == 1;
    assert 10 <= n <= 99 ==> |Decimal(n)| == 2;
    assert 100 <= n <= 999 ==> |Decimal(n)| == 3 by { if 100 <= n <= 999 { assert |Decimal(n / 10)| == 2; } }
    if 1000 <= n <= 99999 {
      assert Decimal(n / 10) == Decimal(n / 10 / 10) + [48 + n / 10 % 10];
      assert 10 <= n / 10 / 10 <= 999;
      assert n <= 9999 ==> |Decimal(n / 10 / 10)| == 2;
      if n > 9999 { assert Decimal(n / 10 / 10) == Decimal(n / 10 / 10 / 10) + [48 + n / 10 / 10 % 10]; }
    }
  }

  /** padStart(2, "0"). */
  function Pad2(n: nat): Text {
    if |Decimal(n)| < 2 then [48] + Decimal(n) else Decimal(n)
  }

  lemma Pad2Injective(m: nat, n: nat)
    requires m < 100 && n < 100
    ensures |Pad2(m)| == 2 && |Pad2(n)| == 2
    ensures Pad2(m) == Pad2(n) ==> m == n
  {
    assert m >= 10 ==> Decimal(m) == Decimal(m / 10) + [48 + m % 10];
    assert n >= 10 ==> Decimal(n) == Decimal(n / 10) + [48 + n % 10];
    assert Pad2(m) == [48 + m / 10, 48 + m % 10];
    assert Pad2(n) == [48 + n / 10, 48 + n % 10];
  }

  /** Two concatenations with tails of one length agree exactly when both halves do. */
  lemma SplitTail<T>(a: seq<T>, b: seq<T>, c: seq<T>, d: seq<T>)
    requires |b| == |d|
    ensures a + b == c + d <==> a == c && b == d
  {
    if a + b == c + d {
      assert a == (a + b)[..|a|] && c == (c + d)[..|c|];
      assert b == (a + b)[|a|..] && d == (c + d)[|c|..];
    }
  }

  /** White space and line terminators, as String.prototype.trim removes them (ECMA-262, section 22.1.3). */
  predicate IsSpace(c: int) {
    9 <= c <= 13 || c == 32 || c == 0xA0 || c == 0x1680 || 0x2000 <= c <= 0x200A
    || c == 0x2028 || c == 0x2029 || c == 0x202F || c == 0x205F || c == 0x3000 || c == 0xFEFF
  }

  /** slice: ends below zero count from the back, and both are held within the text. */
  function Slice(t: Text, from: int, to: int): Text {
    var a, b := Held(from, |t|), Held(to, |t|);
    if a < b then t[a..b] else []
  }

  function Held(i: int, n: nat): (k: nat)
    ensures k <= n
  {
    if i + n < 0 then 0 else if i < 0 then n + i else if i < n then i else n
  }

  function TrimStart(t: Text): Text {
    if t != [] && IsSpace(t[0]) then TrimStart(t[1..]) else t
  }

  function TrimEnd(t: Text): Text {
    if t != [] && IsSpace(t[|t| - 1]) then TrimEnd(t[..|t| - 1]) else t
  }

  function Trim(t: Text): Text {
    TrimEnd(TrimStart(t))
  }

  /** The text without its white space. */
  function Visible(t: Text): Text {
    if t == [] then []
    else if IsSpace(t[0]) then Visible(t[1..])
    else [t[0]] + Visible(t[1..])
  }

  lemma {:induction false} VisibleConcat(a: Text, b: Text)
    ensures Visible(a + b) == Visible(a) + Visible(b)
  {
    if a == [] {
      assert a + b == b;
    } else {
      VisibleConcat(a[1..], b);
      VisibleStep(a);
      VisibleStep(a + b);
      assert (a + b)[1..] == a[1..] + b;
      Associate(if IsSpace(a[0]) then [] else [a[0]], Visible(a[1..]), Visible(b));
    }
  }

  lemma Associate<T>(a: seq<T>, b: seq<T>, c: seq<T>)
    ensures a + b + c == a + (b + c)
  {}

  lemma VisibleStep(t: Text)
    requires t != []
    ensures Visible(t) == (if IsSpace(t[0]) then [] else [t[0]]) + Visible(t[1..])
  {}

  lemma {:induction false} TrimStartKeeps(t: Text)
    ensures |TrimStart(t)| <= |t| && Visible(TrimStart(t)) == Visible(t)
    ensures TrimStart(t) != [] ==> !IsSpace(TrimStart(t)[0])
  {
    if t != [] && IsSpace(t[0]) { TrimStartKeeps(t[1..]); }
  }

  lemma {:induction false} TrimEndKeeps(t: Text)
    ensures |TrimEnd(t)| <= |t| && Visible(TrimEnd(t)) == Visible(t)
  {
    if t != [] && IsSpace(t[|t| - 1]) {
      TrimEndKeeps(t[..|t| - 1]);
      assert t == t[..|t| - 1] + [t[|t| - 1]];
      VisibleConcat(t[..|t| - 1], [t[|t| - 1]]);
    }
  }

  /** Trimming never lengthens a text and drops nothing but white space. */
  lemma TrimKeeps(t: Text)
    ensures |Trim(t)| <= |t| && Visible(Trim(t)) == Visible(t)
  {
    TrimStartKeeps(t);
    TrimEndKeeps(TrimStart(t));
  }

  predicate Blank(t: Text) {
    Trim(t) == []
  }
}
