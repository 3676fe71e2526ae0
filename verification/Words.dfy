/** Case and trimming of strings. */
module Words {
  import opened JsText

  function LowerChar(c: char): char {
    if 'A' <= c <= 'Z' then (c as int + 32) as char else c
  }

  function UpperChar(c: char): char {
    if 'a' <= c <= 'z' then (c as int - 32) as char else c
  }

  function Lower(s: string): string {
    if s == [] then [] else [LowerChar(s[0])] + Lower(s[1..])
  }

  function Upper(s: string): string {
    if s == [] then [] else [UpperChar(s[0])] + Upper(s[1..])
  }

  /** trim, on characters. */
  function Strip(s: string): string {
    if s != [] && IsSpace(s[0] as int) then Strip(s[1..])
    else if s != [] && IsSpace(s[|s| - 1] as int) then Strip(s[..|s| - 1])
    else s
  }

  predicate AllSpace(s: string) {
    forall i :: 0 <= i < |s| ==> IsSpace(s[i] as int)
  }

  /** Trimming takes space off both ends, all of it, and nothing else. */
  lemma {:induction false} StripIsTrim(s: string) returns (before: string, after: string)
    ensures s == before + Strip(s) + after && AllSpace(before) && AllSpace(after)
    ensures Strip(s) != [] ==> !IsSpace(Strip(s)[0] as int) && !IsSpace(Strip(s)[|Strip(s)| - 1] as int)
  {
    before, after := [], [];
    if s != [] && IsSpace(s[0] as int) {
      before, after := StripIsTrim(s[1..]);
      assert s == [s[0]] + s[1..];
      before := [s[0]] + before;
    } else if s != [] && IsSpace(s[|s| - 1] as int) {
      before, after := StripIsTrim(s[..|s| - 1]);
      assert s == s[..|s| - 1] + [s[|s| - 1]];
      after := after + [s[|s| - 1]];
    }
  }

  lemma StripTwice(s: string)
    ensures Strip(Strip(s)) == Strip(s)
  {
    var before, after := StripIsTrim(s);
  }

  lemma {:induction false} LowerStays(s: string)
    requires forall i :: 0 <= i < |s| ==> !('A' <= s[i] <= 'Z')
    ensures Lower(s) == s
  {
    if s != [] { LowerStays(s[1..]); }
  }

  lemma {:induction false} LowerTwice(s: string)
    ensures Lower(Lower(s)) == Lower(s) == Lower(Upper(s))
  {
    if s != [] {
      LowerTwice(s[1..]);
      assert Lower(s)[1..] == Lower(s[1..]) && Upper(s)[1..] == Upper(s[1..]);
    }
  }
}
