/** Whitespace, trimming and line splitting, as the parser's language defines them. */
module Text {

  /** White space and line terminators: what `\s` matches and `trim` removes. */
  predicate IsSpace(c: char) {
    var n := c as int;
    || 9 <= n <= 13 || n == 0x20 || n == 0xA0 || n == 0x1680 || 0x2000 <= n <= 0x200A
    || n == 0x2028 || n == 0x2029 || n == 0x202F || n == 0x205F || n == 0x3000 || n == 0xFEFF
  }

  /** The 25 white-space characters and line terminators of the parser's language. */
  lemma SpaceIsOneOf(c: char)
    ensures IsSpace(c) <==> c as int in {
      0x9, 0xA, 0xB, 0xC, 0xD, 0x20, 0xA0, 0x1680, 0x2000, 0x2001, 0x2002, 0x2003, 0x2004, 0x2005, 0x2006,
      0x2007, 0x2008, 0x2009, 0x200A, 0x2028, 0x2029, 0x202F, 0x205F, 0x3000, 0xFEFF}
  {
  }

  ghost predicate AllSpace(s: string) {
    forall i :: 0 <= i < |s| ==> IsSpace(s[i])
  }

  /** No white space at either end. */
  predicate Trimmed(s: string) {
    s != "" ==> !IsSpace(s[0]) && !IsSpace(s[|s| - 1])
  }

  function TrimStart(s: string): (t: string)
    ensures |t| <= |s|
    ensures t != "" ==> !IsSpace(t[0])
  {
    if s == "" || !IsSpace(s[0]) then s else TrimStart(s[1..])
  }

  function TrimEnd(s: string): (t: string)
    ensures |t| <= |s| && t == s[..|t|]
    ensures t != "" ==> !IsSpace(t[|t| - 1])
    ensures forall i :: |t| <= i < |s| ==> IsSpace(s[i])
  {
    if s == "" || !IsSpace(s[|s| - 1]) then s else TrimEnd(s[..|s| - 1])
  }

  function Trim(s: string): (t: string)
    ensures |t| <= |s| && Trimmed(t)
  {
    var t := TrimEnd(TrimStart(s));
    assert t != "" ==> t[0] == TrimStart(s)[0];
    t
  }

  /** Trimming removes exactly the white space around a trimmed text. */
  lemma TrimPadded(before: string, s: string, after: string)
    requires AllSpace(before) && AllSpace(after) && Trimmed(s) && s != ""
    ensures Trim(before + s + after) == s
  {
    assert before + s + after == before + (s + after);
    assert (s + after)[0] == s[0];
    TrimStartPadded(before, s + after);
    TrimEndPadded(s, after);
  }

  lemma {:induction false} TrimStartPadded(before: string, s: string)
    requires AllSpace(before) && s != "" && !IsSpace(s[0])
    ensures TrimStart(before + s) == s
  {
    if before == "" {
      assert before + s == s;
    } else {
      assert (before + s)[1..] == before[1..] + s;
      TrimStartPadded(before[1..], s);
    }
  }

  lemma {:induction false} TrimEndPadded(s: string, after: string)
    requires AllSpace(after) && s != "" && !IsSpace(s[|s| - 1])
    ensures TrimEnd(s + after) == s
  {
    if after == "" {
      assert s + after == s;
    } else {
      assert (s + after)[..|s + after| - 1] == s + after[..|after| - 1];
      TrimEndPadded(s, after[..|after| - 1]);
    }
  }

  /** Trimming any text takes white space off both ends and nothing else. */
  lemma TrimTakesSpaceOnly(s: string) returns (before: string, after: string)
    ensures AllSpace(before) && AllSpace(after) && s == before + Trim(s) + after
  {
    before := TrimStartTakesSpace(s);
    var rest := TrimStart(s);
    after := rest[|TrimEnd(rest)|..];
  }

  lemma {:induction false} TrimStartTakesSpace(s: string) returns (before: string)
    ensures AllSpace(before) && s == before + TrimStart(s)
  {
    if s == "" || !IsSpace(s[0]) {
      before := "";
    } else {
      var tail := TrimStartTakesSpace(s[1..]);
      before := [s[0]] + tail;
      assert s == [s[0]] + s[1..];
    }
  }

  lemma TrimTrimmed(s: string)
    requires Trimmed(s)
    ensures Trim(s) == s
  {
    if s != "" {
      TrimPadded("", s, "");
      assert "" + s + "" == s;
    }
  }

  lemma TrimKeepsInk(s: string)
    requires s != "" && !IsSpace(s[0])
    ensures Trim(s) != ""
  {
    assert TrimStart(s) == s;
  }

  lemma {:induction false} TrimStartKeepsInk(s: string, i: nat)
    requires i < |s| && !IsSpace(s[i])
    ensures TrimStart(s) != ""
  {
    if IsSpace(s[0]) {
      TrimStartKeepsInk(s[1..], i - 1);
    }
  }

  // ---- Lines --------------------------------------------------------------------------------

  /** `s.split('\n')`. */
  function Split(s: string): (lines: seq<string>)
    ensures |lines| >= 1
  {
    if s == "" then [""]
    else if s[0] == '\n' then [""] + Split(s[1..])
    else
      var rest := Split(s[1..]);
      [[s[0]] + rest[0]] + rest[1..]
  }

  lemma {:induction false} SplitAppend(a: string, b: string)
    ensures Split(a + "\n" + b) == Split(a) + Split(b)
  {
    if a == "" {
      assert (a + "\n" + b)[1..] == b;
    } else {
      assert (a + "\n" + b)[1..] == a[1..] + "\n" + b;
      SplitAppend(a[1..], b);
    }
  }

  lemma {:induction false} SplitOneLine(s: string)
    requires '\n' !in s
    ensures Split(s) == [s]
  {
    if s != "" {
      assert s[0] in s;
      assert s == [s[0]] + s[1..];
      SplitOneLine(s[1..]);
    }
  }

  /** `line.indexOf(c)`: the first position of `c`, or -1. */
  function IndexOf(line: string, c: char): (k: int)
    ensures -1 <= k < |line|
    ensures k >= 0 ==> line[k] == c
    ensures forall i :: 0 <= i < (if k == -1 then |line| else k) ==> line[i] != c
  {
    if line == "" then -1
    else if line[0] == c then 0
    else
      var k := IndexOf(line[1..], c);
      if k == -1 then -1 else k + 1
  }

  lemma IndexOfFirst(key: string, rest: string, c: char)
    requires c !in key
    ensures IndexOf(key + [c] + rest, c) == |key|
  {
    var line := key + [c] + rest;
    assert line[|key|] == c;
    assert forall i :: 0 <= i < |key| ==> line[i] == key[i];
  }
}
