/** The few methods of Python's `str` that the tools use: `strip()`,
    `lower()` and `startswith()`. */
module PyText {

  /** `c.isspace()`: the characters `str.strip()` removes when called without
      an argument. */
  predicate IsSpace(c: char)
  {
    || c == ' ' || c == '\t' || c == '\n' || c == '\r' || c == '\U{B}' || c == '\U{C}'
    || ('\U{1C}' <= c <= '\U{1F}')
    || c == '\U{85}' || c == '\U{A0}' || c == '\U{1680}'
    || ('\U{2000}' <= c <= '\U{200A}')
    || c == '\U{2028}' || c == '\U{2029}' || c == '\U{202F}' || c == '\U{205F}' || c == '\U{3000}'
  }

  /** Every character of `s` is whitespace. */
  predicate AllSpace(s: string)
  {
    forall i :: 0 <= i < |s| ==> IsSpace(s[i])
  }

  /** `s.lstrip()`: drops the leading whitespace and nothing else. */
  function TrimStart(s: string): (r: string)
    ensures |r| <= |s| && r == s[|s| - |r|..]
    ensures r == [] || !IsSpace(r[0])
    ensures AllSpace(s[..|s| - |r|])
  {
    if |s| > 0 && IsSpace(s[0]) then
      var r := TrimStart(s[1..]);
      assert s[..|s| - |r|] == [s[0]] + s[1..][..|s| - 1 - |r|];
      r
    else s
  }

  /** `s.rstrip()`: drops the trailing whitespace and nothing else. */
  function TrimEnd(s: string): (r: string)
    ensures |r| <= |s| && r == s[..|r|]
    ensures r == [] || !IsSpace(r[|r| - 1])
    ensures AllSpace(s[|r|..])
  {
    if |s| > 0 && IsSpace(s[|s| - 1]) then
      var r := TrimEnd(s[..|s| - 1]);
      assert s[|r|..] == s[..|s| - 1][|r|..] + [s[|s| - 1]];
      r
    else s
  }

  /** `r` is `s` with a run of whitespace cut off at each end. */
  predicate IsTrimmedSlice(s: string, r: string)
  {
    exists i, j :: 0 <= i <= j <= |s| && r == s[i..j] && AllSpace(s[..i]) && AllSpace(s[j..])
  }

  /** `s.strip()`: the input with its leading and trailing whitespace cut
      off, what is left neither starting nor ending with whitespace. */
  function Strip(s: string): (r: string)
    ensures r == [] || (!IsSpace(r[0]) && !IsSpace(r[|r| - 1]))
    ensures IsTrimmedSlice(s, r)
  {
    var t := TrimStart(s);
    var u := TrimEnd(t);
    TrimmedTwice(s, t, u);
    u
  }

  /** Cutting whitespace off the front and then off the back of what is
      left cuts a whitespace run off each end. */
  lemma TrimmedTwice(s: string, t: string, u: string)
    requires |t| <= |s| && t == s[|s| - |t|..] && AllSpace(s[..|s| - |t|])
    requires |u| <= |t| && u == t[..|u|] && AllSpace(t[|u|..])
    ensures u == [] || u[0] == t[0]
    ensures IsTrimmedSlice(s, u)
  {
    var i := |s| - |t|;
    var j := i + |u|;
    assert u == s[i..j];
    assert s[j..] == t[|u|..];
  }

  /** `c.lower()` for ASCII letters; every other character is left as it is. */
  function LowerChar(c: char): char
  {
    if 'A' <= c <= 'Z' then (c as int + 32) as char else c
  }

  /** `s.lower()`, character by character. */
  function Lower(s: string): (r: string)
    ensures |r| == |s|
    ensures forall i :: 0 <= i < |s| ==> r[i] == LowerChar(s[i])
  {
    seq(|s|, i requires 0 <= i < |s| => LowerChar(s[i]))
  }

  /** `s.startswith(prefix)`. */
  predicate StartsWith(s: string, prefix: string)
  {
    |prefix| <= |s| && s[..|prefix|] == prefix
  }

  lemma {:induction false} LowerTrimStart(s: string)
    ensures Lower(TrimStart(s)) == TrimStart(Lower(s))
  {
    if |s| > 0 && IsSpace(s[0]) {
      assert Lower(s)[1..] == Lower(s[1..]);
      LowerTrimStart(s[1..]);
    }
  }

  lemma {:induction false} LowerTrimEnd(s: string)
    ensures Lower(TrimEnd(s)) == TrimEnd(Lower(s))
  {
    if |s| > 0 && IsSpace(s[|s| - 1]) {
      assert Lower(s)[..|s| - 1] == Lower(s[..|s| - 1]);
      LowerTrimEnd(s[..|s| - 1]);
    }
  }

  /** Lower-casing and stripping commute, so the order Python applies them in
      does not matter. */
  lemma LowerStrip(s: string)
    ensures Lower(Strip(s)) == Strip(Lower(s))
  {
    LowerTrimStart(s);
    LowerTrimEnd(TrimStart(s));
  }

  /** Leading whitespace is invisible to `lstrip()`. */
  lemma {:induction false} TrimStartPadding(pad: string, s: string)
    requires AllSpace(pad)
    ensures TrimStart(pad + s) == TrimStart(s)
  {
    if pad != [] {
      var t := pad + s;
      assert t[0] == pad[0] && IsSpace(pad[0]);
      assert t[1..] == pad[1..] + s;
      assert TrimStart(t) == TrimStart(t[1..]);
      assert AllSpace(pad[1..]);
      TrimStartPadding(pad[1..], s);
    } else {
      assert pad + s == s;
    }
  }

  /** Trailing whitespace is invisible to `rstrip()`. */
  lemma {:induction false} TrimEndPadding(s: string, pad: string)
    requires AllSpace(pad)
    ensures TrimEnd(s + pad) == TrimEnd(s)
  {
    if pad != [] {
      var t := s + pad;
      var init := pad[..|pad| - 1];
      assert t[|t| - 1] == pad[|pad| - 1] && IsSpace(pad[|pad| - 1]);
      assert t[..|t| - 1] == s + init;
      assert TrimEnd(t) == TrimEnd(t[..|t| - 1]);
      assert AllSpace(init);
      TrimEndPadding(s, init);
    } else {
      assert s + pad == s;
    }
  }
}
