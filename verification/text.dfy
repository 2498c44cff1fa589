/**
 * The handful of Python string operations the service relies on, over
 * `string` (a sequence of Unicode code points, as a Python `str` is).
 *
 * `strip()` uses exactly the characters for which Python's `str.isspace()`
 * holds; `lower()`, `upper()` and `title()` change ASCII letters only.
 */
module Text {

  /** Python's `str.isspace()` for one character. */
  predicate IsSpace(c: char) {
    || c == ' '
    || ('\t' <= c <= '\r')
    || ('\U{1c}' <= c <= '\U{1f}')
    || c == '\U{85}' || c == '\U{a0}' || c == '\U{1680}'
    || ('\U{2000}' <= c <= '\U{200a}')
    || c == '\U{2028}' || c == '\U{2029}' || c == '\U{202f}'
    || c == '\U{205f}' || c == '\U{3000}'
  }

  predicate AllSpace(s: string) {
    forall k :: 0 <= k < |s| ==> IsSpace(s[k])
  }

  /** Index of the first character of `s` that is not whitespace (or `|s|`). */
  function FirstNonSpace(s: string): (i: nat)
    ensures i <= |s|
    ensures forall k :: 0 <= k < i ==> IsSpace(s[k])
    ensures i < |s| ==> !IsSpace(s[i])
  {
    if |s| == 0 || !IsSpace(s[0]) then 0 else 1 + FirstNonSpace(s[1..])
  }

  /** One past the index of the last character of `s` that is not whitespace (or 0). */
  function EndNonSpace(s: string): (j: nat)
    ensures j <= |s|
    ensures forall k :: j <= k < |s| ==> IsSpace(s[k])
    ensures j > 0 ==> !IsSpace(s[j - 1])
  {
    if |s| == 0 || !IsSpace(s[|s| - 1]) then |s| else EndNonSpace(s[..|s| - 1])
  }

  /** Python's `s.strip()`: `s` without its leading and trailing whitespace. */
  function Strip(s: string): (r: string)
    ensures r == "" <==> AllSpace(s)
    ensures r != "" ==> !IsSpace(r[0]) && !IsSpace(r[|r| - 1])
    ensures FirstNonSpace(s) + |r| <= |s|
    ensures r == s[FirstNonSpace(s)..FirstNonSpace(s) + |r|]
    ensures AllSpace(s[..FirstNonSpace(s)]) && AllSpace(s[FirstNonSpace(s) + |r|..])
  {
    var i := FirstNonSpace(s);
    if i == |s| then "" else s[i..EndNonSpace(s)]
  }

  /** Stripping a string that neither starts nor ends with whitespace changes nothing. */
  lemma StripTrimmed(s: string)
    requires s != "" ==> !IsSpace(s[0]) && !IsSpace(s[|s| - 1])
    ensures Strip(s) == s
  {
  }

  /** `strip()` only removes characters: what it keeps was in its input. */
  lemma StripKeeps(s: string, c: char)
    requires c !in s
    ensures c !in Strip(s)
  {
    var r := Strip(s);
    var i := FirstNonSpace(s);
    forall k | 0 <= k < |r| ensures r[k] != c {
      assert r[k] == s[i + k];
    }
  }

  /** Whitespace in front of a trimmed text is what `strip()` removes. */
  lemma StripPadded(pad: string, s: string)
    requires AllSpace(pad)
    requires s != "" && !IsSpace(s[0]) && !IsSpace(s[|s| - 1])
    ensures Strip(pad + s) == s
  {
    FirstNonSpacePadded(pad, s);
    var t := pad + s;
    assert t[|t| - 1] == s[|s| - 1];
    assert EndNonSpace(t) == |t|;
    assert t[|pad|..|t|] == s;
  }

  lemma {:induction false} FirstNonSpacePadded(pad: string, s: string)
    requires AllSpace(pad)
    requires s != "" && !IsSpace(s[0])
    ensures FirstNonSpace(pad + s) == |pad|
    decreases |pad|
  {
    if |pad| == 0 {
      assert pad + s == s;
    } else {
      assert (pad + s)[1..] == pad[1..] + s;
      assert AllSpace(pad[1..]) by {
        forall k | 0 <= k < |pad[1..]| ensures IsSpace(pad[1..][k]) { assert pad[1..][k] == pad[k + 1]; }
      }
      FirstNonSpacePadded(pad[1..], s);
    }
  }

  /** `strip()` is idempotent. */
  lemma StripIdempotent(s: string)
    ensures Strip(Strip(s)) == Strip(s)
  {
    StripTrimmed(Strip(s));
  }

  function LowerChar(c: char): char {
    if 'A' <= c <= 'Z' then (c as int + 32) as char else c
  }

  function UpperChar(c: char): char {
    if 'a' <= c <= 'z' then (c as int - 32) as char else c
  }

  predicate IsLetter(c: char) {
    ('a' <= c <= 'z') || ('A' <= c <= 'Z')
  }

  /** Python's `s.lower()` on ASCII letters. */
  function Lower(s: string): (r: string)
    ensures |r| == |s|
    ensures forall k :: 0 <= k < |s| ==> r[k] == LowerChar(s[k])
  {
    seq(|s|, k requires 0 <= k < |s| => LowerChar(s[k]))
  }

  /** Python's `s.upper()` on ASCII letters. */
  function Upper(s: string): (r: string)
    ensures |r| == |s|
    ensures forall k :: 0 <= k < |s| ==> r[k] == UpperChar(s[k])
  {
    seq(|s|, k requires 0 <= k < |s| => UpperChar(s[k]))
  }

  /** Python's `s.title()` on ASCII letters: a letter is upper-cased when it
      follows a non-letter (or starts the string) and lower-cased otherwise. */
  function Title(s: string): (r: string)
    ensures |r| == |s|
  {
    seq(|s|, k requires 0 <= k < |s| =>
      if k == 0 || !IsLetter(s[k - 1]) then UpperChar(s[k]) else LowerChar(s[k]))
  }

  lemma LowerIdempotent(s: string)
    ensures Lower(Lower(s)) == Lower(s)
  {
  }

  /** Lower-casing neither creates nor removes whitespace, so it commutes with `strip()`. */
  lemma LowerStripCommute(s: string)
    ensures Strip(Lower(s)) == Lower(Strip(s))
  {
    var l := Lower(s);
    LowerKeepsSpaces(s);
    FirstNonSpaceAgree(l, s);
    EndNonSpaceAgree(l, s);
    if FirstNonSpace(s) < |s| {
      LowerSlice(s, FirstNonSpace(s), EndNonSpace(s));
    }
  }

  lemma LowerKeepsSpaces(s: string)
    ensures |Lower(s)| == |s|
    ensures forall k :: 0 <= k < |s| ==> (IsSpace(Lower(s)[k]) <==> IsSpace(s[k]))
  {
    forall k | 0 <= k < |s|
      ensures IsSpace(Lower(s)[k]) <==> IsSpace(s[k])
    {
      LowerKeepsSpace(s[k]);
    }
  }

  lemma LowerKeepsSpace(c: char)
    ensures IsSpace(LowerChar(c)) <==> IsSpace(c)
  {
    if 'A' <= c <= 'Z' {
      assert 'a' <= LowerChar(c) <= 'z';
    }
  }

  lemma LowerSlice(s: string, i: nat, j: nat)
    requires i <= j <= |s|
    ensures Lower(s)[i..j] == Lower(s[i..j])
  {
  }

  lemma {:induction false} FirstNonSpaceAgree(a: string, b: string)
    requires |a| == |b|
    requires forall k :: 0 <= k < |a| ==> (IsSpace(a[k]) <==> IsSpace(b[k]))
    ensures FirstNonSpace(a) == FirstNonSpace(b)
  {
    if |a| > 0 && IsSpace(a[0]) {
      FirstNonSpaceAgree(a[1..], b[1..]);
    }
  }

  lemma {:induction false} EndNonSpaceAgree(a: string, b: string)
    requires |a| == |b|
    requires forall k :: 0 <= k < |a| ==> (IsSpace(a[k]) <==> IsSpace(b[k]))
    ensures EndNonSpace(a) == EndNonSpace(b)
  {
    if |a| > 0 && IsSpace(a[|a| - 1]) {
      EndNonSpaceAgree(a[..|a| - 1], b[..|b| - 1]);
    }
  }

  /** Python's `sub in s` for strings: `sub` occurs in `s` as a contiguous block. */
  predicate Contains(s: string, sub: string)
    decreases |s|
  {
    sub <= s || (|s| > 0 && Contains(s[1..], sub))
  }

  lemma {:induction false} ContainsInfix(a: string, sub: string, b: string)
    ensures Contains(a + sub + b, sub)
  {
    if a == [] {
      assert a + sub + b == sub + b;
    } else {
      assert (a + sub + b)[1..] == a[1..] + sub + b;
      ContainsInfix(a[1..], sub, b);
    }
  }

  /** An occurrence survives appending more text. */
  lemma {:induction false} ContainsExtend(a: string, sub: string, b: string)
    requires Contains(a, sub)
    ensures Contains(a + b, sub)
    decreases |a|
  {
    if sub <= a {
      PrefixExtend(sub, a, b);
    } else {
      assert (a + b)[1..] == a[1..] + b;
      ContainsExtend(a[1..], sub, b);
    }
  }

  predicate IsDigit(c: char) {
    '0' <= c <= '9'
  }

  function DigitChar(d: nat): (c: char)
    requires d < 10
    ensures IsDigit(c) && c as int - '0' as int == d
  {
    (d + '0' as int) as char
  }

  /** Python's `str(n)` for a natural number: its decimal digits, no leading zero. */
  function NatToString(n: nat): (r: string)
    ensures |r| >= 1
    ensures forall k :: 0 <= k < |r| ==> IsDigit(r[k])
    ensures r[0] == '0' ==> n == 0
    decreases n
  {
    if n < 10 then [DigitChar(n)] else NatToString(n / 10) + [DigitChar(n % 10)]
  }

  /** Python's `str(n)` (and so the `{n}` of an f-string) for any integer. */
  function IntToString(n: int): (r: string)
    ensures |r| >= 1
    ensures n >= 0 <==> IsDigit(r[0])
  {
    if n < 0 then "-" + NatToString(-n) else NatToString(n)
  }

  /** The value of a string of decimal digits. */
  function ParseNat(s: string): nat
    requires forall k :: 0 <= k < |s| ==> IsDigit(s[k])
  {
    if |s| == 0 then 0
    else
      var last := s[|s| - 1];
      assert IsDigit(last);
      ParseNat(s[..|s| - 1]) * 10 + (last as int - '0' as int)
  }

  /** An optional minus sign followed by decimal digits (at least one character in all). */
  predicate IsNumeral(s: string) {
    |s| >= 1 && forall k :: (if s[0] == '-' then 1 else 0) <= k < |s| ==> IsDigit(s[k])
  }

  /** Every decimal rendering of an integer is a numeral. */
  lemma IntToStringIsNumeral(n: int)
    ensures IsNumeral(IntToString(n))
  {
    if n < 0 {
      assert IntToString(n)[1..] == NatToString(-n);
    }
  }

  /** The value of an optionally signed decimal numeral. */
  function ParseInt(s: string): int
    requires |s| >= 1
    requires forall k :: (if s[0] == '-' then 1 else 0) <= k < |s| ==> IsDigit(s[k])
  {
    if s[0] == '-' then -(ParseNat(s[1..]) as int) else ParseNat(s)
  }

  lemma {:induction false} ParseNatToString(n: nat)
    ensures ParseNat(NatToString(n)) == n
    decreases n
  {
    if n >= 10 {
      var front := NatToString(n / 10);
      var s := front + [DigitChar(n % 10)];
      assert s[..|s| - 1] == front;
      ParseNatToString(n / 10);
    }
  }

  /** Rendering an integer in decimal loses nothing: it parses back. */
  lemma ParseIntToString(n: int)
    ensures ParseInt(IntToString(n)) == n
  {
    if n < 0 {
      assert IntToString(n)[1..] == NatToString(-n);
      ParseNatToString(-n);
    } else {
      ParseNatToString(n);
    }
  }

  /** Distinct integers render as distinct decimal strings. */
  lemma IntToStringInjective(a: int, b: int)
    requires IntToString(a) == IntToString(b)
    ensures a == b
  {
    ParseIntToString(a);
    ParseIntToString(b);
  }

  /** A common prefix can be cancelled from equal strings. */
  lemma CancelPrefix(p: string, x: string, y: string)
    requires p + x == p + y
    ensures x == y
  {
    assert x == (p + x)[|p|..];
    assert y == (p + y)[|p|..];
  }

  /** A prefix of a string stays a prefix when more is appended. */
  lemma PrefixExtend(p: string, a: string, b: string)
    requires p <= a
    ensures p <= a + b
  {
    assert (a + b)[..|a|] == a;
  }

  /** An occurrence survives prepending more text. */
  lemma {:induction false} ContainsPrepend(a: string, b: string, sub: string)
    requires Contains(b, sub)
    ensures Contains(a + b, sub)
    decreases |a|
  {
    if a != [] {
      assert (a + b)[1..] == a[1..] + b;
      ContainsPrepend(a[1..], b, sub);
    } else {
      assert a + b == b;
    }
  }

  /** Python's `"\n".join(lines)`. */
  function JoinLines(lines: seq<string>): string
    decreases |lines|
  {
    if |lines| == 0 then ""
    else if |lines| == 1 then lines[0]
    else lines[0] + "\n" + JoinLines(lines[1..])
  }

  /** Joining one more line appends a line break and that line. */
  lemma {:induction false} JoinLinesSnoc(lines: seq<string>, last: string)
    requires |lines| >= 1
    ensures JoinLines(lines + [last]) == JoinLines(lines) + "\n" + last
    decreases |lines|
  {
    var all := lines + [last];
    assert all[0] == lines[0];
    if |lines| == 1 {
      assert all[1..] == [last];
    } else {
      assert all[1..] == lines[1..] + [last];
      JoinLinesSnoc(lines[1..], last);
    }
  }

  /** The first line, with its line break, opens the joined text. */
  lemma JoinLinesOpens(lines: seq<string>)
    requires |lines| >= 2
    ensures lines[0] + "\n" <= JoinLines(lines)
  {
    PrefixExtend(lines[0] + "\n", lines[0] + "\n", JoinLines(lines[1..]));
  }

  /** Whatever one line contains, the joined text contains. */
  lemma {:induction false} JoinLinesContains(lines: seq<string>, i: nat, sub: string)
    requires i < |lines| && Contains(lines[i], sub)
    ensures Contains(JoinLines(lines), sub)
    decreases i
  {
    if |lines| == 1 {
    } else if i == 0 {
      ContainsExtend(lines[0], sub, "\n" + JoinLines(lines[1..]));
      assert lines[0] + "\n" + JoinLines(lines[1..]) == lines[0] + ("\n" + JoinLines(lines[1..]));
    } else {
      JoinLinesContains(lines[1..], i - 1, sub);
      ContainsPrepend(lines[0] + "\n", JoinLines(lines[1..]), sub);
    }
  }

  /** A string ends with any suffix it was built with. */
  lemma ContainsSuffix(p: string, sub: string)
    ensures Contains(p + sub, sub)
  {
    ContainsInfix(p, sub, "");
    assert p + sub + "" == p + sub;
  }
}
