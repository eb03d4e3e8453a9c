/** The parts of Python's `str` that the core relies on: `strip()`,
    `lower()`, `startswith`, the `in` substring test, `join`, `split(sep, 1)`
    and `str()` of an integer. */
module Text {

  /** Python's `str.isspace` for one character. */
  predicate IsSpace(c: char)
  {
    || c == ' '
    || ('\t' <= c <= '\r')
    || ('\U{1C}' <= c <= '\U{1F}')
    || c == '\U{85}' || c == '\U{A0}' || c == '\U{1680}'
    || ('\U{2000}' <= c <= '\U{200A}')
    || c == '\U{2028}' || c == '\U{2029}' || c == '\U{202F}' || c == '\U{205F}' || c == '\U{3000}'
  }

  /** How many whitespace characters `s` starts with. */
  function LeadingSpace(s: string): (n: nat)
    ensures n <= |s|
  {
    if s != [] && IsSpace(s[0]) then 1 + LeadingSpace(s[1..]) else 0
  }

  /** How many whitespace characters `s` ends with. */
  function TrailingSpace(s: string): (n: nat)
    ensures n <= |s|
  {
    if s != [] && IsSpace(s[|s| - 1]) then 1 + TrailingSpace(s[..|s| - 1]) else 0
  }

  /** The leading run is all whitespace and stops at a non-whitespace character. */
  lemma {:induction false} LeadingSpaceIsMaximal(s: string)
    ensures forall k :: 0 <= k < LeadingSpace(s) ==> IsSpace(s[k])
    ensures LeadingSpace(s) < |s| ==> !IsSpace(s[LeadingSpace(s)])
    decreases |s|
  {
    if s != [] && IsSpace(s[0]) {
      var n := LeadingSpace(s);
      LeadingSpaceIsMaximal(s[1..]);
      forall k | 1 <= k < n
        ensures IsSpace(s[k])
      {
        assert s[k] == s[1..][k - 1];
      }
      if n < |s| {
        assert s[n] == s[1..][n - 1];
      }
    }
  }

  /** The trailing run is all whitespace and stops at a non-whitespace character. */
  lemma {:induction false} TrailingSpaceIsMaximal(s: string)
    ensures forall k :: |s| - TrailingSpace(s) <= k < |s| ==> IsSpace(s[k])
    ensures TrailingSpace(s) < |s| ==> !IsSpace(s[|s| - 1 - TrailingSpace(s)])
    decreases |s|
  {
    if s != [] && IsSpace(s[|s| - 1]) {
      var init := s[..|s| - 1];
      TrailingSpaceIsMaximal(init);
      forall k | |s| - TrailingSpace(s) <= k < |s| - 1
        ensures IsSpace(s[k])
      {
        assert s[k] == init[k];
      }
    }
  }

  /** `s.lstrip()`. */
  function StripStart(s: string): string
  {
    s[LeadingSpace(s)..]
  }

  /** `s.rstrip()`. */
  function StripEnd(s: string): string
  {
    s[..|s| - TrailingSpace(s)]
  }

  /** `s.strip()`. */
  function Strip(s: string): string
  {
    StripEnd(StripStart(s))
  }

  /** Where `s.strip()` cuts `s`: whitespace only before `i` and from `j` on,
      and none at `i` or just before `j`. */
  lemma StripBounds(s: string) returns (i: nat, j: nat)
    ensures i <= j <= |s| && Strip(s) == s[i..j]
    ensures forall k :: 0 <= k < i ==> IsSpace(s[k])
    ensures forall k :: j <= k < |s| ==> IsSpace(s[k])
    ensures i < j ==> !IsSpace(s[i]) && !IsSpace(s[j - 1])
  {
    i := LeadingSpace(s);
    var t := s[i..];
    var n := TrailingSpace(t);
    j := |s| - n;
    LeadingSpaceIsMaximal(s);
    TrailingSpaceIsMaximal(t);
    assert t[..|t| - n] == s[i..j];
    forall k | j <= k < |s|
      ensures IsSpace(s[k])
    {
      assert s[k] == t[k - i];
    }
    if i < j {
      assert s[j - 1] == t[|t| - 1 - n];
    }
  }

  /** `s.strip()` removes exactly the surrounding whitespace: the result is a
      slice of `s` with whitespace only outside it and none at its ends. */
  lemma StripIsTrim(s: string)
    ensures exists i, j :: 0 <= i <= j <= |s| && Strip(s) == s[i..j]
              && (forall k :: 0 <= k < i ==> IsSpace(s[k]))
              && (forall k :: j <= k < |s| ==> IsSpace(s[k]))
    ensures Strip(s) == [] || (!IsSpace(Strip(s)[0]) && !IsSpace(Strip(s)[|Strip(s)| - 1]))
  {
    var i, j := StripBounds(s);
    if i < j {
      assert Strip(s)[0] == s[i];
      assert Strip(s)[|Strip(s)| - 1] == s[j - 1];
    }
  }

  /** A string without whitespace at either end is its own `strip()`. */
  lemma StripTrimmed(t: string)
    requires t == [] || (!IsSpace(t[0]) && !IsSpace(t[|t| - 1]))
    ensures Strip(t) == t
  {
    assert LeadingSpace(t) == 0;
    assert t[0..] == t;
    assert TrailingSpace(t) == 0;
  }

  /** `c.lower()` on ASCII letters; every other character is unchanged. */
  function LowerChar(c: char): char
  {
    if 'A' <= c <= 'Z' then (c as int + 32) as char else c
  }

  /** `s.lower()`, character by character. */
  function Lower(s: string): (r: string)
    ensures |r| == |s|
    ensures forall i :: 0 <= i < |s| ==> r[i] == LowerChar(s[i])
  {
    seq(|s|, i requires 0 <= i < |s| => LowerChar(s[i]))
  }

  /** Lower-casing twice is lower-casing once, and it never turns a
      character into whitespace or whitespace into something else. */
  lemma LowerFacts(s: string)
    ensures Lower(Lower(s)) == Lower(s)
    ensures forall i :: 0 <= i < |s| ==> (IsSpace(Lower(s)[i]) <==> IsSpace(s[i]))
  {
  }

  /** `s.startswith(prefix)`. */
  predicate StartsWith(s: string, prefix: string)
  {
    |prefix| <= |s| && s[..|prefix|] == prefix
  }

  /** Python's `part in s` for strings. */
  predicate Contains(s: string, part: string)
  {
    exists i :: 0 <= i <= |s| && StartsWith(s[i..], part)
  }

  /** `sep.join(parts)`. */
  function Join(sep: string, parts: seq<string>): string
  {
    if |parts| == 0 then ""
    else if |parts| == 1 then parts[0]
    else parts[0] + sep + Join(sep, parts[1..])
  }

  /** Position of the first `c` in `s`, or -1 (`s.find(c)`). */
  function Find(s: string, c: char): (i: int)
    ensures -1 <= i < |s|
    ensures i == -1 <==> c !in s
    ensures i >= 0 ==> s[i] == c && c !in s[..i]
  {
    if |s| == 0 then -1
    else if s[0] == c then 0
    else
      var j := Find(s[1..], c);
      assert s[1..][..if j < 0 then 0 else j] == s[1..1 + if j < 0 then 0 else j];
      if j == -1 then -1 else j + 1
  }

  /** `s.split(sep, 1)`: one part when `sep` does not occur, otherwise the
      text before its first occurrence and the text after it. */
  function SplitOnce(s: string, sep: char): (parts: seq<string>)
    ensures |parts| == if sep in s then 2 else 1
  {
    var i := Find(s, sep);
    if i < 0 then [s] else [s[..i], s[i + 1..]]
  }

  function DigitChar(d: nat): char
    requires d < 10
  {
    "0123456789"[d]
  }

  /** `str(n)` for a natural number: its decimal digits, most significant first. */
  function NatToString(n: nat): (s: string)
    ensures 1 <= |s|
    ensures n >= 10 <==> |s| >= 2
    decreases n
  {
    if n < 10 then [DigitChar(n)] else NatToString(n / 10) + [DigitChar(n % 10)]
  }

  /** `str(n)` for any integer. */
  function IntToString(n: int): string
  {
    if n < 0 then "-" + NatToString(-n) else NatToString(n)
  }

  lemma DigitCharInjective(a: nat, b: nat)
    requires a < 10 && b < 10 && DigitChar(a) == DigitChar(b)
    ensures a == b
  {
  }

  /** Different natural numbers print differently. */
  lemma {:induction false} NatToStringInjective(a: nat, b: nat)
    requires NatToString(a) == NatToString(b)
    ensures a == b
    decreases a
  {
    var s := NatToString(a);
    if a >= 10 {
      assert b >= 10;
      assert s[..|s| - 1] == NatToString(a / 10) == NatToString(b / 10);
      NatToStringInjective(a / 10, b / 10);
      DigitCharInjective(a % 10, b % 10);
    } else {
      assert b < 10;
      DigitCharInjective(a, b);
    }
  }

  /** `str(n)` starts with a minus sign exactly when `n` is negative. */
  lemma IntToStringSign(n: int)
    ensures IntToString(n)[0] == '-' <==> n < 0
  {
    NatDigitsOnly(if n < 0 then -n else n);
  }

  /** `str()` is injective on integers, so distinct row ids give distinct
      document ids. */
  lemma IntToStringInjective(a: int, b: int)
    requires IntToString(a) == IntToString(b)
    ensures a == b
  {
    IntToStringSign(a);
    IntToStringSign(b);
    if a < 0 {
      assert NatToString(-a) == IntToString(a)[1..] == IntToString(b)[1..] == NatToString(-b);
      NatToStringInjective(-a, -b);
    } else {
      NatToStringInjective(a, b);
    }
  }

  lemma {:induction false} NatDigitsOnly(n: nat)
    ensures forall i :: 0 <= i < |NatToString(n)| ==> '0' <= NatToString(n)[i] <= '9'
    decreases n
  {
    if n >= 10 {
      NatDigitsOnly(n / 10);
    }
  }
}
