/** String helpers with the meaning Python gives them: str.join, str.endswith,
    str.strip, single-character str.replace, and str() of an integer. */
module Strings {

  /** `sep.join(parts)`. Defined from the last part, the way the source's loops
      extend their lists. */
  function Join(sep: string, parts: seq<string>): string
  {
    if |parts| == 0 then ""
    else if |parts| == 1 then parts[0]
    else Join(sep, parts[..|parts| - 1]) + sep + parts[|parts| - 1]
  }

  /** `s.endswith(suffix)`. */
  predicate EndsWith(s: string, suffix: string)
  {
    |suffix| <= |s| && s[|s| - |suffix|..] == suffix
  }

  /** `s.startswith(prefix)`. */
  predicate StartsWith(s: string, prefix: string)
  {
    |prefix| <= |s| && s[..|prefix|] == prefix
  }

  /** `s.replace(from, to)` for one-character `from` and `to`. */
  function ReplaceChar(s: string, from: char, to: char): (r: string)
    ensures |r| == |s|
    ensures forall i :: 0 <= i < |s| ==> r[i] == (if s[i] == from then to else s[i])
  {
    if s == [] then [] else ReplaceChar(s[..|s| - 1], from, to) + [if s[|s| - 1] == from then to else s[|s| - 1]]
  }

  /** `os.path.join(a, b)` on POSIX: an absolute `b` replaces `a`, otherwise one "/"
      separates them unless `a` is empty or already ends with one. */
  function PathJoin(a: string, b: string): (r: string)
    ensures EndsWith(r, b)
    ensures StartsWith(b, "/") ==> r == b
    ensures !StartsWith(b, "/") && a != [] ==> StartsWith(r, a)
  {
    if StartsWith(b, "/") then b
    else if a == [] || EndsWith(a, "/") then a + b
    else a + "/" + b
  }

  /** The characters `str.strip()` removes (the ASCII ones among them). */
  predicate IsSpace(c: char)
  {
    c == ' ' || c == '\t' || c == '\n' || c == '\r' || c == '\U{000B}' || c == '\U{000C}'
    || c == '\U{001C}' || c == '\U{001D}' || c == '\U{001E}' || c == '\U{001F}'
  }

  predicate AllSpace(s: string)
  {
    forall i :: 0 <= i < |s| ==> IsSpace(s[i])
  }

  function StripLeft(s: string): string
  {
    if s != [] && IsSpace(s[0]) then StripLeft(s[1..]) else s
  }

  function StripRight(s: string): string
  {
    if s != [] && IsSpace(s[|s| - 1]) then StripRight(s[..|s| - 1]) else s
  }

  lemma {:induction false} StripLeftSplits(s: string) returns (k: nat)
    ensures k <= |s| && AllSpace(s[..k]) && StripLeft(s) == s[k..]
    ensures StripLeft(s) != [] ==> !IsSpace(StripLeft(s)[0])
  {
    if s != [] && IsSpace(s[0]) {
      var t := s[1..];
      var k' := StripLeftSplits(t);
      k := k' + 1;
      forall i | 0 <= i < k ensures IsSpace(s[..k][i]) {
        if i > 0 {
          assert s[..k][i] == t[..k'][i - 1];
        }
      }
      assert s[k..] == t[k'..];
    } else {
      k := 0;
    }
  }

  lemma {:induction false} StripRightSplits(s: string) returns (k: nat)
    ensures k <= |s| && AllSpace(s[k..]) && StripRight(s) == s[..k]
    ensures StripRight(s) != [] ==> !IsSpace(StripRight(s)[|StripRight(s)| - 1])
  {
    if s != [] && IsSpace(s[|s| - 1]) {
      var init := s[..|s| - 1];
      k := StripRightSplits(init);
      assert s[k..] == init[k..] + [s[|s| - 1]];
      assert s[..k] == init[..k];
    } else {
      k := |s|;
    }
  }

  /** `s.strip()`. */
  function Strip(s: string): string
  {
    StripRight(StripLeft(s))
  }

  /** What `strip` promises: `s` is the result with whitespace before and after it,
      and the result neither starts nor ends with whitespace. */
  lemma StripSplits(s: string) returns (a: string, b: string)
    ensures AllSpace(a) && AllSpace(b) && s == a + Strip(s) + b
    ensures var r := Strip(s); r != [] ==> !IsSpace(r[0]) && !IsSpace(r[|r| - 1])
  {
    var l := StripLeft(s);
    var k := StripLeftSplits(s);
    var j := StripRightSplits(l);
    var r := l[..j];
    a, b := s[..k], l[j..];
    assert s == a + r + b by {
      assert s == s[..k] + s[k..];
      assert l == l[..j] + l[j..];
    }
    if r != [] {
      assert r[0] == l[0];
    }
  }

  /** Stripping twice is stripping once. */
  lemma StripIdempotent(s: string)
    ensures Strip(Strip(s)) == Strip(s)
  {
    var a, b := StripSplits(s);
    NoSpaceEndsStripped(Strip(s));
  }

  lemma NoSpaceEndsStripped(r: string)
    requires r != [] ==> !IsSpace(r[0]) && !IsSpace(r[|r| - 1])
    ensures Strip(r) == r
  {
  }

  // ---- str() of an integer -------------------------------------------------

  function DigitChar(d: nat): char
    requires d < 10
  {
    "0123456789"[d]
  }

  function DigitValue(c: char): int
  {
    if '0' <= c <= '9' then c as int - '0' as int else -1
  }

  /** Decimal digits of `n`, most significant first, no leading zero. */
  function NatToString(n: nat): (r: string)
    ensures r != []
  {
    if n < 10 then [DigitChar(n)] else NatToString(n / 10) + [DigitChar(n % 10)]
  }

  /** `str(i)` for a Python int: a minus sign before the digits of a negative number. */
  function IntToString(i: int): (r: string)
  {
    if i < 0 then "-" + NatToString(-i) else NatToString(i)
  }

  predicate IsDigits(s: string)
  {
    s != [] && forall i :: 0 <= i < |s| ==> '0' <= s[i] <= '9'
  }

  /** `int(s)` for a string of decimal digits. */
  function ParseDigits(s: string): nat
    requires IsDigits(s)
  {
    if |s| == 1 then DigitValue(s[0]) as nat
    else ParseDigits(s[..|s| - 1]) * 10 + DigitValue(s[|s| - 1]) as nat
  }

  function ParseInt(s: string): int
    requires IsDigits(s) || (|s| > 1 && s[0] == '-' && IsDigits(s[1..]))
  {
    if s[0] == '-' then -(ParseDigits(s[1..]) as int) else ParseDigits(s)
  }

  lemma {:induction false} NatToStringRoundTrip(n: nat)
    ensures IsDigits(NatToString(n))
    ensures ParseDigits(NatToString(n)) == n
  {
    var s := NatToString(n);
    if n >= 10 {
      NatToStringRoundTrip(n / 10);
      assert s[..|s| - 1] == NatToString(n / 10);
    }
  }

  /** `int(str(i)) == i`: the rendering loses nothing. */
  lemma IntToStringRoundTrip(i: int)
    ensures IsDigits(IntToString(i)) || (|IntToString(i)| > 1 && IntToString(i)[0] == '-' && IsDigits(IntToString(i)[1..]))
    ensures ParseInt(IntToString(i)) == i
  {
    if i < 0 {
      NatToStringRoundTrip(-i);
      assert IntToString(i)[1..] == NatToString(-i);
    } else {
      NatToStringRoundTrip(i);
    }
  }

  lemma IntToStringInjective(i: int, j: int)
    requires IntToString(i) == IntToString(j)
    ensures i == j
  {
    IntToStringRoundTrip(i);
    IntToStringRoundTrip(j);
  }

  /** Python's `repr` of a string, without the escaping of quotes and control characters. */
  function Quote(s: string): string
  {
    "'" + s + "'"
  }

  /** `str(names)` for a list of strings: `['a', 'b']`. */
  function ListRepr(names: seq<string>): string
  {
    "[" + Join(", ", seq(|names|, i requires 0 <= i < |names| => Quote(names[i]))) + "]"
  }
}
