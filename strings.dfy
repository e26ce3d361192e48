/**
 * Character classes, trimming, and decimal rendering of natural numbers, as the
 * Python and JavaScript runtimes of the modelled program perform them.
 */
module Strings {
  import opened Wrappers

  /** Characters for which Python's `str.isspace()` holds: what `str.strip()` removes. */
  predicate IsPySpace(c: char) {
    || c == ' ' || c == '\t' || c == '\n' || c == '\r' || c == '\U{B}' || c == '\U{C}'
    || ('\U{1C}' <= c <= '\U{1F}')
    || c == '\U{85}' || c == '\U{A0}' || c == '\U{1680}'
    || ('\U{2000}' <= c <= '\U{200A}')
    || c == '\U{2028}' || c == '\U{2029}' || c == '\U{202F}' || c == '\U{205F}' || c == '\U{3000}'
  }

  /** WhiteSpace and LineTerminator of ECMAScript: what `String.prototype.trim()` removes. */
  predicate IsJsSpace(c: char) {
    || c == ' ' || c == '\t' || c == '\n' || c == '\r' || c == '\U{B}' || c == '\U{C}'
    || c == '\U{A0}' || c == '\U{1680}'
    || ('\U{2000}' <= c <= '\U{200A}')
    || c == '\U{2028}' || c == '\U{2029}' || c == '\U{202F}' || c == '\U{205F}' || c == '\U{3000}'
    || c == '\U{FEFF}'
  }

  /** Every character of `s` is white space. */
  predicate AllSpace(s: string, ws: char -> bool) {
    forall i :: 0 <= i < |s| ==> ws(s[i])
  }

  /** `s` without its leading white space. */
  function TrimStart(s: string, ws: char -> bool): (r: string)
    ensures |r| <= |s| && r == s[|s| - |r|..]
    ensures forall i :: 0 <= i < |s| - |r| ==> ws(s[i])
    ensures r != [] ==> !ws(r[0])
  {
    if s == [] || !ws(s[0]) then s else TrimStart(s[1..], ws)
  }

  /** `s` without its trailing white space. */
  function TrimEnd(s: string, ws: char -> bool): (r: string)
    ensures |r| <= |s| && r == s[..|r|]
    ensures forall i :: |r| <= i < |s| ==> ws(s[i])
    ensures r != [] ==> !ws(r[|r| - 1])
  {
    if s == [] || !ws(s[|s| - 1]) then s else TrimEnd(s[..|s| - 1], ws)
  }

  /**
   * `s` without white space at either end (Python `strip()`, JavaScript `trim()`).
   * The result is empty exactly when `s` is blank.
   */
  function Strip(s: string, ws: char -> bool): (r: string)
    ensures |r| <= |s|
    ensures exists i, j :: 0 <= i <= j <= |s| && r == s[i..j] && AllSpace(s[..i], ws) && AllSpace(s[j..], ws)
    ensures r == [] <==> AllSpace(s, ws)
    ensures r != [] ==> !ws(r[0]) && !ws(r[|r| - 1])
  {
    var t := TrimStart(s, ws);
    var r := TrimEnd(t, ws);
    Stripped(s, ws, t, r);
    r
  }

  /** What `Strip` promises, for the two trimming steps given by their properties. */
  lemma Stripped(s: string, ws: char -> bool, t: string, r: string)
    requires |t| <= |s| && t == s[|s| - |t|..] && forall k :: 0 <= k < |s| - |t| ==> ws(s[k])
    requires t != [] ==> !ws(t[0])
    requires |r| <= |t| && r == t[..|r|] && forall k :: |r| <= k < |t| ==> ws(t[k])
    requires r != [] ==> !ws(r[|r| - 1])
    ensures |r| <= |s|
    ensures exists i, j :: 0 <= i <= j <= |s| && r == s[i..j] && AllSpace(s[..i], ws) && AllSpace(s[j..], ws)
    ensures r == [] <==> AllSpace(s, ws)
    ensures r != [] ==> !ws(r[0]) && !ws(r[|r| - 1])
  {
    var i, j := |s| - |t|, |s| - |t| + |r|;
    StripSlice(s, ws, t, r);
    StripBlank(s, ws, t, r);
    assert 0 <= i <= j <= |s| && r == s[i..j] && AllSpace(s[..i], ws) && AllSpace(s[j..], ws);
  }

  /**
   * A suffix `t` of `s` after white space, and a prefix `r` of `t` before white
   * space, are the slice `s[i..j]` with only white space outside it.
   */
  lemma StripSlice(s: string, ws: char -> bool, t: string, r: string)
    requires |t| <= |s| && t == s[|s| - |t|..] && forall k :: 0 <= k < |s| - |t| ==> ws(s[k])
    requires |r| <= |t| && r == t[..|r|] && forall k :: |r| <= k < |t| ==> ws(t[k])
    ensures var i, j := |s| - |t|, |s| - |t| + |r|;
      0 <= i <= j <= |s| && r == s[i..j] && AllSpace(s[..i], ws) && AllSpace(s[j..], ws)
  {
    var i, j := |s| - |t|, |s| - |t| + |r|;
    assert r == s[i..j] by {
      forall k | 0 <= k < |r| ensures r[k] == s[i..j][k] { assert r[k] == t[k] == s[i + k]; }
    }
    forall k | 0 <= k < i ensures ws(s[..i][k]) { assert s[..i][k] == s[k]; }
    forall k | 0 <= k < |s| - j ensures ws(s[j..][k]) {
      assert s[j..][k] == s[j + k] == t[|r| + k];
    }
  }

  /**
   * When `t` is `s` after its leading white space and `r` is `t` before its
   * trailing white space, nothing is left exactly when `s` is blank, and
   * otherwise neither end of `r` is white space.
   */
  lemma StripBlank(s: string, ws: char -> bool, t: string, r: string)
    requires |t| <= |s| && t == s[|s| - |t|..] && forall k :: 0 <= k < |s| - |t| ==> ws(s[k])
    requires t != [] ==> !ws(t[0])
    requires |r| <= |t| && r == t[..|r|] && forall k :: |r| <= k < |t| ==> ws(t[k])
    requires r != [] ==> !ws(r[|r| - 1])
    ensures r == [] <==> AllSpace(s, ws)
    ensures r != [] ==> !ws(r[0]) && !ws(r[|r| - 1])
  {
    var i := |s| - |t|;
    if r == [] {
      assert t == [];
      assert AllSpace(s, ws);
    } else {
      assert r[0] == t[0] == s[i];
    }
  }

  predicate IsDigit(c: char) {
    '0' <= c <= '9'
  }

  function DigitChar(d: nat): (c: char)
    requires d < 10
    ensures IsDigit(c)
  {
    "0123456789"[d]
  }

  function DigitValue(c: char): (d: nat)
    requires IsDigit(c)
    ensures d < 10 && DigitChar(d) == c
  {
    (c - '0') as nat
  }

  /** Decimal rendering without leading zeros (Python `str(n)`, JavaScript `n.toString()`). */
  function NatToString(n: nat): (r: string)
    ensures |r| >= 1
    ensures forall i :: 0 <= i < |r| ==> IsDigit(r[i])
    ensures r[0] == '0' ==> n == 0
  {
    if n < 10 then [DigitChar(n)] else NatToString(n / 10) + [DigitChar(n % 10)]
  }

  /** The value of a string of decimal digits (leading zeros allowed); the inverse of NatToString. */
  function ParseNat(s: string): nat
    requires forall i :: 0 <= i < |s| ==> IsDigit(s[i])
  {
    if s == [] then 0 else ParseNat(s[..|s| - 1]) * 10 + DigitValue(s[|s| - 1])
  }

  lemma {:induction false} ParseNatToString(n: nat)
    ensures ParseNat(NatToString(n)) == n
  {
    if n >= 10 {
      var s := NatToString(n);
      assert s[..|s| - 1] == NatToString(n / 10);
      ParseNatToString(n / 10);
    }
  }

  lemma {:induction false} ParseNatLeadingZero(s: string)
    requires forall i :: 0 <= i < |s| ==> IsDigit(s[i])
    ensures ParseNat(['0'] + s) == ParseNat(s)
  {
    if s != [] {
      var z := ['0'] + s;
      assert z[..|z| - 1] == ['0'] + s[..|s| - 1];
      ParseNatLeadingZero(s[..|s| - 1]);
    }
  }

  /** `s.padStart(width, fill)`: `fill` repeated in front of `s` up to `width` characters. */
  function PadStart(s: string, width: nat, fill: char): (r: string)
    ensures |r| == if |s| < width then width else |s|
    ensures r[|r| - |s|..] == s
    ensures forall i :: 0 <= i < |r| - |s| ==> r[i] == fill
  {
    if |s| < width then seq(width - |s|, _ => fill) + s else s
  }

  /** A natural number in at least two digits (`padStart(2, '0')`, Python's `{:02d}`). */
  function TwoDigits(n: nat): (r: string)
    ensures n < 10 ==> r == "0" + NatToString(n)
    ensures n >= 10 ==> r == NatToString(n)
    ensures |r| >= 2 && (n < 100 ==> |r| == 2)
    ensures forall i :: 0 <= i < |r| ==> IsDigit(r[i])
    ensures ParseNat(r) == n
  {
    var s := NatToString(n);
    ParseNatToString(n);
    if n < 10 then
      assert PadStart(s, 2, '0') == ['0'] + s;
      ParseNatLeadingZero(s);
      PadStart(s, 2, '0')
    else
      assert |NatToString(n / 10)| >= 1;
      assert n < 100 ==> n / 10 < 10;
      PadStart(s, 2, '0')
  }

  predicate AllDigits(s: string) {
    forall i :: 0 <= i < |s| ==> IsDigit(s[i])
  }

  /** The index of the first `c` in `s`, or `|s|` when there is none. */
  function FirstIndex(s: string, c: char): (k: nat)
    ensures k <= |s|
    ensures forall i :: 0 <= i < k ==> s[i] != c
    ensures k < |s| ==> s[k] == c
  {
    if s == [] || s[0] == c then 0 else 1 + FirstIndex(s[1..], c)
  }

  /** In `x + [c] + f` with no `c` in `x`, the first `c` is the one after `x`. */
  lemma {:induction false} FirstIndexAfter(x: string, c: char, f: string)
    requires c !in x
    ensures FirstIndex(x + [c] + f, c) == |x|
  {
    if x != [] {
      assert (x + [c] + f)[1..] == x[1..] + [c] + f;
      FirstIndexAfter(x[1..], c, f);
    }
  }

  /**
   * Reads a clock `m:ss` back into its minutes and seconds: digits, a colon,
   * digits. The partner of the two clock renderings of the front ends.
   */
  function ParseClock(t: string): Option<(nat, nat)> {
    var i := FirstIndex(t, ':');
    if i < |t| && 0 < i && i + 1 < |t| && AllDigits(t[..i]) && AllDigits(t[i + 1..]) then
      Some((ParseNat(t[..i]), ParseNat(t[i + 1..])))
    else None
  }

  /** The colon a clock is built with is the first one in it. */
  lemma ClockColon(m: string, s: string)
    requires AllDigits(m)
    ensures FirstIndex(m + ":" + s, ':') == |m|
  {
    assert m + ":" + s == m + [':'] + s;
    assert ':' !in m by {
      forall i | 0 <= i < |m| ensures m[i] != ':' { assert IsDigit(m[i]); }
    }
    FirstIndexAfter(m, ':', s);
  }

  lemma ParseClockOf(m: string, s: string)
    requires m != [] && s != [] && AllDigits(m) && AllDigits(s)
    ensures ParseClock(m + ":" + s) == Some((ParseNat(m), ParseNat(s)))
  {
    var t := m + ":" + s;
    ClockColon(m, s);
    assert t[..|m|] == m && t[|m| + 1..] == s;
  }
}
