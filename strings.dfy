/**
 * The Python string operations the backend relies on: `str.strip()` (with and
 * without an argument), `str.lower()`, `s.split(sep)[0]`, `int(s)` and `str(n)`.
 */
module Strings {
  import opened Wrappers

  /** The characters `str.strip()` removes when it is called without an argument. */
  predicate IsSpace(c: char) {
    || c == ' ' || c == '\t' || c == '\n' || c == '\r' || c == '\U{B}' || c == '\U{C}'
    || ('\U{1C}' <= c <= '\U{1F}') || c == '\U{85}' || c == '\U{A0}' || c == '\U{1680}'
    || ('\U{2000}' <= c <= '\U{200A}') || c == '\U{2028}' || c == '\U{2029}'
    || c == '\U{202F}' || c == '\U{205F}' || c == '\U{3000}'
  }

  /** Number of leading characters of `s` that satisfy `p`. */
  function Leading(s: string, p: char -> bool): (n: nat)
    ensures n <= |s|
    ensures forall k :: 0 <= k < n ==> p(s[k])
    ensures n < |s| ==> !p(s[n])
  {
    if |s| == 0 || !p(s[0]) then 0 else 1 + Leading(s[1..], p)
  }

  /** Number of trailing characters of `s` that satisfy `p`. */
  function Trailing(s: string, p: char -> bool): (n: nat)
    ensures n <= |s|
    ensures forall k :: |s| - n <= k < |s| ==> p(s[k])
    ensures n < |s| ==> !p(s[|s| - 1 - n])
  {
    if |s| == 0 || !p(s[|s| - 1]) then 0 else 1 + Trailing(s[..|s| - 1], p)
  }

  /**
   * `s` without its longest prefix and suffix made of characters satisfying `p`:
   * a contiguous slice of `s`, everything outside it satisfies `p`, and it
   * neither starts nor ends with such a character.
   */
  function StripBy(s: string, p: char -> bool): (r: string)
    ensures |r| <= |s| - Leading(s, p)
    ensures r == s[Leading(s, p)..Leading(s, p) + |r|]
    ensures forall k :: 0 <= k < |s| && !(Leading(s, p) <= k < Leading(s, p) + |r|) ==> p(s[k])
    ensures |r| > 0 ==> !p(r[0]) && !p(r[|r| - 1])
  {
    var t := s[Leading(s, p)..];
    t[..|t| - Trailing(t, p)]
  }

  /** `r` sits in `s` at offset `lo`, and every character of `s` around it satisfies `p`. */
  ghost predicate TrimmedAt(r: string, s: string, p: char -> bool, lo: int) {
    && 0 <= lo && lo + |r| <= |s| && r == s[lo..lo + |r|]
    && forall k :: 0 <= k < |s| && !(lo <= k < lo + |r|) ==> p(s[k])
  }

  /** `r` is what is left of `s` after removing characters satisfying `p` from both ends. */
  ghost predicate TrimmedFrom(r: string, s: string, p: char -> bool) {
    exists lo :: TrimmedAt(r, s, p, lo)
  }

  /** What `StripBy` leaves is a trimming of its argument. */
  lemma StripByTrimmed(s: string, p: char -> bool)
    ensures TrimmedFrom(StripBy(s, p), s, p)
  {
    assert TrimmedAt(StripBy(s, p), s, p, Leading(s, p));
  }

  /** Trimming twice is one trimming by a predicate that covers both. */
  lemma TrimmedCompose(r: string, t: string, s: string, p: char -> bool, q: char -> bool, pq: char -> bool)
    requires TrimmedFrom(t, s, p) && TrimmedFrom(r, t, q)
    requires forall c :: p(c) ==> pq(c)
    requires forall c :: q(c) ==> pq(c)
    ensures TrimmedFrom(r, s, pq)
  {
    var lo1 :| TrimmedAt(t, s, p, lo1);
    var lo2 :| TrimmedAt(r, t, q, lo2);
    forall i | 0 <= i < |r|
      ensures r[i] == s[lo1 + lo2 + i]
    {
      assert r[i] == t[lo2 + i];
    }
    assert r == s[lo1 + lo2..lo1 + lo2 + |r|];
    forall k | 0 <= k < |s| && !(lo1 + lo2 <= k < lo1 + lo2 + |r|)
      ensures pq(s[k])
    {
      if lo1 <= k < lo1 + |t| {
        assert s[k] == t[k - lo1];
      }
    }
    assert TrimmedAt(r, s, pq, lo1 + lo2);
  }

  /** `s.strip()` */
  function Strip(s: string): (r: string)
    ensures forall c :: c in r ==> c in s
    ensures |r| > 0 ==> !IsSpace(r[0]) && !IsSpace(r[|r| - 1])
  {
    StripBy(s, IsSpace)
  }

  /** `s.strip(c)` for a one-character argument. */
  function StripChar(s: string, c: char): (r: string)
    ensures forall x :: x in r ==> x in s
    ensures |r| > 0 ==> r[0] != c && r[|r| - 1] != c
  {
    StripBy(s, x => x == c)
  }

  /** `str.lower()` on one character, for the ASCII letters. */
  function LowerChar(c: char): char {
    if 'A' <= c <= 'Z' then (c as int + 32) as char else c
  }

  /** `s.lower()` */
  function Lower(s: string): (r: string)
    ensures |r| == |s|
    ensures forall i :: 0 <= i < |s| ==> r[i] == LowerChar(s[i])
  {
    seq(|s|, i requires 0 <= i < |s| => LowerChar(s[i]))
  }

  /** `s.strip().lower()`, the normal form of plan codes and e-mail addresses. */
  function Normalize(s: string): string {
    Lower(Strip(s))
  }

  /** Stripping a string whose ends are not stripped characters changes nothing. */
  lemma StripByUnchanged(s: string, p: char -> bool)
    requires |s| > 0 ==> !p(s[0]) && !p(s[|s| - 1])
    ensures StripBy(s, p) == s
  {
    if |s| > 0 {
      assert Leading(s, p) == 0;
      assert Trailing(s, p) == 0;
    }
  }

  /** Stripping a string that already neither starts nor ends with blanks changes nothing. */
  lemma StripUnchanged(s: string)
    requires |s| > 0 ==> !IsSpace(s[0]) && !IsSpace(s[|s| - 1])
    ensures Strip(s) == s
  {
    StripByUnchanged(s, IsSpace);
  }

  /** Lowering keeps the non-blank ends of a string non-blank. */
  lemma LowerKeepsEnds(s: string)
    requires |s| > 0 ==> !IsSpace(s[0]) && !IsSpace(s[|s| - 1])
    ensures |Lower(s)| > 0 ==> !IsSpace(Lower(s)[0]) && !IsSpace(Lower(s)[|s| - 1])
  {
  }

  /** Normalising twice is normalising once: a normalised code survives re-normalisation. */
  lemma {:induction false} NormalizeIdempotent(s: string)
    ensures Normalize(Normalize(s)) == Normalize(s)
  {
    var t := Strip(s);
    LowerKeepsEnds(t);
    StripUnchanged(Lower(t));
    assert Lower(Lower(t)) == Lower(t);
  }

  /** `s.split(sep)[0]`: the text before the first `sep`, or all of `s` when it has none. */
  function BeforeFirst(s: string, sep: char): (r: string)
    ensures sep !in r
    ensures r <= s
    ensures |r| < |s| ==> s[|r|] == sep
  {
    if |s| == 0 || s[0] == sep then "" else [s[0]] + BeforeFirst(s[1..], sep)
  }

  predicate IsDigit(c: char) {
    '0' <= c <= '9'
  }

  predicate AllDigits(s: string) {
    forall i :: 0 <= i < |s| ==> IsDigit(s[i])
  }

  /** The value of a string of decimal digits. */
  function DigitsValue(s: string): (n: nat)
    requires AllDigits(s)
  {
    if |s| == 0 then 0 else 10 * DigitsValue(s[..|s| - 1]) + (s[|s| - 1] as int - '0' as int)
  }

  /**
   * `int(s)` for the decimal forms an optional sign followed by ASCII digits,
   * possibly surrounded by blanks; None where `int` raises ValueError.
   */
  function ParseInt(s: string): (r: Option<int>)
    ensures r.Some? ==> |Strip(s)| > 0
    ensures var t := Strip(s);
      r.Some? <==> (|t| > 0 && AllDigits(t)) || (|t| > 1 && (t[0] == '+' || t[0] == '-') && AllDigits(t[1..]))
    ensures var t := Strip(s);
      |t| > 0 && AllDigits(t) ==> r == Some(DigitsValue(t))
    ensures var t := Strip(s);
      |t| > 1 && t[0] == '-' && AllDigits(t[1..]) ==> r.Some? && r.value == -(DigitsValue(t[1..]) as int)
    ensures var t := Strip(s);
      |t| > 1 && t[0] == '+' && AllDigits(t[1..]) ==> r == Some(DigitsValue(t[1..]))
  {
    var t := Strip(s);
    if |t| > 0 && (t[0] == '+' || t[0] == '-') then
      var d := t[1..];
      if |d| > 0 && AllDigits(d) then
        var v: int := DigitsValue(d);
        Some(if t[0] == '-' then -v else v)
      else None
    else if |t| > 0 && AllDigits(t) then Some(DigitsValue(t))
    else None
  }

  function DigitChar(d: nat): char
    requires d < 10
  {
    ('0' as int + d) as char
  }

  /** `str(n)` for a natural number. */
  function ShowNat(n: nat): (s: string)
    ensures |s| > 0 && AllDigits(s)
  {
    if n < 10 then [DigitChar(n)] else ShowNat(n / 10) + [DigitChar(n % 10)]
  }

  /** `str(n)` for an integer. */
  function ShowInt(n: int): (s: string) {
    if n < 0 then "-" + ShowNat(-n) else ShowNat(n)
  }

  lemma {:induction false} ShowNatValue(n: nat)
    ensures DigitsValue(ShowNat(n)) == n
  {
    if n >= 10 {
      var s := ShowNat(n);
      ShowNatValue(n / 10);
      assert s[..|s| - 1] == ShowNat(n / 10);
    }
  }

  /** `int(str(n)) == n`: the parser reads back what `str` writes. */
  lemma ParseShowRoundTrip(n: int)
    ensures ParseInt(ShowInt(n)) == Some(n)
  {
    var s := ShowInt(n);
    var m: nat := if n < 0 then -n else n;
    ShowNatValue(m);
    var digits := ShowNat(m);
    assert !IsSpace(s[0]) && !IsSpace(s[|s| - 1]);
    StripUnchanged(s);
    if n < 0 {
      assert s[1..] == digits;
    } else {
      assert s == digits;
    }
  }
}
