/**
 * The handful of Python string operations the tool relies on: prefix and substring
 * tests, str.replace, ASCII lower-casing, ", ".join, and decimal conversion between
 * integers and digit strings.
 */
module Strings {
  import opened Wrappers

  predicate StartsWith(s: string, prefix: string) {
    |prefix| <= |s| && s[..|prefix|] == prefix
  }

  predicate EndsWith(s: string, suffix: string) {
    |suffix| <= |s| && s[|s| - |suffix|..] == suffix
  }

  /** `sub in s` */
  predicate Contains(s: string, sub: string)
    decreases |s|
  {
    StartsWith(s, sub) || (|s| > 0 && Contains(s[1..], sub))
  }

  /** Python str.replace(pat, rep) for a non-empty pattern: every non-overlapping
      occurrence, scanning left to right, is replaced. */
  function Replace(s: string, pat: string, rep: string): string
    requires |pat| > 0
    decreases |s|
  {
    if |s| < |pat| then s
    else if s[..|pat|] == pat then rep + Replace(s[|pat|..], pat, rep)
    else [s[0]] + Replace(s[1..], pat, rep)
  }

  /** A string that does not contain the first character of the pattern is left as it is. */
  lemma {:induction false} ReplaceAbsent(s: string, pat: string, rep: string)
    requires |pat| > 0 && pat[0] !in s
    ensures Replace(s, pat, rep) == s
    decreases |s|
  {
    if |s| >= |pat| {
      assert s[..|pat|][0] == s[0];
      ReplaceAbsent(s[1..], pat, rep);
    }
  }

  /** Removing `pat` from `t + pat` yields `t` when `t` does not contain pat's first character. */
  lemma {:induction false} ReplaceTrailing(t: string, pat: string)
    requires |pat| > 0 && pat[0] !in t
    ensures Replace(t + pat, pat, "") == t
    decreases |t|
  {
    var s := t + pat;
    if t == [] {
      assert s[..|pat|] == pat && s[|pat|..] == [];
    } else {
      assert s[..|pat|][0] == t[0];
      assert s[1..] == t[1..] + pat;
      ReplaceTrailing(t[1..], pat);
    }
  }

  /** Replacing with the empty string only deletes: the result is no longer, and shorter
      exactly when the pattern occurs. */
  lemma {:induction false} ReplaceDeletes(s: string, pat: string)
    requires |pat| > 0
    ensures |Replace(s, pat, "")| <= |s|
    ensures StartsWith(s, pat) ==> |Replace(s, pat, "")| <= |s| - |pat|
    decreases |s|
  {
    if |s| >= |pat| {
      if s[..|pat|] == pat {
        ReplaceDeletes(s[|pat|..], pat);
      } else {
        ReplaceDeletes(s[1..], pat);
      }
    }
  }

  /** A leading occurrence of the pattern is removed and the scan goes on after it. */
  lemma ReplaceLeading(pat: string, t: string, rep: string)
    requires |pat| > 0
    ensures Replace(pat + t, pat, rep) == rep + Replace(t, pat, rep)
  {
    assert (pat + t)[..|pat|] == pat && (pat + t)[|pat|..] == t;
  }

  function LowerChar(c: char): char {
    if 'A' <= c <= 'Z' then (c as int + 32) as char else c
  }

  /** str.lower() restricted to ASCII letters. */
  function Lower(s: string): (r: string)
    ensures |r| == |s|
    ensures forall i :: 0 <= i < |s| ==> r[i] == LowerChar(s[i])
  {
    seq(|s|, i requires 0 <= i < |s| => LowerChar(s[i]))
  }

  /** sep.join(parts) */
  function Join(sep: string, parts: seq<string>): string {
    if parts == [] then ""
    else if |parts| == 1 then parts[0]
    else parts[0] + sep + Join(sep, parts[1..])
  }

  predicate IsDigit(c: char) {
    '0' <= c <= '9'
  }

  predicate AllDigits(s: string) {
    forall i :: 0 <= i < |s| ==> IsDigit(s[i])
  }

  function DigitChar(d: nat): (c: char)
    requires d < 10
    ensures IsDigit(c) && c as int - '0' as int == d
  {
    ('0' as int + d) as char
  }

  /** The value of a string of decimal digits, most significant first. */
  function DigitsValue(s: string): nat
    requires AllDigits(s)
  {
    if s == [] then 0
    else DigitsValue(s[..|s| - 1]) * 10 + (s[|s| - 1] as int - '0' as int)
  }

  /** The decimal spelling of a natural number, without leading zeros. */
  function NatToDecimal(n: nat): (r: string)
    ensures |r| >= 1 && AllDigits(r)
    ensures |r| > 1 ==> r[0] != '0'
  {
    if n < 10 then [DigitChar(n)] else NatToDecimal(n / 10) + [DigitChar(n % 10)]
  }

  /** Reading back the decimal spelling of n gives n. */
  lemma {:induction false} DecimalRoundTrip(n: nat)
    ensures DigitsValue(NatToDecimal(n)) == n
  {
    var r := NatToDecimal(n);
    if n >= 10 {
      var a := NatToDecimal(n / 10);
      assert r[..|r| - 1] == a;
      DecimalRoundTrip(n / 10);
    }
  }

  /** The decimal spelling of an integer, with a leading '-' when negative (str(n)). */
  function IntToString(n: int): string {
    if n < 0 then "-" + NatToDecimal(-n) else NatToDecimal(n)
  }

  /** int(s) for an optional sign followed by at least one decimal digit; None where
      Python raises ValueError. */
  function ParseInt(s: string): Option<int> {
    if |s| > 0 && (s[0] == '-' || s[0] == '+') then
      (if |s| > 1 && AllDigits(s[1..]) then
         Some(if s[0] == '-' then -(DigitsValue(s[1..]) as int) else DigitsValue(s[1..]))
       else None)
    else if |s| > 0 && AllDigits(s) then Some(DigitsValue(s))
    else None
  }

  /** ParseInt inverts IntToString. */
  lemma ParseIntToString(n: int)
    ensures ParseInt(IntToString(n)) == Some(n)
  {
    if n < 0 {
      var d := NatToDecimal(-n);
      assert ("-" + d)[1..] == d;
      DecimalRoundTrip(-n);
    } else {
      DecimalRoundTrip(n);
    }
  }
}
