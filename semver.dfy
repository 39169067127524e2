/** Semantic versions as far as the shell core uses them: a major.minor.patch
    triple and its canonical text, which is what a version's display produces. */
module Semver {
  import opened Results
  import opened Strings

  datatype Version = Version(major: nat, minor: nat, patch: nat)

  predicate IsDigit(c: char) { '0' <= c <= '9' }

  predicate AllDigits(s: string) { forall i :: 0 <= i < |s| ==> IsDigit(s[i]) }

  /** A canonical decimal numeral: digits only, no leading zero unless it is "0". */
  predicate IsNumeral(s: string)
  {
    0 < |s| && AllDigits(s) && (s[0] == '0' ==> |s| == 1)
  }

  function Digit(d: nat): (c: char)
    requires d < 10
    ensures IsDigit(c) && c as int - '0' as int == d
  {
    ('0' as int + d) as char
  }

  function DigitValue(c: char): nat
    requires IsDigit(c)
  {
    c as int - '0' as int
  }

  /** The decimal numeral of `n`. */
  function NatToString(n: nat): (s: string)
    ensures 0 < |s| && AllDigits(s)
    ensures s[0] == '0' <==> n == 0
    decreases n
  {
    if n < 10 then [Digit(n)] else NatToString(n / 10) + [Digit(n % 10)]
  }

  /** The number a string of digits denotes. */
  function NumeralValue(s: string): nat
    requires AllDigits(s)
  {
    if s == [] then 0 else NumeralValue(s[..|s| - 1]) * 10 + DigitValue(s[|s| - 1])
  }

  /** Canonical text of a version, "major.minor.patch". */
  function ToString(v: Version): (s: string)
    ensures 0 < |s| && IsDigit(s[|s| - 1])
    ensures forall i :: 0 <= i < |s| ==> IsDigit(s[i]) || s[i] == '.'
  {
    NatToString(v.major) + "." + NatToString(v.minor) + "." + NatToString(v.patch)
  }

  /** Reads canonical version text back; anything else is rejected. */
  function Parse(s: string): Option<Version>
  {
    var i := IndexFrom(s, 0, '.');
    if i == |s| then None
    else
      var j := IndexFrom(s, i + 1, '.');
      if j == |s| then None
      else
        var major, minor, patch := s[..i], s[i + 1..j], s[j + 1..];
        if IsNumeral(major) && IsNumeral(minor) && IsNumeral(patch)
        then Some(Version(NumeralValue(major), NumeralValue(minor), NumeralValue(patch)))
        else None
  }

  lemma {:induction false} NumeralOfNat(n: nat)
    ensures IsNumeral(NatToString(n)) && NumeralValue(NatToString(n)) == n
    decreases n
  {
    var s := NatToString(n);
    if n >= 10 {
      NumeralOfNat(n / 10);
      var t := NatToString(n / 10);
      assert s[..|s| - 1] == t;
    }
  }

  /** Where the three numerals and the two dots of `a.b.c` sit. */
  lemma DottedLayout(a: string, b: string, c: string)
    ensures var s := a + "." + b + "." + c;
      && |s| == |a| + |b| + |c| + 2 && s[|a|] == '.' && s[|a| + 1 + |b|] == '.'
      && s[..|a|] == a && s[|a| + 1..|a| + 1 + |b|] == b && s[|a| + 2 + |b|..] == c
  {
    var s := a + "." + b + "." + c;
    assert s == (a + "." + b) + ("." + c);
    assert (a + "." + b) == a + ("." + b);
  }

  /** The first dot at or after `i` is the one that ends a run of digits there. */
  lemma DotAfterDigits(s: string, i: nat, j: nat)
    requires i <= j < |s| && s[j] == '.' && AllDigits(s[i..j])
    ensures IndexFrom(s, i, '.') == j
  {
    forall k | i <= k < j ensures s[k] != '.' {
      assert s[k] == s[i..j][k - i];
    }
  }

  /** Parsing the canonical text of a version gives that version back. */
  lemma ParseToString(v: Version)
    ensures Parse(ToString(v)) == Some(v)
  {
    var a, b, c := NatToString(v.major), NatToString(v.minor), NatToString(v.patch);
    NumeralOfNat(v.major);
    NumeralOfNat(v.minor);
    NumeralOfNat(v.patch);
    var s := ToString(v);
    DottedLayout(a, b, c);
    assert s[0..|a|] == a;
    DotAfterDigits(s, 0, |a|);
    DotAfterDigits(s, |a| + 1, |a| + 1 + |b|);
  }

  /** Distinct versions have distinct canonical texts. */
  lemma ToStringInjective(v: Version, w: Version)
    requires ToString(v) == ToString(w)
    ensures v == w
  {
    ParseToString(v);
    ParseToString(w);
  }

  /** The version text of the shell unit test reads back as 2.4.5. */
  lemma ParseTestVersion()
    ensures Parse("2.4.5") == Some(Version(2, 4, 5))
  {
    assert ToString(Version(2, 4, 5)) == "2.4.5";
    ParseToString(Version(2, 4, 5));
  }
}
