/** The numerals the score patterns capture, `\d+(?:\.\d+)?`, and the value
    Python's `float()` gives them, taken as an exact real. */
module Numerals {
  import opened Text

  predicate AllDigits(s: string) {
    forall k :: 0 <= k < |s| ==> IsDigit(s[k])
  }

  function DigitValue(c: char): nat
    requires IsDigit(c)
  {
    c as int - '0' as int
  }

  /** The value of a run of decimal digits, most significant first. */
  function NatValue(ds: string): nat
    requires AllDigits(ds)
  {
    if ds == [] then 0 else NatValue(ds[..|ds| - 1]) * 10 + DigitValue(ds[|ds| - 1])
  }

  function Pow10(n: nat): (p: nat)
    ensures p >= 1
  {
    if n == 0 then 1 else 10 * Pow10(n - 1)
  }

  /** `float(whole + "." + fraction)`, or `float(whole)` when `fraction` is
      empty. */
  function NumeralValue(whole: string, fraction: string): (v: real)
    requires AllDigits(whole) && AllDigits(fraction)
    ensures v >= 0.0
    ensures fraction == [] ==> v == NatValue(whole) as real
    ensures NatValue(whole) as real <= v < NatValue(whole) as real + 1.0
  {
    NatValueBelowPow10(fraction);
    FractionBelowOne(NatValue(fraction), Pow10(|fraction|));
    NatValue(whole) as real + NatValue(fraction) as real / Pow10(|fraction|) as real
  }

  lemma FractionBelowOne(a: nat, b: nat)
    requires a < b
    ensures 0.0 <= a as real / b as real < 1.0
  {
  }

  /** `float("8.7")` and `float("8.05")`: the fraction's digits count from
      the point, leading zeros included. */
  lemma NumeralValueExamples()
    ensures NumeralValue("8", "7") == 8.7
    ensures NumeralValue("8", "05") == 8.05
    ensures NumeralValue("87", "") == 87.0
  {
    assert NatValue("8") == 8 by { assert "8"[..0] == ""; }
    assert NatValue("7") == 7 by { assert "7"[..0] == ""; }
    assert NatValue("05") == 5 by { assert "05"[..1] == "0"; assert "0"[..0] == ""; }
    assert NatValue("87") == 87 by { assert "87"[..1] == "8"; assert "8"[..0] == ""; }
  }

  /** A run of `n` digits is worth less than `10 ** n`. */
  lemma {:induction false} NatValueBelowPow10(ds: string)
    requires AllDigits(ds)
    ensures NatValue(ds) < Pow10(|ds|)
  {
    if ds != [] {
      var init := ds[..|ds| - 1];
      NatValueBelowPow10(init);
      assert NatValue(init) + 1 <= Pow10(|init|);
      assert NatValue(ds) == NatValue(init) * 10 + DigitValue(ds[|ds| - 1]);
      assert DigitValue(ds[|ds| - 1]) <= 9;
      assert Pow10(|ds|) == 10 * Pow10(|init|);
    }
  }

  /** The end of the longest run of digits in `s` that starts at `i`. */
  function DigitRunEnd(s: string, i: nat): (e: nat)
    requires i <= |s|
    ensures i <= e <= |s|
    ensures AllDigits(s[i..e])
    ensures e == |s| || !IsDigit(s[e])
    decreases |s| - i
  {
    if i < |s| && IsDigit(s[i]) then DigitRunEnd(s, i + 1) else i
  }

  /** Whether the digits ending at `e` go on with a decimal point and at
      least one more digit, so that `(?:\.\d+)?` can take a fraction. */
  predicate HasFraction(s: string, e: nat) {
    e + 1 < |s| && s[e] == '.' && IsDigit(s[e + 1])
  }

  /** A run of digits followed by a character that is not a digit (or by the
      end of the text) is where the greedy `\d+` stops. */
  lemma {:induction false} DigitRunEndOfPrefix(s: string, i: nat, ds: string, rest: string)
    requires i <= |s| && s[i..] == ds + rest
    requires AllDigits(ds)
    requires rest == [] || !IsDigit(rest[0])
    ensures DigitRunEnd(s, i) == i + |ds|
    decreases |ds|
  {
    if ds != [] {
      assert s[i] == ds[0];
      assert s[i + 1..] == ds[1..] + rest;
      DigitRunEndOfPrefix(s, i + 1, ds[1..], rest);
    } else if rest != [] {
      assert s[i] == rest[0];
    }
  }
}
