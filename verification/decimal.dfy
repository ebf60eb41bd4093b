/** `float(text)` for the texts the fallback parsers hand it: one or more
    digits, optionally a point and more digits. Values are exact reals; the
    binary rounding of a Python float is not modelled. */
module Decimal {
  import opened Text

  predicate AllDigits(s: string) {
    forall k :: 0 <= k < |s| ==> IsDigit(s[k])
  }

  function DigitValue(c: char): nat
    requires IsDigit(c)
  {
    c as int - '0' as int
  }

  function Pow10(n: nat): (p: nat)
    ensures p > 0
  {
    if n == 0 then 1 else 10 * Pow10(n - 1)
  }

  /** The value of a decimal digit string, most significant digit first. */
  function DigitsValue(s: string): nat
    requires AllDigits(s)
  {
    if |s| == 0 then 0 else 10 * DigitsValue(s[..|s| - 1]) + DigitValue(s[|s| - 1])
  }

  /** `n` digits denote less than `10^n`. */
  lemma {:induction false} DigitsBelowPow10(s: string)
    requires AllDigits(s)
    ensures DigitsValue(s) < Pow10(|s|)
  {
    if |s| > 0 {
      DigitsBelowPow10(s[..|s| - 1]);
    }
  }

  /** A proper fraction lies in `[0, 1)`. */
  lemma ProperFraction(a: nat, b: nat)
    requires a < b
    ensures 0.0 <= a as real / b as real < 1.0
  {
    var q := a as real / b as real;
    assert q * b as real == a as real;
  }

  lemma AllDigitsAppend(a: string, b: string)
    requires AllDigits(a) && AllDigits(b)
    ensures AllDigits(a + b)
  {
    forall k | 0 <= k < |a + b| ensures IsDigit((a + b)[k]) {
      if k < |a| { assert (a + b)[k] == a[k]; } else { assert (a + b)[k] == b[k - |a|]; }
    }
  }

  /** Digits appended to a digit string shift its value by their count. */
  lemma {:induction false} DigitsAppend(a: string, b: string)
    requires AllDigits(a) && AllDigits(b)
    ensures AllDigits(a + b)
    ensures DigitsValue(a + b) == DigitsValue(a) * Pow10(|b|) + DigitsValue(b)
    decreases |b|
  {
    AllDigitsAppend(a, b);
    if |b| == 0 {
      assert a + b == a;
    } else {
      var b' := b[..|b| - 1];
      var d := DigitValue(b[|b| - 1]);
      assert (a + b)[..|a + b| - 1] == a + b';
      assert (a + b)[|a + b| - 1] == b[|b| - 1];
      DigitsAppend(a, b');
      assert DigitsValue(a + b) == 10 * DigitsValue(a + b') + d;
      assert DigitsValue(b) == 10 * DigitsValue(b') + d;
      assert Pow10(|b|) == 10 * Pow10(|b'|);
      ShiftStep(DigitsValue(a), Pow10(|b'|), DigitsValue(b'), d);
    }
  }

  lemma ShiftStep(x: nat, p: nat, y: nat, d: nat)
    ensures 10 * (x * p + y) + d == x * (10 * p) + (10 * y + d)
  {
  }

  /** `w` followed by the fraction `f / p` of a unit. */
  function Point(w: nat, f: nat, p: nat): real
    requires p > 0
  {
    w as real + f as real / p as real
  }

  lemma PointBounds(w: nat, f: nat, p: nat)
    requires f < p
    ensures w as real <= Point(w, f, p) < w as real + 1.0
  {
    ProperFraction(f, p);
  }

  lemma PointQuotient(w: nat, f: nat, p: nat, n: nat)
    requires p > 0 && n == w * p + f
    ensures Point(w, f, p) == n as real / p as real
  {
    var q := f as real / p as real;
    assert q * p as real == f as real;
    assert (w as real + q) * p as real == w as real * p as real + q * p as real;
    assert (w * p) as real == w as real * p as real;
    assert Point(w, f, p) * p as real == n as real;
  }

  /** The value of `whole.frac`; an empty `frac` stands for the text without a point
      (or with nothing after it, as in `"25."`). It is the integer that the
      digits spell with the point left out, divided by one power of ten per
      fractional digit, and the whole part is its floor. */
  function DecimalValue(whole: string, frac: string): (r: real)
    requires AllDigits(whole) && AllDigits(frac)
    ensures DigitsValue(whole) as real <= r < DigitsValue(whole) as real + 1.0
    ensures AllDigits(whole + frac) && r == DigitsValue(whole + frac) as real / Pow10(|frac|) as real
  {
    var w, f, p := DigitsValue(whole), DigitsValue(frac), Pow10(|frac|);
    DigitsBelowPow10(frac);
    PointBounds(w, f, p);
    DigitsAppend(whole, frac);
    PointQuotient(w, f, p, DigitsValue(whole + frac));
    Point(w, f, p)
  }

  /** The text with every point removed: what is left of `"25.5"` is `"255"`. */
  function DropPoint(t: string): (r: string)
    ensures |r| <= |t|
  {
    if |t| == 0 then "" else (if t[0] == '.' then "" else [t[0]]) + DropPoint(t[1..])
  }

  /** How many characters follow the first point of `t`; 0 without a point. */
  function AfterPoint(t: string): (n: nat)
    ensures n < |t| || n == 0
  {
    if |t| == 0 then 0 else if t[0] == '.' then |t| - 1 else AfterPoint(t[1..])
  }

  /** `float` of a decimal text: its digits read as one integer, scaled down by
      a power of ten per digit after the point. */
  function FloatText(t: string): real
    requires AllDigits(DropPoint(t))
  {
    DigitsValue(DropPoint(t)) as real / Pow10(AfterPoint(t)) as real
  }

  /** A text of digits alone loses nothing to `DropPoint` and has no fraction. */
  lemma {:induction false} DigitsText(s: string)
    requires AllDigits(s)
    ensures DropPoint(s) == s && AfterPoint(s) == 0
    decreases |s|
  {
    if |s| > 0 {
      assert s == [s[0]] + s[1..];
      DigitsText(s[1..]);
    }
  }

  /** A text of digits, a point and digits keeps its digits in order and has
      exactly the fraction's digits after the point. */
  lemma {:induction false} PointText(whole: string, frac: string)
    requires AllDigits(whole) && AllDigits(frac)
    ensures DropPoint(whole + "." + frac) == whole + frac
    ensures AfterPoint(whole + "." + frac) == |frac|
    decreases |whole|
  {
    var t := whole + "." + frac;
    if |whole| == 0 {
      assert t[0] == '.' && t[1..] == frac;
      DigitsText(frac);
    } else {
      assert t[0] == whole[0] && whole[0] != '.';
      assert t[1..] == whole[1..] + "." + frac;
      assert whole + frac == [whole[0]] + (whole[1..] + frac);
      PointText(whole[1..], frac);
    }
  }
}
