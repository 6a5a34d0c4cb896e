/**
 * Calendar dates written `YYYY-MM-DD`, the `full-date` of RFC 3339 section
 * 5.6, and the property section 5.1 of that RFC relies on: comparing two
 * such strings character by character orders them as the dates they write.
 */
module Dates {
  import opened Common

  function Pow10(n: nat): (r: nat)
    ensures r >= 1
  {
    if n == 0 then 1 else 10 * Pow10(n - 1)
  }

  /** A `full-date`: four digits, '-', two digits, '-', two digits. */
  predicate IsFullDate(s: string) {
    |s| == 10 && s[4] == '-' && s[7] == '-'
    && AllDigits(s[..4]) && AllDigits(s[5..7]) && AllDigits(s[8..])
  }

  function Year(s: string): nat
    requires IsFullDate(s)
  {
    DecimalValue(s[..4])
  }

  function Month(s: string): nat
    requires IsFullDate(s)
  {
    DecimalValue(s[5..7])
  }

  function Day(s: string): nat
    requires IsFullDate(s)
  {
    DecimalValue(s[8..])
  }

  /** Chronological order: by year, then month, then day. */
  predicate Before(a: string, b: string)
    requires IsFullDate(a) && IsFullDate(b)
  {
    Year(a) < Year(b)
    || (Year(a) == Year(b) && (Month(a) < Month(b) || (Month(a) == Month(b) && Day(a) < Day(b))))
  }

  /** The value of a digit string read from the front: the first digit weighs `10^(n-1)`. */
  lemma {:induction false} DecimalFront(s: string)
    requires AllDigits(s) && |s| >= 1
    ensures DecimalValue(s) == DigitValue(s[0]) * Pow10(|s| - 1) + DecimalValue(s[1..])
  {
    var n := |s|;
    if n == 1 {
      assert s[..0] == [] && s[1..] == [];
    } else {
      var init := s[..n - 1];
      DecimalFront(init);
      assert init[0] == s[0] && init[1..] == s[1..n - 1];
      assert s[1..][..n - 2] == s[1..n - 1];
      var d0, p, m, last := DigitValue(s[0]), Pow10(n - 2), DecimalValue(s[1..n - 1]), DigitValue(s[n - 1]);
      assert DecimalValue(init) == d0 * p + m;
      assert DecimalValue(s[1..]) == m * 10 + last;
      assert DecimalValue(s) == DecimalValue(init) * 10 + last;
      ShiftDigit(d0, p, m, last);
    }
  }

  /** Appending a digit to a number whose leading digit weighs `p` makes it weigh `10p`. */
  lemma ShiftDigit(d0: nat, p: nat, m: nat, last: nat)
    ensures (d0 * p + m) * 10 + last == d0 * (10 * p) + (m * 10 + last)
  {
  }

  /** A digit string of length `n` denotes less than `10^n`. */
  lemma {:induction false} DecimalBound(s: string)
    requires AllDigits(s)
    ensures DecimalValue(s) < Pow10(|s|)
  {
    if s != [] {
      var init := s[..|s| - 1];
      DecimalBound(init);
      assert DecimalValue(s) == DecimalValue(init) * 10 + DigitValue(s[|s| - 1]);
      assert DecimalValue(init) * 10 <= (Pow10(|init|) - 1) * 10;
    }
  }

  /** Digit strings of one length that denote the same number are the same string. */
  lemma {:induction false} DecimalInjective(a: string, b: string)
    requires AllDigits(a) && AllDigits(b) && |a| == |b|
    requires DecimalValue(a) == DecimalValue(b)
    ensures a == b
  {
    if a != [] {
      var n := |a|;
      var da, db := DigitValue(a[n - 1]), DigitValue(b[n - 1]);
      var va, vb := DecimalValue(a[..n - 1]), DecimalValue(b[..n - 1]);
      assert va * 10 + da == vb * 10 + db;
      assert da == db && va == vb;
      DecimalInjective(a[..n - 1], b[..n - 1]);
      assert a == a[..n - 1] + [a[n - 1]] && b == b[..n - 1] + [b[n - 1]];
      assert a[n - 1] == b[n - 1];
    }
  }

  /** On digit strings of one length, string order is numeric order. */
  lemma {:induction false} LexDigits(a: string, b: string)
    requires AllDigits(a) && AllDigits(b) && |a| == |b|
    ensures LexLess(a, b) <==> DecimalValue(a) < DecimalValue(b)
  {
    if a != [] {
      var p := Pow10(|a| - 1);
      var da, db := DigitValue(a[0]), DigitValue(b[0]);
      var ra, rb := DecimalValue(a[1..]), DecimalValue(b[1..]);
      DecimalFront(a);
      DecimalFront(b);
      DecimalBound(a[1..]);
      DecimalBound(b[1..]);
      assert LexLess(a, b) == if a[0] != b[0] then a[0] < b[0] else LexLess(a[1..], b[1..]);
      if a[0] == b[0] {
        LexDigits(a[1..], b[1..]);
      } else if da < db {
        LeadingDigitDecides(da, db, ra, rb, p);
      } else {
        LeadingDigitDecides(db, da, rb, ra, p);
      }
    }
  }

  /** A smaller leading digit makes a smaller number, whatever follows it. */
  lemma LeadingDigitDecides(da: nat, db: nat, ra: nat, rb: nat, p: nat)
    requires da < db && ra < p
    ensures da * p + ra < db * p + rb
  {
    assert (da + 1) * p <= db * p;
  }

  /**
   * Comparing two concatenations whose first parts have one length compares
   * the first parts, and the second parts only when the first parts agree.
   */
  lemma {:induction false} LexConcat(x: string, u: string, y: string, v: string)
    requires |x| == |y|
    ensures LexLess(x + u, y + v) <==> LexLess(x, y) || (x == y && LexLess(u, v))
  {
    if x != [] {
      assert (x + u)[0] == x[0] && (y + v)[0] == y[0];
      assert (x + u)[1..] == x[1..] + u && (y + v)[1..] == y[1..] + v;
      LexConcat(x[1..], u, y[1..], v);
      if x[0] == y[0] {
        assert x == y <==> x[1..] == y[1..];
      }
    } else {
      assert x + u == u && y + v == v;
    }
  }

  /** A full date splits into its year, separator and rest, and so on. */
  lemma FullDateParts(s: string)
    requires IsFullDate(s)
    ensures s == s[..4] + ("-" + (s[5..7] + ("-" + s[8..])))
  {
  }

  /** A digit-string comparison of one length: less, or equal, or greater. */
  lemma DigitsCompare(a: string, b: string)
    requires AllDigits(a) && AllDigits(b) && |a| == |b|
    ensures LexLess(a, b) <==> DecimalValue(a) < DecimalValue(b)
    ensures a == b <==> DecimalValue(a) == DecimalValue(b)
  {
    LexDigits(a, b);
    if DecimalValue(a) == DecimalValue(b) {
      DecimalInjective(a, b);
    }
  }

  /** `"-" + r < "-" + t` is `r < t`. */
  lemma LexDash(r: string, t: string)
    ensures LexLess("-" + r, "-" + t) <==> LexLess(r, t)
  {
    assert ("-" + r)[1..] == r && ("-" + t)[1..] == t;
  }

  /**
   * For full dates, string order is chronological order: `a < b` holds
   * exactly when `a` is an earlier date than `b`.
   */
  lemma FullDateOrder(a: string, b: string)
    requires IsFullDate(a) && IsFullDate(b)
    ensures LexLess(a, b) <==> Before(a, b)
  {
    FullDateParts(a);
    FullDateParts(b);
    DigitsCompare(a[..4], b[..4]);
    DigitsCompare(a[5..7], b[5..7]);
    DigitsCompare(a[8..], b[8..]);
    var mda, mdb := a[5..7] + ("-" + a[8..]), b[5..7] + ("-" + b[8..]);
    LexConcat(a[..4], "-" + mda, b[..4], "-" + mdb);
    LexDash(mda, mdb);
    LexConcat(a[5..7], "-" + a[8..], b[5..7], "-" + b[8..]);
    LexDash(a[8..], b[8..]);
  }

  /** No string is before itself: a delivery date of today is not in the past. */
  lemma {:induction false} LexIrreflexive(s: string)
    ensures !LexLess(s, s)
  {
    if s != [] {
      LexIrreflexive(s[1..]);
    }
  }
}
