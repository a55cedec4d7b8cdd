/**
  Rounding to the precision of the decimal context is correct rounding: no
  decimal of that many digits is nearer, and a tie goes to an even last digit.
  Decimals are compared by counting a place that none of them reaches below.
 */
module DecimalRounding {
  import opened JsonNumbers

  /** `c` followed by `n` zeros. */
  function Up(c: int, n: nat): int {
    if n == 0 then c else 10 * Up(c, n - 1)
  }

  /** How many units of the place `t` a decimal is. */
  function Count(d: Decimal, t: int): int
    requires d.Finite? && t <= d.exp
  {
    Up(d.coef, d.exp - t)
  }

  lemma {:induction false} UpIsProduct(c: int, n: nat)
    ensures Up(c, n) == c * Pow10(n)
    decreases n
  {
    if n > 0 {
      UpIsProduct(c, n - 1);
      Associate(c, 10, Pow10(n - 1));
    }
  }

  /** Counting a place keeps the number. */
  lemma CountKeepsNumber(d: Decimal, t: int)
    requires d.Finite? && t <= d.exp
    ensures NumberOf(Count(d, t), t) == NumberOf(d.coef, d.exp)
  {
    Shift(d.coef, t, d.exp - t);
    UpIsProduct(d.coef, d.exp - t);
  }

  lemma {:induction false} UpTwice(c: int, m: nat, n: nat)
    ensures Up(Up(c, m), n) == Up(c, m + n)
    decreases n
  {
    if n > 0 {
      UpTwice(c, m, n - 1);
    }
  }

  lemma {:induction false} UpOrder(a: int, b: int, n: nat)
    ensures a < b <==> Up(a, n) < Up(b, n)
    ensures Up(b, n) - Up(a, n) == Up(b - a, n)
    decreases n
  {
    if n > 0 {
      UpOrder(a, b, n - 1);
    }
  }

  lemma UpDistance(a: int, b: int, n: nat)
    ensures Abs(Up(a, n) - Up(b, n)) == Up(Abs(a - b), n)
  {
    UpOrder(a, b, n);
    UpOrder(b, a, n);
  }

  lemma {:induction false} UpMagnitude(a: int, n: nat)
    ensures Abs(Up(a, n)) == Up(Abs(a), n)
    decreases n
  {
    if n > 0 {
      UpMagnitude(a, n - 1);
    }
  }

  lemma {:induction false} UpGrows(c: nat, m: nat, n: nat)
    requires m <= n
    ensures 0 <= Up(c, m) <= Up(c, n)
    decreases n
  {
    if m < n {
      UpGrows(c, m, n - 1);
    } else if m > 0 {
      UpGrows(c, m - 1, n - 1);
    }
  }

  // ---- the nearest multiple ----

  function Off(k: int, unit: nat, c: int): nat {
    Abs(k * unit - c)
  }

  lemma Apart(q: int, k: int, unit: nat)
    ensures k <= q ==> k * unit <= q * unit
    ensures k > q ==> k * unit >= (q + 1) * unit
  {
    if k <= q {
      assert (q - k) * unit >= 0;
    } else {
      assert (k - q - 1) * unit >= 0;
    }
  }

  lemma NearestMultiple(c: nat, unit: nat, k: int)
    requires unit > 0
    ensures var q := RoundHalfEven(c, unit);
      && Off(q, unit, c) <= Off(k, unit, c)
      && (Off(q, unit, c) == Off(k, unit, c) ==> k == q || q % 2 == 0)
  {
    var f := c / unit;
    assert c == f * unit + c % unit && (f + 1) * unit == f * unit + unit;
    Apart(f, k, unit);
    Apart(f - 1, k, unit);
    Apart(f + 1, k, unit);
    assert (f - 1) * unit == f * unit - unit && (f + 2) * unit == f * unit + 2 * unit;
  }

  lemma OffMirrored(k: int, unit: nat, c: int)
    ensures Off(-k, unit, -c) == Off(k, unit, c)
  {
    assert (-k) * unit == -(k * unit);
  }

  lemma NearestSigned(coef: int, unit: nat, k: int)
    requires unit > 0
    ensures var m := Signed(coef < 0, RoundHalfEven(Abs(coef), unit));
      && Off(m, unit, coef) <= Off(k, unit, coef)
      && (Off(m, unit, coef) == Off(k, unit, coef) ==> k == m || m % 2 == 0)
  {
    if coef < 0 {
      NearestMultiple(-coef, unit, -k);
      OffMirrored(k, unit, coef);
      OffMirrored(Signed(true, RoundHalfEven(-coef, unit)), unit, coef);
    } else {
      NearestMultiple(coef, unit, k);
    }
  }

  // ---- decimals ----

  /** The multiple of the last kept place that rounding picks. */
  function Picked(d: Decimal, prec: Precision): int
    requires d.Finite?
  {
    Signed(d.coef < 0, RoundHalfEven(Abs(d.coef), Pow10(Excess(d, prec))))
  }

  /** No other multiple of the last kept place is nearer. */
  lemma PickedIsNearest(d: Decimal, prec: Precision, k: int)
    requires d.Finite?
    ensures var x, m := Excess(d, prec), Picked(d, prec);
      && Abs(Up(m, x) - d.coef) <= Abs(Up(k, x) - d.coef)
      && (Abs(Up(m, x) - d.coef) == Abs(Up(k, x) - d.coef) ==> k == m || m % 2 == 0)
  {
    var x := Excess(d, prec);
    NearestSigned(d.coef, Pow10(x), k);
    UpIsProduct(k, x);
    UpIsProduct(Picked(d, prec), x);
  }

  lemma CarriedCount(negative: bool, q: nat, exp: int, prec: Precision, t: int)
    requires t <= exp
    ensures var r := Carried(negative, q, exp, prec);
      t <= r.exp && Count(r, t) == Up(Signed(negative, q), exp - t)
  {
    if q == Pow10(prec) {
      var c := Signed(negative, Pow10(prec - 1));
      UpTwice(c, 1, exp - t);
      assert Up(c, 1) == 10 * Up(c, 0);
    }
  }

  lemma RoundedCount(d: Decimal, prec: Precision, t: int)
    requires d.Finite? && Excess(d, prec) > 0 && t <= d.exp
    ensures var r, x := RoundedDecimal(d, prec), Excess(d, prec);
      r.Finite? && t <= r.exp && Count(r, t) == Up(Picked(d, prec), d.exp + x - t)
      && Count(r, t) == Up(Up(Picked(d, prec), x), d.exp - t)
  {
    var x := Excess(d, prec);
    CarriedCount(d.coef < 0, RoundHalfEven(Abs(d.coef), Pow10(x)), d.exp + x, prec, t);
    UpTwice(Picked(d, prec), x, d.exp - t);
  }

  /** A decimal whose last place is not below the last kept place counts whole units of it. */
  lemma CoarseCount(e: Decimal, d: Decimal, x: nat, t: int) returns (k: int)
    requires e.Finite? && d.Finite? && t <= d.exp && e.exp >= d.exp + x
    ensures Count(e, t) == Up(Up(k, x), d.exp - t)
  {
    var n: nat := e.exp - d.exp - x;
    k := Up(e.coef, n);
    UpTwice(e.coef, n, x);
    UpTwice(e.coef, n + x, d.exp - t);
  }

  lemma ShortCount(e: Decimal, prec: Precision, t: int)
    requires e.Finite? && |Digits(Abs(e.coef))| <= prec && t <= e.exp
    ensures Abs(Count(e, t)) < Up(1, prec + (e.exp - t))
  {
    DigitsBound(Abs(e.coef), prec);
    UpIsProduct(1, prec);
    UpMagnitude(e.coef, e.exp - t);
    UpOrder(Abs(e.coef), Up(1, prec), e.exp - t);
    UpTwice(1, prec, e.exp - t);
  }

  /** The power of ten with as many digits as `d`. */
  lemma TopBelow(d: Decimal, prec: Precision)
    requires d.Finite? && Excess(d, prec) > 0
    ensures Abs(d.coef) >= Up(1, prec - 1 + Excess(d, prec)) == Up(Up(1, prec - 1), Excess(d, prec))
  {
    var x := Excess(d, prec);
    DigitsBound(Abs(d.coef), prec - 1 + x);
    UpIsProduct(1, prec - 1 + x);
    UpTwice(1, prec - 1, x);
  }

  lemma {:induction false} UpNegated(c: int, n: nat)
    ensures Up(-c, n) == -Up(c, n)
    decreases n
  {
    if n > 0 {
      UpNegated(c, n - 1);
    }
  }

  /** A decimal within the precision that reaches below the last kept place is farther than some multiple of it. */
  lemma FineCount(e: Decimal, d: Decimal, prec: Precision, t: int) returns (k: int)
    requires e.Finite? && d.Finite? && |Digits(Abs(e.coef))| <= prec && t <= e.exp && t <= d.exp
    requires Excess(d, prec) > 0 && e.exp < d.exp + Excess(d, prec)
    ensures Abs(Count(e, t) - Count(d, t)) > Up(Abs(Up(k, Excess(d, prec)) - d.coef), d.exp - t)
  {
    var x, top := Excess(d, prec), Up(1, prec - 1);
    var whole := prec - 1 + x;
    k := if d.coef < 0 then -top else top;
    TopBelow(d, prec);
    UpNegated(top, x);
    assert Abs(Up(k, x) - d.coef) == Abs(d.coef) - Up(1, whole);
    ShortCount(e, prec, t);
    UpGrows(1, prec + (e.exp - t), whole + (d.exp - t));
    UpTwice(1, whole, d.exp - t);
    UpMagnitude(d.coef, d.exp - t);
    UpOrder(Up(1, whole), Abs(d.coef), d.exp - t);
  }

  /**
    Correct rounding: counted in any place that neither reaches below, the
    rounded decimal is at least as near as any decimal within the precision,
    and where another one is as near, the last kept digit is even.
   */
  lemma RoundsCorrectly(d: Decimal, prec: Precision, e: Decimal, t: int)
    requires d.Finite? && e.Finite? && |Digits(Abs(e.coef))| <= prec && t <= d.exp && t <= e.exp
    ensures var r := RoundedDecimal(d, prec);
      && r.Finite? && t <= r.exp
      && Abs(Count(r, t) - Count(d, t)) <= Abs(Count(e, t) - Count(d, t))
      && (Abs(Count(r, t) - Count(d, t)) == Abs(Count(e, t) - Count(d, t)) && Count(e, t) != Count(r, t) ==>
        exists m :: Up(2 * m, d.exp + Excess(d, prec) - t) == Count(r, t))
  {
    var x := Excess(d, prec);
    if x > 0 {
      var m, n := Picked(d, prec), d.exp - t;
      RoundedCount(d, prec, t);
      UpDistance(Up(m, x), d.coef, n);
      var k;
      if e.exp >= d.exp + x {
        k := CoarseCount(e, d, x, t);
        UpDistance(Up(k, x), d.coef, n);
      } else {
        k := FineCount(e, d, prec, t);
      }
      PickedIsNearest(d, prec, k);
      UpOrder(Abs(Up(m, x) - d.coef), Abs(Up(k, x) - d.coef), n);
      UpOrder(Abs(Up(k, x) - d.coef), Abs(Up(m, x) - d.coef), n);
      if m % 2 == 0 {
        assert Up(2 * (m / 2), d.exp + x - t) == Up(m, d.exp + x - t);
      }
    }
  }
}
