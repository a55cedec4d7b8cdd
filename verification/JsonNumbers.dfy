/**
  Numbers of the canonical encoder: what `Decimal.normalize()` rounds to, and
  the plain decimal notation that `format(..., "f")` prints.
 */
module JsonNumbers {
  /** The significant digits that the default decimal context keeps; the lemmas hold for any precision. */
  const PRECISION: nat := 28

  type Precision = p: nat | p > 0 witness 1

  /** A finite decimal `coef * 10^exp`; the sign of a zero is not observable. */
  datatype Decimal = Finite(coef: int, exp: int) | NonFinite

  function Pow10(n: nat): (p: nat)
    ensures p > 0
  {
    if n == 0 then 1 else 10 * Pow10(n - 1)
  }

  /** The number a coefficient and an exponent stand for. */
  function NumberOf(coef: int, exp: int): real {
    if exp >= 0 then (coef * Pow10(exp)) as real else coef as real / Pow10(-exp) as real
  }

  function Abs(i: int): nat {
    if i < 0 then -i else i
  }

  // ---- decimal digits ----

  function Digit(n: nat): (c: char)
    requires n < 10
    ensures '0' <= c <= '9'
  {
    '0' + n as char
  }

  predicate IsDigit(c: char) {
    '0' <= c <= '9'
  }

  function Digits(n: nat): (s: string)
    ensures |s| > 0 && forall i :: 0 <= i < |s| ==> IsDigit(s[i])
    ensures DigitsValue(s) == n
  {
    if n < 10 then
      assert ([Digit(n)])[..0] == [];
      [Digit(n)]
    else
      var s := Digits(n / 10) + [Digit(n % 10)];
      assert s[..|s| - 1] == Digits(n / 10);
      s
  }

  function DigitsValue(s: string): nat
    requires forall i :: 0 <= i < |s| ==> IsDigit(s[i])
  {
    if s == "" then 0
    else
      assert IsDigit(s[|s| - 1]);
      10 * DigitsValue(s[..|s| - 1]) + (s[|s| - 1] - '0') as int
  }

  function Zeros(n: nat): (s: string)
    ensures |s| == n && forall i :: 0 <= i < |s| ==> s[i] == '0'
  {
    if n == 0 then "" else Zeros(n - 1) + "0"
  }

  lemma {:induction false} LeadingZeros(n: nat, s: string)
    requires forall i :: 0 <= i < |s| ==> IsDigit(s[i])
    ensures DigitsValue(Zeros(n) + s) == DigitsValue(s)
    decreases |s|, n
  {
    if s != "" {
      assert (Zeros(n) + s)[..n + |s| - 1] == Zeros(n) + s[..|s| - 1];
      LeadingZeros(n, s[..|s| - 1]);
    } else if n > 0 {
      assert Zeros(n) + s == Zeros(n);
      assert Zeros(n)[..n - 1] == Zeros(n - 1);
      LeadingZeros(n - 1, "");
      assert Zeros(n - 1) + "" == Zeros(n - 1);
    }
  }

  // ---- rounding ----

  /** The multiple of `unit` nearest to `c`, in units; half to even. */
  function RoundHalfEven(c: nat, unit: nat): nat
    requires unit > 0
  {
    var q, r := c / unit, c % unit;
    if 2 * r < unit then q else if 2 * r > unit then q + 1 else q + q % 2
  }

  function Excess(d: Decimal, prec: Precision): nat
    requires d.Finite?
  {
    var n := |Digits(Abs(d.coef))|;
    if n <= prec then 0 else n - prec
  }

  function Signed(negative: bool, magnitude: nat): int {
    if negative then -(magnitude as int) else magnitude
  }

  /** A coefficient that has grown by a digit is shifted back. */
  function Carried(negative: bool, q: nat, exp: int, prec: Precision): Decimal {
    if q == Pow10(prec) then Finite(Signed(negative, Pow10(prec - 1)), exp + 1) else Finite(Signed(negative, q), exp)
  }

  /** Rounding to the context precision. */
  function RoundedDecimal(d: Decimal, prec: Precision): Decimal {
    if d.NonFinite? || Excess(d, prec) == 0 then d
    else Carried(d.coef < 0, RoundHalfEven(Abs(d.coef), Pow10(Excess(d, prec))), d.exp + Excess(d, prec), prec)
  }

  /** The digits beyond the precision, if any, are zeros. */
  predicate ExactDecimal(d: Decimal, prec: Precision) {
    d.Finite? ==> Abs(d.coef) % Pow10(Excess(d, prec)) == 0
  }

  // ---- plain notation ----

  /** The number `sig / 10^frac`. */
  datatype Fixed = Fixed(sig: int, frac: nat)

  function ValueOf(f: Fixed): real {
    f.sig as real / Pow10(f.frac) as real
  }

  predicate Minimal(f: Fixed) {
    f.frac > 0 ==> f.sig % 10 != 0
  }

  function Strip(sig: int, frac: nat): (f: Fixed)
    ensures Minimal(f)
    decreases frac
  {
    if frac > 0 && sig % 10 == 0 then Strip(sig / 10, frac - 1) else Fixed(sig, frac)
  }

  function ToFixed(coef: int, exp: int): (f: Fixed)
    ensures Minimal(f)
  {
    if exp >= 0 then Fixed(coef * Pow10(exp), 0) else Strip(coef, -exp)
  }

  function Padded(digits: string, width: nat): (s: string)
    ensures |s| >= width
  {
    if |digits| < width then Zeros(width - |digits|) + digits else digits
  }

  function Pointed(sign: string, d: string, frac: nat): string
    requires frac <= |d|
  {
    sign + d[..|d| - frac] + "." + d[|d| - frac..]
  }

  function FixedText(f: Fixed): string {
    var sign := if f.sig < 0 then "-" else "";
    if f.frac == 0 then sign + Digits(Abs(f.sig))
    else Pointed(sign, Padded(Digits(Abs(f.sig)), f.frac + 1), f.frac)
  }

  // ---- the value is kept, and the minimal form is unique ----

  lemma {:induction false} StripKeepsValue(sig: int, frac: nat)
    ensures ValueOf(Strip(sig, frac)) == ValueOf(Fixed(sig, frac))
    decreases frac
  {
    if frac > 0 && sig % 10 == 0 {
      StripKeepsValue(sig / 10, frac - 1);
      var t, p := sig / 10, Pow10(frac - 1);
      assert sig == 10 * t;
      TenCancels(t, p);
      assert ValueOf(Fixed(sig, frac)) == (10 * t) as real / (10 * p) as real;
    }
  }

  lemma TenCancels(t: int, p: nat)
    requires p > 0
    ensures (10 * t) as real / (10 * p) as real == t as real / p as real
  {
    var x := t as real / p as real;
    assert x * p as real == t as real;
    assert x * (10 * p) as real == 10.0 * (x * p as real);
  }

  lemma ToFixedKeepsValue(coef: int, exp: int)
    ensures ValueOf(ToFixed(coef, exp)) == NumberOf(coef, exp)
  {
    if exp < 0 {
      StripKeepsValue(coef, -exp);
    }
  }

  lemma {:induction false} Pow10Splits(m: nat, n: nat)
    ensures Pow10(m + n) == Pow10(m) * Pow10(n)
    decreases m
  {
    if m > 0 {
      Pow10Splits(m - 1, n);
      Associate(10, Pow10(m - 1), Pow10(n));
    }
  }

  lemma MinimalIsUnique(f: Fixed, g: Fixed)
    requires Minimal(f) && Minimal(g) && f.frac >= g.frac
    requires ValueOf(f) == ValueOf(g)
    ensures f == g
  {
    var n := f.frac - g.frac;
    Pow10Splits(g.frac, n);
    CrossMultiply(f.sig, g.sig, Pow10(g.frac), Pow10(n));
    if n > 0 {
      TenDivides(f.sig, g.sig, Pow10(n - 1));
    }
  }

  lemma TenDivides(a: int, b: int, q: nat)
    requires a == b * (10 * q)
    ensures a % 10 == 0
  {
    assert a == 10 * (b * q);
  }

  lemma CrossMultiply(a: int, b: int, p: nat, q: nat)
    requires p > 0 && q > 0 && a as real / (p * q) as real == b as real / p as real
    ensures a == b * q
  {
    var x := b as real / p as real;
    assert x * p as real == b as real;
    assert (p * q) as real == p as real * q as real;
    assert a as real == x * (p * q) as real;
    assert a as real == (x * p as real) * q as real;
    assert (b * q) as real == b as real * q as real;
  }

  /** Two numbers have the same minimal form exactly when they are the same number. */
  lemma SameFixedIffSameNumber(c: int, e: int, d: int, f: int)
    ensures ToFixed(c, e) == ToFixed(d, f) <==> NumberOf(c, e) == NumberOf(d, f)
  {
    ToFixedKeepsValue(c, e);
    ToFixedKeepsValue(d, f);
    if NumberOf(c, e) == NumberOf(d, f) {
      var x, y := ToFixed(c, e), ToFixed(d, f);
      if x.frac >= y.frac {
        MinimalIsUnique(x, y);
      } else {
        MinimalIsUnique(y, x);
      }
    }
  }

  // ---- what rounding changes ----

  lemma {:induction false} DigitsBound(n: nat, k: nat)
    requires k > 0
    ensures |Digits(n)| <= k <==> n < Pow10(k)
    decreases k
  {
    if k == 1 {
      assert Pow10(1) == 10 * Pow10(0);
    } else if n >= 10 {
      DigitsBound(n / 10, k - 1);
      assert n < 10 * Pow10(k - 1) <==> n / 10 < Pow10(k - 1);
    }
  }

  lemma Quotient(c: nat, unit: nat, bound: nat)
    requires unit > 0 && c < bound * unit
    ensures RoundHalfEven(c, unit) <= bound
  {
    var q := c / unit;
    assert c == q * unit + c % unit;
    Monotone(bound, q, unit);
  }

  lemma Monotone(a: nat, b: nat, unit: nat)
    ensures a <= b ==> a * unit <= b * unit
  {
  }

  lemma RoundedFits(c: nat, x: nat, prec: Precision)
    requires |Digits(c)| == prec + x
    ensures RoundHalfEven(c, Pow10(x)) <= Pow10(prec)
  {
    DigitsBound(c, prec + x);
    Pow10Splits(prec, x);
    Quotient(c, Pow10(x), Pow10(prec));
  }

  lemma CarriedIsWithin(negative: bool, q: nat, exp: int, prec: Precision)
    requires q <= Pow10(prec)
    ensures Excess(Carried(negative, q, exp, prec), prec) == 0
  {
    DigitsBound(q, prec);
    DigitsBound(Pow10(prec - 1), prec);
  }

  /** A rounded decimal is within the precision, so rounding again changes nothing. */
  lemma RoundedIsWithin(d: Decimal, prec: Precision)
    requires d.Finite?
    ensures Excess(RoundedDecimal(d, prec), prec) == 0
    ensures RoundedDecimal(RoundedDecimal(d, prec), prec) == RoundedDecimal(d, prec)
  {
    if Excess(d, prec) > 0 {
      RoundedFits(Abs(d.coef), Excess(d, prec), prec);
      CarriedIsWithin(d.coef < 0, RoundHalfEven(Abs(d.coef), Pow10(Excess(d, prec))), d.exp + Excess(d, prec), prec);
    }
  }

  lemma ShiftWhole(c: int, e: nat, x: nat)
    ensures NumberOf(c, e + x) == NumberOf(c * Pow10(x), e)
  {
    Pow10Splits(x, e);
    Associate(c, Pow10(x), Pow10(e));
  }

  lemma ShiftAcross(c: int, m: nat, n: nat)
    requires n > 0
    ensures NumberOf(c, m) == NumberOf(c * Pow10(m + n), -(n as int))
  {
    var p, q := Pow10(m), Pow10(n);
    Pow10Splits(m, n);
    Associate(c, p, q);
    Scale(c * p, q, 1);
    assert NumberOf(c * (p * q), -(n as int)) == ((c * p) * q) as real / (1 * q) as real;
  }

  lemma ShiftFraction(c: int, m: nat, x: nat)
    requires m > 0
    ensures NumberOf(c, -(m as int)) == NumberOf(c * Pow10(x), -((m + x) as int))
  {
    Pow10Splits(m, x);
    Scale(c, Pow10(x), Pow10(m));
  }

  lemma Shift(c: int, e: int, x: nat)
    ensures NumberOf(c, e + x) == NumberOf(c * Pow10(x), e)
  {
    if e >= 0 {
      ShiftWhole(c, e, x);
    } else if e + x >= 0 {
      ShiftAcross(c, e + x, -e);
    } else {
      ShiftFraction(c, -e - x, x);
    }
  }

  lemma Associate(a: int, b: int, c: int)
    ensures a * (b * c) == (a * b) * c
  {
  }

  lemma Scale(a: int, p: nat, q: nat)
    requires p > 0 && q > 0
    ensures (a * p) as real / (q * p) as real == a as real / q as real
  {
    var x := a as real / q as real;
    assert x * q as real == a as real;
    assert (q * p) as real == q as real * p as real;
    assert (a * p) as real == a as real * p as real;
    assert x * (q * p) as real == (x * q as real) * p as real;
  }

  lemma SameCoefficient(a: int, b: int, e: int)
    ensures NumberOf(a, e) == NumberOf(b, e) <==> a == b
  {
    if e >= 0 {
      var p := Pow10(e);
      if a * p == b * p {
        assert (a - b) * p == 0;
      }
    } else {
      var p := Pow10(-e) as real;
      assert a as real == NumberOf(a, e) * p;
      assert b as real == NumberOf(b, e) * p;
    }
  }

  lemma CarriedNumber(negative: bool, q: nat, exp: int, prec: Precision)
    ensures var r := Carried(negative, q, exp, prec);
      NumberOf(r.coef, r.exp) == NumberOf(Signed(negative, q), exp)
  {
    if q == Pow10(prec) {
      var coef := Signed(negative, Pow10(prec - 1));
      Shift(coef, exp, 1);
      assert Pow10(1) == 10;
      assert coef * 10 == Signed(negative, q);
    }
  }

  /** Rounding keeps the number exactly when the dropped digits are zeros. */
  lemma RoundingIsExactIff(d: Decimal, prec: Precision)
    requires d.Finite?
    ensures var r := RoundedDecimal(d, prec);
      NumberOf(r.coef, r.exp) == NumberOf(d.coef, d.exp) <==> ExactDecimal(d, prec)
  {
    var x := Excess(d, prec);
    if x > 0 {
      RoundedUnit(d.coef, d.exp, RoundHalfEven(Abs(d.coef), Pow10(x)), x, prec);
      MultipleIff(Abs(d.coef), Pow10(x));
    }
  }

  /** The rounded coefficient counts units of the dropped digits. */
  lemma RoundedValue(negative: bool, exp: int, q: nat, x: nat, prec: Precision)
    ensures var r := Carried(negative, q, exp + x, prec);
      NumberOf(r.coef, r.exp) == NumberOf(Signed(negative, q) * Pow10(x), exp)
  {
    CarriedNumber(negative, q, exp + x, prec);
    Shift(Signed(negative, q), exp, x);
  }

  lemma SignedProduct(coef: int, q: nat, unit: nat)
    ensures Signed(coef < 0, q) * unit == coef <==> q * unit == Abs(coef)
  {
    Negate(q, unit);
  }

  lemma RoundedUnit(coef: int, exp: int, q: nat, x: nat, prec: Precision)
    ensures var r := Carried(coef < 0, q, exp + x, prec);
      NumberOf(r.coef, r.exp) == NumberOf(coef, exp) <==> q * Pow10(x) == Abs(coef)
  {
    var rounded := Signed(coef < 0, q) * Pow10(x);
    RoundedValue(coef < 0, exp, q, x, prec);
    SameCoefficient(rounded, coef, exp);
    SignedProduct(coef, q, Pow10(x));
  }

  lemma Negate(a: int, b: int)
    ensures (-a) * b == -(a * b)
  {
  }

  lemma MultipleIff(c: nat, unit: nat)
    requires unit > 0
    ensures RoundHalfEven(c, unit) * unit == c <==> c % unit == 0
  {
    var q, r := c / unit, c % unit;
    assert c == q * unit + r;
    assert (q + 1) * unit == q * unit + unit;
  }

  // ---- reading a number back off the front of a text ----

  predicate NumberChar(c: char) {
    IsDigit(c) || c == '-' || c == '.'
  }

  predicate AllDigits(s: string) {
    forall i :: 0 <= i < |s| ==> IsDigit(s[i])
  }

  /** A sign, then digits with at most one point, which stands before the last `frac` of them. */
  predicate FixedShape(s: string, negative: bool, frac: nat) {
    var start := if negative then 1 else 0;
    && start + frac < |s|
    && (negative ==> s[0] == '-')
    && forall i :: start <= i < |s| ==> if frac > 0 && i == |s| - frac - 1 then s[i] == '.' else IsDigit(s[i])
  }

  lemma PointedShape(sign: string, negative: bool, d: string, frac: nat)
    requires sign == (if negative then "-" else "") && AllDigits(d) && 0 < frac < |d|
    ensures FixedShape(Pointed(sign, d, frac), negative, frac)
  {
    var s := Pointed(sign, d, frac);
    var point := |sign| + |d| - frac;
    assert s[point] == '.';
    forall i | |sign| <= i < |s|
      ensures if i == |s| - frac - 1 then s[i] == '.' else IsDigit(s[i])
    {
      if i < point {
        assert s[i] == d[i - |sign|];
      } else if i > point {
        assert s[i] == d[i - |sign| - 1];
      }
    }
  }

  lemma WholeShape(sign: string, negative: bool, d: string)
    requires sign == (if negative then "-" else "") && AllDigits(d) && d != ""
    ensures FixedShape(sign + d, negative, 0)
  {
    forall i | |sign| <= i < |sign + d|
      ensures IsDigit((sign + d)[i])
    {
      assert (sign + d)[i] == d[i - |sign|];
    }
  }

  lemma FixedTextShape(f: Fixed)
    ensures FixedShape(FixedText(f), f.sig < 0, f.frac)
  {
    var sign := if f.sig < 0 then "-" else "";
    if f.frac == 0 {
      WholeShape(sign, f.sig < 0, Digits(Abs(f.sig)));
    } else {
      PaddedValue(Abs(f.sig), f.frac + 1);
      PointedShape(sign, f.sig < 0, Padded(Digits(Abs(f.sig)), f.frac + 1), f.frac);
    }
  }

  lemma FixedTextChars(f: Fixed)
    ensures var s := FixedText(f);
      s != "" && forall i :: 0 <= i < |s| ==> NumberChar(s[i])
  {
    FixedTextShape(f);
  }

  /** The text determines the number: sign, position of the point, digits. */
  lemma FixedTextInjective(f: Fixed, g: Fixed)
    requires FixedText(f) == FixedText(g)
    ensures f == g
  {
    SameSign(f, g);
    SamePoint(f, g);
    SamePoint(g, f);
    SameDigits(f, g);
    PaddedValue(Abs(f.sig), f.frac + 1);
    PaddedValue(Abs(g.sig), g.frac + 1);
  }

  /** The digits of a text whose sign and point are known. */
  function Unpointed(s: string, start: nat, frac: nat): string
    requires start + frac + 1 <= |s|
  {
    if frac == 0 then s[start..] else s[start..|s| - frac - 1] + s[|s| - frac..]
  }

  lemma DigitsFromText(f: Fixed)
    ensures var s := FixedText(f); var start := if f.sig < 0 then 1 else 0;
      start + f.frac + 1 <= |s| && Unpointed(s, start, f.frac) == Padded(Digits(Abs(f.sig)), f.frac + 1)
  {
    var sign := if f.sig < 0 then "-" else "";
    if f.frac == 0 {
      WholeDigits(sign, Digits(Abs(f.sig)));
    } else {
      PointedDigits(sign, Padded(Digits(Abs(f.sig)), f.frac + 1), f.frac);
    }
  }

  lemma WholeDigits(sign: string, d: string)
    requires d != ""
    ensures Unpointed(sign + d, |sign|, 0) == d && Padded(d, 1) == d
  {
  }

  lemma PointedDigits(sign: string, d: string, frac: nat)
    requires 0 < frac < |d|
    ensures var s := Pointed(sign, d, frac);
      |sign| + frac + 1 <= |s| && Unpointed(s, |sign|, frac) == d
  {
    var s := Pointed(sign, d, frac);
    assert s[|sign|..|s| - frac - 1] == d[..|d| - frac];
    assert s[|s| - frac..] == d[|d| - frac..];
    assert d == d[..|d| - frac] + d[|d| - frac..];
  }

  lemma SameDigits(f: Fixed, g: Fixed)
    requires FixedText(f) == FixedText(g) && f.frac == g.frac && (f.sig < 0 <==> g.sig < 0)
    ensures Padded(Digits(Abs(f.sig)), f.frac + 1) == Padded(Digits(Abs(g.sig)), g.frac + 1)
  {
    DigitsFromText(f);
    DigitsFromText(g);
  }

  lemma SameSign(f: Fixed, g: Fixed)
    requires FixedText(f) == FixedText(g)
    ensures f.sig < 0 <==> g.sig < 0
  {
    FixedTextShape(f);
    FixedTextShape(g);
  }

  lemma SamePoint(f: Fixed, g: Fixed)
    requires FixedText(f) == FixedText(g)
    ensures f.frac > 0 ==> g.frac == f.frac
  {
    FixedTextShape(f);
    FixedTextShape(g);
    SameSign(f, g);
    var s := FixedText(f);
    if f.frac > 0 {
      assert s[|s| - f.frac - 1] == '.';
    }
  }

  lemma PaddedValue(n: nat, width: nat)
    ensures var d := Padded(Digits(n), width);
      (forall i :: 0 <= i < |d| ==> IsDigit(d[i])) && DigitsValue(d) == n
  {
    if |Digits(n)| < width {
      LeadingZeros(width - |Digits(n)|, Digits(n));
    }
  }
}
