/**
  How long a run may live before its cost cap is used up: the cap divided by
  the hourly rate and multiplied by 3600 in the decimal context, each result
  rounded half to even to the context precision, then cut to whole seconds.
 */
module PlannedLifetime {
  import opened JsonNumbers

  /** The number `coef * 10^exp`. */
  datatype Amount = Amount(coef: nat, exp: int)

  /** The power of ten. */
  function Ten(exp: int): (r: real)
    ensures r > 0.0
    decreases if exp < 0 then -exp else exp
  {
    if exp == 0 then 1.0 else if exp > 0 then 10.0 * Ten(exp - 1) else Ten(exp + 1) / 10.0
  }

  function Value(x: Amount): (r: real)
    ensures r >= 0.0
  {
    x.coef as real * Ten(x.exp)
  }

  /** `a / b * 10^exp` with as few digits as the precision demands; `b` is scaled up while there are more. */
  function Quotient(a: nat, b: nat, exp: int, prec: Precision): Amount
    requires a > 0 && b > 0
    decreases if a >= b then a - b else 0
  {
    if a >= b * Pow10(prec) then
      PowersGrow(b, prec);
      Quotient(a, 10 * b, exp + 1, prec)
    else Filled(a, b, exp, b * Pow10(prec - 1))
  }

  /** The same, where `a` is scaled up while there are fewer digits, that is, while `a` is below `least`. */
  function Filled(a: nat, b: nat, exp: int, least: nat): Amount
    requires a > 0 && b > 0
    decreases if least >= a then least - a else 0
  {
    if a < least then Filled(10 * a, b, exp - 1, least) else Amount(RoundHalfEven(a, b), exp)
  }

  function PlannedSeconds(cost: nat, rate: nat, prec: Precision): nat
    requires cost > 0 && rate > 0
  {
    var hours := Quotient(cost, rate, 0, prec);
    QuotientPositive(cost, rate, 0, prec);
    Value(Quotient(hours.coef * 3600, 1, hours.exp, prec)).Floor
  }

  lemma PowersGrow(b: nat, prec: Precision)
    ensures b * Pow10(prec) >= 10 * b
  {
    assert Pow10(prec) == 10 * Pow10(prec - 1);
    assert b * Pow10(prec) == 10 * (b * Pow10(prec - 1));
    assert b * Pow10(prec - 1) >= b * 1;
  }

  lemma {:induction false} QuotientPositive(a: nat, b: nat, exp: int, prec: Precision)
    requires a > 0 && b > 0
    ensures Quotient(a, b, exp, prec).coef > 0
    decreases if a >= b then a - b else 0
  {
    if a >= b * Pow10(prec) {
      PowersGrow(b, prec);
      QuotientPositive(a, 10 * b, exp + 1, prec);
    } else {
      LeastCovers(b, prec);
      FilledPositive(a, b, exp, b * Pow10(prec - 1));
    }
  }

  lemma LeastCovers(b: nat, prec: Precision)
    ensures b * Pow10(prec - 1) >= b
  {
    Scaled(1, Pow10(prec - 1), b);
  }

  lemma {:induction false} FilledPositive(a: nat, b: nat, exp: int, least: nat)
    requires a > 0 && b > 0 && least >= b
    ensures Filled(a, b, exp, least).coef > 0
    decreases if least >= a then least - a else 0
  {
    if a < least {
      FilledPositive(10 * a, b, exp - 1, least);
    } else {
      assert a / b > 0;
    }
  }

  lemma TenSteps(exp: int)
    ensures Ten(exp) == 10.0 * Ten(exp - 1)
  {
  }

  // ---- how far rounding can be off ----

  /** Twice the smallest coefficient of full precision: an error of half a unit is at most one part in this. */
  function Parts(prec: Precision): (k: nat)
    ensures k > 0
  {
    if prec == 1 then 2 else 10 * Parts(prec - 1)
  }

  lemma {:induction false} PartsOf(prec: Precision)
    ensures Parts(prec) == 2 * Pow10(prec - 1)
  {
    if prec > 1 {
      PartsOf(prec - 1);
    }
  }

  lemma RoundedUp(a: nat, b: nat)
    requires b > 0
    ensures 2 * (RoundHalfEven(a, b) * b) <= 2 * a + b
  {
    var q, r := a / b, a % b;
    assert a == q * b + r;
    assert (q + 1) * b == q * b + b;
  }

  lemma Scaled(x: int, y: int, k: nat)
    requires x <= y
    ensures k * x <= k * y
  {
  }

  /** Rounding a quotient of full precision adds at most its share. */
  lemma RoundedShare(a: nat, b: nat, prec: Precision)
    requires b > 0 && a >= b * Pow10(prec - 1)
    ensures Parts(prec) * (RoundHalfEven(a, b) * b) <= (Parts(prec) + 1) * a
  {
    var p, n := Pow10(prec - 1), RoundHalfEven(a, b) * b;
    PartsOf(prec);
    RoundedUp(a, b);
    Scaled(2 * n, 2 * a + b, p);
    SharedOut(p, n, a, b);
  }

  lemma SharedOut(p: nat, n: nat, a: nat, b: nat)
    ensures (2 * p) * n == p * (2 * n)
    ensures (2 * p + 1) * a == p * (2 * a) + a
    ensures p * (2 * a + b) == p * (2 * a) + b * p
  {
  }

  /** `x` exceeds `y / b` by at most one part in `k`. */
  predicate Share(k: nat, x: real, b: nat, y: real) {
    k as real * (x * b as real) <= (k + 1) as real * y
  }

  lemma ShareAtUnit(k: nat, x: Amount, b: nat, a: nat, t: real)
    requires k * (x.coef * b) <= (k + 1) * a && t == Ten(x.exp)
    ensures Share(k, Value(x), b, a as real * t)
  {
    ShareTimes(k, x.coef, b, a, t);
  }

  lemma ShareTimes(k: nat, n: nat, b: nat, a: nat, t: real)
    requires k * (n * b) <= (k + 1) * a && t > 0.0
    ensures Share(k, n as real * t, b, a as real * t)
  {
    var x, y := (k * (n * b)) as real, ((k + 1) * a) as real;
    assert x * t <= y * t;
    assert x == k as real * (n as real * b as real);
    assert y == (k + 1) as real * a as real;
    assert k as real * (n as real * t * b as real) == x * t;
    assert (k + 1) as real * (a as real * t) == y * t;
  }

  lemma SameTimesTen(a: nat, exp: int)
    ensures (10 * a) as real * Ten(exp - 1) == a as real * Ten(exp)
  {
    TenSteps(exp);
    var t := Ten(exp - 1);
    assert (10 * a) as real == a as real * 10.0;
    assert (a as real * 10.0) * t == a as real * (10.0 * t);
  }

  lemma TimesTen(a: nat, exp: int)
    ensures a as real * Ten(exp + 1) == 10.0 * (a as real * Ten(exp))
  {
    TenSteps(exp + 1);
  }

  lemma FilledShareNow(a: nat, b: nat, exp: int, prec: Precision)
    requires b > 0 && a >= b * Pow10(prec - 1)
    ensures Share(Parts(prec), Value(Amount(RoundHalfEven(a, b), exp)), b, a as real * Ten(exp))
  {
    RoundedShare(a, b, prec);
    ShareAtUnit(Parts(prec), Amount(RoundHalfEven(a, b), exp), b, a, Ten(exp));
  }

  lemma FilledShareNext(a: nat, b: nat, exp: int, least: nat, prec: Precision)
    requires a > 0 && b > 0 && a < least
    requires Share(Parts(prec), Value(Filled(10 * a, b, exp - 1, least)), b, (10 * a) as real * Ten(exp - 1))
    ensures Share(Parts(prec), Value(Filled(a, b, exp, least)), b, a as real * Ten(exp))
  {
    SameTimesTen(a, exp);
  }

  lemma {:induction false} FilledShare(a: nat, b: nat, exp: int, least: nat, prec: Precision)
    requires a > 0 && b > 0 && least == b * Pow10(prec - 1)
    ensures Share(Parts(prec), Value(Filled(a, b, exp, least)), b, a as real * Ten(exp))
    decreases if least >= a then least - a else 0
  {
    if a < least {
      FilledShare(10 * a, b, exp - 1, least, prec);
      FilledShareNext(a, b, exp, least, prec);
    } else {
      FilledShareNow(a, b, exp, prec);
    }
  }

  lemma ShareOfTenth(k: nat, x: real, b: nat, y: real)
    requires Share(k, x, 10 * b, 10.0 * y)
    ensures Share(k, x, b, y)
  {
    var l, r := k as real * (x * b as real), (k + 1) as real * y;
    assert (10 * b) as real == 10.0 * b as real;
    assert k as real * (x * (10 * b) as real) == 10.0 * l;
    assert (k + 1) as real * (10.0 * y) == 10.0 * r;
  }

  lemma {:induction false} QuotientShare(a: nat, b: nat, exp: int, prec: Precision)
    requires a > 0 && b > 0
    ensures Share(Parts(prec), Value(Quotient(a, b, exp, prec)), b, a as real * Ten(exp))
    decreases if a >= b then a - b else 0
  {
    if a >= b * Pow10(prec) {
      PowersGrow(b, prec);
      QuotientShare(a, 10 * b, exp + 1, prec);
      TimesTen(a, exp);
      ShareOfTenth(Parts(prec), Value(Quotient(a, b, exp, prec)), b, a as real * Ten(exp));
    } else {
      FilledShare(a, b, exp, b * Pow10(prec - 1), prec);
    }
  }

  lemma ShareBounds(k: nat, x: real, b: nat, y: real, h: nat)
    requires Share(k, x, b, y) && h as real <= x
    ensures k as real * (h as real * b as real) <= (k + 1) as real * y
  {
    assert h as real * b as real <= x * b as real;
    assert k as real * (h as real * b as real) <= k as real * (x * b as real);
  }

  lemma Times(x: real, y: real, z: real)
    requires x <= y && z >= 0.0
    ensures x * z <= y * z
  {
  }

  lemma Regroup(x: real, y: real, z: real)
    ensures (x * y) * z == x * (y * z) == (x * z) * y
  {
  }

  /** `a x <= b (3600 v)` and `a (v r) <= b c` chained. */
  lemma Chain(a: real, b: real, x: real, v: real, r: real, c: real)
    requires a * x <= b * (3600.0 * v) && a * (v * r) <= b * c
    requires a >= 0.0 && b >= 0.0 && r >= 0.0
    ensures (a * a) * (x * r) <= (b * b) * (3600.0 * c)
  {
    Times(a * x, b * (3600.0 * v), a * r);
    Times(a * (v * r), b * c, b * 3600.0);
    LeftSide(a, x, r);
    Middle(a, b, v, r);
    Regroup(b, c, b * 3600.0);
    Regroup(b, b, 3600.0 * c);
    assert (b * c) * (b * 3600.0) == (b * b) * (3600.0 * c);
  }

  lemma LeftSide(a: real, x: real, r: real)
    ensures (a * x) * (a * r) == (a * a) * (x * r)
  {
    Regroup(a, x, a * r);
    Regroup(x, a, r);
    Regroup(a, a, x * r);
  }

  lemma Middle(a: real, b: real, v: real, r: real)
    ensures (b * (3600.0 * v)) * (a * r) == (a * (v * r)) * (b * 3600.0)
  {
    var w := v * r;
    Regroup(b * 3600.0, v, a * r);
    Regroup(v, a, r);
    Regroup(a, v, r);
    assert v * (a * r) == a * w;
    assert (b * (3600.0 * v)) == (b * 3600.0) * v;
  }

  /** Two shares in a row. */
  lemma SharesCompose(k: nat, hours: real, rate: nat, cost: nat, h: nat)
    requires Share(k, hours, rate, cost as real)
    requires k as real * h as real <= (k + 1) as real * (3600.0 * hours)
    ensures k * k * (h * rate) <= (k + 1) * (k + 1) * (3600 * cost)
  {
    Chain(k as real, (k + 1) as real, h as real, hours, rate as real, cost as real);
    AsWhole(k, h * rate);
    AsWhole(k + 1, 3600 * cost);
    assert (h * rate) as real == h as real * rate as real;
  }

  lemma AsWhole(k: nat, n: nat)
    ensures (k as real * k as real) * n as real == (k * k * n) as real
  {
    assert (k * k) as real == k as real * k as real;
  }

  lemma HoursShare(cost: nat, rate: nat, prec: Precision)
    requires cost > 0 && rate > 0
    ensures Share(Parts(prec), Value(Quotient(cost, rate, 0, prec)), rate, cost as real)
  {
    QuotientShare(cost, rate, 0, prec);
    assert cost as real * Ten(0) == cost as real;
  }

  lemma SecondsShare(hours: Amount, prec: Precision) returns (y: real)
    requires hours.coef > 0
    ensures Share(Parts(prec), Value(Quotient(hours.coef * 3600, 1, hours.exp, prec)), 1, y)
    ensures y == 3600.0 * Value(hours)
  {
    y := (hours.coef * 3600) as real * Ten(hours.exp);
    QuotientShare(hours.coef * 3600, 1, hours.exp, prec);
    Hourly(hours.coef, Ten(hours.exp));
  }

  lemma Hourly(n: nat, t: real)
    ensures (n * 3600) as real * t == 3600.0 * (n as real * t)
  {
  }

  lemma ShareOfOne(k: nat, x: real, y: real, h: nat)
    requires Share(k, x, 1, y) && h as real <= x
    ensures k as real * h as real <= (k + 1) as real * y
  {
    ShareBounds(k, x, 1, y, h);
    assert h as real * 1 as real == h as real;
  }

  /** What is rounded on the way from a cost to seconds: hours `v`, then seconds `s`, whose whole part is planned. */
  lemma TwoShares(cost: nat, rate: nat, prec: Precision) returns (v: real, y: real, s: real)
    requires cost > 0 && rate > 0
    ensures Share(Parts(prec), v, rate, cost as real) && Share(Parts(prec), s, 1, y) && y == 3600.0 * v
    ensures PlannedSeconds(cost, rate, prec) as real <= s
  {
    var hours := Quotient(cost, rate, 0, prec);
    QuotientPositive(cost, rate, 0, prec);
    HoursShare(cost, rate, prec);
    y := SecondsShare(hours, prec);
    v, s := Value(hours), Value(Quotient(hours.coef * 3600, 1, hours.exp, prec));
  }

  /** Two shares in a row. */
  lemma TwoSharesBound(k: nat, v: real, y: real, s: real, rate: nat, cost: nat, h: nat)
    requires Share(k, v, rate, cost as real) && Share(k, s, 1, y) && y == 3600.0 * v && h as real <= s
    ensures k * k * (h * rate) <= (k + 1) * (k + 1) * (3600 * cost)
  {
    ShareOfOne(k, s, y, h);
    SharesCompose(k, v, rate, cost, h);
  }

  /** The planned lifetime at the planned rate never exceeds the cap by more than the two roundings can add. */
  lemma PlannedNearlyFits(cost: nat, rate: nat, prec: Precision)
    requires cost > 0 && rate > 0
    ensures var k := Parts(prec);
      k * k * (PlannedSeconds(cost, rate, prec) * rate) <= (k + 1) * (k + 1) * (3600 * cost)
  {
    var v, y, s := TwoShares(cost, rate, prec);
    TwoSharesBound(Parts(prec), v, y, s, rate, cost, PlannedSeconds(cost, rate, prec));
  }

  // ---- and how little it can be ----

  lemma RoundedDown(a: nat, b: nat)
    requires b > 0
    ensures 2 * a <= 2 * (RoundHalfEven(a, b) * b) + b
  {
    var q, r := a / b, a % b;
    assert a == q * b + r;
    assert (q + 1) * b == q * b + b;
  }

  /** `n` units of `b` fall short of `a` by at most one part in `k`. */
  predicate UnitsRetain(k: nat, n: nat, b: nat, a: nat) {
    (k - 1) * a <= k * (n * b)
  }

  /** Rounding a quotient of full precision takes away at most its share. */
  lemma RoundedRetains(a: nat, b: nat, prec: Precision)
    requires b > 0 && a >= b * Pow10(prec - 1)
    ensures UnitsRetain(Parts(prec), RoundHalfEven(a, b), b, a)
  {
    var p, n := Pow10(prec - 1), RoundHalfEven(a, b) * b;
    PartsOf(prec);
    RoundedDown(a, b);
    Scaled(2 * a, 2 * n + b, p);
    TakenAway(p, n, a, b);
  }

  lemma TakenAway(p: nat, n: nat, a: nat, b: nat)
    ensures (2 * p) * n == p * (2 * n)
    ensures (2 * p - 1) * a == p * (2 * a) - a
    ensures p * (2 * n + b) == p * (2 * n) + b * p
  {
  }

  /** `x` falls short of `y / b` by at most one part in `k`. */
  predicate Retains(k: nat, x: real, b: nat, y: real) {
    (k - 1) as real * y <= k as real * (x * b as real)
  }

  lemma RetainsAtUnit(k: nat, x: Amount, b: nat, a: nat, t: real)
    requires UnitsRetain(k, x.coef, b, a) && t == Ten(x.exp)
    ensures Retains(k, Value(x), b, a as real * t)
  {
    RetainsTimes(k, x.coef, b, a, t);
  }

  lemma RetainsTimes(k: nat, n: nat, b: nat, a: nat, t: real)
    requires (k - 1) * a <= k * (n * b) && t > 0.0
    ensures Retains(k, n as real * t, b, a as real * t)
  {
    var x, y := (k * (n * b)) as real, ((k - 1) * a) as real;
    assert y * t <= x * t;
    assert x == k as real * (n as real * b as real);
    assert y == (k - 1) as real * a as real;
    assert k as real * (n as real * t * b as real) == x * t;
    assert (k - 1) as real * (a as real * t) == y * t;
  }

  lemma FilledUnits(a: nat, b: nat, exp: int, least: nat, prec: Precision)
    requires b > 0 && a >= least && least == b * Pow10(prec - 1) && a > 0
    ensures var x := Filled(a, b, exp, least);
      x.exp == exp && UnitsRetain(Parts(prec), x.coef, b, a)
  {
    RoundedRetains(a, b, prec);
  }

  lemma FilledRetainsNow(x: Amount, a: nat, b: nat, exp: int, prec: Precision)
    requires x.exp == exp && UnitsRetain(Parts(prec), x.coef, b, a)
    ensures Retains(Parts(prec), Value(x), b, a as real * Ten(exp))
  {
    RetainsAtUnit(Parts(prec), x, b, a, Ten(exp));
  }

  lemma FilledRetainsNext(a: nat, b: nat, exp: int, least: nat, prec: Precision)
    requires a > 0 && b > 0 && a < least
    requires Retains(Parts(prec), Value(Filled(10 * a, b, exp - 1, least)), b, (10 * a) as real * Ten(exp - 1))
    ensures Retains(Parts(prec), Value(Filled(a, b, exp, least)), b, a as real * Ten(exp))
  {
    SameTimesTen(a, exp);
  }

  lemma {:induction false} FilledRetains(a: nat, b: nat, exp: int, least: nat, prec: Precision)
    requires a > 0 && b > 0 && least == b * Pow10(prec - 1)
    ensures Retains(Parts(prec), Value(Filled(a, b, exp, least)), b, a as real * Ten(exp))
    decreases if least >= a then least - a else 0
  {
    if a < least {
      FilledRetains(10 * a, b, exp - 1, least, prec);
      FilledRetainsNext(a, b, exp, least, prec);
    } else {
      FilledUnits(a, b, exp, least, prec);
      FilledRetainsNow(Filled(a, b, exp, least), a, b, exp, prec);
    }
  }

  lemma RetainsOfTenth(k: nat, x: real, b: nat, y: real)
    requires Retains(k, x, 10 * b, 10.0 * y)
    ensures Retains(k, x, b, y)
  {
    var l, r := k as real * (x * b as real), (k - 1) as real * y;
    assert (10 * b) as real == 10.0 * b as real;
    assert k as real * (x * (10 * b) as real) == 10.0 * l;
    assert (k - 1) as real * (10.0 * y) == 10.0 * r;
  }

  lemma {:induction false} QuotientRetains(a: nat, b: nat, exp: int, prec: Precision)
    requires a > 0 && b > 0
    ensures Retains(Parts(prec), Value(Quotient(a, b, exp, prec)), b, a as real * Ten(exp))
    decreases if a >= b then a - b else 0
  {
    if a >= b * Pow10(prec) {
      PowersGrow(b, prec);
      QuotientRetains(a, 10 * b, exp + 1, prec);
      TimesTen(a, exp);
      RetainsOfTenth(Parts(prec), Value(Quotient(a, b, exp, prec)), b, a as real * Ten(exp));
    } else {
      FilledRetains(a, b, exp, b * Pow10(prec - 1), prec);
    }
  }

  lemma RetainsBounds(k: nat, x: real, y: real, h: nat)
    requires Retains(k, x, 1, y) && x <= h as real
    ensures (k - 1) as real * y <= k as real * h as real
  {
    assert x * 1 as real == x;
    assert k as real * x <= k as real * h as real;
  }

  /** `b (3600 v) <= a x` and `b c <= a (v r)` chained. */
  lemma ChainDown(a: real, b: real, x: real, v: real, r: real, c: real)
    requires b * (3600.0 * v) <= a * x && b * c <= a * (v * r)
    requires a >= 0.0 && b >= 0.0 && r >= 0.0
    ensures (b * b) * (3600.0 * c) <= (a * a) * (x * r)
  {
    Times(b * (3600.0 * v), a * x, a * r);
    Times(b * c, a * (v * r), b * 3600.0);
    LeftSide(a, x, r);
    Middle(a, b, v, r);
    Regroup(b, c, b * 3600.0);
    Regroup(b, b, 3600.0 * c);
    assert (b * c) * (b * 3600.0) == (b * b) * (3600.0 * c);
  }

  lemma RetainsCompose(k: nat, hours: real, rate: nat, cost: nat, h: nat)
    requires k > 0 && Retains(k, hours, rate, cost as real)
    requires (k - 1) as real * (3600.0 * hours) <= k as real * h as real
    ensures (k - 1) * (k - 1) * (3600 * cost) <= k * k * (h * rate)
  {
    ChainDown(k as real, (k - 1) as real, h as real, hours, rate as real, cost as real);
    AsWhole(k, h * rate);
    AsWhole(k - 1, 3600 * cost);
    assert (h * rate) as real == h as real * rate as real;
  }

  lemma HoursRetain(cost: nat, rate: nat, prec: Precision)
    requires cost > 0 && rate > 0
    ensures Retains(Parts(prec), Value(Quotient(cost, rate, 0, prec)), rate, cost as real)
  {
    QuotientRetains(cost, rate, 0, prec);
    assert cost as real * Ten(0) == cost as real;
  }

  lemma SecondsRetain(hours: Amount, prec: Precision) returns (y: real)
    requires hours.coef > 0
    ensures Retains(Parts(prec), Value(Quotient(hours.coef * 3600, 1, hours.exp, prec)), 1, y)
    ensures y == 3600.0 * Value(hours)
  {
    y := (hours.coef * 3600) as real * Ten(hours.exp);
    QuotientRetains(hours.coef * 3600, 1, hours.exp, prec);
    Hourly(hours.coef, Ten(hours.exp));
  }

  lemma TwoRetained(cost: nat, rate: nat, prec: Precision) returns (v: real, y: real, s: real)
    requires cost > 0 && rate > 0
    ensures Retains(Parts(prec), v, rate, cost as real) && Retains(Parts(prec), s, 1, y) && y == 3600.0 * v
    ensures s <= (PlannedSeconds(cost, rate, prec) + 1) as real
  {
    var hours := Quotient(cost, rate, 0, prec);
    QuotientPositive(cost, rate, 0, prec);
    HoursRetain(cost, rate, prec);
    y := SecondsRetain(hours, prec);
    v, s := Value(hours), Value(Quotient(hours.coef * 3600, 1, hours.exp, prec));
  }

  lemma TwoRetainedBound(k: nat, v: real, y: real, s: real, rate: nat, cost: nat, h: nat)
    requires k > 0 && Retains(k, v, rate, cost as real) && Retains(k, s, 1, y) && y == 3600.0 * v && s <= h as real
    ensures (k - 1) * (k - 1) * (3600 * cost) <= k * k * (h * rate)
  {
    RetainsBounds(k, s, y, h);
    RetainsCompose(k, v, rate, cost, h);
  }

  /** One second more at the planned rate uses the cap up, but for what the two roundings can take away. */
  lemma PlannedNearlyUses(cost: nat, rate: nat, prec: Precision)
    requires cost > 0 && rate > 0
    ensures var k := Parts(prec);
      (k - 1) * (k - 1) * (3600 * cost) <= k * k * ((PlannedSeconds(cost, rate, prec) + 1) * rate)
  {
    var v, y, s := TwoRetained(cost, rate, prec);
    TwoRetainedBound(Parts(prec), v, y, s, rate, cost, PlannedSeconds(cost, rate, prec) + 1);
  }

  /** An amount small enough that no rounding can reach the next whole second. */
  predicate WithinContext(cost: nat, prec: Precision) {
    (2 * Parts(prec) + 1) * (3600 * cost) < Parts(prec) * Parts(prec)
  }

  lemma Cancel(k: nat, x: int, y: int)
    requires k * x < k * y
    ensures x < y
  {
    if x >= y {
      Scaled(y, x, k);
    }
  }

  lemma WithoutSlack(k: nat, spent: int, cap: int)
    requires k * k * spent <= (k + 1) * (k + 1) * cap && (2 * k + 1) * cap < k * k
    ensures spent <= cap
  {
    assert (k + 1) * (k + 1) * cap == k * k * cap + (2 * k + 1) * cap;
    assert k * k * (cap + 1) == k * k * cap + k * k;
    Cancel(k * k, spent, cap + 1);
  }

  /** Five digits less than the precision are few enough. */
  lemma ShortIsWithin(cost: nat, prec: Precision)
    requires prec > 5 && |Digits(cost)| <= prec - 5
    ensures WithinContext(cost, prec)
  {
    var t := Pow10(prec - 5);
    DigitsBound(cost, prec - 5);
    PartsOf(prec);
    assert Pow10(prec - 4) == 10 * t && Pow10(prec - 3) == 100 * t;
    assert Pow10(prec - 2) == 1000 * t && Pow10(prec - 1) == 10000 * t;
    FewEnough(cost, t);
  }

  lemma FewEnough(cost: nat, t: nat)
    requires cost < t
    ensures (2 * (20000 * t) + 1) * (3600 * cost) < (20000 * t) * (20000 * t)
  {
    Scaled(3600 * cost, 3600 * t, 40000 * t + 1);
    Scaled(1, t, t);
    assert (40000 * t + 1) * (3600 * t) == 144000000 * (t * t) + 3600 * t;
  }

  /** Below that size the planned lifetime at the planned rate costs at most the cap, whatever is rounded. */
  lemma PlannedFits(cost: nat, rate: nat, prec: Precision)
    requires cost > 0 && rate > 0 && WithinContext(cost, prec)
    ensures PlannedSeconds(cost, rate, prec) * rate <= 3600 * cost
  {
    PlannedNearlyFits(cost, rate, prec);
    WithoutSlack(Parts(prec), PlannedSeconds(cost, rate, prec) * rate, 3600 * cost);
  }

  // ---- an amount that is too long ----

  lemma {:induction false} FilledAfter(a: nat, b: nat, exp: int, least: nat, k: nat)
    requires a > 0 && b > 0 && (k > 0 ==> a * Pow10(k - 1) < least)
    ensures a * Pow10(k) > 0 && Filled(a, b, exp, least) == Filled(a * Pow10(k), b, exp - k, least)
    decreases k
  {
    if k > 0 {
      Scaled(1, Pow10(k - 1), a);
      if k > 1 {
        Associate(a, 10, Pow10(k - 2));
      }
      FilledAfter(10 * a, b, exp - 1, least, k - 1);
      Associate(a, 10, Pow10(k - 1));
    }
  }

  /** A quotient just below one is rounded to one. */
  lemma AlmostOne(prec: Precision)
    ensures var m := Pow10(prec + 1);
      m > 1 && Quotient(m - 1, m, 0, prec) == Amount(Pow10(prec), -(prec as int))
  {
    var m, p, t := Pow10(prec + 1), Pow10(prec), Pow10(prec - 1);
    assert m == 10 * p && p == 10 * t;
    Scaled(1, p, m);
    BelowOne(m, t);
    FilledAfter(m - 1, m, 0, m * t, prec);
    NearlyWhole(m, p, t);
  }

  lemma BelowOne(m: nat, t: nat)
    requires m > 1 && t > 0
    ensures (m - 1) * t < m * t
  {
  }

  lemma NearlyWhole(m: nat, p: nat, t: nat)
    requires t > 0 && p == 10 * t && m == 10 * p
    ensures (m - 1) * p >= m * t && RoundHalfEven((m - 1) * p, m) == p
  {
    var a := (m - 1) * p;
    assert a == (p - 1) * m + (m - p);
    assert m * t <= (m - 1) * p by {
      assert (m - 1) * p == m * p - p && m * p == 10 * (m * t);
    }
    Divided(a, m, p - 1, m - p);
  }

  lemma Divided(a: nat, b: nat, q: nat, r: nat)
    requires b > 0 && a == q * b + r && r < b
    ensures a / b == q && a % b == r
  {
    var d := a / b - q;
    assert a == (a / b) * b + a % b;
    assert d * b == r - a % b;
    if d > 0 {
      Scaled(1, d, b);
    } else if d < 0 {
      Scaled(d, -1, b);
    }
  }

  lemma {:induction false} TenInverse(n: nat)
    ensures Pow10(n) as real * Ten(-(n as int)) == 1.0
  {
    if n > 0 {
      TenInverse(n - 1);
      TenSteps(-(n as int) + 1);
      var p, t := Pow10(n - 1), Ten(-(n as int));
      assert Ten(-((n - 1) as int)) == 10.0 * t;
      assert (10 * p) as real * t == p as real * (10.0 * t);
    }
  }

  lemma StepUp(a: nat, b: nat, exp: int, prec: Precision, u: nat)
    requires a > 0 && b > 0 && Pow10(prec) == u && a >= b * u
    ensures Quotient(a, b, exp, prec) == Quotient(a, 10 * b, exp + 1, prec)
  {
  }

  lemma LastStep(a: nat, b: nat, exp: int, prec: Precision, q: nat)
    requires b > 0 && a == q * b && b * Pow10(prec - 1) <= a < b * Pow10(prec)
    ensures a > 0 && Quotient(a, b, exp, prec) == Amount(q, exp)
  {
    Scaled(1, Pow10(prec - 1), b);
    Divided(a, b, q, 0);
  }

  lemma HourQuotient(prec: Precision, u: nat)
    requires prec >= 4 && u == Pow10(prec - 4)
    ensures Quotient(3600 * Pow10(prec), 1, -(prec as int), prec) == Amount(3600 * u, 4 - prec)
  {
    var a, e := 3600 * Pow10(prec), -(prec as int);
    assert Pow10(prec - 3) == 10 * u && Pow10(prec - 2) == 100 * u;
    assert Pow10(prec - 1) == 1000 * u && Pow10(prec) == 10000 * u;
    StepUp(a, 1, e, prec, 10000 * u);
    StepUp(a, 10, e + 1, prec, 10000 * u);
    StepUp(a, 100, e + 2, prec, 10000 * u);
    StepUp(a, 1000, e + 3, prec, 10000 * u);
    LastStep(a, 10000, e + 4, prec, 3600 * u);
  }

  /** One hour, as the context multiplies it. */
  lemma AnHour(prec: Precision)
    requires prec >= 4
    ensures Value(Quotient(3600 * Pow10(prec), 1, -(prec as int), prec)) == 3600.0
  {
    var n := prec - 4;
    HourQuotient(prec, Pow10(n));
    TenInverse(n);
    Hourly(Pow10(n), Ten(-(n as int)));
  }

  /**
    Beyond that size it can cost more: a cap of 0.99...9 at a rate of 1.00...0,
    one digit longer than the precision, is planned for a whole hour.
   */
  lemma RoundingOverspends(prec: Precision)
    requires prec >= 4
    ensures var rate := Pow10(prec + 1);
      && rate > 1 && PlannedSeconds(rate - 1, rate, prec) == 3600
      && PlannedSeconds(rate - 1, rate, prec) * rate > 3600 * (rate - 1)
  {
    AlmostOne(prec);
    AnHour(prec);
    assert Pow10(prec) * 3600 == 3600 * Pow10(prec);
  }
}
