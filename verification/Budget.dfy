/**
  The ledger of aggregate spending authority and the admission of a paid run.
  Money is counted in whole units small enough to hold every amount exactly.
 */
module Budget {
  import opened Prelude
  import opened JsonNumbers
  import opened MapSums
  import opened PlannedLifetime

  datatype Ledger = Ledger(total: nat, reservations: map<string, nat>)

  datatype Refusal = UnsafeScope | NotPositive | TotalChanged | CapChanged | Exceeded | ScopeIncomplete | OverApproval
      | RunActive | RunExists

  datatype Reserved = Granted(reserved: nat, remaining: int) | Refused(why: Refusal) | Died

  predicate IsAlphanumeric(c: char) {
    'A' <= c <= 'Z' || 'a' <= c <= 'z' || '0' <= c <= '9'
  }

  predicate SafeScope(s: string) {
    && 0 < |s| <= 128
    && IsAlphanumeric(s[0])
    && forall i :: 0 < i < |s| ==> IsAlphanumeric(s[i]) || s[i] in "._-"
  }

  ghost predicate LedgerOk(l: Ledger) {
    && Total(l.reservations) <= l.total
    && forall run :: run in l.reservations ==> l.reservations[run] > 0
  }

  /** The total and every reservation of a scope stay what they were. */
  ghost predicate Keeps(before: map<string, Ledger>, after: map<string, Ledger>) {
    forall s :: s in before ==>
      && s in after && after[s].total == before[s].total
      && forall run :: run in before[s].reservations ==>
           run in after[s].reservations && after[s].reservations[run] == before[s].reservations[run]
  }

  method SumReservations(reservations: map<string, nat>) returns (sum: nat)
    ensures sum == Total(reservations)
  {
    sum := 0;
    var rest := reservations;
    while rest != map[]
      invariant sum + Total(rest) == Total(reservations)
      decreases |rest|
    {
      var run :| run in rest;
      TotalSplits(rest, run);
      sum, rest := sum + rest[run], rest - {run};
    }
  }

  class BudgetLedger {
    var scopes: map<string, Ledger>

    ghost predicate Valid()
      reads this
    {
      forall s :: s in scopes ==> LedgerOk(scopes[s])
    }

    constructor ()
      ensures Valid() && scopes == map[]
    {
      scopes := map[];
    }

    /**
      Reserves the full cap of a run. The only durable write is the atomic
      replacement of the scope's file, which `writes` says the process lives to
      do.
     */
    method Reserve(scope: string, total: int, run: string, cap: int, writes: bool) returns (r: Reserved)
      requires Valid()
      modifies this
      ensures Valid() && Keeps(old(scopes), scopes)
      ensures forall s :: s != scope ==>
        (s in scopes <==> s in old(scopes)) && (s in scopes ==> scopes[s] == old(scopes)[s])
      ensures r.Granted? ==>
        && scope in scopes && cap > 0 && total == scopes[scope].total
        && run in scopes[scope].reservations && scopes[scope].reservations[run] == cap
        && r.reserved == Total(scopes[scope].reservations) && r.remaining == total - r.reserved
      ensures !r.Granted? ==> scopes == old(scopes)
      ensures r == Refused(Exceeded) ==>
        (if scope in scopes then Total(scopes[scope].reservations) else 0) + cap > total
      ensures (SafeScope(scope) && total > 0 && cap > 0 && writes
               && scope in old(scopes) && total == old(scopes)[scope].total) ==>
        (r.Granted? <==>
           if run in old(scopes)[scope].reservations then old(scopes)[scope].reservations[run] == cap
           else Total(old(scopes)[scope].reservations) + cap <= total)
    {
      if !SafeScope(scope) {
        return Refused(UnsafeScope);
      }
      if total <= 0 || cap <= 0 {
        return Refused(NotPositive);
      }
      var state := if scope in scopes then scopes[scope] else Ledger(total, map[]);
      if state.total != total {
        return Refused(TotalChanged);
      }
      var reserved := SumReservations(state.reservations);
      if run in state.reservations {
        if state.reservations[run] != cap {
          return Refused(CapChanged);
        }
        return Granted(reserved, total - reserved);
      }
      if reserved + cap > total {
        return Refused(Exceeded);
      }
      if !writes {
        return Died;
      }
      TotalUpdates(state.reservations, run, cap);
      scopes := scopes[scope := state.(reservations := state.reservations[run := cap])];
      return Granted(reserved + cap, total - reserved - cap);
    }
  }

  // ---- admission of a run ----

  /** The caps of a checked bundle; the rate is in money units per hour. */
  datatype Bundle = Bundle(maxCost: nat, hourlyRate: nat, maxElapsedSeconds: nat)

  datatype Plan = Plan(cap: nat, approved: int, scope: Option<string>, maxRate: nat, plannedAt: nat, terminateAt: nat)

  datatype Admission = Planned | Denied(why: Refusal) | Interrupted

  const MICROS: nat := 1_000_000

  /** The run must end when either cap is used up at the admitted rate. */
  function HardSeconds(b: Bundle): nat
    requires b.hourlyRate > 0 && b.maxCost > 0
  {
    var byCost := PlannedSeconds(b.maxCost, b.hourlyRate, PRECISION);
    if b.maxElapsedSeconds < byCost then b.maxElapsedSeconds else byCost
  }

  /** `terminate_at` is written in whole seconds. */
  function TerminateAt(b: Bundle, now: nat): nat
    requires b.hourlyRate > 0 && b.maxCost > 0
  {
    (now + HardSeconds(b) * MICROS) / MICROS * MICROS
  }

  /** A plan can cost no more than its cap at any admitted rate while it may live. */
  predicate Affordable(p: Plan) {
    && p.cap <= p.approved
    && (p.terminateAt >= p.plannedAt ==> p.maxRate * (p.terminateAt - p.plannedAt) <= p.cap * 3600 * MICROS)
  }

  lemma HardSecondsFit(b: Bundle)
    requires b.hourlyRate > 0 && b.maxCost > 0 && WithinContext(b.maxCost, PRECISION)
    ensures b.hourlyRate * HardSeconds(b) <= b.maxCost * 3600
  {
    var byCost := PlannedSeconds(b.maxCost, b.hourlyRate, PRECISION);
    PlannedFits(b.maxCost, b.hourlyRate, PRECISION);
    Scales(HardSeconds(b), byCost, b.hourlyRate);
  }

  lemma FloorFits(a: nat, b: nat)
    requires b > 0
    ensures b * (a / b) <= a
  {
    assert a == b * (a / b) + a % b;
  }

  lemma Scales(a: nat, b: nat, c: nat)
    ensures a <= b ==> c * a <= c * b && a * c <= b * c
  {
  }

  /** Unless the cap has so many digits that a rounded quotient reaches the next second. */
  lemma PlanAffordable(b: Bundle, approved: int, scope: Option<string>, now: nat)
    requires b.hourlyRate > 0 && 0 < b.maxCost <= approved && WithinContext(b.maxCost, PRECISION)
    ensures Affordable(Plan(b.maxCost, approved, scope, b.hourlyRate, now, TerminateAt(b, now)))
  {
    HardSecondsFit(b);
    LifetimeFits(b.hourlyRate, b.maxCost, HardSeconds(b), now);
  }

  lemma LifetimeFits(rate: nat, cost: nat, seconds: nat, now: nat)
    requires rate * seconds <= cost * 3600
    ensures var until := (now + seconds * MICROS) / MICROS * MICROS;
      until >= now ==> rate * (until - now) <= cost * 3600 * MICROS
  {
    FloorFits(now + seconds * MICROS, MICROS);
    var lived := (now + seconds * MICROS) / MICROS * MICROS - now;
    if lived >= 0 {
      Scales(lived, seconds * MICROS, rate);
      assert rate * (seconds * MICROS) == (rate * seconds) * MICROS;
    }
  }

  /** The run ends before its elapsed cap, on a whole second. */
  predicate EndsInTime(b: Bundle, now: nat, until: nat) {
    until <= now + b.maxElapsedSeconds * MICROS && until % MICROS == 0
  }

  /**
    The run is not ended without need: a second later, to which it is cut, it
    would reach the elapsed cap; or two seconds later, one for each cut, it
    would use up the cost cap but for what two rounded results can take away.
   */
  predicate UsesCaps(b: Bundle, now: nat, until: nat) {
    until + MICROS > now + b.maxElapsedSeconds * MICROS || UsesCost(b, until + 2 * MICROS - now)
  }

  predicate UsesCost(b: Bundle, lived: int) {
    var k := Parts(PRECISION);
    (k - 1) * (k - 1) * (3600 * b.maxCost) * MICROS <= k * k * (b.hourlyRate * lived)
  }

  lemma Cut(now: nat, seconds: nat)
    ensures var until := (now + seconds * MICROS) / MICROS * MICROS;
      now + seconds * MICROS < until + MICROS && until <= now + seconds * MICROS && until % MICROS == 0
  {
  }

  lemma LongEnough(k: nat, cost: nat, rate: nat, seconds: nat, lived: int)
    requires (k - 1) * (k - 1) * (3600 * cost) <= k * k * ((seconds + 1) * rate) && (seconds + 1) * MICROS <= lived
    ensures (k - 1) * (k - 1) * (3600 * cost) * MICROS <= k * k * (rate * lived)
  {
    Scaled((k - 1) * (k - 1) * (3600 * cost), k * k * ((seconds + 1) * rate), MICROS);
    var n := (seconds + 1) * MICROS;
    assert k * k * ((seconds + 1) * rate) * MICROS == k * k * (rate * n);
    Scaled(n, lived, rate);
    Scaled(rate * n, rate * lived, k * k);
  }

  lemma TerminationFits(b: Bundle, now: nat)
    requires b.hourlyRate > 0 && b.maxCost > 0
    ensures EndsInTime(b, now, TerminateAt(b, now)) && UsesCaps(b, now, TerminateAt(b, now))
  {
    var seconds := HardSeconds(b);
    Cut(now, seconds);
    if seconds == PlannedSeconds(b.maxCost, b.hourlyRate, PRECISION) {
      CostUsed(b, TerminateAt(b, now) + 2 * MICROS - now);
    }
  }

  lemma CostUsed(b: Bundle, lived: int)
    requires b.hourlyRate > 0 && b.maxCost > 0
    requires (PlannedSeconds(b.maxCost, b.hourlyRate, PRECISION) + 1) * MICROS <= lived
    ensures UsesCost(b, lived)
  {
    PlannedNearlyUses(b.maxCost, b.hourlyRate, PRECISION);
    LongEnough(Parts(PRECISION), b.maxCost, b.hourlyRate, PlannedSeconds(b.maxCost, b.hourlyRate, PRECISION), lived);
  }

  /** What every durable plan satisfies: approved, and affordable unless its cap is too long to be divided safely. */
  predicate Payable(p: Plan) {
    && p.cap <= p.approved
    && (WithinContext(p.cap, PRECISION) ==> Affordable(p))
  }

  lemma PlanPayable(b: Bundle, approved: int, scope: Option<string>, now: nat)
    requires b.hourlyRate > 0 && 0 < b.maxCost <= approved
    ensures Payable(Plan(b.maxCost, approved, scope, b.hourlyRate, now, TerminateAt(b, now)))
  {
    if WithinContext(b.maxCost, PRECISION) {
      PlanAffordable(b, approved, scope, now);
    }
  }

  class JobRunner {
    const ledger: BudgetLedger
    var planned: map<string, Plan>
    // planned runs that are not closed
    var active: set<string>

    ghost predicate Valid()
      reads this, ledger
    {
      && ledger.Valid()
      && active <= planned.Keys && |active| <= 1
      && (forall run :: run in planned ==> Payable(planned[run]) && Reserves(ledger.scopes, run, planned[run]))
    }

    constructor (ledger: BudgetLedger)
      requires ledger.Valid()
      ensures Valid() && planned == map[] && this.ledger == ledger
    {
      this.ledger, planned, active := ledger, map[], {};
    }

    method Close(run: string)
      requires Valid()
      modifies this`active
      ensures Valid() && active == old(active) - {run}
    {
      assert old(active) - {run} <= old(active);
      CardinalityDrops(active, run);
      active := active - {run};
    }

    /**
      `run`: approval first, then one active run at a time, then the
      reservation, then the durable plan. Dying in between leaves at most a
      reservation without a plan.
     */
    method Run(b: Bundle, approved: int, scope: Option<string>, total: Option<int>, run: string, now: nat,
        writes: nat) returns (r: Admission)
      requires Valid() && b.hourlyRate > 0 && b.maxCost > 0
      modifies this, ledger
      ensures Valid() && Keeps(old(ledger.scopes), ledger.scopes)
      ensures r.Planned? ==>
        && old(active) == {} && run !in old(planned) && active == {run}
        && b.maxCost <= approved
        && planned == old(planned)[run := Plan(b.maxCost, approved, scope, b.hourlyRate, now, TerminateAt(b, now))]
      ensures r.Planned? ==> EndsInTime(b, now, planned[run].terminateAt) && UsesCaps(b, now, planned[run].terminateAt)
      ensures !r.Planned? ==> planned == old(planned) && active == old(active)
      ensures r.Denied? && r.why != RunExists ==> ledger.scopes == old(ledger.scopes)
      ensures approved > 0 && b.maxCost > approved ==> r == Denied(OverApproval)
      ensures 0 < b.maxCost <= approved && old(active) != {} ==> r == Denied(RunActive)
    {
      if approved <= 0 {
        return Denied(NotPositive);
      }
      if b.maxCost > approved {
        return Denied(OverApproval);
      }
      if active != {} {
        return Denied(RunActive);
      }
      if scope.Some? != total.Some? {
        return Denied(ScopeIncomplete);
      }
      if scope.Some? {
        var reserved := ledger.Reserve(scope.value, total.value, run, b.maxCost, writes > 0);
        KeepsReserves(old(ledger.scopes), ledger.scopes, planned);
        if reserved.Refused? {
          return Denied(reserved.why);
        }
        if reserved.Died? {
          return Interrupted;
        }
      }
      if run in planned {
        return Denied(RunExists);
      }
      if writes <= 1 {
        return Interrupted;
      }
      PlanPayable(b, approved, scope, now);
      TerminationFits(b, now);
      planned := planned[run := Plan(b.maxCost, approved, scope, b.hourlyRate, now, TerminateAt(b, now))];
      active := {run};
      return Planned;
    }
  }

  /** A run planned under a scope has its cap reserved there. */
  predicate Reserves(scopes: map<string, Ledger>, run: string, p: Plan) {
    p.scope.Some? ==>
      p.scope.value in scopes && run in scopes[p.scope.value].reservations
        && scopes[p.scope.value].reservations[run] == p.cap
  }

  lemma KeepsReserves(before: map<string, Ledger>, after: map<string, Ledger>, planned: map<string, Plan>)
    requires Keeps(before, after) && forall run :: run in planned ==> Reserves(before, run, planned[run])
    ensures forall run :: run in planned ==> Reserves(after, run, planned[run])
  {
  }

  lemma CardinalityDrops<T>(s: set<T>, x: T)
    ensures |s - {x}| <= |s|
  {
    if x in s {
      assert s == (s - {x}) + {x};
    } else {
      assert s - {x} == s;
    }
  }
}
