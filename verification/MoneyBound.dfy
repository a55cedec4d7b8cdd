/**
  What a scope of runs can cost. Each run is metered over a whole run of its
  lifecycle under the provider contract of `ClosedMeansGone`: one pod at most,
  dead by `terminate_at`. The bound is in exact arithmetic; amounts are
  multiplied by the microseconds of an hour instead of divided.
 */
module MoneyBound {
  import opened Prelude
  import opened JsonNumbers
  import opened LifecycleState
  import opened LifecycleRuns
  import opened LifecycleSafety
  import opened ClosedMeansGone
  import opened MapSums
  import opened Budget
  import opened PlannedLifetime

  const MICROS_PER_HOUR: nat := 3600 * MICROS

  /** The provider's pods after each step of a run. */
  ghost function History(w: World, steps: seq<Step>): (h: seq<Pods>)
    requires w.journal != []
    ensures |h| == |steps| + 1 && h[0] == w.pods
  {
    if steps == [] then [w.pods] else History(w, steps[..|steps| - 1]) + [Run(w, steps).pods]
  }

  /** The provider's clock does not run backward. */
  predicate Timely(h: seq<Pods>) {
    forall i :: 0 < i < |h| ==> h[i - 1].time <= h[i].time
  }

  function Later(a: Time, b: Time): Time {
    if a < b then b else a
  }

  function Earlier(a: Time, b: Time): Time {
    if a < b then a else b
  }

  /** How long a pod may have been alive between two moments: all the time if one is, until the deadline if one was. */
  function MeteredBetween(p: Pods, q: Pods, deadline: Time): Time {
    if q.live != {} then q.time - p.time
    else if p.live != {} || q.created != p.created then Later(0, Earlier(q.time, deadline) - p.time)
    else 0
  }

  function Metered(h: seq<Pods>, deadline: Time): Time {
    if |h| <= 1 then 0
    else Metered(h[..|h| - 1], deadline) + MeteredBetween(h[|h| - 2], h[|h| - 1], deadline)
  }

  /** What has been metered fits between the start and the deadline. */
  predicate MeterFits(metered: Time, start: Time, now: Time, deadline: Time) {
    start <= now && 0 <= metered <= Later(0, Earlier(now, deadline) - start)
  }

  lemma MeterStep(req: Request, start: Time, metered: Time, p: Pods, q: Pods, deadline: Time)
    requires TerminationDeadline(req).At? && TerminationDeadline(req).time == deadline
    requires PodsOk(req, q) && p.time <= q.time && MeterFits(metered, start, p.time, deadline)
    ensures MeterFits(metered + MeteredBetween(p, q, deadline), start, q.time, deadline)
  {
  }

  ghost predicate PodsStayOk(req: Request, h: seq<Pods>) {
    forall i :: 0 <= i < |h| ==> PodsOk(req, h[i])
  }

  /** The pods of a run stay within the contract. */
  lemma {:induction false} HistoryOk(w: World, steps: seq<Step>, lead: Time)
    requires w.journal != [] && HonestRun(w, steps, lead) && PodsOk(w.req, w.pods)
    ensures PodsStayOk(w.req, History(w, steps))
    ensures Run(w, steps).req == w.req && History(w, steps)[|steps|] == Run(w, steps).pods
  {
    if steps != [] {
      HistoryOk(w, steps[..|steps| - 1], lead);
      StepPodsOk(Run(w, steps[..|steps| - 1]), steps[|steps| - 1], lead);
    }
  }

  lemma StepPodsOk(w: World, step: Step, lead: Time)
    requires w.journal != [] && Honest(w, step, lead) && PodsOk(w.req, w.pods)
    ensures PodsOk(w.req, Next(w, step).pods) && Next(w, step).req == w.req
  {
    match step
    case Perform(q) =>
    case Drift(q) =>
    case Die =>
    case _ => assert Next(w, step) == Begin(w, CallScript(w, step));
  }

  /** From planning to any later moment, a run is metered for no longer than from planning to its deadline. */
  lemma {:induction false} MeterBounded(req: Request, h: seq<Pods>, deadline: Time)
    requires h != [] && PodsStayOk(req, h) && Timely(h)
    requires TerminationDeadline(req).At? && TerminationDeadline(req).time == deadline
    ensures MeterFits(Metered(h, deadline), h[0].time, h[|h| - 1].time, deadline)
  {
    if |h| > 1 {
      var before := h[..|h| - 1];
      MeterBounded(req, before, deadline);
      MeterStep(req, h[0].time, Metered(before, deadline), h[|h| - 2], h[|h| - 1], deadline);
    }
  }

  // ---- money ----

  /** The highest hourly rate among these pods. */
  ghost function Dearest(rates: PodId -> nat, pods: set<PodId>): (r: nat)
    ensures forall id :: id in pods ==> rates(id) <= r
    ensures r > 0 ==> exists id :: id in pods && rates(id) == r
  {
    if pods == {} then 0
    else
      var id :| id in pods;
      var rest := Dearest(rates, pods - {id});
      assert forall other :: other in pods ==> other == id || other in pods - {id};
      if rates(id) < rest then rest else rates(id)
  }

  ghost function Charge(p: Pods, q: Pods, deadline: Time, rates: PodId -> nat): Time {
    Dearest(rates, p.created + q.created) * MeteredBetween(p, q, deadline)
  }

  /** What the run is charged: metered time, at the rate of its pod. */
  ghost function Charged(h: seq<Pods>, deadline: Time, rates: PodId -> nat): Time {
    if |h| <= 1 then 0
    else Charged(h[..|h| - 1], deadline, rates) + Charge(h[|h| - 2], h[|h| - 1], deadline, rates)
  }

  /** Every pod that was ever created for the run has at most this rate. */
  ghost predicate RatedWithin(h: seq<Pods>, rates: PodId -> nat, maxRate: nat) {
    forall i, id :: 0 <= i < |h| && id in h[i].created ==> rates(id) <= maxRate
  }

  lemma ChargeStep(p: Pods, q: Pods, deadline: Time, rates: PodId -> nat, maxRate: nat)
    requires p.time <= q.time
    requires forall id :: id in p.created || id in q.created ==> rates(id) <= maxRate
    ensures 0 <= Charge(p, q, deadline, rates) <= maxRate * MeteredBetween(p, q, deadline)
  {
    Bounds(Dearest(rates, p.created + q.created), maxRate, MeteredBetween(p, q, deadline),
      MeteredBetween(p, q, deadline));
  }

  lemma SumsWithin(charged: int, metered: int, charge: int, meter: int, maxRate: nat)
    requires 0 <= charged <= maxRate * metered && 0 <= charge <= maxRate * meter
    ensures 0 <= charged + charge <= maxRate * (metered + meter)
  {
  }

  lemma {:induction false} ChargedWithin(h: seq<Pods>, deadline: Time, rates: PodId -> nat, maxRate: nat)
    requires Timely(h) && RatedWithin(h, rates, maxRate)
    ensures 0 <= Charged(h, deadline, rates) <= maxRate * Metered(h, deadline)
  {
    if |h| > 1 {
      var before, p, q := h[..|h| - 1], h[|h| - 2], h[|h| - 1];
      var metered, meter := Metered(before, deadline), MeteredBetween(p, q, deadline);
      assert Metered(h, deadline) == metered + meter;
      ChargedWithin(before, deadline, rates, maxRate);
      ChargeStep(p, q, deadline, rates, maxRate);
      SumsWithin(Charged(before, deadline, rates), metered, Charge(p, q, deadline, rates), meter, maxRate);
    }
  }

  /** A planned run, everything that then happened to it, and what each pod costs an hour. */
  datatype Billed = Billed(plan: Plan, req: Request, grace: Time, steps: seq<Step>, lead: Time, rates: PodId -> nat)

  function Start(b: Billed): World {
    PlannedRun(b.req, b.grace, b.plan.plannedAt)
  }

  ghost function Seen(b: Billed): (h: seq<Pods>)
    ensures h != []
  {
    History(Start(b), b.steps)
  }

  ghost function Cost(b: Billed): Time {
    Charged(Seen(b), b.plan.terminateAt, b.rates)
  }

  /**
    The run was requested with the plan's deadline, the provider kept its contract,
    and no pod it made exceeds the planned rate.
   */
  ghost predicate Admitted(b: Billed) {
    && TerminationDeadline(b.req).At? && TerminationDeadline(b.req).time == b.plan.terminateAt
    && HonestRun(Start(b), b.steps, b.lead) && Timely(Seen(b)) && RatedWithin(Seen(b), b.rates, b.plan.maxRate)
  }

  lemma PlanBoundsCost(p: Plan, metered: Time)
    requires Affordable(p) && 0 <= metered <= Later(0, p.terminateAt - p.plannedAt)
    ensures 0 <= p.maxRate * metered <= p.cap * MICROS_PER_HOUR
  {
    var allowed := Later(0, p.terminateAt - p.plannedAt);
    Bounds(p.maxRate, p.maxRate, metered, allowed);
    if allowed > 0 {
      assert p.cap * 3600 * MICROS == p.cap * MICROS_PER_HOUR;
    }
  }

  /**
    One run, over every interleaving, crash and stop, makes at most one create and
    costs at most its cap, which the approval covers.
   */
  lemma RunCostsAtMostCap(b: Billed)
    requires Affordable(b.plan) && Admitted(b)
    ensures 0 <= Cost(b) <= b.plan.cap * MICROS_PER_HOUR
    ensures b.plan.cap <= b.plan.approved
    ensures |Run(Start(b), b.steps).creates| <= 1
  {
    HistoryOk(Start(b), b.steps, b.lead);
    MeterBounded(b.req, Seen(b), b.plan.terminateAt);
    ChargedWithin(Seen(b), b.plan.terminateAt, b.rates, b.plan.maxRate);
    PlanBoundsCost(b.plan, Metered(Seen(b), b.plan.terminateAt));
    AtMostOneCreate(b.req, b.grace, b.plan.plannedAt, b.steps);
  }

  lemma Bounds(a: nat, b: nat, x: int, y: int)
    requires a <= b && 0 <= x <= y
    ensures 0 <= a * x <= b * y
  {
    assert a * x <= a * y;
    assert a * y <= b * y;
  }

  ghost function CostOf(b: Billed): (cost: nat)
    requires Affordable(b.plan) && Admitted(b)
    ensures cost <= b.plan.cap * MICROS_PER_HOUR
  {
    RunCostsAtMostCap(b);
    Cost(b)
  }

  ghost function Costs(runs: map<string, Billed>): map<string, nat>
    requires forall run :: run in runs ==> Affordable(runs[run].plan) && Admitted(runs[run])
  {
    map run | run in runs :: CostOf(runs[run])
  }

  function Scaled(m: map<string, nat>, factor: nat): map<string, nat> {
    map k | k in m :: m[k] * factor
  }

  lemma {:induction false} TotalScaled(m: map<string, nat>, factor: nat)
    ensures Total(Scaled(m, factor)) == Total(m) * factor
    decreases |m|
  {
    if m != map[] {
      var k :| k in m;
      var v, sum := m[k], Total(m - {k});
      TotalScaled(m - {k}, factor);
      TotalSplits(m, k);
      ScaledSplits(m, k, factor);
      ScaledSum(v, sum, factor, Total(m), Total(Scaled(m - {k}, factor)), Total(Scaled(m, factor)));
    } else {
      assert Scaled(m, factor) == map[];
    }
  }

  lemma ScaledSum(v: nat, sum: nat, factor: nat, total: nat, rest: nat, all: nat)
    requires total == v + sum && rest == sum * factor && all == v * factor + rest
    ensures all == total * factor
  {
    Distributes(v, sum, factor);
  }

  lemma ScaledSplits(m: map<string, nat>, k: string, factor: nat)
    requires k in m
    ensures Total(Scaled(m, factor)) == m[k] * factor + Total(Scaled(m - {k}, factor))
  {
    TotalSplits(Scaled(m, factor), k);
    assert Scaled(m, factor) - {k} == Scaled(m - {k}, factor);
  }

  lemma {:induction false} TotalBelow(costs: map<string, nat>, bounds: map<string, nat>)
    requires forall run :: run in costs ==> run in bounds && costs[run] <= bounds[run]
    ensures Total(costs) <= Total(bounds)
    decreases |costs|
  {
    if costs != map[] {
      var run :| run in costs;
      TotalSplits(costs, run);
      TotalSplits(bounds, run);
      TotalBelow(costs - {run}, bounds - {run});
    }
  }

  lemma Distributes(a: nat, b: nat, c: nat)
    ensures (a + b) * c == a * c + b * c
  {
  }

  /** Every run is affordable and was reserved in the ledger with its cap. */
  ghost predicate AllReserved(ledger: Ledger, runs: map<string, Billed>) {
    forall run :: run in runs ==>
      && Affordable(runs[run].plan) && Admitted(runs[run])
      && run in ledger.reservations && ledger.reservations[run] == runs[run].plan.cap
  }

  lemma CostsWithin(ledger: Ledger, runs: map<string, Billed>, run: string)
    requires AllReserved(ledger, runs) && run in runs
    ensures Costs(runs)[run] <= ledger.reservations[run] * MICROS_PER_HOUR
  {
  }

  lemma ScaledTotal(ledger: Ledger, factor: nat)
    requires LedgerOk(ledger)
    ensures Total(Scaled(ledger.reservations, factor)) <= ledger.total * factor
  {
    TotalScaled(ledger.reservations, factor);
    Scales(Total(ledger.reservations), ledger.total, factor);
  }

  lemma ReservedCostsAtMostTotal(ledger: Ledger, runs: map<string, Billed>)
    requires LedgerOk(ledger) && AllReserved(ledger, runs)
    ensures Total(Costs(runs)) <= ledger.total * MICROS_PER_HOUR
  {
    var costs, bounds := Costs(runs), Scaled(ledger.reservations, MICROS_PER_HOUR);
    forall run | run in costs
      ensures run in bounds && costs[run] <= bounds[run]
    {
      CostsWithin(ledger, runs, run);
    }
    TotalBelow(costs, bounds);
    ScaledTotal(ledger, MICROS_PER_HOUR);
  }

  /** These are runs that the job runner planned under the scope, each with what then happened to it. */
  ghost predicate PlannedUnder(planned: map<string, Plan>, scope: string, runs: map<string, Billed>) {
    forall run :: run in runs ==>
      run in planned && runs[run].plan == planned[run] && planned[run].scope == Some(scope) && Admitted(runs[run])
  }

  /** One reservation is at most the sum. */
  lemma ReservationBelowTotal(ledger: Ledger, run: string)
    requires LedgerOk(ledger) && run in ledger.reservations
    ensures ledger.reservations[run] <= ledger.total
  {
    TotalSplits(ledger.reservations, run);
  }

  lemma SmallerWithinContext(cap: nat, total: nat, prec: Precision)
    requires cap <= total && WithinContext(total, prec)
    ensures WithinContext(cap, prec)
  {
    Scales(3600 * cap, 3600 * total, 2 * Parts(prec) + 1);
  }

  /**
    Whatever runs a job runner ever planned under a scope, and whatever then
    happened to each of them: together they cost at most the scope's fixed total.
   */
  lemma ScopeCostsAtMostTotal(runner: JobRunner, scope: string, runs: map<string, Billed>)
    requires runner.Valid() && scope in runner.ledger.scopes && PlannedUnder(runner.planned, scope, runs)
    requires WithinContext(runner.ledger.scopes[scope].total, PRECISION)
    ensures forall run :: run in runs ==> Affordable(runs[run].plan)
    ensures Total(Costs(runs)) <= runner.ledger.scopes[scope].total * MICROS_PER_HOUR
  {
    var ledger := runner.ledger.scopes[scope];
    forall run | run in runs
      ensures Affordable(runs[run].plan)
      ensures run in ledger.reservations && ledger.reservations[run] == runs[run].plan.cap
    {
      assert Reserves(runner.ledger.scopes, run, runner.planned[run]) && Payable(runner.planned[run]);
      ReservationBelowTotal(ledger, run);
      SmallerWithinContext(runner.planned[run].cap, ledger.total, PRECISION);
    }
    ReservedCostsAtMostTotal(ledger, runs);
  }
}
