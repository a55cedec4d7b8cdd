/**
  The clock clause of the provider contract is exact: with a controller clock
  that may be ahead of the provider's by more than the absence grace, there is
  a run that keeps every other clause and closes while a pod is alive.
 */
module ClockLead {
  import opened Prelude
  import opened LifecycleState
  import opened LifecycleRuns
  import opened LifecycleSafety
  import opened ClosedMeansGone

  const RUN: RunId := "r"
  const POD: PodId := "p"
  const DEADLINE: Time := 1_000_000_000

  function TheRequest(): Request {
    Request(RUN, 1, Spec(At("deadline", DEADLINE), None))
  }

  /** Replies in which every lookup misses and nothing costs anything. */
  function Blind(now: Time): Replies {
    Replies(now, Found([]), CreateUnknown(""), Absent, StartUnknown(""), DeleteUnknown(""), Spend(0))
  }

  function Waiting(time: Time): Pods { Pods({}, {}, true, time) }

  // ---- the durable states of the run, in order ----

  function Intended(): RunState {
    InitialState(TheRequest()).(provision := Some(NewOperation(RUN, Provision)), lifecycle := Provisioning)
  }

  function Sent(): RunState {
    Intended().(provision :=
      Some(NewOperation(RUN, Provision).(attempts := 1, status := Dispatched, dispatchedAt := Some(0))))
  }

  function Lost(): RunState {
    Sent().(provision := Some(Sent().provision.value.(status := OutcomeUnknown, lastError := Some(""))))
  }

  function Stopped(): RunState {
    Lost().(result := Some(Cancelled),
            closeout := Lost().closeout.(disposition := Some(Disposition(Unavailable, ""))),
            delete := Some(NewOperation(RUN, Delete)),
            lifecycle := Deleting)
  }

  function Opened(): RunState {
    Stopped().(closeout := Stopped().closeout.(absenceFirstAt := Some(DEADLINE)))
  }

  function Confirmed(): RunState {
    Opened().(closeout := Opened().closeout.(
      absenceConfirmed := true,
      resolution := Some(Resolution(OpId(RUN, Provision), "deadline", DEADLINE, DEADLINE + ABSENCE_GRACE))))
  }

  function NothingToDelete(): RunState {
    Confirmed().(closeout := Confirmed().closeout.(deleteAcknowledged := true, deleteAlreadyAbsent := true),
                 delete := Some(NewOperation(RUN, Delete).(status := NotRequired)))
  }

  function NotFound(): RunState {
    NothingToDelete().(closeout := NothingToDelete().closeout.(providerNotFound := true))
  }

  function Finished(): RunState {
    NotFound().(closeout := NotFound().closeout.(spend := Some(0), scope := Some(AccountScope)), lifecycle := Closed)
  }

  // ---- the run ----

  /** A run so far, and the world it leads to. */
  datatype Trace = Trace(steps: seq<Step>, world: World)

  function Start(): World { PlannedRun(TheRequest(), VISIBILITY_GRACE, 0) }

  ghost predicate TraceOk(t: Trace, lead: Time) {
    t.world == Run(Start(), t.steps) && HonestRun(Start(), t.steps, lead)
  }

  /** The contract was kept, nothing is in flight, and these are the state and the pods. */
  ghost predicate Rests(t: Trace, lead: Time, st: RunState, pods: Pods) {
    && TraceOk(t, lead)
    && IsWorld(t.world, [], st, pods)
  }

  predicate IsWorld(w: World, flight: seq<Action>, st: RunState, pods: Pods) {
    && w.journal != [] && w.flight == flight && w.req == TheRequest() && w.grace == VISIBILITY_GRACE
    && Current(w) == st && w.pods == pods
  }

  lemma Extend(t: Trace, step: Step, lead: Time) returns (n: Trace)
    requires TraceOk(t, lead) && Honest(t.world, step, lead)
    ensures TraceOk(n, lead) && n.world == Next(t.world, step)
  {
    n := Trace(t.steps + [step], Next(t.world, step));
    assert n.steps[..|n.steps| - 1] == t.steps;
  }

  /** What one call with a single commit does, the provider unchanged. */
  lemma CallCommits(w: World, step: Step, st: RunState, pods: Pods, kind: EventKind, s: RunState)
    requires IsWorld(w, [], st, pods) && (step.Reconcile? || step.RequestStop?)
    requires CallScript(w, step) == Done(kind, s)
    ensures Next(w, step) == w.(flight := [Commit(kind, s)])
    ensures IsWorld(Next(Next(w, step), Perform(pods)), [], s, pods)
  {
  }

  lemma Advance(t: Trace, lead: Time, st: RunState, pods: Pods, step: Step, kind: EventKind, s: RunState)
    returns (n: Trace)
    requires Rests(t, lead, st, pods) && (step.Reconcile? || step.RequestStop?)
    requires Honest(t.world, step, lead) && CallScript(t.world, step) == Done(kind, s)
    ensures Rests(n, lead, s, pods)
  {
    CallCommits(t.world, step, st, pods, kind, s);
    n := Extend(t, step, lead);
    n := Extend(n, Perform(pods), lead);
  }

  lemma DriftTo(t: Trace, lead: Time, st: RunState, pods: Pods, q: Pods) returns (n: Trace)
    requires Rests(t, lead, st, pods) && Evolves(TheRequest(), pods, q)
    ensures Rests(n, lead, st, q)
  {
    n := Extend(t, Drift(q), lead);
  }

  lemma Intend(lead: Time) returns (n: Trace)
    requires lead >= 0
    ensures Rests(n, lead, Intended(), Pods({}, {}, false, 0))
  {
    n := Advance(Trace([], Start()), lead, InitialState(TheRequest()), Pods({}, {}, false, 0),
                 Reconcile(Blind(0)), ProviderOperationIntended, Intended());
  }

  function LostActions(): seq<Action> {
    [Commit(ProviderOperationDispatched, Sent()),
     CallCreate(OpId(RUN, Provision), CreateUnknown("")),
     Commit(OutcomeUnknownRecorded, Lost())]
  }

  lemma BeginCreate(t: Trace, lead: Time) returns (n: Trace)
    requires lead >= 0 && Rests(t, lead, Intended(), Pods({}, {}, false, 0))
    ensures TraceOk(n, lead) && IsWorld(n.world, LostActions(), Intended(), Pods({}, {}, false, 0))
  {
    assert ReconcileScript(TheRequest(), VISIBILITY_GRACE, Intended(), Blind(0)).acts == LostActions();
    n := Extend(t, Reconcile(Blind(0)), lead);
  }

  /** The create is lost in transit: dispatched, outcome unknown, still pending at the provider. */
  lemma SendCreate(t: Trace, lead: Time) returns (n: Trace)
    requires TraceOk(t, lead) && IsWorld(t.world, LostActions(), Intended(), Pods({}, {}, false, 0))
    ensures TraceOk(n, lead) && IsWorld(n.world, LostActions()[1..], Sent(), Pods({}, {}, false, 0))
  {
    n := Extend(t, Perform(Pods({}, {}, false, 0)), lead);
  }

  lemma TakeCreate(t: Trace, lead: Time) returns (n: Trace)
    requires TraceOk(t, lead) && IsWorld(t.world, LostActions()[1..], Sent(), Pods({}, {}, false, 0))
    ensures TraceOk(n, lead) && IsWorld(n.world, LostActions()[2..], Sent(), Waiting(0))
  {
    assert LostActions()[1..][0] == CallCreate(OpId(RUN, Provision), CreateUnknown(""));
    assert LostActions()[1..][1..] == LostActions()[2..];
    n := Extend(t, Perform(Waiting(0)), lead);
  }

  lemma LoseCreate(t: Trace, lead: Time) returns (n: Trace)
    requires TraceOk(t, lead) && IsWorld(t.world, LostActions(), Intended(), Pods({}, {}, false, 0))
    ensures Rests(n, lead, Lost(), Waiting(0))
  {
    n := SendCreate(t, lead);
    n := TakeCreate(n, lead);
    assert LostActions()[2..] == [Commit(OutcomeUnknownRecorded, Lost())];
    n := Extend(n, Perform(Waiting(0)), lead);
  }

  lemma Stop(t: Trace, lead: Time) returns (n: Trace)
    requires Rests(t, lead, Lost(), Waiting(0))
    ensures Rests(n, lead, Stopped(), Waiting(0))
  {
    n := Advance(t, lead, Lost(), Waiting(0), RequestStop(""), StopRequested, Stopped());
  }

  lemma OpenWindow(t: Trace, lead: Time) returns (n: Trace)
    requires lead > ABSENCE_GRACE && Rests(t, lead, Stopped(), Waiting(DEADLINE - 1))
    ensures Rests(n, lead, Opened(), Waiting(DEADLINE - 1))
  {
    n := Advance(t, lead, Stopped(), Waiting(DEADLINE - 1), Reconcile(Blind(DEADLINE)), AbsenceObserved, Opened());
  }

  /** The window closes on the controller's clock before the provider has reached its deadline. */
  lemma ShutWindow(t: Trace, lead: Time) returns (n: Trace)
    requires lead > ABSENCE_GRACE && Rests(t, lead, Opened(), Waiting(DEADLINE - 1))
    ensures Rests(n, lead, Confirmed(), Waiting(DEADLINE - 1))
  {
    n := Advance(t, lead, Opened(), Waiting(DEADLINE - 1), Reconcile(Blind(DEADLINE + ABSENCE_GRACE)),
                 EventKind.AbsenceConfirmed, Confirmed());
  }

  function Born(): Pods { Pods({POD}, {POD}, false, DEADLINE - 1) }

  lemma FindNothingToDelete(t: Trace, lead: Time) returns (n: Trace)
    requires lead > ABSENCE_GRACE && Rests(t, lead, Confirmed(), Born())
    ensures Rests(n, lead, NothingToDelete(), Born())
  {
    n := Advance(t, lead, Confirmed(), Born(), Reconcile(Blind(DEADLINE)), DeleteAcknowledgedEvent, NothingToDelete());
  }

  lemma FindNothing(t: Trace, lead: Time) returns (n: Trace)
    requires lead > ABSENCE_GRACE && Rests(t, lead, NothingToDelete(), Born())
    ensures Rests(n, lead, NotFound(), Born())
  {
    n := Advance(t, lead, NothingToDelete(), Born(), Reconcile(Blind(DEADLINE)), ProviderAbsenceConfirmed, NotFound());
  }

  lemma Close(t: Trace, lead: Time) returns (n: Trace)
    requires lead > ABSENCE_GRACE && Rests(t, lead, NotFound(), Born())
    ensures Rests(n, lead, Finished(), Born())
  {
    n := Advance(t, lead, NotFound(), Born(), Reconcile(Blind(DEADLINE)), CloseoutCompleted, Finished());
  }

  lemma LeadBeyondGraceBreaks(lead: Time)
    requires lead > ABSENCE_GRACE
    ensures exists steps ::
      && HonestRun(Start(), steps, lead)
      && Current(Run(Start(), steps)).lifecycle == Closed
      && Run(Start(), steps).pods.live == {POD}
  {
    var t := Intend(lead);
    t := BeginCreate(t, lead);
    t := LoseCreate(t, lead);
    t := Stop(t, lead);
    t := DriftTo(t, lead, Stopped(), Waiting(0), Waiting(DEADLINE - 1));
    t := OpenWindow(t, lead);
    t := ShutWindow(t, lead);
    t := DriftTo(t, lead, Confirmed(), Waiting(DEADLINE - 1), Born());
    t := FindNothingToDelete(t, lead);
    t := FindNothing(t, lead);
    t := Close(t, lead);
  }

  /** With the other clauses of the contract fixed, the theorem holds exactly for leads within the grace. */
  lemma LeadIsExact(lead: Time)
    ensures lead <= ABSENCE_GRACE <==>
      forall req, grace, time, steps ::
        HonestRun(PlannedRun(req, grace, time), steps, lead) ==>
          var w := Run(PlannedRun(req, grace, time), steps);
          Current(w).lifecycle == Closed ==> Gone(req, w.pods)
  {
    if lead <= ABSENCE_GRACE {
      forall req, grace, time, steps | HonestRun(PlannedRun(req, grace, time), steps, lead) {
        ClosedIsGone(req, grace, time, steps, lead);
      }
    } else {
      LeadBeyondGraceBreaks(lead);
    }
  }
}
