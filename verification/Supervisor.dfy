/**
  The supervisor loop that drives one run, as a process of small steps: read
  the state, act on that (possibly stale) reading, read again. Operator stops,
  the provider, and the death and restart of the supervisor interleave anywhere.
 */
module Supervisor {
  import opened Prelude
  import opened LifecycleState
  import opened LifecycleRuns
  import opened LifecycleSafety

  datatype Observation = Observation(result: WorkloadResult, disposition: Disposition)

  datatype Point =
    | Top
    | Saw(seen: RunState)
    | Executed(seen: RunState, observed: Observation)

  /**
    One call of the workload executor: the journal length then, and whether any
    process had already read `deleting`.
   */
  datatype Execution = Execution(at: nat, sawDeleting: bool)

  datatype Drive = Drive(
    world: World,
    point: Point,
    observation: Option<Observation>,
    sawDeleting: bool,
    returned: bool,
    executions: seq<Execution>)

  datatype DriveStep =
    | Read
    | Act(replies: Replies, observed: Observation, reason: string)
    | Record
    | OperatorStop(stopReason: string)
    | Internal(step: Step)
    | Restart

  function Launched(req: Request, grace: Time, time: Time): Drive {
    Drive(PlannedRun(req, grace, time), Top, None, false, false, [])
  }

  /** `_recovery_must_not_dispatch_workload` */
  predicate MustNotDispatch(st: RunState) {
    || st.result.None?
    || st.recoveryReason.Some?
    || (st.quarantined.Some? && st.quarantined.value != [])
  }

  function Execute(d: Drive, st: RunState, o: Observation): Drive {
    d.(point := Executed(st, o),
       observation := Some(o),
       executions := d.executions + [Execution(|d.world.journal|, d.sawDeleting)])
  }

  function ActOn(d: Drive, st: RunState, r: Replies, o: Observation, reason: string): Drive
    requires d.world.journal != []
  {
    match st.lifecycle
    case Closed => d.(point := Top, returned := true)
    case Running => Execute(d, st, o)
    case Recovering =>
      if MustNotDispatch(st) then d.(point := Top, world := Next(d.world, RequestStop(reason)))
      else if d.observation.None? then Execute(d, st, o)
      else d.(point := Top, world := Next(d.world, LifecycleRuns.RecordDisposition(d.observation.value.disposition)))
    case _ => d.(point := Top, world := Next(d.world, Reconcile(r)))
  }

  function RecordObserved(d: Drive): Drive
    requires d.world.journal != [] && d.point.Executed?
  {
    var o := d.point.observed;
    d.(point := Top,
       world := Next(d.world, if d.point.seen.lifecycle == Running then RecordResult(o.result)
                              else LifecycleRuns.RecordDisposition(o.disposition)))
  }

  function NextDrive(d: Drive, s: DriveStep): (n: Drive)
    requires d.world.journal != []
    ensures n.world.journal != []
  {
    match s
    case Read =>
      if d.point.Top? && !d.returned && d.world.flight == [] then
        var st := Current(d.world);
        d.(point := Saw(st), sawDeleting := d.sawDeleting || st.lifecycle == Deleting)
      else d
    case Act(r, o, reason) =>
      if d.point.Saw? && d.world.flight == [] then ActOn(d, d.point.seen, r, o, reason) else d
    case Record =>
      if d.point.Executed? && d.world.flight == [] then RecordObserved(d) else d
    case OperatorStop(reason) => d.(world := Next(d.world, RequestStop(reason)))
    case Internal(step) =>
      if step.Perform? || step.Die? || step.Drift? then d.(world := Next(d.world, step)) else d
    case Restart =>
      d.(world := Next(d.world, Die), point := Top, observation := None, returned := false)
  }

  function RunDrive(d: Drive, steps: seq<DriveStep>): (n: Drive)
    requires d.world.journal != []
    ensures n.world.journal != []
  {
    if steps == [] then d else NextDrive(RunDrive(d, steps[..|steps| - 1]), steps[|steps| - 1])
  }

  // ---- invariant ----

  predicate Ran(journal: seq<LifecycleRuns.Record>) {
    exists i :: 0 <= i < |journal| && journal[i].state.lifecycle == Running
  }

  /** A state this supervisor can commit: an ended workload has a result, and an unexplained recovery has run. */
  predicate Attended(st: RunState, ran: bool) {
    && (Rank(st.lifecycle) >= Rank(Recovering) ==> st.result.Some?)
    && (st.lifecycle == Recovering && !MustNotDispatch(st) ==> ran)
  }

  predicate FlightAttended(flight: seq<Action>, ran: bool) {
    forall i :: 0 <= i < |flight| && flight[i].Commit? ==> Attended(flight[i].state, ran)
  }

  predicate JournalAttended(journal: seq<LifecycleRuns.Record>) {
    && (forall i :: 0 <= i < |journal| ==> Attended(journal[i].state, Ran(journal)))
    && (forall i :: 0 < i < |journal| ==> Rank(journal[i - 1].state.lifecycle) <= Rank(journal[i].state.lifecycle))
  }

  predicate InJournal(st: RunState, journal: seq<LifecycleRuns.Record>) {
    exists i :: 0 <= i < |journal| && journal[i].state == st
  }

  /** The supervisor's memory is a past state of the journal, and it executes only from the right ones. */
  predicate PointOk(d: Drive) {
    && (!d.point.Top? ==>
          && InJournal(d.point.seen, d.world.journal)
          && (d.sawDeleting ==> Rank(d.point.seen.lifecycle) >= Rank(Deleting)))
    && (d.point.Executed? ==>
          || d.point.seen.lifecycle == Running
          || (d.point.seen.lifecycle == Recovering && !MustNotDispatch(d.point.seen)))
    && (d.sawDeleting ==> d.world.journal != [] && Rank(Current(d.world).lifecycle) >= Rank(Deleting))
    && (d.returned ==> d.world.journal != [] && Current(d.world).lifecycle == Closed)
  }

  predicate ExecutionsOk(d: Drive) {
    forall i :: 0 <= i < |d.executions| ==>
      && !d.executions[i].sawDeleting
      && d.executions[i].at <= |d.world.journal|
      && Ran(d.world.journal[..d.executions[i].at])
  }

  predicate DriveOk(d: Drive) {
    && WorldOk(d.world)
    && JournalAttended(d.world.journal)
    && FlightAttended(d.world.flight, Ran(d.world.journal))
    && PointOk(d)
    && ExecutionsOk(d)
  }

  // ---- scripts ----

  lemma ReconcileAttended(req: Request, grace: Time, st: RunState, r: Replies, ran: bool)
    requires StateOk(req, st) && Attended(st, ran)
    ensures FlightAttended(ReconcileScript(req, grace, st, r).acts, ran)
  {
    match st.lifecycle
    case Provisioning => ProvisionAttended(req, grace, st, r, ran);
    case Starting => StartAttended(req, st, r, ran);
    case Deleting => DeleteAttended(req, st, r, ran);
    case _ =>
  }

  lemma DispatchAttended(st: RunState, op: Operation, r: Replies, ran: bool)
    requires st.lifecycle == Provisioning
    ensures FlightAttended(Dispatch(st, op, r).acts, ran)
  {
    var sent := op.(attempts := op.attempts + 1, status := Dispatched, dispatchedAt := Some(r.now));
    var after := AfterCreate(st.(provision := Some(sent)), sent, r.create).acts;
    assert FlightAttended(after, ran);
    assert forall i :: 2 <= i < |Dispatch(st, op, r).acts| ==> Dispatch(st, op, r).acts[i] == after[i - 2];
  }

  lemma ProvisionAttended(req: Request, grace: Time, st: RunState, r: Replies, ran: bool)
    requires StateOk(req, st) && st.lifecycle == Provisioning
    ensures FlightAttended(ProvisionScript(req, grace, st, r).acts, ran)
  {
    var op := st.provision.value;
    match r.find
    case FindError =>
    case FindRejected(ids, message) => assert FlightAttended(Rejection(st, Provision, op, ids, message).acts, ran);
    case Found(views) =>
      if |views| > 1 {
        assert FlightAttended(QuarantineDuplicates(st, op, views).acts, ran);
      } else if |views| == 1 {
        assert FlightAttended(RecordProvisioned(st, op, views[0]).acts, ran);
      } else if op.status != Intended {
        assert FlightAttended(ObserveVisibility(st, op, grace, r.now).acts, ran);
      } else if !req.provider.Malformed? {
        DispatchAttended(st, op, r, ran);
      }
  }

  lemma StartCallAttended(st: RunState, view: PodView, r: Replies, ran: bool)
    requires st.lifecycle == Starting && st.resource.Some? && st.start.Some? && r.get == Got(view)
    ensures FlightAttended(StartScript(st, r).acts, ran)
  {
    var tried := st.start.value.(attempts := st.start.value.attempts + 1);
    var after := AfterStart(st.(resource := Some(Projected(view)), start := Some(tried)), tried, r.start).acts;
    assert FlightAttended(after, ran);
    assert view.state != PodRunning ==> StartScript(st, r).acts[1..] == after;
    assert view.state != PodRunning ==> forall i :: 0 < i < |StartScript(st, r).acts| ==>
      StartScript(st, r).acts[i] == after[i - 1];
  }

  lemma StartAttended(req: Request, st: RunState, r: Replies, ran: bool)
    requires StateOk(req, st) && st.lifecycle == Starting
    ensures FlightAttended(StartScript(st, r).acts, ran)
  {
    match r.get
    case GetRejected(ids, message) =>
      assert FlightAttended(Rejection(st, Start, st.start.value, ids, message).acts, ran);
    case Got(view) => StartCallAttended(st, view, r, ran);
    case _ =>
  }

  lemma DeleteAttended(req: Request, st: RunState, r: Replies, ran: bool)
    requires StateOk(req, st) && st.lifecycle == Deleting && Attended(st, ran)
    ensures FlightAttended(DeleteScript(req, st, r).acts, ran)
  {
    if AbsenceOpen(st) {
      AbsenceAttended(req, st, r, ran);
    } else if !st.closeout.deleteAcknowledged {
      PendingAttended(st, r, ran);
    } else if !st.closeout.providerNotFound {
      assert FlightAttended(ConfirmNotFound(st, r).acts, ran);
    } else {
      SpendAttended(req, st, r, ran);
    }
  }

  lemma AbsenceAttended(req: Request, st: RunState, r: Replies, ran: bool)
    requires st.lifecycle == Deleting && Attended(st, ran) && AbsenceOpen(st)
    ensures FlightAttended(AbsenceScript(req, st, st.provision.value, r).acts, ran)
  {
  }

  lemma PendingAttended(st: RunState, r: Replies, ran: bool)
    requires st.lifecycle == Deleting && st.delete.Some? && Attended(st, ran)
    ensures FlightAttended(DeletePending(st, st.delete.value, r).acts, ran)
  {
  }

  lemma SpendAttended(req: Request, st: RunState, r: Replies, ran: bool)
    requires st.lifecycle == Deleting && Attended(st, ran)
    ensures FlightAttended(SpendScript(req, st, r).acts, ran)
  {
  }

  lemma SeenKeeps(d: Drive)
    requires DriveOk(d) && !d.point.Top?
    ensures Keeps(d.point.seen, Current(d.world))
    ensures Rank(d.point.seen.lifecycle) <= Rank(Current(d.world).lifecycle)
  {
    var i :| 0 <= i < |d.world.journal| && d.world.journal[i].state == d.point.seen;
    EarlierKeeps(d.world.req, d.world.journal, i);
  }

  lemma EarlierKeeps(req: Request, journal: seq<LifecycleRuns.Record>, i: nat)
    requires i < |journal| && JournalOk(req, journal) && JournalAttended(journal)
    ensures var last := journal[|journal| - 1].state;
      Keeps(journal[i].state, last) && Rank(journal[i].state.lifecycle) <= Rank(last.lifecycle)
  {
    JournalKeeps(req, journal, i, |journal| - 1);
    RanksRise(journal, i, |journal| - 1);
  }

  lemma {:induction false} RanksRise(journal: seq<LifecycleRuns.Record>, i: nat, j: nat)
    requires JournalAttended(journal) && i <= j < |journal|
    ensures Rank(journal[i].state.lifecycle) <= Rank(journal[j].state.lifecycle)
    decreases j
  {
    if i < j {
      RanksRise(journal, i, j - 1);
    }
  }

  /** What the supervisor and the operator begin is attended. */
  lemma BegunAttended(d: Drive, step: Step)
    requires DriveOk(d) && d.world.flight == [] && Begins(d, step)
    ensures FlightAttended(CallScript(d.world, step).acts, Ran(d.world.journal))
  {
    var st := Current(d.world);
    if step.Reconcile? {
      ReconcileAttended(d.world.req, d.world.grace, st, step.replies, Ran(d.world.journal));
    }
  }

  predicate Begins(d: Drive, step: Step)
    requires d.world.journal != []
  {
    || step.Reconcile?
    || step.RequestStop?
    || (step.RecordResult? && Ran(d.world.journal))
    || (step.RecordDisposition? && Current(d.world).result.Some?)
  }

  /** Beginning a call changes only what is in flight. */
  lemma BeginWorld(w: World, step: Step)
    requires WorldOk(w) && (step.Reconcile? || step.RequestStop? || step.RecordResult? || step.RecordDisposition?)
    ensures var n := Next(w, step);
      && WorldOk(n) && n.journal == w.journal
      && n.flight == if w.flight == [] then CallScript(w, step).acts else w.flight
  {
    NextOk(w, step);
    assert Next(w, step) == Begin(w, CallScript(w, step));
  }

  lemma BeginDrive(d: Drive, step: Step)
    requires DriveOk(d) && Begins(d, step)
    ensures DriveOk(d.(world := Next(d.world, step)))
  {
    BeginWorld(d.world, step);
    if d.world.flight == [] {
      BegunAttended(d, step);
    }
    MemoryStays(d, Next(d.world, step));
  }

  lemma RanMonotone(a: seq<LifecycleRuns.Record>, b: seq<LifecycleRuns.Record>)
    requires a <= b && Ran(a)
    ensures Ran(b)
  {
    var i :| 0 <= i < |a| && a[i].state.lifecycle == Running;
    assert b[i] == a[i];
  }

  lemma JournalAttendedGrows(journal: seq<LifecycleRuns.Record>, record: LifecycleRuns.Record)
    requires journal != [] && JournalAttended(journal)
    requires Attended(record.state, Ran(journal))
    requires Follows(journal[|journal| - 1].state, record.state)
    ensures JournalAttended(journal + [record])
  {
    var n := journal + [record];
    if Ran(journal) {
      RanMonotone(journal, n);
    }
    var last := journal[|journal| - 1].state;
    assert Attended(last, Ran(journal));
    assert Rank(last.lifecycle) <= Rank(record.state.lifecycle);
    forall i | 0 <= i < |n|
      ensures Attended(n[i].state, Ran(n))
    {
      if i < |journal| {
        assert n[i] == journal[i];
      }
    }
  }

  /** The journal of the later world extends the earlier one; memory and executions stay valid. */
  lemma MemoryStays(d: Drive, w: World)
    requires PointOk(d) && ExecutionsOk(d) && d.world.journal != []
    requires d.world.journal <= w.journal && w.journal != []
    requires Rank(Current(d.world).lifecycle) <= Rank(Current(w).lifecycle)
    requires d.returned ==> Current(w).lifecycle == Closed
    ensures PointOk(d.(world := w)) && ExecutionsOk(d.(world := w))
  {
    if !d.point.Top? {
      var i :| 0 <= i < |d.world.journal| && d.world.journal[i].state == d.point.seen;
      assert w.journal[i] == d.world.journal[i];
    }
    forall i | 0 <= i < |d.executions|
      ensures d.executions[i].at <= |w.journal| && Ran(w.journal[..d.executions[i].at])
    {
      assert w.journal[..d.executions[i].at] == d.world.journal[..d.executions[i].at];
    }
  }

  /** A committed state joins the journal. */
  lemma CommitDrive(d: Drive, n: World)
    requires DriveOk(d) && d.world.flight != [] && d.world.flight[0].Commit?
    requires WorldOk(n)
    requires n.journal == d.world.journal + [LifecycleRuns.Record(d.world.flight[0].kind, d.world.flight[0].state)]
    requires n.flight == d.world.flight[1..]
    requires Follows(Current(d.world), d.world.flight[0].state)
    ensures DriveOk(d.(world := n))
  {
    var w := d.world;
    assert Attended(w.flight[0].state, Ran(w.journal));
    JournalAttendedGrows(w.journal, LifecycleRuns.Record(w.flight[0].kind, w.flight[0].state));
    RanksRise(n.journal, |w.journal| - 1, |w.journal|);
    assert FlightAttended(n.flight, Ran(w.journal)) by {
      assert forall i :: 0 <= i < |n.flight| ==> n.flight[i] == w.flight[i + 1];
    }
    FlightStaysAttended(n.flight, w.journal, n.journal);
    MemoryStays(d, n);
  }

  /** An effect leaves the journal as it is. */
  lemma EffectDrive(d: Drive, n: World)
    requires DriveOk(d) && d.world.flight != []
    requires WorldOk(n) && n.journal == d.world.journal
    requires n.flight == [] || n.flight == d.world.flight[1..]
    ensures DriveOk(d.(world := n))
  {
    assert forall i :: 0 <= i < |n.flight| ==> n.flight[i] == d.world.flight[i + 1];
    MemoryStays(d, n);
  }

  lemma PerformDrive(d: Drive, after: Pods)
    requires DriveOk(d) && d.world.flight != []
    ensures DriveOk(d.(world := PerformNext(d.world, after)))
  {
    PerformOk(d.world, after);
    if d.world.flight[0].Commit? {
      CommitDrive(d, PerformNext(d.world, after));
    } else {
      EffectDrive(d, PerformNext(d.world, after));
    }
  }

  lemma FlightStaysAttended(flight: seq<Action>, a: seq<LifecycleRuns.Record>, b: seq<LifecycleRuns.Record>)
    requires FlightAttended(flight, Ran(a)) && a <= b
    ensures FlightAttended(flight, Ran(b))
  {
    if Ran(a) {
      RanMonotone(a, b);
    }
  }

  lemma ExecuteDrive(d: Drive, o: Observation)
    requires DriveOk(d) && d.point.Saw?
    requires d.point.seen.lifecycle == Running
      || (d.point.seen.lifecycle == Recovering && !MustNotDispatch(d.point.seen))
    ensures DriveOk(Execute(d, d.point.seen, o))
  {
    var journal := d.world.journal;
    var i :| 0 <= i < |journal| && journal[i].state == d.point.seen;
    assert Attended(journal[i].state, Ran(journal));
    assert journal[..|journal|] == journal;
  }

  lemma ActDrive(d: Drive, r: Replies, o: Observation, reason: string)
    requires DriveOk(d) && d.point.Saw? && d.world.flight == []
    ensures DriveOk(ActOn(d, d.point.seen, r, o, reason))
  {
    var st := d.point.seen;
    SeenKeeps(d);
    var top := d.(point := Top);
    match st.lifecycle
    case Closed =>
    case Running => ExecuteDrive(d, o);
    case Recovering =>
      if MustNotDispatch(st) {
        BeginDrive(top, RequestStop(reason));
      } else if d.observation.None? {
        ExecuteDrive(d, o);
      } else {
        BeginDrive(top, LifecycleRuns.RecordDisposition(d.observation.value.disposition));
      }
    case _ => BeginDrive(top, Reconcile(r));
  }

  lemma RecordDrive(d: Drive)
    requires DriveOk(d) && d.point.Executed? && d.world.flight == []
    ensures DriveOk(RecordObserved(d))
  {
    SeenKeeps(d);
    var top, o := d.(point := Top), d.point.observed;
    if d.point.seen.lifecycle == Running {
      var i :| 0 <= i < |d.world.journal| && d.world.journal[i].state == d.point.seen;
      BeginDrive(top, RecordResult(o.result));
    } else {
      BeginDrive(top, LifecycleRuns.RecordDisposition(o.disposition));
    }
  }

  lemma ReadDrive(d: Drive)
    requires DriveOk(d) && d.point.Top? && !d.returned
    ensures DriveOk(NextDrive(d, Read))
  {
    assert d.world.journal[|d.world.journal| - 1].state == Current(d.world);
  }

  lemma InternalDrive(d: Drive, step: Step)
    requires DriveOk(d) && (step.Perform? || step.Die? || step.Drift?)
    ensures DriveOk(d.(world := Next(d.world, step)))
  {
    match step
    case Perform(after) => if d.world.flight != [] { PerformDrive(d, after); }
      else { assert Next(d.world, step) == d.world; }
    case Drift(pods) => DriftDrive(d, pods);
    case _ => DieDrive(d);
  }

  lemma DriftDrive(d: Drive, pods: Pods)
    requires DriveOk(d)
    ensures DriveOk(d.(world := d.world.(pods := pods)))
  {
    DriftOk(d.world, pods);
    MemoryStays(d, d.world.(pods := pods));
  }

  lemma DieDrive(d: Drive)
    requires DriveOk(d)
    ensures DriveOk(d.(world := d.world.(flight := [])))
  {
    DieOk(d.world);
    MemoryStays(d, d.world.(flight := []));
  }

  lemma RestartDrive(d: Drive)
    requires DriveOk(d)
    ensures DriveOk(d.(world := d.world.(flight := []), point := Top, observation := None, returned := false))
  {
    DieDrive(d);
  }

  lemma MoveDrive(d: Drive, s: DriveStep)
    requires DriveOk(d) && (s.Read? || s.Act? || s.Record?)
    ensures DriveOk(NextDrive(d, s))
  {
    match s
    case Read => if d.point.Top? && !d.returned { ReadDrive(d); }
    case Act(r, o, reason) => if d.point.Saw? && d.world.flight == [] { ActDrive(d, r, o, reason); }
    case Record => if d.point.Executed? && d.world.flight == [] { RecordDrive(d); }
  }

  lemma NextDriveOk(d: Drive, s: DriveStep)
    requires DriveOk(d)
    ensures DriveOk(NextDrive(d, s))
  {
    match s
    case Read => MoveDrive(d, s);
    case Act(_, _, _) => MoveDrive(d, s);
    case Record => MoveDrive(d, s);
    case OperatorStop(reason) => BeginDrive(d, RequestStop(reason));
    case Internal(step) => if step.Perform? || step.Die? || step.Drift? { InternalDrive(d, step); }
    case Restart => RestartDrive(d);
  }

  lemma {:induction false} RunDriveOk(d: Drive, steps: seq<DriveStep>)
    requires DriveOk(d)
    ensures DriveOk(RunDrive(d, steps))
  {
    if steps != [] {
      RunDriveOk(d, steps[..|steps| - 1]);
      NextDriveOk(RunDrive(d, steps[..|steps| - 1]), steps[|steps| - 1]);
    }
  }

  lemma LaunchedOk(req: Request, grace: Time, time: Time)
    ensures DriveOk(Launched(req, grace, time))
  {
    PlannedRunOk(req, grace, time);
  }

  /** Under the supervisor, operator stops and restarts, the lifecycle never goes back. */
  lemma LifecycleNeverGoesBack(req: Request, grace: Time, time: Time, steps: seq<DriveStep>, i: nat, j: nat)
    requires i <= j < |RunDrive(Launched(req, grace, time), steps).world.journal|
    ensures var journal := RunDrive(Launched(req, grace, time), steps).world.journal;
      Rank(journal[i].state.lifecycle) <= Rank(journal[j].state.lifecycle)
  {
    LaunchedOk(req, grace, time);
    RunDriveOk(Launched(req, grace, time), steps);
    RanksRise(RunDrive(Launched(req, grace, time), steps).world.journal, i, j);
  }

  /**
    The workload executor is called only when the journal already holds a
    running state, and never once any process of the supervisor has read a
    deleting one; and the loop returns normally only once the run is closed.
   */
  lemma FailClosedDispatch(req: Request, grace: Time, time: Time, steps: seq<DriveStep>)
    ensures var d := RunDrive(Launched(req, grace, time), steps);
      && (forall i :: 0 <= i < |d.executions| ==>
            && !d.executions[i].sawDeleting
            && d.executions[i].at <= |d.world.journal|
            && Ran(d.world.journal[..d.executions[i].at]))
      && (d.returned ==> Current(d.world).lifecycle == Closed)
  {
    LaunchedOk(req, grace, time);
    RunDriveOk(Launched(req, grace, time), steps);
  }

  lemma RecoveryKeeps(req: Request, st: RunState, s: RunState)
    requires StateOk(req, st) && Follows(st, s) && s.lifecycle == Recovering
    requires st.lifecycle == Running || (st.lifecycle == Recovering && !MustNotDispatch(st))
    ensures !MustNotDispatch(s)
  {
  }

  /** From a running state, or from a recovery that may be dispatched, the next state is no other recovery. */
  predicate KeepsDispatch(st: RunState, s: RunState) {
    && Rank(st.lifecycle) <= Rank(s.lifecycle)
    && (((st.lifecycle == Running || (st.lifecycle == Recovering && !MustNotDispatch(st)))
         && s.lifecycle == Recovering) ==> !MustNotDispatch(s))
  }

  /** Once the run has been running, a recovery says nothing against dispatching. */
  lemma {:induction false} RanRecovers(states: seq<RunState>, j: nat, i: nat)
    requires forall k :: 0 < k < |states| ==> KeepsDispatch(states[k - 1], states[k])
    requires j <= i < |states| && states[j].lifecycle == Running
    ensures Rank(states[i].lifecycle) >= Rank(Running)
    ensures states[i].lifecycle == Recovering ==> !MustNotDispatch(states[i])
    decreases i
  {
    if j < i {
      RanRecovers(states, j, i - 1);
      assert KeepsDispatch(states[i - 1], states[i]);
    }
  }

  lemma NextKeepsDispatch(req: Request, journal: seq<LifecycleRuns.Record>, k: nat)
    requires JournalOk(req, journal) && JournalAttended(journal) && 0 < k < |journal|
    ensures KeepsDispatch(journal[k - 1].state, journal[k].state)
  {
    var st, s := journal[k - 1].state, journal[k].state;
    if s.lifecycle == Recovering
      && (st.lifecycle == Running || (st.lifecycle == Recovering && !MustNotDispatch(st))) {
      RecoveryKeeps(req, st, s);
    }
  }

  lemma LastRecoveryIff(req: Request, journal: seq<LifecycleRuns.Record>, last: nat)
    requires JournalOk(req, journal) && JournalAttended(journal) && last + 1 == |journal|
    requires journal[last].state.lifecycle == Recovering
    ensures !MustNotDispatch(journal[last].state) <==> Ran(journal)
  {
    assert Attended(journal[last].state, Ran(journal));
    if Ran(journal) {
      var j :| 0 <= j < |journal| && journal[j].state.lifecycle == Running;
      var states := seq(|journal|, k requires 0 <= k < |journal| => journal[k].state);
      forall k | 0 < k < |states|
        ensures KeepsDispatch(states[k - 1], states[k])
      {
        NextKeepsDispatch(req, journal, k);
      }
      RanRecovers(states, j, last);
    }
  }

  /** A run in recovery is dispatched again exactly when it has been running. */
  lemma RecoveryDispatchesIff(req: Request, grace: Time, time: Time, steps: seq<DriveStep>)
    requires Current(RunDrive(Launched(req, grace, time), steps).world).lifecycle == Recovering
    ensures var w := RunDrive(Launched(req, grace, time), steps).world;
      !MustNotDispatch(Current(w)) <==> Ran(w.journal)
  {
    LaunchedOk(req, grace, time);
    RunDriveOk(Launched(req, grace, time), steps);
    var w := RunDrive(Launched(req, grace, time), steps).world;
    LastRecoveryIff(w.req, w.journal, |w.journal| - 1);
  }
}
