/**
  The supervisor's drive loop as it is written, one process at a time. Its
  ghost state is a state of the machine in `Supervisor`, and the loop is proved
  to move along it, so what is proved of that machine with stops and restarts
  interleaved holds of what the loop does.
 */
module SupervisorEngine {
  import opened Prelude
  import opened LifecycleState
  import opened LifecycleRuns
  import opened LifecycleSafety
  import opened LifecycleProgress
  import opened RunStore
  import opened LifecycleController
  import opened ControllerRuns
  import opened Supervisor

  ghost predicate DriveReachable(d: Drive) {
    exists req, grace, time, steps :: d == RunDrive(Launched(req, grace, time), steps)
  }

  /** A run just created in the store is where the machine starts. */
  lemma CreatedIsLaunched(req: Request, grace: Time, time: Time)
    ensures var d := Launched(req, grace, time);
      DriveReachable(d) && d.world.flight == []
        && d.world.journal == Records([NewEvent([], RunPlanned, InitialState(req))])
  {
    assert RunDrive(Launched(req, grace, time), []) == Launched(req, grace, time);
  }

  lemma DriveOn(d: Drive, s: DriveStep)
    requires DriveReachable(d) && d.world.journal != []
    ensures DriveReachable(NextDrive(d, s))
  {
    var req, grace, time, steps :| d == RunDrive(Launched(req, grace, time), steps);
    assert (steps + [s])[..|steps|] == steps;
    assert RunDrive(Launched(req, grace, time), steps + [s]) == NextDrive(d, s);
  }

  /** What recording an observation begins. */
  lemma RecordBegins(d: Drive, st: RunState, o: Observation)
    requires DriveReachable(d) && d.world.journal != [] && d.world.flight == [] && d.point == Executed(st, o)
    ensures var script := if st.lifecycle == Running then ResultScript(Current(d.world), o.result)
      else DispositionScript(Current(d.world), o.disposition);
      DriveReachable(d.(point := Top, world := d.world.(flight := script.acts)))
  {
    DriveOn(d, DriveStep.Record);
  }

  /** Performing what is in flight leaves the process where it was. */
  lemma {:induction false} DrivePerforms(d: Drive, n: nat, pods: Pods)
    requires DriveReachable(d) && d.world.journal != []
    ensures DriveReachable(d.(world := Run(d.world, Performs(n, pods))))
  {
    if n == 0 {
      assert d.(world := d.world) == d;
    } else {
      DrivePerforms(d, n - 1, pods);
      assert Performs(n, pods)[..n - 1] == Performs(n - 1, pods);
      var before := d.(world := Run(d.world, Performs(n - 1, pods)));
      DriveOn(before, Internal(Perform(pods)));
    }
  }

  /** What a call of the controller leaves is where the machine gets by performing what the call began. */
  lemma CallDrives(b: Drive, script: Script, log0: seq<Event>, calls0: seq<Action>, log: seq<Event>,
      calls: seq<Action>, v: Verdict)
    returns (n: Drive)
    requires DriveReachable(b) && b.world.journal == Records(log0) && b.world.journal != []
      && b.world.flight == script.acts
    requires Performed(script, log0, calls0, log, calls, v)
    ensures DriveReachable(n) && n.world.journal == Records(log) && n.world.journal != [] && n.world.flight == []
    ensures n.world.req == b.world.req && n.world.grace == b.world.grace && n.executions == b.executions
    ensures v.Finished? ==> n == b.(world := n.world)
  {
    var cut: nat :| Cut(script, cut, log0, calls0, log, calls, v);
    var pods := b.world.pods;
    PerformIsAppend(b.world, pods, script.acts, cut, log0);
    PerformSome(b.world, pods, script.acts, cut);
    DrivePerforms(b, cut, pods);
    n := b.(world := Run(b.world, Performs(cut, pods)));
    if !v.Finished? {
      DriveOn(n, Restart);
      n := NextDrive(n, Restart);
    }
  }

  /** What a reachable machine has executed, it executed after the run had been running. */
  ghost predicate FailsClosed(d: Drive) {
    forall i :: 0 <= i < |d.executions| ==>
      && !d.executions[i].sawDeleting
      && d.executions[i].at <= |d.world.journal|
      && Ran(d.world.journal[..d.executions[i].at])
  }

  lemma ReachableFailsClosed(d: Drive)
    requires DriveReachable(d)
    ensures FailsClosed(d)
  {
    var req, grace, time, steps :| d == RunDrive(Launched(req, grace, time), steps);
    FailClosedDispatch(req, grace, time, steps);
  }

  function RecoveryText(st: RunState): string {
    "fail-closed recovery: " +
    if st.recoveryReason.None? then "quarantined resources"
    else
      match st.recoveryReason.value
      case DisappearedBeforeStart => "resource_disappeared_before_start"
      case DuplicateResources => "duplicate_provider_resources"
      case DispatchUnresolved => "provision_dispatch_unresolved"
  }

  // ---- what one turn does ----

  /** The executor is called: the workload runs, or it ran and this process has not observed it. */
  predicate Executes(st: RunState, observation: Option<Observation>) {
    st.lifecycle == Running || (st.lifecycle == Recovering && !MustNotDispatch(st) && observation.None?)
  }

  /** The call of the controller that a turn makes on the state it read; `seen` is what this process has observed. */
  function TurnScript(req: Request, grace: Time, st: RunState, r: Replies, seen: Option<Observation>): Script
    requires st.lifecycle == Running || (st.lifecycle == Recovering && !MustNotDispatch(st)) ==> seen.Some?
  {
    if st.lifecycle == Running then ResultScript(st, seen.value.result)
    else if st.lifecycle != Recovering then ReconcileScript(req, grace, st, r)
    else if MustNotDispatch(st) then StopScript(st, RecoveryText(st))
    else DispositionScript(st, seen.value.disposition)
  }

  /** A turn that returned: what it was told is what the store then says. */
  lemma TurnAnswered(req: Request, grace: Time, st: RunState, r: Replies, seen: Option<Observation>)
    requires st.lifecycle == Running || st.lifecycle == Recovering
    requires seen.Some? && TurnScript(req, grace, st, r, seen).outcome.Returned?
    ensures var after := After(st, TurnScript(req, grace, st, r, seen));
      && (st.lifecycle == Running ==> after.result == Some(seen.value.result))
      && (st.lifecycle == Recovering ==> after.result.Some? && after.closeout.disposition.Some?)
      && (st.lifecycle == Recovering && st.result.Some? && st.recoveryReason.None?
          && (st.quarantined.None? || st.quarantined.value == []) ==>
            after.closeout.disposition == Some(seen.value.disposition))
  {
  }

  /** The first actions of a script reached the list; all of them if the call finished. */
  ghost predicate Leaves(s: Script, log0: seq<Event>, log: seq<Event>, v: Verdict) {
    exists cut :: PartLeft(s, cut, log0, log, v)
  }

  ghost predicate PartLeft(s: Script, cut: nat, log0: seq<Event>, log: seq<Event>, v: Verdict) {
    && cut <= |s.acts|
    && log == AppendCommits(log0, s.acts[..cut])
    && (v.Finished? ==> cut == |s.acts| && v.outcome == s.outcome)
  }

  lemma PerformedLeaves(s: Script, log0: seq<Event>, calls0: seq<Action>, log: seq<Event>, calls: seq<Action>,
      v: Verdict)
    requires Performed(s, log0, calls0, log, calls, v)
    ensures Leaves(s, log0, log, v)
    ensures v.Finished? ==> log == AppendCommits(log0, s.acts) && v.outcome == s.outcome
  {
    var cut: nat :| Cut(s, cut, log0, calls0, log, calls, v);
    assert s.acts[..|s.acts|] == s.acts;
    assert PartLeft(s, cut, log0, log, v);
  }

  /** The commits of a script leave its last state. */
  lemma {:induction false} CommitsLeave(log: seq<Event>, s: Script)
    requires log != []
    ensures AppendCommits(log, s.acts) != [] && Last(AppendCommits(log, s.acts)) == After(Last(log), s)
    decreases |s.acts|
  {
    if s.acts != [] {
      CommitsLeave(log, Script(s.acts[..|s.acts| - 1], s.outcome));
    }
  }

  predicate Returns(v: Verdict) {
    v.Finished? && v.outcome.Returned?
  }

  // ---- what the loop does ----

  /** Where a process stands between two turns: the committed list, what it observed, how often it executed. */
  datatype Stand = Stand(log: seq<Event>, seen: Option<Observation>, executed: nat)

  /** What a process has observed when it makes its call. */
  function Seen(st: RunState, seen: Option<Observation>, o: Observation): Option<Observation> {
    if Executes(st, seen) then Some(o) else seen
  }

  function TurnAt(req: Request, grace: Time, r: Replies, o: Observation, s: Stand): Script
    requires s.log != []
  {
    TurnScript(req, grace, Last(s.log), r, Seen(Last(s.log), s.seen, o))
  }

  /** A whole turn. */
  function TurnOn(req: Request, grace: Time, r: Replies, o: Observation, s: Stand): Stand
    requires s.log != []
  {
    var st, script := Last(s.log), TurnAt(req, grace, r, o, s);
    Stand(AppendCommits(s.log, script.acts), Seen(st, s.seen, o), s.executed + if Executes(st, s.seen) then 1 else 0)
  }

  /** The turns of a process: each finds the run open and returns, or there is no next one. */
  function Turns(req: Request, grace: Time, replies: nat -> Replies, observe: nat -> Observation)
    : (nat, Stand) -> Option<Stand>
  {
    (n: nat, s: Stand) =>
      if s.log == [] || Last(s.log).lifecycle == Closed
        || TurnAt(req, grace, replies(n), observe(s.executed), s).outcome.Raised? then None
      else Some(TurnOn(req, grace, replies(n), observe(s.executed), s))
  }

  /** Where a process stands after `n` whole turns. */
  function Stands(turn: (nat, Stand) -> Option<Stand>, s: Stand, n: nat): Option<Stand> {
    if n == 0 then Some(s)
    else
      var b := Stands(turn, s, n - 1);
      if b.None? then None else turn(n - 1, b.value)
  }

  lemma WholeScript(script: Script, log0: seq<Event>, log: seq<Event>, v: Verdict)
    requires Leaves(script, log0, log, v) && Returns(v)
    ensures log == AppendCommits(log0, script.acts) && script.outcome.Returned?
  {
    var cut: nat :| PartLeft(script, cut, log0, log, v);
    assert script.acts[..|script.acts|] == script.acts;
  }

  /** A turn that returned is a whole turn. */
  lemma StandsOn(req: Request, grace: Time, replies: nat -> Replies, observe: nat -> Observation, s: Stand, n: nat,
      b: Stand, log: seq<Event>, v: Verdict)
    requires Stands(Turns(req, grace, replies, observe), s, n) == Some(b)
    requires b.log != [] && Last(b.log).lifecycle != Closed && Returns(v)
    requires Leaves(TurnAt(req, grace, replies(n), observe(b.executed), b), b.log, log, v)
    ensures var t := TurnOn(req, grace, replies(n), observe(b.executed), b);
      Stands(Turns(req, grace, replies, observe), s, n + 1) == Some(t) && t.log == log
  {
    WholeScript(TurnAt(req, grace, replies(n), observe(b.executed), b), b.log, log, v);
  }

  // ---- a working provider ----

  lemma {:induction false} FlightStatesOk(req: Request, st: RunState, n: nat, acks: set<PodId>, flight: seq<Action>,
      i: nat)
    requires FlightOk(req, st, n, acks, flight) && i < |flight| && flight[i].Commit?
    ensures StateOk(req, flight[i].state)
    decreases i
  {
    if i > 0 {
      match flight[0]
      case Commit(_, s) => FlightStatesOk(req, s, n, acks, flight[1..], i - 1);
      case CallCreate(_, _) => FlightStatesOk(req, st, 1, acks, flight[1..], i - 1);
      case CallStart(_, _, _) => FlightStatesOk(req, st, n, acks, flight[1..], i - 1);
      case CallDelete(pod, op, reply) => FlightStatesOk(req, st, n, acks + AckOf(pod, op, reply), flight[1..], i - 1);
    }
  }

  lemma {:induction false} AfterIsCommitted(st: RunState, s: Script)
    ensures After(st, s) == st
      || exists i :: 0 <= i < |s.acts| && s.acts[i].Commit? && s.acts[i].state == After(st, s)
    decreases |s.acts|
  {
    if s.acts != [] && !s.acts[|s.acts| - 1].Commit? {
      AfterIsCommitted(st, Script(s.acts[..|s.acts| - 1], s.outcome));
    }
  }

  /** A whole reconcile leaves a sound state. */
  lemma ReconciledOk(req: Request, grace: Time, st: RunState, r: Replies)
    requires StateOk(req, st)
    ensures StateOk(req, After(st, ReconcileScript(req, grace, st, r)))
  {
    var script := ReconcileScript(req, grace, st, r);
    var acks := set id | id in st.closeout.acknowledgedIds;
    ReconcileOk(req, grace, st, 0, acks, r);
    AfterIsCommitted(st, script);
    if After(st, script) != st {
      var i :| 0 <= i < |script.acts| && script.acts[i].Commit? && script.acts[i].state == After(st, script);
      FlightStatesOk(req, st, 0, acks, script.acts, i);
    }
  }

  /** At each of the first `n` turns the provider gives the answers that a deletion needs there. */
  ghost predicate WorkingProvider(req: Request, grace: Time, replies: nat -> Replies, observe: nat -> Observation,
      s: Stand, k: nat, n: nat)
  {
    forall i: nat, b: Stand ::
      (i < n && Stands(Turns(req, grace, replies, observe), s, i) == Some(b)
       && b.log != [] && Last(b.log).lifecycle == Deleting) ==> Cooperative(req, Last(b.log), k, replies(i))
  }

  /** A sound state of a deletion that needs at most `bound` more turns. */
  predicate Within(req: Request, s: Stand, k: nat, bound: int) {
    && s.log != []
    && var st := Last(s.log);
    StateOk(req, st) && (st.lifecycle == Deleting || st.lifecycle == Closed) && Remaining(req, st, k) <= bound
  }

  lemma WorkingTurn(req: Request, grace: Time, r: Replies, o: Observation, s: Stand, k: nat, bound: int)
    requires Within(req, s, k, bound) && Last(s.log).lifecycle == Deleting
    requires Cooperative(req, Last(s.log), k, r)
    ensures Within(req, TurnOn(req, grace, r, o, s), k, bound - 1)
  {
    CommitsLeave(s.log, TurnAt(req, grace, r, o, s));
    ReconciledOk(req, grace, Last(s.log), r);
    ReconcileProgress(req, grace, Last(s.log), k, r);
  }

  lemma {:induction false} TurnsCount(turn: (nat, Stand) -> Option<Stand>, good: (Stand, int) -> bool, s: Stand, n: nat,
      bound: int)
    requires good(s, bound) && Stands(turn, s, n).Some?
    requires forall i: nat, b: Stand, m: int ::
      i < n && Stands(turn, s, i) == Some(b) && good(b, m) && turn(i, b).Some? ==> good(turn(i, b).value, m - 1)
    ensures good(Stands(turn, s, n).value, bound - n)
    decreases n
  {
    if n > 0 {
      TurnsCount(turn, good, s, n - 1, bound);
    }
  }

  /**
    A process that finds a run in deletion and a working provider cannot take
    more whole turns than the deletion needs: its loop ends with the run closed
    unless a call fails.
   */
  lemma WorkingTurnsBounded(req: Request, grace: Time, replies: nat -> Replies, observe: nat -> Observation, s: Stand,
      k: nat, n: nat)
    requires s.log != [] && StateOk(req, Last(s.log)) && Last(s.log).lifecycle == Deleting
    requires WorkingProvider(req, grace, replies, observe, s, k, n)
    requires Stands(Turns(req, grace, replies, observe), s, n).Some?
    ensures n <= Remaining(req, Last(s.log), k)
    ensures var at := Stands(Turns(req, grace, replies, observe), s, n).value;
      n == Remaining(req, Last(s.log), k) ==> at.log != [] && Last(at.log).lifecycle == Closed
  {
    var turn := Turns(req, grace, replies, observe);
    var good := (b: Stand, m: int) => Within(req, b, k, m);
    forall i: nat, b: Stand, m: int | i < n && Stands(turn, s, i) == Some(b) && good(b, m) && turn(i, b).Some?
      ensures good(turn(i, b).value, m - 1)
    {
      WorkingTurn(req, grace, replies(i), observe(b.executed), b, k, m);
    }
    TurnsCount(turn, good, s, n, Remaining(req, Last(s.log), k));
  }

  /** Why a process stopped before the run was closed. */
  datatype DriveEnd = RunClosed | StepsExhausted | Interrupted(verdict: Verdict)

  class SupervisorEngine {
    const controller: LifecycleController
    // what the provider and the executor answer at their n-th use
    const replies: nat -> Replies
    const observe: nat -> Observation
    var executed: nat
    ghost var machine: Drive

    ghost predicate Valid()
      reads this, controller, controller.store
    {
      && controller.Valid()
      && DriveReachable(machine)
      && machine.world.req == controller.store.request.value
      && machine.world.grace == controller.grace
      && machine.world.journal == Records(controller.store.log)
      && machine.world.flight == []
    }

    /** Between two turns of the loop, with what this process has observed so far. */
    ghost predicate AtTop(observation: Option<Observation>)
      reads this, controller, controller.store
    {
      Valid() && machine.point.Top? && machine.observation == observation && !machine.returned
    }

    /** The machine has read this state and not acted on it. */
    ghost predicate HasRead(st: RunState, observation: Option<Observation>)
      reads this, controller, controller.store
    {
      && Valid() && machine.point == Saw(st) && machine.observation == observation && !machine.returned
      && st == Current(machine.world)
    }

    /** A supervisor process over a store whose list is some reachable machine's journal. */
    constructor (controller: LifecycleController, replies: nat -> Replies, observe: nat -> Observation,
        ghost machine: Drive)
      requires controller.Valid() && DriveReachable(machine) && machine.world.flight == []
      requires machine.world.req == controller.store.request.value && machine.world.grace == controller.grace
      requires machine.world.journal == Records(controller.store.log)
      ensures Valid() && this.controller == controller && this.machine == machine && executed == 0
    {
      this.controller, this.replies, this.observe, this.executed, this.machine :=
        controller, replies, observe, 0, machine;
    }

    /** What a call left behind, and that only death or an unreadable journal cut it short. */
    ghost predicate Left(script: Script, log0: seq<Event>, v: Verdict, left: nat)
      reads this, controller, controller.store
    {
      Leaves(script, log0, controller.store.log, v) && controller.CutShort(v, left)
    }

    method ReconcileStep(st: RunState, n: nat, ghost observation: Option<Observation>, fuse: nat)
      returns (v: Verdict, left: nat)
      requires HasRead(st, observation) && st.lifecycle in {Planned, Provisioning, Starting, Deleting}
      modifies this`machine, controller.store, controller.provider
      ensures Valid() && left <= fuse && machine.executions == old(machine.executions)
      ensures Left(ReconcileScript(machine.world.req, machine.world.grace, st, replies(n)), old(controller.store.log),
        v, left)
      ensures machine.world.req == old(machine.world.req) && machine.world.grace == old(machine.world.grace)
      ensures Returns(v) ==> AtTop(observation)
    {
      controller.provider.replies := replies(n);
      ghost var script := ReconcileScript(machine.world.req, machine.world.grace, st, replies(n));
      ghost var act := Act(replies(n), observe(0), "");
      DriveOn(machine, act);
      ghost var b := NextDrive(machine, act);
      assert b.world.flight == script.acts && b.world.journal == machine.world.journal;
      ghost var log0, calls0 := controller.store.log, controller.provider.calls;
      v, left := controller.Reconcile(fuse);
      machine := CallDrives(b, script, log0, calls0, controller.store.log, controller.provider.calls, v);
      PerformedLeaves(script, log0, calls0, controller.store.log, controller.provider.calls, v);
    }

    /** Calls the executor; nothing durable changes. */
    method Execute(st: RunState, ghost observation: Option<Observation>) returns (o: Observation)
      requires HasRead(st, observation)
      requires st.lifecycle == Running || (st.lifecycle == Recovering && !MustNotDispatch(st) && observation.None?)
      modifies this`machine, this`executed
      ensures Valid() && machine.point == Executed(st, o) && machine.observation == Some(o) && !machine.returned
      ensures o == observe(old(executed)) && executed == old(executed) + 1
      ensures |machine.executions| == |old(machine.executions)| + 1
      ensures machine.world == old(machine.world)
    {
      o := observe(executed);
      executed := executed + 1;
      ghost var act := Act(replies(0), o, "");
      DriveOn(machine, act);
      machine := NextDrive(machine, act);
    }

    /** Records the result of a workload that was running. */
    method RecordRan(st: RunState, o: Observation, fuse: nat) returns (v: Verdict, left: nat)
      requires Valid() && st == Current(machine.world) && machine.point == Executed(st, o)
        && machine.observation == Some(o) && !machine.returned
      requires st.lifecycle == Running
      modifies this`machine, controller.store
      ensures Valid() && left <= fuse && machine.executions == old(machine.executions)
      ensures Left(ResultScript(st, o.result), old(controller.store.log), v, left)
      ensures machine.world.req == old(machine.world.req) && machine.world.grace == old(machine.world.grace)
      ensures Returns(v) ==> AtTop(Some(o))
    {
      ghost var script := ResultScript(st, o.result);
      RecordBegins(machine, st, o);
      ghost var b := machine.(point := Top, world := machine.world.(flight := script.acts));
      assert DriveReachable(b) && b.world.flight == script.acts;
      ghost var log0, calls0 := controller.store.log, controller.provider.calls;
      v, left := controller.RecordWorkloadResult(o.result, fuse);
      machine := CallDrives(b, script, log0, calls0, controller.store.log, controller.provider.calls, v);
      PerformedLeaves(script, log0, calls0, controller.store.log, controller.provider.calls, v);
    }

    /** Records the disposition of a recovered workload. */
    method RecordRecovered(st: RunState, o: Observation, fuse: nat) returns (v: Verdict, left: nat)
      requires Valid() && st == Current(machine.world) && machine.point == Executed(st, o)
        && machine.observation == Some(o) && !machine.returned
      requires st.lifecycle != Running
      modifies this`machine, controller.store
      ensures Valid() && left <= fuse && machine.executions == old(machine.executions)
      ensures Left(DispositionScript(st, o.disposition), old(controller.store.log), v, left)
      ensures machine.world.req == old(machine.world.req) && machine.world.grace == old(machine.world.grace)
      ensures Returns(v) ==> AtTop(Some(o))
    {
      ghost var script := DispositionScript(st, o.disposition);
      RecordBegins(machine, st, o);
      ghost var b := machine.(point := Top, world := machine.world.(flight := script.acts));
      assert DriveReachable(b) && b.world.flight == script.acts;
      ghost var log0, calls0 := controller.store.log, controller.provider.calls;
      v, left := controller.RecordArtifactDisposition(o.disposition, fuse);
      machine := CallDrives(b, script, log0, calls0, controller.store.log, controller.provider.calls, v);
      PerformedLeaves(script, log0, calls0, controller.store.log, controller.provider.calls, v);
    }

    /** Records what was just observed: the result of a running workload, or the disposition of a recovered one. */
    method RecordObserved(st: RunState, o: Observation, fuse: nat) returns (v: Verdict, left: nat)
      requires Valid() && st == Current(machine.world) && machine.point == Executed(st, o)
      requires machine.observation == Some(o) && !machine.returned
      modifies this`machine, controller.store
      ensures Valid() && left <= fuse && machine.executions == old(machine.executions)
      ensures Left(if st.lifecycle == Running then ResultScript(st, o.result) else DispositionScript(st, o.disposition),
        old(controller.store.log), v, left)
      ensures machine.world.req == old(machine.world.req) && machine.world.grace == old(machine.world.grace)
      ensures Returns(v) ==> AtTop(Some(o))
    {
      if st.lifecycle == Running {
        v, left := RecordRan(st, o, fuse);
      } else {
        v, left := RecordRecovered(st, o, fuse);
      }
    }

    /** A recovery that cannot have started work is stopped instead of dispatched. */
    method StopRecovery(st: RunState, ghost observation: Option<Observation>, fuse: nat)
      returns (v: Verdict, left: nat)
      requires HasRead(st, observation) && st.lifecycle == Recovering && MustNotDispatch(st)
      modifies this`machine, controller.store
      ensures Valid() && left <= fuse && machine.executions == old(machine.executions)
      ensures Left(StopScript(st, RecoveryText(st)), old(controller.store.log), v, left)
      ensures machine.world.req == old(machine.world.req) && machine.world.grace == old(machine.world.grace)
      ensures Returns(v) ==> AtTop(observation)
    {
      ghost var script := StopScript(st, RecoveryText(st));
      ghost var act := Act(replies(0), observe(0), RecoveryText(st));
      DriveOn(machine, act);
      ghost var b := NextDrive(machine, act);
      assert b.world.flight == script.acts;
      ghost var log0, calls0 := controller.store.log, controller.provider.calls;
      v, left := controller.RequestStop(RecoveryText(st), fuse);
      machine := CallDrives(b, script, log0, calls0, controller.store.log, controller.provider.calls, v);
      PerformedLeaves(script, log0, calls0, controller.store.log, controller.provider.calls, v);
    }

    /** Records the disposition this process observed before. */
    method RecordEarlier(st: RunState, o: Observation, fuse: nat) returns (v: Verdict, left: nat)
      requires HasRead(st, Some(o)) && st.lifecycle == Recovering && !MustNotDispatch(st)
      modifies this`machine, controller.store
      ensures Valid() && left <= fuse && machine.executions == old(machine.executions)
      ensures Left(DispositionScript(st, o.disposition), old(controller.store.log), v, left)
      ensures machine.world.req == old(machine.world.req) && machine.world.grace == old(machine.world.grace)
      ensures Returns(v) ==> AtTop(Some(o))
    {
      ghost var script := DispositionScript(st, o.disposition);
      ghost var act := Act(replies(0), o, "");
      DriveOn(machine, act);
      ghost var b := NextDrive(machine, act);
      assert b.world.flight == script.acts;
      ghost var log0, calls0 := controller.store.log, controller.provider.calls;
      v, left := controller.RecordArtifactDisposition(o.disposition, fuse);
      machine := CallDrives(b, script, log0, calls0, controller.store.log, controller.provider.calls, v);
      PerformedLeaves(script, log0, calls0, controller.store.log, controller.provider.calls, v);
    }

    /** Reading was cut short: by death, by an unreadable journal, or by a receipt that differs from it. */
    ghost predicate Unread(v: Verdict, left: nat)
      requires controller.Valid()
      reads this, controller, controller.store
    {
      var store := controller.store;
      && (v == ProcessDied || v == StoreRefused)
      && (v == ProcessDied ==> left == 0)
      && (v == StoreRefused ==> !store.Legible() || store.ReceiptDiffers(store.log[|store.log| - 1].projection))
    }

    /** `status`: the last committed state. */
    method ReadStatus(ghost observation: Option<Observation>, fuse: nat)
      returns (state: Option<RunState>, v: Verdict, left: nat)
      requires AtTop(observation)
      modifies this`machine, controller.store
      ensures Valid() && left <= fuse && machine.executions == old(machine.executions)
      ensures controller.store.log == old(controller.store.log)
      ensures machine.world == old(machine.world)
      ensures state.Some? ==> HasRead(state.value, observation) && state.value == Last(controller.store.log)
      ensures state.None? ==> Unread(v, left)
    {
      var r;
      r, left := controller.store.ReadState(fuse);
      v := if r.Died? then ProcessDied else StoreRefused;
      if !r.Ok? {
        return None, v, left;
      }
      DriveOn(machine, Read);
      machine := NextDrive(machine, Read);
      return Some(r.value.state), v, left;
    }

    /** Acts on the state just read: the dispatch by lifecycle. */
    method Turn(st: RunState, n: nat, observation: Option<Observation>, fuse: nat)
      returns (v: Verdict, next: Option<Observation>, left: nat)
      requires HasRead(st, observation) && st.lifecycle != Closed
      modifies this`machine, this`executed, controller.store, controller.provider
      ensures Valid() && left <= fuse && (Returns(v) ==> AtTop(next))
      ensures next == Seen(st, observation, observe(old(executed)))
      ensures executed == old(executed) + if Executes(st, observation) then 1 else 0
      ensures Left(TurnAt(machine.world.req, machine.world.grace, replies(n), observe(old(executed)),
                          Stand(old(controller.store.log), observation, old(executed))),
                   old(controller.store.log), v, left)
      ensures machine.world.req == old(machine.world.req) && machine.world.grace == old(machine.world.grace)
      ensures executed - old(executed) == |machine.executions| - |old(machine.executions)|
    {
      next := observation;
      if st.lifecycle == Running || (st.lifecycle == Recovering && !MustNotDispatch(st) && observation.None?) {
        var o := Execute(st, observation);
        next := Some(o);
        v, left := RecordObserved(st, o, fuse);
      } else if st.lifecycle == Recovering && MustNotDispatch(st) {
        v, left := StopRecovery(st, observation, fuse);
      } else if st.lifecycle == Recovering {
        v, left := RecordEarlier(st, observation.value, fuse);
      } else {
        v, left := ReconcileStep(st, n, observation, fuse);
      }
    }

    /** The turns taken whole, by the list and by what this process observed. */
    ghost predicate At(start: Stand, turns: nat, observation: Option<Observation>)
      reads this, controller, controller.store
    {
      Stands(Turns(machine.world.req, machine.world.grace, replies, observe), start, turns) ==
        Some(Stand(controller.store.log, observation, executed))
    }

    /** The next turn began on an open run and did not return; the list holds what it did. */
    ghost predicate TurnFailed(at: Stand, n: nat, v: Verdict, left: nat)
      reads this, controller, controller.store
    {
      && at.log != [] && Last(at.log).lifecycle != Closed && !Returns(v)
      && Left(TurnAt(machine.world.req, machine.world.grace, replies(n), observe(at.executed), at), at.log, v, left)
    }

    /** After `turns` whole turns the run was read as closed, the steps were used up, or the next turn failed. */
    ghost predicate Ended(start: Stand, turns: nat, end: DriveEnd, maxSteps: nat, left: nat)
      requires controller.Valid()
      reads this, controller, controller.store
    {
      var at := Stands(Turns(machine.world.req, machine.world.grace, replies, observe), start, turns);
      var here := at.Some? && controller.store.log == at.value.log && executed == at.value.executed;
      && at.Some?
      && match end
         case RunClosed => here && turns <= maxSteps && Last(controller.store.log).lifecycle == Closed
         case StepsExhausted => here && turns == maxSteps
         case Interrupted(v) =>
           turns < maxSteps && ((here && Unread(v, left)) || TurnFailed(at.value, turns, v, left))
    }

    /** A turn, counted. */
    method TakeTurn(st: RunState, n: nat, observation: Option<Observation>, fuse: nat, ghost start: Stand)
      returns (v: Verdict, next: Option<Observation>, left: nat)
      requires HasRead(st, observation) && st == Last(controller.store.log) && st.lifecycle != Closed
      requires At(start, n, observation)
      modifies this`machine, this`executed, controller.store, controller.provider
      ensures Valid() && left <= fuse
      ensures Returns(v) ==> AtTop(next) && At(start, n + 1, next)
      ensures !Returns(v) ==> TurnFailed(old(Stand(controller.store.log, observation, executed)), n, v, left)
      ensures machine.world.req == old(machine.world.req) && machine.world.grace == old(machine.world.grace)
      ensures executed - old(executed) == |machine.executions| - |old(machine.executions)|
    {
      ghost var req, grace := machine.world.req, machine.world.grace;
      ghost var at := Stand(controller.store.log, observation, executed);
      v, next, left := Turn(st, n, observation, fuse);
      assert Left(TurnAt(req, grace, replies(n), observe(at.executed), at), at.log, v, left);
      if Returns(v) {
        StandsOn(req, grace, replies, observe, start, n, at, controller.store.log, v);
        assert TurnOn(req, grace, replies(n), observe(at.executed), at) == Stand(controller.store.log, next, executed);
      }
    }

    /** One pass of the loop: reads the state and, unless the run is closed, acts on it. */
    method Pass(n: nat, observation: Option<Observation>, fuse: nat, ghost start: Stand, ghost maxSteps: nat)
      returns (end: Option<DriveEnd>, next: Option<Observation>, left: nat)
      requires AtTop(observation) && n < maxSteps && At(start, n, observation)
      modifies this`machine, this`executed, controller.store, controller.provider
      ensures Valid() && left <= fuse
      ensures end.None? ==> AtTop(next) && At(start, n + 1, next)
      ensures end.Some? ==> Ended(start, n, end.value, maxSteps, left)
      ensures machine.world.req == old(machine.world.req) && machine.world.grace == old(machine.world.grace)
      ensures executed - old(executed) == |machine.executions| - |old(machine.executions)|
    {
      next := observation;
      var v, state;
      state, v, left := ReadStatus(observation, fuse);
      if state.None? {
        return Some(Interrupted(v)), next, left;
      }
      if state.value.lifecycle == Closed {
        return Some(RunClosed), next, left;
      }
      v, next, left := TakeTurn(state.value, n, observation, left, start);
      end := if Returns(v) then None else Some(Interrupted(v));
    }

    /**
      `drive`: read, act, read again. It returns normally only with the run
      closed; any error or death ends the process, and the next one starts over
      with nothing observed. Every execution it adds follows a running record.
      It stops before its steps are used up only for one of these reasons.
     */
    method Drive(maxSteps: nat, fuse: nat) returns (end: DriveEnd, turns: nat, left: nat)
      requires Valid()
      modifies this`machine, this`executed, controller.store, controller.provider
      ensures Valid() && FailsClosed(machine)
      ensures machine.world.req == old(machine.world.req) && machine.world.grace == old(machine.world.grace)
      ensures Ended(Stand(old(controller.store.log), None, old(executed)), turns, end, maxSteps, left)
      ensures executed - old(executed) == |machine.executions| - |old(machine.executions)|
    {
      ghost var start := Stand(controller.store.log, None, executed);
      DriveOn(machine, Restart);
      machine := NextDrive(machine, Restart);
      var observation: Option<Observation> := None;
      left := fuse;
      for n := 0 to maxSteps
        invariant AtTop(observation) && At(start, n, observation)
        invariant machine.world.req == old(machine.world.req) && machine.world.grace == old(machine.world.grace)
        invariant executed - old(executed) == |machine.executions| - |old(machine.executions)|
      {
        var stop;
        stop, observation, left := Pass(n, observation, left, start, maxSteps);
        if stop.Some? {
          ReachableFailsClosed(machine);
          return stop.value, n, left;
        }
      }
      ReachableFailsClosed(machine);
      return StepsExhausted, maxSteps, left;
    }
  }

  /**
    Creates the run in a store that holds nothing of it, or only what a
    creation that died had written, and sets a supervisor on it: the list that
    `CreateRun` leaves is the journal of the machine's first state.
   */
  method LaunchRun(store: RunStore, req: Request, provider: Provider, replies: nat -> Replies,
      observe: nat -> Observation, grace: Time, ghost time: Time, fuse: nat)
    returns (engine: SupervisorEngine?, left: nat)
    requires store.Valid() && (store.log == [] || store.log == [NewEvent([], RunPlanned, InitialState(req))])
    modifies store
    ensures store.Valid() && left <= fuse
    ensures store.log == old(store.log) || store.log == [NewEvent([], RunPlanned, InitialState(req))]
    ensures old(store.request).Some? && old(store.request).value != req ==> engine == null
    ensures engine != null ==>
      && fresh(engine) && engine.Valid() && engine.controller.store == store && engine.controller.provider == provider
      && engine.machine == Launched(req, grace, time) && store.request == Some(req)
  {
    var r;
    r, left := store.CreateRun(req, InitialState(req), fuse);
    if !r.Ok? {
      return null, left;
    }
    CreatedIsLaunched(req, grace, time);
    var controller := new LifecycleController(store, provider, grace);
    engine := new SupervisorEngine(controller, replies, observe, Launched(req, grace, time));
  }
}
