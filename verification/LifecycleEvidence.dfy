/**
  Who said so: every claim that a durable state makes about the outside world
  was told to the controller, by the provider in a reply, by the workload or by
  the operator, at some step of the run. The claims are read off the state, the
  tellings off the steps, and neither mentions how a call computes.
 */
module LifecycleEvidence {
  import opened Prelude
  import opened LifecycleState
  import opened LifecycleRuns
  import opened LifecycleSafety

  // ---- claims and tellings ----

  /** A call that commits a state with the claim found it in the current state or was told. */
  ghost predicate Sourced(claim: RunState -> bool, told: (World, Step) -> bool) {
    forall w: World, step: Step, i: nat ::
      && Reachable(w) && i < |CallScript(w, step).acts|
      && CallScript(w, step).acts[i].Commit? && claim(CallScript(w, step).acts[i].state) ==>
        claim(Current(w)) || told(w, step)
  }

  /** At some step of the run it was told. */
  ghost predicate Told(w: World, steps: seq<Step>, told: (World, Step) -> bool)
    requires w.journal != []
  {
    exists k :: 0 <= k < |steps| && told(Run(w, steps[..k]), steps[k])
  }

  ghost predicate Claims(w: World, claim: RunState -> bool)
    requires w.journal != []
  {
    claim(Current(w)) || exists i :: 0 <= i < |w.flight| && w.flight[i].Commit? && claim(w.flight[i].state)
  }

  lemma ToldLater(w: World, steps: seq<Step>, told: (World, Step) -> bool)
    requires w.journal != [] && steps != [] && Told(w, steps[..|steps| - 1], told)
    ensures Told(w, steps, told)
  {
    var before := steps[..|steps| - 1];
    var k :| 0 <= k < |before| && told(Run(w, before[..k]), before[k]);
    assert before[..k] == steps[..k];
  }

  lemma ToldNow(w: World, steps: seq<Step>, told: (World, Step) -> bool)
    requires w.journal != [] && steps != [] && told(Run(w, steps[..|steps| - 1]), steps[|steps| - 1])
    ensures Told(w, steps, told)
  {
  }

  lemma StepClaims(w: World, step: Step, claim: RunState -> bool, told: (World, Step) -> bool)
    requires Reachable(w) && w.journal != [] && Sourced(claim, told) && Claims(Next(w, step), claim)
    ensures Claims(w, claim) || told(w, step)
  {
    match step
    case Perform(after) => PerformClaims(w, after, claim);
    case Die =>
    case Drift(_) =>
    case _ => BeginClaims(w, step, claim, told);
  }

  lemma PerformClaims(w: World, after: Pods, claim: RunState -> bool)
    requires w.journal != [] && Claims(PerformNext(w, after), claim)
    ensures Claims(w, claim)
  {
    if w.flight != [] {
      var n := PerformNext(w, after);
      assert n.flight == w.flight[1..];
      if claim(Current(n)) {
        if w.flight[0].Commit? {
          assert claim(w.flight[0].state);
        }
      } else {
        var i :| 0 <= i < |n.flight| && n.flight[i].Commit? && claim(n.flight[i].state);
        assert w.flight[i + 1] == n.flight[i];
      }
    }
  }

  lemma BeginClaims(w: World, step: Step, claim: RunState -> bool, told: (World, Step) -> bool)
    requires Reachable(w) && w.journal != [] && Sourced(claim, told)
    requires Claims(Begin(w, CallScript(w, step)), claim)
    ensures Claims(w, claim) || told(w, step)
  {
  }

  lemma ReachableRun(req: Request, grace: Time, time: Time, steps: seq<Step>)
    ensures Reachable(Run(PlannedRun(req, grace, time), steps))
  {
  }

  /** A claim that every call sources, and that no run starts with, was told in every run that makes it. */
  lemma {:induction false} ClaimsAreTold(req: Request, grace: Time, time: Time, steps: seq<Step>,
      claim: RunState -> bool, told: (World, Step) -> bool)
    requires Sourced(claim, told) && !claim(InitialState(req))
    requires Claims(Run(PlannedRun(req, grace, time), steps), claim)
    ensures Told(PlannedRun(req, grace, time), steps, told)
    decreases |steps|
  {
    var w0 := PlannedRun(req, grace, time);
    if steps != [] {
      var before, last := steps[..|steps| - 1], steps[|steps| - 1];
      ReachableRun(req, grace, time, before);
      StepClaims(Run(w0, before), last, claim, told);
      if told(Run(w0, before), last) {
        ToldNow(w0, steps, told);
      } else {
        ClaimsAreTold(req, grace, time, before, claim, told);
        ToldLater(w0, steps, told);
      }
    }
  }

  // ---- the tellings ----

  /** There is nothing an hourly rate could be asked of: no pod was adopted, and storage is a volume of its own. */
  predicate NothingToMeter(req: Request, st: RunState) {
    && st.resource.None?
    && req.provider.Spec? && req.provider.networkVolume.Some? && req.provider.networkVolume.value != ""
    && (st.provision.Some? && st.provision.value.attempts > 0 ==> Uncertain(st.provision.value.status))
  }

  /** The provider said that nothing is charged, or there was nothing to ask about. */
  predicate SaidUnspent(req: Request, st: RunState, r: Replies) {
    NothingToMeter(req, st) || r.spend == Spend(0)
  }

  /** The provider said that the pod runs, on looking at it or on starting it. */
  predicate SaidRunning(r: Replies) {
    r.get.Got? && (r.get.view.state == PodRunning || (r.start.Started? && r.start.view.state == PodRunning))
  }

  /** The provider said that it knows none of the ids to be deleted. */
  predicate SaidNotFound(st: RunState, r: Replies) {
    if st.quarantined.Some? && st.quarantined.value != [] then r.find == Found([])
    else st.resource.Some? ==> r.get == Absent
  }

  /** The provider named this id. */
  predicate SaidPod(r: Replies, id: PodId) {
    || (r.find.Found? && id in ViewIds(r.find.views))
    || (r.find.FindRejected? && id in r.find.ids)
    || (r.create.Created? && r.create.view.id == id)
    || (r.create.CreateRejected? && id in r.create.ids)
    || (r.get.Got? && r.get.view.id == id)
    || (r.get.GetRejected? && id in r.get.ids)
    || (r.start.Started? && r.start.view.id == id)
    || (r.start.StartRejected? && id in r.start.ids)
  }

  /** Why the controller gave up on its own: what the provider showed, or did not show for long enough. */
  predicate SaidRecovery(grace: Time, st: RunState, r: Replies, reason: RecoveryReason) {
    match reason
    case DuplicateResources => r.find.Found? && |r.find.views| > 1
    case DisappearedBeforeStart => r.get == Absent
    case DispatchUnresolved =>
      && r.find == Found([]) && st.provision.Some?
      && (st.provision.value.dispatchedAt.Some? ==> r.now - st.provision.value.dispatchedAt.value >= grace)
  }

  // ---- what a reconcile may commit ----

  /** Whatever is new in `s` after `st` was told in these replies. */
  predicate Backed(req: Request, grace: Time, st: RunState, r: Replies, s: RunState) {
    && (s.lifecycle == Closed ==> SaidUnspent(req, st, r))
    && (s.lifecycle == Running ==> SaidRunning(r))
    && (s.closeout.providerNotFound ==> st.closeout.providerNotFound || SaidNotFound(st, r))
    && (s.closeout.absenceConfirmed ==> st.closeout.absenceConfirmed || r.find == Found([]))
    && (s.closeout.spend == st.closeout.spend
        || (s.closeout.spend == Some(0) && NothingToMeter(req, st))
        || (s.closeout.spend.Some? && r.spend == Spend(s.closeout.spend.value)))
    && (s.result == st.result || s.result == Some(Cancelled))
    && (s.closeout.disposition == st.closeout.disposition
        || (s.closeout.disposition.Some? && s.closeout.disposition.value.status == Unavailable))
    && (s.recoveryReason == st.recoveryReason
        || (s.recoveryReason.Some? && SaidRecovery(grace, st, r, s.recoveryReason.value)))
    && (forall id :: id in DeleteIds(s) ==> id in DeleteIds(st) || SaidPod(r, id))
  }

  predicate AllBacked(req: Request, grace: Time, st: RunState, r: Replies, acts: seq<Action>) {
    forall i :: 0 <= i < |acts| && acts[i].Commit? ==> Backed(req, grace, st, r, acts[i].state)
  }

  /** A step of the workload's end on top of a backed state. */
  lemma BackedOn(req: Request, grace: Time, st: RunState, from: RunState, s: RunState, r: Replies)
    requires Backed(req, grace, st, r, from) && s.lifecycle != Closed && (s.lifecycle == Running ==> SaidRunning(r))
    requires s.closeout == from.closeout.(disposition := s.closeout.disposition)
    requires s.closeout.disposition == from.closeout.disposition
      || (s.closeout.disposition.Some? && s.closeout.disposition.value.status == Unavailable)
    requires s.result == from.result || s.result == Some(Cancelled)
    requires s.recoveryReason == from.recoveryReason
    requires forall id :: id in DeleteIds(s) ==> id in DeleteIds(from) || SaidPod(r, id)
    ensures Backed(req, grace, st, r, s)
  {
  }

  lemma RejectionBacked(req: Request, grace: Time, st: RunState, from: RunState, r: Replies, kind: OperationKind,
      op: Operation, ids: seq<PodId>, message: string)
    requires Backed(req, grace, st, r, from)
    requires forall id :: id in ids ==> SaidPod(r, id)
    ensures AllBacked(req, grace, st, r, Rejection(from, kind, op, ids, message).acts)
  {
    var s := Rejection(from, kind, op, ids, message).acts[0].state;
    assert DeleteIds(s) == if ids == [] then DeleteIds(from) else ids;
    BackedOn(req, grace, st, from, s, r);
    assert Rejection(from, kind, op, ids, message).acts == [Commit(ResourceRejected, s)];
  }

  lemma DispatchBacked(req: Request, grace: Time, st: RunState, op: Operation, r: Replies)
    requires st.lifecycle == Provisioning
    ensures AllBacked(req, grace, st, r, Dispatch(st, op, r).acts)
  {
    var sent := op.(attempts := op.attempts + 1, status := Dispatched, dispatchedAt := Some(r.now));
    var s := st.(provision := Some(sent));
    var after := AfterCreate(s, sent, r.create).acts;
    assert Backed(req, grace, st, r, s);
    match r.create {
      case CreateRejected(ids, message) => RejectionBacked(req, grace, st, s, r, Provision, sent, ids, message);
      case _ =>
    }
    assert AllBacked(req, grace, st, r, after);
    var acts := Dispatch(st, op, r).acts;
    assert forall i :: 2 <= i < |acts| ==> acts[i] == after[i - 2];
  }

  lemma DuplicatesBacked(req: Request, grace: Time, st: RunState, op: Operation, r: Replies)
    requires st.lifecycle == Provisioning && r.find.Found? && |r.find.views| > 1
    ensures AllBacked(req, grace, st, r, QuarantineDuplicates(st, op, r.find.views).acts)
  {
    var s := QuarantineDuplicates(st, op, r.find.views).acts[0].state;
    assert DeleteIds(s) == ViewIds(r.find.views);
  }

  lemma ProvisionBacked(req: Request, grace: Time, st: RunState, r: Replies)
    requires StateOk(req, st) && st.lifecycle == Provisioning
    ensures AllBacked(req, grace, st, r, ProvisionScript(req, grace, st, r).acts)
  {
    var op := st.provision.value;
    match r.find
    case FindError =>
    case FindRejected(ids, message) => RejectionBacked(req, grace, st, st, r, Provision, op, ids, message);
    case Found(views) =>
      if |views| > 1 {
        DuplicatesBacked(req, grace, st, op, r);
      } else if |views| == 1 {
        assert ViewIds(views)[0] == views[0].id;
      } else if op.status != Intended {
        VisibilityBacked(req, grace, st, op, r);
      } else if !req.provider.Malformed? {
        DispatchBacked(req, grace, st, op, r);
      }
  }

  lemma VisibilityBacked(req: Request, grace: Time, st: RunState, op: Operation, r: Replies)
    requires st.lifecycle == Provisioning && st.provision == Some(op) && r.find == Found([])
    ensures AllBacked(req, grace, st, r, ObserveVisibility(st, op, grace, r.now).acts)
  {
  }

  lemma StartBacked(req: Request, grace: Time, st: RunState, r: Replies)
    requires StateOk(req, st) && st.lifecycle == Starting
    ensures AllBacked(req, grace, st, r, StartScript(st, r).acts)
  {
    match r.get
    case GetError =>
    case GetRejected(ids, message) => RejectionBacked(req, grace, st, st, r, Start, st.start.value, ids, message);
    case Absent =>
    case Got(view) => if view.state != PodRunning { StartCallBacked(req, grace, st, view, r); }
  }

  lemma AfterStartBacked(req: Request, grace: Time, st: RunState, s: RunState, op: Operation, r: Replies)
    requires Backed(req, grace, st, r, s) && s.lifecycle == Starting && r.get.Got?
    requires s.quarantined.None? || s.quarantined.value == []
    ensures AllBacked(req, grace, st, r, AfterStart(s, op, r.start).acts)
  {
    var acts := AfterStart(s, op, r.start).acts;
    if r.start.StartRejected? {
      RejectionBacked(req, grace, st, s, r, Start, op, r.start.ids, r.start.message);
    } else {
      BackedOn(req, grace, st, s, acts[0].state, r);
      assert acts == [Commit(acts[0].kind, acts[0].state)];
    }
  }

  lemma Prepended(req: Request, grace: Time, st: RunState, r: Replies, acts: seq<Action>, after: seq<Action>)
    requires acts != [] && !acts[0].Commit? && acts[1..] == after && AllBacked(req, grace, st, r, after)
    ensures AllBacked(req, grace, st, r, acts)
  {
    assert forall i :: 1 <= i < |acts| ==> acts[i] == after[i - 1];
  }

  lemma StartCallBacked(req: Request, grace: Time, st: RunState, view: PodView, r: Replies)
    requires StateOk(req, st) && st.lifecycle == Starting && r.get == Got(view) && view.state != PodRunning
    ensures AllBacked(req, grace, st, r, StartScript(st, r).acts)
  {
    var tried := st.start.value.(attempts := st.start.value.attempts + 1);
    var s := st.(resource := Some(Projected(view)), start := Some(tried));
    assert DeleteIds(s) == [view.id];
    assert Backed(req, grace, st, r, s);
    AfterStartBacked(req, grace, st, s, tried, r);
    Prepended(req, grace, st, r, StartScript(st, r).acts, AfterStart(s, tried, r.start).acts);
  }

  lemma AbsenceBacked(req: Request, grace: Time, st: RunState, r: Replies)
    requires StateOk(req, st) && st.lifecycle == Deleting && AbsenceOpen(st)
    ensures AllBacked(req, grace, st, r, AbsenceScript(req, st, st.provision.value, r).acts)
  {
    if r.find.Found? && r.find.views != [] {
      assert ViewIds(r.find.views)[0] == r.find.views[0].id;
    }
  }

  lemma PendingStateBacked(req: Request, grace: Time, st: RunState, s: RunState, r: Replies)
    requires st.lifecycle == Deleting
    requires s == st.(delete := s.delete, closeout := s.closeout)
    requires s.closeout == st.closeout.(acknowledgedIds := s.closeout.acknowledgedIds,
                                        deleteAcknowledged := s.closeout.deleteAcknowledged,
                                        deleteAlreadyAbsent := s.closeout.deleteAlreadyAbsent)
    ensures Backed(req, grace, st, r, s)
  {
    assert DeleteIds(s) == DeleteIds(st);
  }

  lemma PendingBacked(req: Request, grace: Time, st: RunState, r: Replies)
    requires st.lifecycle == Deleting && st.delete.Some?
    ensures AllBacked(req, grace, st, r, DeletePending(st, st.delete.value, r).acts)
  {
    var acts := DeletePending(st, st.delete.value, r).acts;
    if |acts| == 1 && acts[0].Commit? {
      PendingStateBacked(req, grace, st, acts[0].state, r);
    } else if |acts| == 2 {
      PendingStateBacked(req, grace, st, acts[1].state, r);
    }
  }

  lemma SpendBacked(req: Request, grace: Time, st: RunState, r: Replies)
    requires StateOk(req, st) && st.lifecycle == Deleting && !AbsenceOpen(st) && st.closeout.providerNotFound
    ensures AllBacked(req, grace, st, r, SpendScript(req, st, r).acts)
  {
  }

  lemma DeleteBacked(req: Request, grace: Time, st: RunState, r: Replies)
    requires StateOk(req, st) && st.lifecycle == Deleting
    ensures AllBacked(req, grace, st, r, DeleteScript(req, st, r).acts)
  {
    if AbsenceOpen(st) {
      AbsenceBacked(req, grace, st, r);
    } else if !st.closeout.deleteAcknowledged {
      PendingBacked(req, grace, st, r);
    } else if !st.closeout.providerNotFound {
      assert AllBacked(req, grace, st, r, ConfirmNotFound(st, r).acts);
    } else {
      SpendBacked(req, grace, st, r);
    }
  }

  /** Whatever a reconcile commits, every new claim in it was told in the replies of this very call. */
  lemma ReconcileBacked(req: Request, grace: Time, st: RunState, r: Replies)
    requires StateOk(req, st)
    ensures AllBacked(req, grace, st, r, ReconcileScript(req, grace, st, r).acts)
  {
    match st.lifecycle
    case Provisioning => ProvisionBacked(req, grace, st, r);
    case Starting => StartBacked(req, grace, st, r);
    case Deleting => DeleteBacked(req, grace, st, r);
    case _ =>
  }

  /** What the calls other than reconcile commit: what they were given, and otherwise what was there. */
  predicate Given(st: RunState, step: Step, s: RunState) {
    && (s.lifecycle == Recovering || s.lifecycle == Deleting)
    && s.closeout == st.closeout.(disposition := s.closeout.disposition)
    && s.recoveryReason == st.recoveryReason && s.resource == st.resource && s.quarantined == st.quarantined
    && (s.result == st.result
        || (step.RecordResult? && s.result == Some(step.result))
        || (step.RequestStop? && st.result.None? && s.result == Some(Cancelled)))
    && (s.closeout.disposition == st.closeout.disposition
        || (step.RecordDisposition? && s.closeout.disposition == Some(step.disposition))
        || (step.RequestStop? && s.closeout.disposition == Some(Disposition(Unavailable, step.reason))))
  }

  lemma CallGives(w: World, step: Step, i: nat)
    requires w.journal != [] && !step.Reconcile?
    requires i < |CallScript(w, step).acts| && CallScript(w, step).acts[i].Commit?
    ensures Given(Current(w), step, CallScript(w, step).acts[i].state)
  {
  }

  lemma ReconcileGives(w: World, r: Replies, i: nat)
    requires Reachable(w) && i < |CallScript(w, Reconcile(r)).acts| && CallScript(w, Reconcile(r)).acts[i].Commit?
    ensures Backed(w.req, w.grace, Current(w), r, CallScript(w, Reconcile(r)).acts[i].state)
  {
    ReachableOk(w);
    ReconcileBacked(w.req, w.grace, Current(w), r);
  }

  /** Every call sources the claim if every backed and every given state does. */
  lemma SourcedBy(claim: RunState -> bool, told: (World, Step) -> bool)
    requires forall w: World, r: Replies, s: RunState ::
      w.journal != [] && Backed(w.req, w.grace, Current(w), r, s) && claim(s) ==>
        claim(Current(w)) || told(w, Reconcile(r))
    requires forall w: World, step: Step, s: RunState ::
      w.journal != [] && !step.Reconcile? && Given(Current(w), step, s) && claim(s) ==>
        claim(Current(w)) || told(w, step)
    ensures Sourced(claim, told)
  {
    forall w: World, step: Step, i: nat | Reachable(w) && i < |CallScript(w, step).acts|
      && CallScript(w, step).acts[i].Commit? && claim(CallScript(w, step).acts[i].state)
      ensures claim(Current(w)) || told(w, step)
    {
      if step.Reconcile? {
        ReconcileGives(w, step.replies, i);
      } else {
        CallGives(w, step, i);
      }
    }
  }

  // ---- over a whole run ----

  /** In a reconcile of the run, the provider said so. */
  ghost predicate Said(w: World, steps: seq<Step>, said: (World, Replies) -> bool)
    requires w.journal != []
  {
    exists k :: 0 <= k < |steps| && steps[k].Reconcile? && said(Run(w, steps[..k]), steps[k].replies)
  }

  function SayingOf(said: (World, Replies) -> bool): (World, Step) -> bool {
    (w: World, step: Step) => step.Reconcile? && said(w, step.replies)
  }

  lemma SaidFromTold(w: World, steps: seq<Step>, said: (World, Replies) -> bool)
    requires w.journal != [] && Told(w, steps, SayingOf(said))
    ensures Said(w, steps, said)
  {
    var k :| 0 <= k < |steps| && SayingOf(said)(Run(w, steps[..k]), steps[k]);
    assert steps[k].Reconcile?;
  }

  /** What the provider alone can tell. */
  lemma ProviderSaid(req: Request, grace: Time, time: Time, steps: seq<Step>, claim: RunState -> bool,
      said: (World, Replies) -> bool)
    requires forall w: World, r: Replies, s: RunState ::
      w.journal != [] && Backed(w.req, w.grace, Current(w), r, s) && claim(s) ==> claim(Current(w)) || said(w, r)
    requires forall w: World, step: Step, s: RunState ::
      w.journal != [] && !step.Reconcile? && Given(Current(w), step, s) && claim(s) ==> claim(Current(w))
    requires !claim(InitialState(req)) && claim(Current(Run(PlannedRun(req, grace, time), steps)))
    ensures Said(PlannedRun(req, grace, time), steps, said)
  {
    SourcedBy(claim, SayingOf(said));
    ClaimsAreTold(req, grace, time, steps, claim, SayingOf(said));
    SaidFromTold(PlannedRun(req, grace, time), steps, said);
  }

  function Unspent(w: World, r: Replies): bool {
    w.journal != [] && SaidUnspent(w.req, Current(w), r)
  }

  /** A closed run was told that nothing is charged any more, or had nothing that could be. */
  lemma ClosedWasUnspent(req: Request, grace: Time, time: Time, steps: seq<Step>)
    requires Current(Run(PlannedRun(req, grace, time), steps)).lifecycle == Closed
    ensures Said(PlannedRun(req, grace, time), steps, Unspent)
  {
    ProviderSaid(req, grace, time, steps, (st: RunState) => st.lifecycle == Closed, Unspent);
  }

  function RunningPod(w: World, r: Replies): bool {
    SaidRunning(r)
  }

  /** A run is recorded as running only after the provider said that its pod runs. */
  lemma RunningWasSeen(req: Request, grace: Time, time: Time, steps: seq<Step>)
    requires Current(Run(PlannedRun(req, grace, time), steps)).lifecycle == Running
    ensures Said(PlannedRun(req, grace, time), steps, RunningPod)
  {
    ProviderSaid(req, grace, time, steps, (st: RunState) => st.lifecycle == Running, RunningPod);
  }

  function NotFound(w: World, r: Replies): bool {
    w.journal != [] && SaidNotFound(Current(w), r)
  }

  /** Not-found is recorded only after the provider knew none of the ids to be deleted. */
  lemma NotFoundWasSeen(req: Request, grace: Time, time: Time, steps: seq<Step>)
    requires Current(Run(PlannedRun(req, grace, time), steps)).closeout.providerNotFound
    ensures Said(PlannedRun(req, grace, time), steps, NotFound)
  {
    ProviderSaid(req, grace, time, steps, (st: RunState) => st.closeout.providerNotFound, NotFound);
  }

  /** An amount of spend other than zero is recorded only as the provider gave it. */
  lemma SpendWasSaid(req: Request, grace: Time, time: Time, steps: seq<Step>, amount: Money)
    requires Current(Run(PlannedRun(req, grace, time), steps)).closeout.spend == Some(amount) && amount != 0
    ensures Said(PlannedRun(req, grace, time), steps, (w: World, r: Replies) => r.spend == Spend(amount))
  {
    ProviderSaid(req, grace, time, steps, (st: RunState) => st.closeout.spend == Some(amount),
      (w: World, r: Replies) => r.spend == Spend(amount));
  }

  /** Every id that is to be deleted was named by the provider. */
  lemma PodWasNamed(req: Request, grace: Time, time: Time, steps: seq<Step>, id: PodId)
    requires id in DeleteIds(Current(Run(PlannedRun(req, grace, time), steps)))
    ensures Said(PlannedRun(req, grace, time), steps, (w: World, r: Replies) => SaidPod(r, id))
  {
    ProviderSaid(req, grace, time, steps, (st: RunState) => id in DeleteIds(st), (w: World, r: Replies) =>
      SaidPod(r, id));
  }

  /** A recovery that the controller began on its own has the provider's answer that made it do so. */
  lemma RecoveryHadReason(req: Request, grace: Time, time: Time, steps: seq<Step>, reason: RecoveryReason)
    requires Current(Run(PlannedRun(req, grace, time), steps)).recoveryReason == Some(reason)
    ensures Said(PlannedRun(req, grace, time), steps, (w: World, r: Replies) =>
      w.journal != [] && SaidRecovery(w.grace, Current(w), r, reason))
  {
    ProviderSaid(req, grace, time, steps, (st: RunState) => st.recoveryReason == Some(reason),
      (w: World, r: Replies) => w.journal != [] && SaidRecovery(w.grace, Current(w), r, reason));
  }

  /** A result other than cancelled was reported by the workload; no stop and no provider answer can make one. */
  lemma ResultWasReported(req: Request, grace: Time, time: Time, steps: seq<Step>, result: WorkloadResult)
    requires Current(Run(PlannedRun(req, grace, time), steps)).result == Some(result) && result != Cancelled
    ensures RecordResult(result) in steps
  {
    var claim := (st: RunState) => st.result == Some(result);
    var told := (w: World, step: Step) => step == RecordResult(result);
    SourcedBy(claim, told);
    ClaimsAreTold(req, grace, time, steps, claim, told);
    var k :| 0 <= k < |steps| && told(Run(PlannedRun(req, grace, time), steps[..k]), steps[k]);
    assert steps[k] == RecordResult(result);
  }

  /** A disposition other than unavailable was reported by the workload. */
  lemma DispositionWasReported(req: Request, grace: Time, time: Time, steps: seq<Step>, d: Disposition)
    requires Current(Run(PlannedRun(req, grace, time), steps)).closeout.disposition == Some(d)
      && d.status != Unavailable
    ensures RecordDisposition(d) in steps
  {
    var claim := (st: RunState) => st.closeout.disposition == Some(d);
    var told := (w: World, step: Step) => step == RecordDisposition(d);
    SourcedBy(claim, told);
    ClaimsAreTold(req, grace, time, steps, claim, told);
    var k :| 0 <= k < |steps| && told(Run(PlannedRun(req, grace, time), steps[..k]), steps[k]);
    assert steps[k] == RecordDisposition(d);
  }
}
