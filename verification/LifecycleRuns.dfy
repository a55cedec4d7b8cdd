/**
  All runs of one controller-managed run: reconcile calls, operator stops,
  recorded results, process death between any two durable actions, and a
  provider that changes on its own. Nothing is assumed about the provider in
  this module; what holds here holds for every reply it can give.
 */
module LifecycleRuns {
  import opened Prelude
  import opened LifecycleState

  datatype Record = Record(kind: EventKind, state: RunState)

  /** A call of `provider.create`, and how many records the journal held at that moment. */
  datatype CreateCall = CreateCall(op: OpId, at: nat)

  /**
    The provider's own truth about one run: the pods its create ever made, the
    ones that exist now, whether a create request may still take effect, and
    the provider's clock.
   */
  datatype Pods = Pods(created: set<PodId>, live: set<PodId>, pending: bool, time: Time)

  datatype World = World(
    req: Request,
    grace: Time,
    journal: seq<Record>,
    // the durable actions the lock holder has still to perform; volatile
    flight: seq<Action>,
    creates: seq<CreateCall>,
    // the ids whose deletion the provider has acknowledged to the controller
    acks: set<PodId>,
    pods: Pods)

  datatype Step =
    | Reconcile(replies: Replies)
    | RecordResult(result: WorkloadResult)
    | RecordDisposition(disposition: Disposition)
    | RequestStop(reason: string)
    | Perform(after: Pods)
    | Die
    | Drift(drifted: Pods)

  function PlannedRun(req: Request, grace: Time, time: Time): World {
    World(req, grace, [Record(RunPlanned, InitialState(req))], [], [], {}, Pods({}, {}, false, time))
  }

  function Current(w: World): RunState
    requires w.journal != []
  {
    w.journal[|w.journal| - 1].state
  }

  /** A call takes the run lock only when nobody holds it. */
  function Begin(w: World, s: Script): World {
    if w.flight == [] then w.(flight := s.acts) else w
  }

  function AckOf(pod: PodId, op: OpId, reply: DeleteReply): set<PodId> {
    if reply.Deleted? && reply.acknowledged && reply.op == op then {pod} else {}
  }

  function PerformNext(w: World, after: Pods): World {
    if w.flight == [] then w
    else
      var rest := w.(flight := w.flight[1..]);
      match w.flight[0]
      case Commit(kind, state) => rest.(journal := w.journal + [Record(kind, state)])
      case CallCreate(op, _) => rest.(creates := w.creates + [CreateCall(op, |w.journal|)], pods := after)
      case CallStart(_, _, _) => rest.(pods := after)
      case CallDelete(pod, op, reply) => rest.(acks := w.acks + AckOf(pod, op, reply), pods := after)
  }

  /** The script a public call runs on the current state; internal steps have none. */
  function CallScript(w: World, step: Step): Script
    requires w.journal != []
  {
    match step
    case Reconcile(replies) => ReconcileScript(w.req, w.grace, Current(w), replies)
    case RecordResult(result) => ResultScript(Current(w), result)
    case RecordDisposition(d) => DispositionScript(Current(w), d)
    case RequestStop(reason) => StopScript(Current(w), reason)
    case _ => Script([], Returned(Current(w)))
  }

  function Next(w: World, step: Step): (n: World)
    requires w.journal != []
    ensures n.journal != []
  {
    match step
    case Perform(after) => PerformNext(w, after)
    case Die => w.(flight := [])
    case Drift(pods) => w.(pods := pods)
    case _ => Begin(w, CallScript(w, step))
  }

  function Run(w: World, steps: seq<Step>): (n: World)
    requires w.journal != []
    ensures n.journal != []
  {
    if steps == [] then w else Next(Run(w, steps[..|steps| - 1]), steps[|steps| - 1])
  }

  // ---- the invariant of a durable state ----

  predicate Early(l: Lifecycle) {
    l == Planned || l == Provisioning || l == Starting || l == Running
  }

  predicate OperationsOk(st: RunState) {
    && (st.provision.Some? ==>
          && st.provision.value.id == OpId(st.runId, Provision)
          && st.provision.value.attempts <= 1
          && (st.provision.value.status == Intended ==> st.provision.value.attempts == 0)
          && (Uncertain(st.provision.value.status) ==> st.provision.value.attempts == 1))
    && (st.provision.Some? && st.provision.value.status in {Observed, Conflict} ==> st.resource.Some?)
    && (st.resource.Some? ==> st.provision.Some?)
    && (st.start.Some? ==> st.start.value.id == OpId(st.runId, Start))
    && (st.delete.Some? ==> st.delete.value.id == OpId(st.runId, Delete))
  }

  predicate ProgressOk(st: RunState) {
    && (Early(st.lifecycle) ==>
          && st.result.None?
          && st.closeout == Closeout(None, false, false, false, None, None, None, false, None, [])
          && st.quarantined.None?
          && st.recoveryReason.None?)
    && (st.lifecycle == Planned ==> st.provision.None? && st.start.None? && st.resource.None?)
    && (st.lifecycle == Provisioning ==>
          && st.resource.None?
          && st.provision.Some?
          && st.provision.value.status in {Intended, Dispatched, OutcomeUnknown, OpFailed}
          && (st.provision.value.attempts == 0 <==> st.provision.value.status == Intended))
    && (st.lifecycle == Starting || st.lifecycle == Running ==>
          st.resource.Some? && st.start.Some? && st.provision.Some? && st.provision.value.status == Observed)
    && (st.lifecycle == Deleting ==> st.closeout.disposition.Some? && st.delete.Some?)
    && (st.quarantined.Some? ==>
          st.quarantined.value != [] && st.resource.Some? && st.resource.value.id == st.quarantined.value[0])
  }

  /** The evidence collected stage by stage towards closing. */
  predicate EvidenceOk(req: Request, st: RunState) {
    var c := st.closeout;
    && (c.deleteAcknowledged ==>
          && c.disposition.Some?
          && !AbsenceOpen(st)
          && AllIn(DeleteIds(st), c.acknowledgedIds))
    && (c.providerNotFound ==> c.deleteAcknowledged)
    && (c.scope.Some? ==> c.providerNotFound && CurrentScope(req, st) == Success(c.scope.value))
    && (c.absenceConfirmed ==> ResolutionComplete(req, st) == Success(true))
    && (st.lifecycle == Closed ==> CloseoutReady(req, st) == Success(true))
  }

  predicate StateOk(req: Request, st: RunState) {
    && st.runId == req.runId
    && OperationsOk(st)
    && ProgressOk(st)
    && EvidenceOk(req, st)
  }

  /** What one committed state may change of the one before it. */
  predicate Follows(st: RunState, s: RunState) {
    && st.lifecycle != Closed
    && s.runId == st.runId && s.approvedMaxUsd == st.approvedMaxUsd && s.protocol == st.protocol
    && (st.result.Some? ==> s.result == st.result)
    && (st.closeout.disposition.Some? ==> s.closeout.disposition == st.closeout.disposition)
    && (Rank(s.lifecycle) >= Rank(st.lifecycle)
      || (st.lifecycle == Deleting && st.result.None? && s.lifecycle == Recovering))
    && (st.provision.Some? ==> s.provision.Some? && s.provision.value.attempts >= st.provision.value.attempts)
    && (st.quarantined.Some? ==> s.quarantined == st.quarantined)
    && (st.resource.Some? ==> s.resource.Some?)
    && st.closeout.acknowledgedIds <= s.closeout.acknowledgedIds
    && (st.closeout.absenceConfirmed ==> s.closeout.absenceConfirmed)
    && (st.closeout.deleteAcknowledged ==> s.closeout.deleteAcknowledged)
    && (st.closeout.providerNotFound ==> s.closeout.providerNotFound)
    && (!Early(st.lifecycle) ==> s.provision == st.provision)
    && (!Early(st.lifecycle) && st.resource.Some? ==> s.resource == st.resource)
    && ((st.lifecycle == Running || st.lifecycle == Recovering) && s.lifecycle == Recovering ==>
          s.result.Some? && s == st.(lifecycle := Recovering, result := s.result))
  }

  /** How often `create` was called, as far as the durable state tells. */
  predicate CreatesOk(st: RunState, n: nat) {
    && n <= 1
    && (n == 1 ==> st.provision.Some? && st.provision.value.attempts == 1)
  }

  /** No acknowledgement is recorded that the provider did not give. */
  predicate Covered(st: RunState, acks: set<PodId>) {
    forall i :: 0 <= i < |st.closeout.acknowledgedIds| ==> st.closeout.acknowledgedIds[i] in acks
  }

  /** Everything the lock holder is still about to do keeps the invariant. */
  predicate FlightOk(req: Request, st: RunState, n: nat, acks: set<PodId>, flight: seq<Action>)
    decreases |flight|
  {
    flight == [] ||
    match flight[0]
    case Commit(_, s) => StateOk(req, s) && Follows(st, s) && Covered(s, acks) && FlightOk(req, s, n, acks, flight[1..])
    case CallCreate(op, _) =>
      && n == 0
      && st.lifecycle == Provisioning
      && st.provision.Some?
      && st.provision.value.id == op
      && st.provision.value.status == Dispatched
      && FlightOk(req, st, 1, acks, flight[1..])
    case CallStart(_, _, _) => st.lifecycle == Starting && FlightOk(req, st, n, acks, flight[1..])
    case CallDelete(pod, op, reply) =>
      && st.lifecycle == Deleting
      && pod in DeleteIds(st)
      && FlightOk(req, st, n, acks + AckOf(pod, op, reply), flight[1..])
  }

  /** The journal held a dispatched record of the same operation when the call was made. */
  predicate CreateRecorded(journal: seq<Record>, call: CreateCall) {
    && 0 < call.at <= |journal|
    && var st := journal[call.at - 1].state;
    && st.provision.Some?
    && st.provision.value.id == call.op
    && st.provision.value.status == Dispatched
  }

  predicate CreatesRecorded(journal: seq<Record>, creates: seq<CreateCall>) {
    forall i :: 0 <= i < |creates| ==> CreateRecorded(journal, creates[i])
  }

  predicate JournalOk(req: Request, journal: seq<Record>) {
    && (forall i :: 0 <= i < |journal| ==> StateOk(req, journal[i].state))
    && (forall i :: 0 < i < |journal| ==> Follows(journal[i - 1].state, journal[i].state))
  }

  predicate WorldOk(w: World) {
    && w.journal != []
    && JournalOk(w.req, w.journal)
    && CreatesOk(Current(w), |w.creates|)
    && CreatesRecorded(w.journal, w.creates)
    && Covered(Current(w), w.acks)
    && FlightOk(w.req, Current(w), |w.creates|, w.acks, w.flight)
  }

  // ---- every script keeps the invariant ----

  lemma CommitOk(req: Request, st: RunState, n: nat, acks: set<PodId>, kind: EventKind, s: RunState)
    requires StateOk(req, s) && Follows(st, s) && Covered(s, acks)
    ensures FlightOk(req, st, n, acks, [Commit(kind, s)])
  {
  }

  lemma RejectionOk(req: Request, st: RunState, n: nat, acks: set<PodId>, kind: OperationKind, op: Operation,
                    ids: seq<PodId>, message: string)
    requires StateOk(req, st) && Covered(st, acks) && (st.lifecycle == Provisioning || st.lifecycle == Starting)
    requires kind == Provision ==> st.provision.Some? && op == st.provision.value
    requires kind == Start ==> op.id == OpId(st.runId, Start)
    requires kind != Delete
    ensures FlightOk(req, st, n, acks, Rejection(st, kind, op, ids, message).acts)
  {
    if kind == Start {
      StartRejectionOk(req, st, n, acks, op, ids, message);
    } else {
      ProvisionRejectionOk(req, st, n, acks, op, ids, message);
    }
  }

  lemma ProvisionRejectionOk(req: Request, st: RunState, n: nat, acks: set<PodId>, op: Operation, ids: seq<PodId>,
      message: string)
    requires StateOk(req, st) && Covered(st, acks) && (st.lifecycle == Provisioning || st.lifecycle == Starting)
    requires st.provision.Some? && op == st.provision.value
    ensures FlightOk(req, st, n, acks, Rejection(st, Provision, op, ids, message).acts)
  {
    if ids == [] {
    }
  }

  lemma StartRejectionOk(req: Request, st: RunState, n: nat, acks: set<PodId>, op: Operation, ids: seq<PodId>,
      message: string)
    requires StateOk(req, st) && Covered(st, acks) && (st.lifecycle == Provisioning || st.lifecycle == Starting)
    requires op.id == OpId(st.runId, Start)
    ensures FlightOk(req, st, n, acks, Rejection(st, Start, op, ids, message).acts)
  {
    if ids == [] {
    }
  }

  lemma ProvisionedOk(req: Request, st: RunState, n: nat, acks: set<PodId>, op: Operation, view: PodView)
    requires StateOk(req, st) && Covered(st, acks) && st.lifecycle == Provisioning && st.provision == Some(op)
    ensures FlightOk(req, st, n, acks, RecordProvisioned(st, op, view).acts)
  {
  }

  lemma VisibilityOk(req: Request, st: RunState, n: nat, acks: set<PodId>, op: Operation, grace: Time, now: Time)
    requires StateOk(req, st) && Covered(st, acks) && st.lifecycle == Provisioning && st.provision == Some(op)
      && op.status != Intended
    ensures FlightOk(req, st, n, acks, ObserveVisibility(st, op, grace, now).acts)
  {
  }

  lemma AfterCreateOk(req: Request, st: RunState, n: nat, acks: set<PodId>, op: Operation, reply: CreateReply)
    requires StateOk(req, st) && Covered(st, acks) && st.lifecycle == Provisioning && st.provision == Some(op)
      && op.status == Dispatched
    ensures FlightOk(req, st, n, acks, AfterCreate(st, op, reply).acts)
  {
    match reply
    case CreateRejected(ids, message) => RejectionOk(req, st, n, acks, Provision, op, ids, message);
    case CreateUnknown(message) =>
    case CreateFailed(message) =>
    case Created(view) => ProvisionedOk(req, st, n, acks, op, view);
  }

  lemma DispatchOk(req: Request, st: RunState, n: nat, acks: set<PodId>, op: Operation, r: Replies)
    requires StateOk(req, st) && Covered(st, acks) && CreatesOk(st, n)
    requires st.lifecycle == Provisioning && st.provision == Some(op) && op.status == Intended
    ensures FlightOk(req, st, n, acks, Dispatch(st, op, r).acts)
  {
    var sent := op.(attempts := op.attempts + 1, status := Dispatched, dispatchedAt := Some(r.now));
    var s := st.(provision := Some(sent));
    var after := AfterCreate(s, sent, r.create).acts;
    assert StateOk(req, s) && Follows(st, s);
    AfterCreateOk(req, s, 1, acks, sent, r.create);
    var acts := Dispatch(st, op, r).acts;
    assert acts[1..][1..] == after;
    assert acts[1..][0] == CallCreate(op.id, r.create);
    assert FlightOk(req, s, n, acks, acts[1..]);
  }

  lemma ProvisionOk(req: Request, grace: Time, st: RunState, n: nat, acks: set<PodId>, r: Replies)
    requires StateOk(req, st) && Covered(st, acks) && CreatesOk(st, n) && st.lifecycle == Provisioning
    ensures FlightOk(req, st, n, acks, ProvisionScript(req, grace, st, r).acts)
  {
    var op := st.provision.value;
    match r.find
    case FindError =>
    case FindRejected(ids, message) => RejectionOk(req, st, n, acks, Provision, op, ids, message);
    case Found(views) =>
      if |views| > 1 {
      } else if |views| == 1 {
        ProvisionedOk(req, st, n, acks, op, views[0]);
      } else if op.status != Intended {
        VisibilityOk(req, st, n, acks, op, grace, r.now);
      } else if !req.provider.Malformed? {
        DispatchOk(req, st, n, acks, op, r);
      }
  }

  lemma StartOk(req: Request, st: RunState, n: nat, acks: set<PodId>, r: Replies)
    requires StateOk(req, st) && Covered(st, acks) && st.lifecycle == Starting
    ensures FlightOk(req, st, n, acks, StartScript(st, r).acts)
  {
    var pod, op := st.resource.value.id, st.start.value;
    match r.get
    case GetError =>
    case GetRejected(ids, message) => RejectionOk(req, st, n, acks, Start, op, ids, message);
    case Absent =>
    case Got(view) => if view.state != PodRunning { StartCallOk(req, st, n, acks, view, r); }
  }

  lemma StartCallOk(req: Request, st: RunState, n: nat, acks: set<PodId>, view: PodView, r: Replies)
    requires StateOk(req, st) && Covered(st, acks) && st.lifecycle == Starting
    requires r.get == Got(view) && view.state != PodRunning
    ensures FlightOk(req, st, n, acks, StartScript(st, r).acts)
  {
    var tried := st.start.value.(attempts := st.start.value.attempts + 1);
    var s := st.(resource := Some(Projected(view)), start := Some(tried));
    AfterStartOk(req, st, s, n, acks, tried, r.start);
    assert StartScript(st, r).acts[1..] == AfterStart(s, tried, r.start).acts;
  }

  /** The action after a start call is judged against the state committed before it. */
  lemma AfterStartOk(req: Request, st: RunState, s: RunState, n: nat, acks: set<PodId>, op: Operation,
      reply: StartReply)
    requires StateOk(req, st) && Covered(st, acks) && st.lifecycle == Starting
    requires op.id == OpId(st.runId, Start)
    requires s.resource.Some? && s == st.(resource := s.resource, start := Some(op))
    ensures FlightOk(req, st, n, acks, AfterStart(s, op, reply).acts)
  {
    match reply
    case StartRejected(ids, _) => if ids == [] {}
    case StartUnknown(_) =>
    case StartFailed(_) =>
    case Started(view) => if view.state == PodRunning {}
  }

  lemma AbsenceWindowOk(req: Request, st: RunState, n: nat, acks: set<PodId>, op: Operation,
      deadline: Option<Deadline>, now: Time)
    requires StateOk(req, st) && Covered(st, acks) && st.lifecycle == Deleting && AbsenceOpen(st)
      && st.provision == Some(op)
    requires op.attempts > 0
    requires if DeadlineRequired(op) then deadline == Some(TerminationDeadline(req)) && deadline.value.At?
      else deadline.None?
    ensures FlightOk(req, st, n, acks, AbsenceWindow(st, op, deadline, now).acts)
  {
  }

  lemma AbsenceOk(req: Request, st: RunState, n: nat, acks: set<PodId>, r: Replies)
    requires StateOk(req, st) && Covered(st, acks) && st.lifecycle == Deleting && AbsenceOpen(st)
    ensures FlightOk(req, st, n, acks, AbsenceScript(req, st, st.provision.value, r).acts)
  {
    var op := st.provision.value;
    if r.find == Found([]) && op.attempts != 0 {
      if DeadlineRequired(op) {
        if TerminationDeadline(req).At? {
          AbsenceWindowOk(req, st, n, acks, op, Some(TerminationDeadline(req)), r.now);
        }
      } else {
        AbsenceWindowOk(req, st, n, acks, op, None, r.now);
      }
    }
  }

  lemma AfterDeleteOk(req: Request, st: RunState, s: RunState, n: nat, acks: set<PodId>, op: Operation, pod: PodId,
      reply: DeleteReply)
    requires StateOk(req, st) && Covered(st, acks) && st.lifecycle == Deleting
    requires !AbsenceOpen(st) && !st.closeout.deleteAcknowledged
    requires op.id == OpId(st.runId, Delete) && s == st.(delete := Some(op))
    ensures FlightOk(req, st, n, acks + AckOf(pod, op.id, reply), AfterDelete(s, op, pod, reply).acts)
  {
    assert StateOk(req, s);
    if reply.Deleted? {
      var acts := RecordDeleteReceipt(s, op, pod, reply).acts;
      if acts != [] {
        assert Covered(acts[0].state, acks + AckOf(pod, op.id, reply));
      }
    }
  }

  lemma DeletePendingOk(req: Request, st: RunState, n: nat, acks: set<PodId>, r: Replies)
    requires StateOk(req, st) && Covered(st, acks) && st.lifecycle == Deleting
    requires !AbsenceOpen(st) && !st.closeout.deleteAcknowledged
    ensures FlightOk(req, st, n, acks, DeletePending(st, st.delete.value, r).acts)
  {
    var op := st.delete.value;
    var pending := FirstPending(DeleteIds(st), st.closeout.acknowledgedIds);
    if pending.Some? {
      var tried := op.(attempts := op.attempts + 1);
      var s := st.(delete := Some(tried));
      AfterDeleteOk(req, st, s, n, acks, tried, pending.value, r.delete);
      var after := AfterDelete(s, tried, pending.value, r.delete).acts;
      assert DeletePending(st, op, r).acts == [CallDelete(pending.value, tried.id, r.delete)] + after;
    } else {
      NothingPendingOk(req, st, n, acks, r);
    }
  }

  lemma NothingPendingOk(req: Request, st: RunState, n: nat, acks: set<PodId>, r: Replies)
    requires StateOk(req, st) && Covered(st, acks) && st.lifecycle == Deleting
    requires !AbsenceOpen(st) && !st.closeout.deleteAcknowledged
    requires FirstPending(DeleteIds(st), st.closeout.acknowledgedIds).None?
    ensures FlightOk(req, st, n, acks, DeletePending(st, st.delete.value, r).acts)
  {
    var s := DeletePending(st, st.delete.value, r).acts[0].state;
    assert DeleteIds(s) == DeleteIds(st);
    assert EvidenceOk(req, s);
    assert StateOk(req, s) && Follows(st, s);
    CommitOk(req, st, n, acks, DeleteAcknowledgedEvent, s);
    assert DeletePending(st, st.delete.value, r).acts == [Commit(DeleteAcknowledgedEvent, s)];
  }

  lemma SpendKeepsScope(req: Request, st: RunState, s: RunState)
    requires s ==
      st.(closeout := st.closeout.(spend := s.closeout.spend, scope := s.closeout.scope), lifecycle := s.lifecycle)
    ensures ResolutionComplete(req, s) == ResolutionComplete(req, st)
    ensures CurrentScope(req, s) == CurrentScope(req, st)
  {
  }

  lemma SpendStateOk(req: Request, st: RunState, s: RunState)
    requires StateOk(req, st) && st.lifecycle == Deleting && st.closeout.providerNotFound
    requires s ==
      st.(closeout := st.closeout.(spend := s.closeout.spend, scope := s.closeout.scope), lifecycle := s.lifecycle)
    requires s.closeout.scope.Some? && CurrentScope(req, st) == Success(s.closeout.scope.value)
    requires s.lifecycle == Deleting || (s.lifecycle == Closed && CloseoutReady(req, s) == Success(true))
    ensures StateOk(req, s) && Follows(st, s)
  {
    SpendKeepsScope(req, st, s);
    assert DeleteIds(s) == DeleteIds(st);
  }

  lemma SpendVerdictOk(req: Request, st: RunState, n: nat, acks: set<PodId>, scope: SpendScope, usdPerHour: Money)
    requires StateOk(req, st) && Covered(st, acks) && st.lifecycle == Deleting && st.closeout.providerNotFound
    requires CurrentScope(req, st) == Success(scope)
    ensures FlightOk(req, st, n, acks, SpendVerdict(req, st, scope, usdPerHour).acts)
  {
    var acts := SpendVerdict(req, st, scope, usdPerHour).acts;
    var s := st.(closeout := st.closeout.(spend := Some(usdPerHour), scope := Some(scope)));
    if usdPerHour != 0 {
      SpendStateOk(req, st, s);
      CommitOk(req, st, n, acks, SpendObserved, s);
    } else if CloseoutReady(req, s) == Success(true) {
      SpendKeepsScope(req, s, s.(lifecycle := Closed));
      SpendStateOk(req, st, s.(lifecycle := Closed));
      CommitOk(req, st, n, acks, CloseoutCompleted, s.(lifecycle := Closed));
    }
  }

  lemma SpendOk(req: Request, st: RunState, n: nat, acks: set<PodId>, r: Replies)
    requires StateOk(req, st) && Covered(st, acks) && st.lifecycle == Deleting && st.closeout.providerNotFound
    ensures FlightOk(req, st, n, acks, SpendScript(req, st, r).acts)
  {
    match CurrentScope(req, st)
    case Failure(_) =>
    case Success(scope) =>
      var spend := if scope.RunScope? || scope.OperationScope? then Spend(0) else r.spend;
      if spend.Spend? {
        SpendVerdictOk(req, st, n, acks, scope, spend.usdPerHour);
      }
  }

  lemma DeleteOk(req: Request, st: RunState, n: nat, acks: set<PodId>, r: Replies)
    requires StateOk(req, st) && Covered(st, acks) && st.lifecycle == Deleting
    ensures FlightOk(req, st, n, acks, DeleteScript(req, st, r).acts)
  {
    if AbsenceOpen(st) {
      AbsenceOk(req, st, n, acks, r);
    } else if !st.closeout.deleteAcknowledged {
      DeletePendingOk(req, st, n, acks, r);
    } else if st.closeout.providerNotFound {
      SpendOk(req, st, n, acks, r);
    }
  }

  lemma ReconcileOk(req: Request, grace: Time, st: RunState, n: nat, acks: set<PodId>, r: Replies)
    requires StateOk(req, st) && Covered(st, acks) && CreatesOk(st, n)
    ensures FlightOk(req, st, n, acks, ReconcileScript(req, grace, st, r).acts)
  {
    match st.lifecycle
    case Provisioning => ProvisionOk(req, grace, st, n, acks, r);
    case Starting => StartOk(req, st, n, acks, r);
    case Deleting => DeleteOk(req, st, n, acks, r);
    case _ =>
  }

  lemma ResultOk(req: Request, st: RunState, n: nat, acks: set<PodId>, result: WorkloadResult)
    requires StateOk(req, st) && Covered(st, acks)
    ensures FlightOk(req, st, n, acks, ResultScript(st, result).acts)
  {
  }

  lemma DispositionOk(req: Request, st: RunState, n: nat, acks: set<PodId>, d: Disposition)
    requires StateOk(req, st) && Covered(st, acks)
    ensures FlightOk(req, st, n, acks, DispositionScript(st, d).acts)
  {
  }

  lemma StopOk(req: Request, st: RunState, n: nat, acks: set<PodId>, reason: string)
    requires StateOk(req, st) && Covered(st, acks)
    ensures FlightOk(req, st, n, acks, StopScript(st, reason).acts)
  {
  }

  lemma CallOk(w: World, step: Step)
    requires WorldOk(w)
    ensures FlightOk(w.req, Current(w), |w.creates|, w.acks, CallScript(w, step).acts)
  {
    match step
    case Reconcile(r) => ReconcileOk(w.req, w.grace, Current(w), |w.creates|, w.acks, r);
    case RecordResult(result) => ResultOk(w.req, Current(w), |w.creates|, w.acks, result);
    case RecordDisposition(d) => DispositionOk(w.req, Current(w), |w.creates|, w.acks, d);
    case RequestStop(reason) => StopOk(w.req, Current(w), |w.creates|, w.acks, reason);
    case _ =>
  }

  lemma JournalGrows(req: Request, journal: seq<Record>, record: Record)
    requires journal != [] && JournalOk(req, journal)
    requires StateOk(req, record.state) && Follows(journal[|journal| - 1].state, record.state)
    ensures JournalOk(req, journal + [record])
  {
  }

  lemma RecordsStay(journal: seq<Record>, record: Record, creates: seq<CreateCall>)
    requires CreatesRecorded(journal, creates)
    ensures CreatesRecorded(journal + [record], creates)
  {
    forall i | 0 <= i < |creates|
      ensures CreateRecorded(journal + [record], creates[i])
    {
      assert CreateRecorded(journal, creates[i]);
    }
  }

  lemma PerformCommitOk(w: World)
    requires WorldOk(w) && w.flight != [] && w.flight[0].Commit?
    ensures WorldOk(PerformNext(w, w.pods))
  {
    var s := w.flight[0].state;
    var record := Record(w.flight[0].kind, s);
    JournalGrows(w.req, w.journal, record);
    RecordsStay(w.journal, record, w.creates);
    var n := PerformNext(w, w.pods);
    assert n.journal == w.journal + [record];
    assert Current(n) == s;
  }

  lemma PerformCreateOk(w: World, after: Pods)
    requires WorldOk(w) && w.flight != [] && w.flight[0].CallCreate?
    ensures WorldOk(PerformNext(w, after))
  {
    var n := PerformNext(w, after);
    var call := CreateCall(w.flight[0].op, |w.journal|);
    assert w.creates == [];
    assert n.creates == [call] && CreateRecorded(w.journal, call);
  }

  lemma PerformDeleteOk(w: World, after: Pods)
    requires WorldOk(w) && w.flight != [] && w.flight[0].CallDelete?
    ensures WorldOk(PerformNext(w, after))
  {
    var n := PerformNext(w, after);
    assert n.journal == w.journal && n.creates == w.creates;
    assert Covered(Current(w), n.acks);
  }

  lemma PerformOk(w: World, after: Pods)
    requires WorldOk(w)
    ensures WorldOk(PerformNext(w, after))
  {
    if w.flight != [] {
      match w.flight[0]
      case Commit(_, _) => PerformCommitOk(w);
      case CallCreate(_, _) => PerformCreateOk(w, after);
      case CallStart(_, _, _) => assert PerformNext(w, after).journal == w.journal;
      case CallDelete(_, _, _) => PerformDeleteOk(w, after);
    }
  }

  lemma BeginOk(w: World, script: Script)
    requires WorldOk(w)
    requires FlightOk(w.req, Current(w), |w.creates|, w.acks, script.acts)
    ensures WorldOk(Begin(w, script))
  {
    var n := Begin(w, script);
    assert n.journal == w.journal && n.creates == w.creates;
  }

  lemma NextOk(w: World, step: Step)
    requires WorldOk(w)
    ensures WorldOk(Next(w, step))
  {
    match step
    case Perform(after) => PerformOk(w, after);
    case Die => DieOk(w);
    case Drift(pods) => DriftOk(w, pods);
    case _ => BeginCallOk(w, step);
  }

  lemma DieOk(w: World)
    requires WorldOk(w)
    ensures WorldOk(w.(flight := []))
  {
    var n := w.(flight := []);
    assert n.journal == w.journal && n.creates == w.creates;
  }

  lemma DriftOk(w: World, pods: Pods)
    requires WorldOk(w)
    ensures WorldOk(w.(pods := pods))
  {
    var n := w.(pods := pods);
    assert n.journal == w.journal && n.creates == w.creates;
  }

  lemma BeginCallOk(w: World, step: Step)
    requires WorldOk(w)
    ensures WorldOk(Begin(w, CallScript(w, step)))
  {
    CallOk(w, step);
    BeginOk(w, CallScript(w, step));
  }

  /** Every reachable world satisfies the invariant. */
  lemma {:induction false} RunOk(w: World, steps: seq<Step>)
    requires WorldOk(w)
    ensures WorldOk(Run(w, steps))
  {
    if steps != [] {
      RunOk(w, steps[..|steps| - 1]);
      NextOk(Run(w, steps[..|steps| - 1]), steps[|steps| - 1]);
    }
  }

  lemma PlannedRunOk(req: Request, grace: Time, time: Time)
    ensures WorldOk(PlannedRun(req, grace, time))
  {
  }
}
