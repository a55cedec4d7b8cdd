/**
  What is told is recorded: for every reply the provider can give at each stage
  of the lifecycle, and for every call of workload and operator, what the
  durable state is afterwards and which calls reached the provider.
 */
module LifecycleAnswers {
  import opened Prelude
  import opened LifecycleState
  import opened LifecycleRuns
  import opened LifecycleSafety
  import opened LifecycleProgress
  import opened LifecycleEvidence

  /** The actions of a script that reach the provider. */
  function ProviderCalls(acts: seq<Action>): seq<Action> {
    if acts == [] then [] else (if acts[0].Commit? then [] else [acts[0]]) + ProviderCalls(acts[1..])
  }

  function Afterwards(w: World, step: Step): RunState
    requires w.journal != []
  {
    After(Current(w), CallScript(w, step))
  }

  function Asked(w: World, step: Step): seq<Action>
    requires w.journal != []
  {
    ProviderCalls(CallScript(w, step).acts)
  }

  lemma OneCommit(st: RunState, script: Script, kind: EventKind, s: RunState)
    requires script.acts == [Commit(kind, s)]
    ensures After(st, script) == s && ProviderCalls(script.acts) == []
  {
    assert ProviderCalls(script.acts[1..]) == [];
  }

  lemma OneCall(st: RunState, script: Script, call: Action)
    requires !call.Commit? && script.acts == [call]
    ensures After(st, script) == st && ProviderCalls(script.acts) == [call]
  {
    assert script.acts[1..] == [] && script.acts[..0] == [];
    assert After(st, Script(script.acts[..0], script.outcome)) == st;
  }

  lemma CallThenCommit(st: RunState, script: Script, call: Action, kind: EventKind, s: RunState)
    requires !call.Commit? && script.acts == [call, Commit(kind, s)]
    ensures After(st, script) == s && ProviderCalls(script.acts) == [call]
  {
    var rest := script.acts[1..];
    assert rest == [Commit(kind, s)] && rest[1..] == [];
    assert ProviderCalls(rest) == [];
  }

  lemma CommitThenCall(st: RunState, script: Script, kind: EventKind, s: RunState, call: Action)
    requires !call.Commit? && script.acts == [Commit(kind, s), call]
    ensures After(st, script) == s && ProviderCalls(script.acts) == [call]
  {
    assert script.acts[..1] == [Commit(kind, s)];
    var rest := script.acts[1..];
    assert rest == [call] && rest[1..] == [];
    assert ProviderCalls(rest) == [call];
  }

  lemma CallBetween(st: RunState, script: Script, kind: EventKind, s: RunState, call: Action, last: EventKind,
      t: RunState)
    requires !call.Commit? && script.acts == [Commit(kind, s), call, Commit(last, t)]
    ensures After(st, script) == t && ProviderCalls(script.acts) == [call]
  {
    var rest := script.acts[1..];
    assert rest == [call, Commit(last, t)];
    CallThenCommit(st, Script(rest, script.outcome), call, last, t);
  }

  // ---- provisioning ----

  /** Looking for the pod of the run. */
  lemma LookupAnswered(w: World, r: Replies)
    requires Reachable(w) && Current(w).lifecycle == Provisioning
    requires r.find.Found? && r.find.views != []
    ensures var st, script, views := Current(w), CallScript(w, Reconcile(r)), r.find.views;
      var after := Afterwards(w, Reconcile(r));
      && Asked(w, Reconcile(r)) == []
      && (|views| > 1 ==>
        after.lifecycle == Deleting && after.result == Some(Cancelled) && DeleteIds(after) == ViewIds(views))
      && (|views| == 1 && views[0].run == st.runId && views[0].op == OpId(st.runId, Provision) ==>
            after.lifecycle == Starting && after.resource == Some(Projected(views[0])))
      && (|views| == 1 && !(views[0].run == st.runId && views[0].op == OpId(st.runId, Provision)) ==>
            script == Raise(ProviderProtocol))
  {
    ReachableOk(w);
    var st, script := Current(w), CallScript(w, Reconcile(r));
    if script.acts != [] {
      OneCommit(st, script, script.acts[0].kind, script.acts[0].state);
    }
  }

  /** The one create of the run, and what each answer to it leaves. */
  lemma CreateAnswered(w: World, r: Replies)
    requires Reachable(w) && Current(w).lifecycle == Provisioning && r.find == Found([])
    requires Current(w).provision.Some? && Current(w).provision.value.status == Intended && !w.req.provider.Malformed?
    ensures var st, script, after := Current(w), CallScript(w, Reconcile(r)), Afterwards(w, Reconcile(r));
      var op := OpId(st.runId, Provision);
      && Asked(w, Reconcile(r)) == [CallCreate(op, r.create)] && after.provision.Some?
      && match r.create
         case Created(view) =>
           if view.run == st.runId && view.op == op then after.lifecycle == Starting
             && after.resource == Some(Projected(view))
           else script.outcome == Raised(ProviderProtocol) && after.lifecycle == Provisioning
                && after.provision.value.status == Dispatched
         case CreateRejected(ids, _) =>
           after.lifecycle == Deleting && after.result == Some(Cancelled) && DeleteIds(after) == ids
         case CreateUnknown(_) =>
           script.outcome == Raised(ProviderUnknown) && after.lifecycle == Provisioning
           && after.provision.value.status == OutcomeUnknown
         case CreateFailed(_) =>
           script.outcome == Raised(ProviderFailure) && after.lifecycle == Provisioning
           && after.provision.value.status == OpFailed
  {
    ReachableOk(w);
    var st, script := Current(w), CallScript(w, Reconcile(r));
    var first, call := script.acts[0].state, script.acts[1];
    if |script.acts| == 2 {
      CommitThenCall(st, script, script.acts[0].kind, first, call);
    } else {
      CallBetween(st, script, script.acts[0].kind, first, call, script.acts[2].kind, script.acts[2].state);
    }
  }

  /** A create that was sent and is not seen is waited for, given up after the grace, and never sent again. */
  lemma InvisibleAnswered(w: World, r: Replies)
    requires Reachable(w) && Current(w).lifecycle == Provisioning && r.find == Found([])
    requires Current(w).provision.Some? && Current(w).provision.value.status != Intended
    requires Current(w).provision.value.dispatchedAt.Some?
    ensures var st, script, after := Current(w), CallScript(w, Reconcile(r)), Afterwards(w, Reconcile(r));
      var waited := r.now - st.provision.value.dispatchedAt.value;
      && Asked(w, Reconcile(r)) == []
      && (waited < 0 ==> script == Raise(LifecycleConflict))
      && (0 <= waited < w.grace ==> after.lifecycle == Provisioning && after.result.None?)
      && (0 <= waited && w.grace <= waited ==>
            && after.lifecycle == Recovering && after.result == Some(Cancelled)
            && after.recoveryReason == Some(DispatchUnresolved) && after.resource.None?)
  {
    ReachableOk(w);
    var st, script := Current(w), CallScript(w, Reconcile(r));
    if script.acts != [] {
      OneCommit(st, script, script.acts[0].kind, script.acts[0].state);
    }
  }

  // ---- starting ----

  predicate StartRefused(r: Replies) {
    r.get.Absent? || r.get.GetRejected? || (r.get.Got? && r.get.view.state != PodRunning && r.start.StartRejected?)
  }

  /** The pod as the provider showed it last. */
  function LastView(r: Replies): PodView
    requires r.get.Got?
  {
    if r.get.view.state != PodRunning && r.start.Started? then r.start.view else r.get.view
  }

  lemma StartCase(st: RunState, r: Replies)
    requires st.lifecycle == Starting && st.result.None? && st.resource.Some? && st.start.Some?
    requires st.start.value.id == OpId(st.runId, Start)
    ensures var after := After(st, StartScript(st, r));
      && (after.lifecycle == Running <==> SaidRunning(r))
      && (after.lifecycle == Deleting <==> StartRefused(r))
      && (after.lifecycle in {Starting, Running, Deleting})
      && (SaidRunning(r) ==> after.resource == Some(Projected(LastView(r))) && after.result.None?)
    ensures ProviderCalls(StartScript(st, r).acts) ==
      if r.get.Got? && r.get.view.state != PodRunning
      then [CallStart(st.resource.value.id, OpId(st.runId, Start), r.start)] else []
  {
    var script := StartScript(st, r);
    if |script.acts| == 1 {
      OneCommit(st, script, script.acts[0].kind, script.acts[0].state);
    } else if |script.acts| == 2 {
      CallThenCommit(st, script, script.acts[0], script.acts[1].kind, script.acts[1].state);
    }
  }

  /** Starting: running exactly when the provider says so, deletion exactly when it refuses or has lost the pod. */
  lemma StartAnswered(w: World, r: Replies)
    requires Reachable(w) && Current(w).lifecycle == Starting
    ensures var st, after := Current(w), Afterwards(w, Reconcile(r));
      && (after.lifecycle == Running <==> SaidRunning(r))
      && (after.lifecycle == Deleting <==> StartRefused(r))
      && (after.lifecycle in {Starting, Running, Deleting})
      && (SaidRunning(r) ==> after.resource == Some(Projected(LastView(r))) && after.result.None?)
      && st.resource.Some?
      && Asked(w, Reconcile(r)) ==
           if r.get.Got? && r.get.view.state != PodRunning
           then [CallStart(st.resource.value.id, OpId(st.runId, Start), r.start)] else []
  {
    ReachableOk(w);
    StartCase(Current(w), r);
  }

  // ---- deleting ----

  lemma AbsenceCase(req: Request, st: RunState, r: Replies)
    requires st.lifecycle == Deleting && AbsenceOpen(st) && st.quarantined.None?
    ensures var script := AbsenceScript(req, st, st.provision.value, r);
      var after := After(st, script);
      && ProviderCalls(script.acts) == [] && after.lifecycle == Deleting
      && match r.find
         case FindError => script == Raise(ProviderFailure)
         case FindRejected(ids, _) => if ids == [] then script == Raise(ProviderFailure) else DeleteIds(after) == ids
         case Found(views) => if views != [] then DeleteIds(after) == ViewIds(views) else DeleteIds(after) == []
  {
    var script := AbsenceScript(req, st, st.provision.value, r);
    if script.acts != [] {
      var s := script.acts[0].state;
      OneCommit(st, script, script.acts[0].kind, s);
      match r.find
      case FindError =>
      case FindRejected(ids, _) => assert DeleteIds(s) == ids;
      case Found(views) =>
        if views == [] {
          assert DeleteIds(s) == [];
        } else {
          assert ViewIds(views)[0] == views[0].id;
          assert DeleteIds(s) == ViewIds(views);
        }
    }
  }

  /** A create without a recorded pod is looked up again: whatever turns up is to be deleted. */
  lemma AbsenceAnswered(w: World, r: Replies)
    requires Reachable(w) && Current(w).lifecycle == Deleting && AbsenceOpen(Current(w))
    ensures var st, script, after := Current(w), CallScript(w, Reconcile(r)), Afterwards(w, Reconcile(r));
      && Asked(w, Reconcile(r)) == [] && after.lifecycle == Deleting
      && match r.find
         case FindError => script == Raise(ProviderFailure)
         case FindRejected(ids, _) => if ids == [] then script == Raise(ProviderFailure) else DeleteIds(after) == ids
         case Found(views) => if views != [] then DeleteIds(after) == ViewIds(views) else DeleteIds(after) == []
  {
    ReachableOk(w);
    assert CallScript(w, Reconcile(r)) == AbsenceScript(w.req, Current(w), Current(w).provision.value, r);
    AbsenceCase(w.req, Current(w), r);
  }

  /** An uncertain create is given up exactly when the absence window has closed; its proof is the two readings. */
  lemma WindowAnswered(w: World, r: Replies)
    requires Reachable(w) && Current(w).lifecycle == Deleting && AbsenceOpen(Current(w)) && r.find == Found([])
    requires DeadlineRequired(Current(w).provision.value) && TerminationDeadline(w.req).At?
    ensures var st, after, d := Current(w), Afterwards(w, Reconcile(r)), TerminationDeadline(w.req);
      var first := st.closeout.absenceFirstAt;
      var open := first.Some? && first.value >= d.time && r.now >= d.time;
      && (after.closeout.absenceConfirmed <==> open && r.now - first.value >= ABSENCE_GRACE)
      && (after.closeout.absenceConfirmed ==>
            after.closeout.resolution == Some(Resolution(OpId(st.runId, Provision), d.text, first.value, r.now)))
      && (!after.closeout.absenceConfirmed ==>
            after.closeout.absenceFirstAt == if r.now < d.time then None else if open then first else Some(r.now))
  {
    ReachableOk(w);
    var st, script := Current(w), CallScript(w, Reconcile(r));
    OneCommit(st, script, script.acts[0].kind, script.acts[0].state);
  }

  lemma NonePendingCase(st: RunState, r: Replies)
    requires st.lifecycle == Deleting && st.delete.Some?
    requires FirstPending(DeleteIds(st), st.closeout.acknowledgedIds).None?
    ensures var script := DeletePending(st, st.delete.value, r);
      var after := After(st, script);
      && DeleteIds(after) == DeleteIds(st) && after.lifecycle == Deleting && after.closeout.deleteAcknowledged
      && ProviderCalls(script.acts) == [] && after.closeout.acknowledgedIds == st.closeout.acknowledgedIds
  {
    var script := DeletePending(st, st.delete.value, r);
    OneCommit(st, script, script.acts[0].kind, script.acts[0].state);
  }

  /** What the answer to a delete call leaves, on top of the state `st` with the call counted. */
  lemma ReceiptCase(st: RunState, op: Operation, pod: PodId, reply: DeleteReply)
    requires st.lifecycle == Deleting && !st.closeout.deleteAcknowledged
    requires (st.quarantined.Some? ==> st.quarantined.value != []) && pod in DeleteIds(st)
    requires pod !in st.closeout.acknowledgedIds
    ensures var acts, acked := AfterDelete(st, op, pod, reply).acts, st.closeout.acknowledgedIds;
      var given := reply.Deleted? && reply.acknowledged && reply.op == op.id;
      if acts == [] then reply.Deleted? && !given
      else
        && |acts| == 1 && acts[0].Commit?
        && var s := acts[0].state;
          && DeleteIds(s) == DeleteIds(st) && s.lifecycle == Deleting
          && s.closeout.acknowledgedIds == (if given then acked + [pod] else acked)
          && s.closeout.deleteAcknowledged == (given && AllIn(DeleteIds(st), acked + [pod]))
  {
  }

  lemma PendingCase(st: RunState, r: Replies, i: nat)
    requires st.lifecycle == Deleting && st.delete.Some? && st.delete.value.id == OpId(st.runId, Delete)
    requires !st.closeout.deleteAcknowledged && (st.quarantined.Some? ==> st.quarantined.value != [])
    requires i < |DeleteIds(st)| && FirstPending(DeleteIds(st), st.closeout.acknowledgedIds) == Some(DeleteIds(st)[i])
    ensures var script := DeletePending(st, st.delete.value, r);
      var after, ids, acked := After(st, script), DeleteIds(st), st.closeout.acknowledgedIds;
      var op := OpId(st.runId, Delete);
      && DeleteIds(after) == ids && after.lifecycle == Deleting
      && ProviderCalls(script.acts) == [CallDelete(ids[i], op, r.delete)]
      && after.closeout.acknowledgedIds ==
           (if r.delete.Deleted? && r.delete.acknowledged && r.delete.op == op then acked + [ids[i]] else acked)
      && (after.closeout.deleteAcknowledged <==> forall id :: id in ids ==> id in after.closeout.acknowledgedIds)
  {
    var script, ids, acked := DeletePending(st, st.delete.value, r), DeleteIds(st), st.closeout.acknowledgedIds;
    var tried := st.delete.value.(attempts := st.delete.value.attempts + 1);
    var s := st.(delete := Some(tried));
    var after := AfterDelete(s, tried, ids[i], r.delete).acts;
    assert DeleteIds(s) == ids;
    ReceiptCase(s, tried, ids[i], r.delete);
    assert script.acts == [CallDelete(ids[i], tried.id, r.delete)] + after;
    if after == [] {
      OneCall(st, script, script.acts[0]);
      AllAcknowledged(ids, acked);
    } else {
      CallThenCommit(st, script, script.acts[0], after[0].kind, after[0].state);
      AllAcknowledged(ids, after[0].state.closeout.acknowledgedIds);
    }
    assert ids[i] in ids && ids[i] !in acked;
  }

  lemma AllAcknowledged(ids: seq<PodId>, acked: seq<PodId>)
    ensures AllIn(ids, acked) <==> forall id :: id in ids ==> id in acked
  {
    if AllIn(ids, acked) {
      forall id | id in ids
        ensures id in acked
      {
        var k :| 0 <= k < |ids| && ids[k] == id;
      }
    }
  }

  /**
    The first id without an acknowledgement is deleted; only the provider's own
    acknowledgement of this very call counts.
   */
  lemma DeleteAnswered(w: World, r: Replies)
    requires Reachable(w) && Current(w).lifecycle == Deleting && !AbsenceOpen(Current(w))
    requires !Current(w).closeout.deleteAcknowledged
    ensures DeleteStep(Current(w), r, Afterwards(w, Reconcile(r)), Asked(w, Reconcile(r)))
  {
    ReachableOk(w);
    var st := Current(w);
    assert CallScript(w, Reconcile(r)) == DeletePending(st, st.delete.value, r);
    PendingAnswered(w.req, st, r);
  }

  ghost predicate DeleteStep(st: RunState, r: Replies, after: RunState, asked: seq<Action>) {
    var ids, acked, op := DeleteIds(st), st.closeout.acknowledgedIds, OpId(st.runId, Delete);
    && DeleteIds(after) == ids && after.lifecycle == Deleting
    && (after.closeout.deleteAcknowledged <==> forall id :: id in ids ==> id in after.closeout.acknowledgedIds)
    && if forall id :: id in ids ==> id in acked
       then asked == [] && after.closeout.acknowledgedIds == acked
       else
         exists i :: 0 <= i < |ids| && ids[i] !in acked && (forall j :: 0 <= j < i ==> ids[j] in acked)
           && asked == [CallDelete(ids[i], op, r.delete)]
           && after.closeout.acknowledgedIds ==
                if r.delete.Deleted? && r.delete.acknowledged && r.delete.op == op then acked + [ids[i]] else acked
  }

  lemma PendingAnswered(req: Request, st: RunState, r: Replies)
    requires StateOk(req, st) && st.lifecycle == Deleting && !AbsenceOpen(st) && !st.closeout.deleteAcknowledged
    ensures var script := DeletePending(st, st.delete.value, r);
      DeleteStep(st, r, After(st, script), ProviderCalls(script.acts))
  {
    var ids, acked := DeleteIds(st), st.closeout.acknowledgedIds;
    if FirstPending(ids, acked).Some? {
      var i := FirstPendingAt(ids, acked);
      PendingCase(st, r, i);
    } else {
      NonePendingCase(st, r);
    }
  }

  lemma {:induction false} FirstPendingAt(ids: seq<PodId>, acked: seq<PodId>) returns (i: nat)
    requires FirstPending(ids, acked).Some?
    ensures i < |ids| && FirstPending(ids, acked) == Some(ids[i]) && ids[i] !in acked
    ensures forall j :: 0 <= j < i ==> ids[j] in acked
  {
    if ids[0] !in acked {
      i := 0;
    } else {
      var k := FirstPendingAt(ids[1..], acked);
      i := k + 1;
    }
  }

  lemma NotFoundCase(st: RunState, r: Replies)
    requires !st.closeout.providerNotFound && (st.resource.Some? ==> st.provision.Some?)
    requires st.quarantined.Some? ==> st.resource.Some?
    ensures After(st, ConfirmNotFound(st, r)) == st.(closeout := st.closeout.(providerNotFound := SaidNotFound(st, r)))
    ensures ProviderCalls(ConfirmNotFound(st, r).acts) == []
  {
    var script := ConfirmNotFound(st, r);
    if script.acts != [] {
      OneCommit(st, script, script.acts[0].kind, script.acts[0].state);
    }
  }

  /** After every id is acknowledged: not-found exactly when the provider knows none of them. */
  lemma NotFoundAnswered(w: World, r: Replies)
    requires Reachable(w) && Current(w).lifecycle == Deleting && !AbsenceOpen(Current(w))
    requires Current(w).closeout.deleteAcknowledged && !Current(w).closeout.providerNotFound
    ensures var st, after := Current(w), Afterwards(w, Reconcile(r));
      && after == st.(closeout := st.closeout.(providerNotFound := SaidNotFound(st, r)))
      && Asked(w, Reconcile(r)) == []
  {
    ReachableOk(w);
    assert CallScript(w, Reconcile(r)) == ConfirmNotFound(Current(w), r);
    NotFoundCase(Current(w), r);
  }

  /** Every id is acknowledged and found gone, and only the charges are left to ask about. */
  predicate AtSpend(st: RunState) {
    && st.lifecycle == Deleting && !AbsenceOpen(st)
    && st.closeout.deleteAcknowledged && st.closeout.providerNotFound
  }

  /** What is charged to the account, or to the adopted pod. */
  function MeteredScope(st: RunState): SpendScope {
    if st.resource.Some? then ResourceScope(st.resource.value.id) else AccountScope
  }

  /**
    The last question: a positive amount is recorded as it was given and keeps
    the run open, zero closes it, anything else changes nothing.
   */
  lemma SpendAnswered(w: World, r: Replies)
    requires Reachable(w) && AtSpend(Current(w)) && !NothingToMeter(w.req, Current(w))
    ensures var st, script := Current(w), CallScript(w, Reconcile(r));
      match r.spend
      case SpendError => script == Raise(ProviderFailure)
      case Spend(amount) =>
        if amount < 0 then script == Raise(ProviderProtocol)
        else
          var seen := st.(closeout := st.closeout.(spend := Some(amount), scope := Some(MeteredScope(st))));
          script == if amount > 0 then Done(SpendObserved, seen)
            else Done(CloseoutCompleted, seen.(lifecycle := Closed))
  {
    ReachableOk(w);
    var st := Current(w);
    assert ResolutionComplete(w.req, st) == Success(true);
    if r.spend == Spend(0) {
      ZeroSpendCloses(w, r);
    }
  }

  /** With nothing to ask about the run closes, whatever the provider would say of the account. */
  lemma NothingToMeterCloses(w: World, r: Replies)
    requires Reachable(w) && AtSpend(Current(w)) && NothingToMeter(w.req, Current(w))
    ensures var script := CallScript(w, Reconcile(r));
      && |script.acts| == 1 && script.acts[0].Commit? && script.acts[0].kind == CloseoutCompleted
      && script.acts[0].state.lifecycle == Closed && script.acts[0].state.closeout.spend == Some(0)
  {
    ReachableOk(w);
    var st := Current(w);
    assert ResolutionComplete(w.req, st) == Success(true);
    var scope := CurrentScope(w.req, st).value;
    SpendKeepsScope(w.req, st, st.(closeout := st.closeout.(spend := Some(0), scope := Some(scope))));
  }

  // ---- the workload and the operator ----

  /** A result is recorded as given, once, and starts the recovery. */
  lemma ResultAnswered(w: World, result: WorkloadResult)
    requires Reachable(w)
    ensures var st, script, after := Current(w), CallScript(w, RecordResult(result)),
      Afterwards(w, RecordResult(result));
      && Asked(w, RecordResult(result)) == []
      && (st.result == Some(result) ==> script == Script([], Returned(st)))
      && (st.result.Some? && st.result != Some(result) ==> script == Raise(LifecycleConflict))
      && (st.result.None? && st.lifecycle != Closed ==>
            after == st.(lifecycle := Recovering, result := Some(result)) && script.outcome == Returned(after))
  {
    var st, script := Current(w), CallScript(w, RecordResult(result));
    if script.acts != [] {
      OneCommit(st, script, script.acts[0].kind, script.acts[0].state);
    }
  }

  /** A disposition is recorded as given, once, and starts the deletion. */
  lemma DispositionAnswered(w: World, d: Disposition)
    requires Reachable(w)
    ensures var st, script, after := Current(w), CallScript(w, RecordDisposition(d)),
      Afterwards(w, RecordDisposition(d));
      var c := st.closeout;
      && Asked(w, RecordDisposition(d)) == []
      && (c.disposition == Some(d) ==> script == Script([], Returned(st)))
      && (c.disposition.Some? && c.disposition != Some(d) ==> script == Raise(LifecycleConflict))
      && (c.disposition.None? && st.lifecycle != Closed ==>
            && after.lifecycle == Deleting && after.closeout == c.(disposition := Some(d))
            && after.result == st.result && DeleteIds(after) == DeleteIds(st) && after.delete.Some?)
  {
    var st, script := Current(w), CallScript(w, RecordDisposition(d));
    if script.acts != [] {
      OneCommit(st, script, script.acts[0].kind, script.acts[0].state);
    }
  }

  /**
    A stop ends an open run as cancelled unless it already has a result, with its
    own disposition unless it has one.
   */
  lemma StopAnswered(w: World, reason: string)
    requires Reachable(w)
    ensures var st, script, after := Current(w), CallScript(w, RequestStop(reason)), Afterwards(w, RequestStop(reason));
      var d := st.closeout.disposition;
      && Asked(w, RequestStop(reason)) == []
      && (st.lifecycle == Closed ==> script == Script([], Returned(st)))
      && (st.lifecycle != Closed ==>
            && after.lifecycle == Deleting && DeleteIds(after) == DeleteIds(st) && after.delete.Some?
            && after.result == (if st.result.Some? then st.result else Some(Cancelled))
            && after.closeout.disposition == (if d.Some? then d else Some(Disposition(Unavailable, reason))))
  {
    var st, script := Current(w), CallScript(w, RequestStop(reason));
    if script.acts != [] {
      OneCommit(st, script, script.acts[0].kind, script.acts[0].state);
    }
  }
}
