/**
  "Closed means gone": under a stated provider contract, no pod of the run
  exists once the durable state says closed, and none can appear later.

  The contract allows arbitrary visibility lag, lost replies, requests that
  take effect late, pods that die on their own, lookups that miss a pod, and
  a controller clock that jumps backward. It demands:
    - one create request makes at most one pod;
    - no pod outlives `terminate_at` on the provider's clock;
    - a definite create failure made no pod; a create rejection names what it left;
    - a lookup only names pods that the create made, and an answer about a pod carries its id;
    - an acknowledged delete leaves the pod dead;
    - at the one observation that completes the absence window of an uncertain
      create, the controller's clock is not ahead of the provider's by more than
      `lead`. At every other moment it may show any time.
  The theorem needs `lead` to be at most the absence grace (five seconds);
  module `ClockLead` shows that any larger lead breaks it.
 */
module ClosedMeansGone {
  import opened Prelude
  import opened LifecycleState
  import opened LifecycleRuns
  import opened LifecycleSafety

  ghost predicate Expired(req: Request, p: Pods) {
    TerminationDeadline(req).At? && p.time >= TerminationDeadline(req).time
  }

  ghost predicate PodsOk(req: Request, p: Pods) {
    && (forall a, b :: a in p.created && b in p.created ==> a == b)
    && p.live <= p.created
    && (p.created != {} ==> !p.pending)
    && (Expired(req, p) ==> p.live == {})
  }

  /** What the provider may do on its own. */
  ghost predicate Evolves(req: Request, p: Pods, q: Pods) {
    && PodsOk(req, q)
    && p.time <= q.time
    && p.created <= q.created
    && (!p.pending ==> q.created == p.created && !q.pending)
    && (forall id :: id in q.live && id in p.created ==> id in p.live)
  }

  /** Nothing exists and nothing can come into existence. */
  ghost predicate Gone(req: Request, p: Pods) {
    p.live == {} && (p.pending ==> Expired(req, p))
  }

  ghost predicate Names(ids: seq<PodId>, pods: set<PodId>) {
    forall i :: 0 <= i < |ids| ==> ids[i] in pods
  }

  ghost predicate FindHonest(p: Pods, reply: FindReply) {
    match reply
    case Found(views) => Names(ViewIds(views), p.created)
    case FindRejected(ids, _) => ids != [] && Names(ids, p.created)
    case FindError => true
  }

  ghost predicate GetHonest(pod: PodId, reply: GetReply) {
    match reply
    case Got(view) => view.id == pod
    case GetRejected(ids, _) => Names(ids, {pod})
    case _ => true
  }

  ghost predicate StartHonest(pod: PodId, reply: StartReply) {
    match reply
    case Started(view) => view.id == pod
    case StartRejected(ids, _) => Names(ids, {pod})
    case _ => true
  }

  /** What a reply to the create call says about the pods afterwards. */
  ghost predicate CreateHonest(req: Request, reply: CreateReply, q: Pods) {
    PodsOk(req, q) &&
    match reply
    case Created(view) => q.created == {view.id}
    case CreateRejected(ids, _) => !q.pending && (forall id :: id in q.live ==> id in ids) && Names(ids, q.created)
    case CreateUnknown(_) => true
    case CreateFailed(_) => q.created == {} && !q.pending
  }

  /** The window has been open long enough since an observation that was after the deadline. */
  predicate ClosesWindow(st: RunState, deadline: Option<Deadline>, now: Time)
    requires deadline.Some? ==> deadline.value.At?
  {
    && deadline.Some? && now >= deadline.value.time
    && st.closeout.absenceFirstAt.Some? && st.closeout.absenceFirstAt.value >= deadline.value.time
    && now - st.closeout.absenceFirstAt.value >= ABSENCE_GRACE
  }

  /** This reconcile is the observation that resolves an uncertain create as absent. */
  predicate ConfirmsAbsence(req: Request, st: RunState, r: Replies) {
    && st.lifecycle == Deleting && AbsenceOpen(st) && DeadlineRequired(st.provision.value)
    && r.find == Found([]) && TerminationDeadline(req).At?
    && ClosesWindow(st, Some(TerminationDeadline(req)), r.now)
  }

  /** What an action that reached the provider found there and left there. */
  ghost predicate EffectHonest(req: Request, p: Pods, call: Action, q: Pods) {
    match call
    case Commit(_, _) => true
    case CallCreate(_, reply) => CreateHonest(req, reply, q)
    case CallStart(_, _, _) => Evolves(req, p, q)
    case CallDelete(pod, op, reply) => Evolves(req, p, q) && AckOf(pod, op, reply) !! q.live
  }

  /** The contract, step by step. */
  ghost predicate Honest(w: World, step: Step, lead: Time)
    requires w.journal != []
  {
    match step
    case Reconcile(r) =>
      && (ConfirmsAbsence(w.req, Current(w), r) ==> r.now <= w.pods.time + lead)
      && FindHonest(w.pods, r.find)
      && (Current(w).resource.Some? ==>
            GetHonest(Current(w).resource.value.id, r.get) && StartHonest(Current(w).resource.value.id, r.start))
    case Drift(q) => Evolves(w.req, w.pods, q)
    case Perform(q) => w.flight != [] ==> EffectHonest(w.req, w.pods, w.flight[0], q)
    case _ => true
  }

  ghost predicate HonestRun(w: World, steps: seq<Step>, lead: Time)
    requires w.journal != []
  {
    steps == [] ||
    (HonestRun(w, steps[..|steps| - 1], lead) && Honest(Run(w, steps[..|steps| - 1]), steps[|steps| - 1], lead))
  }

  // ---- what a durable state says about the pods ----

  ghost predicate Justified(req: Request, st: RunState, n: nat, p: Pods) {
    && (n == 0 ==> p.created == {} && !p.pending)
    && (st.resource.Some? ==>
          && Names(DeleteIds(st), p.created)
          && forall id :: id in p.created ==> id in DeleteIds(st))
    && Names(st.closeout.acknowledgedIds, p.created - p.live)
    && (st.resource.None? && st.provision.Some? && !Uncertain(st.provision.value.status) ==> Gone(req, p))
    && (st.closeout.absenceConfirmed && st.resource.None? && st.provision.Some? ==>
          DeadlineRequired(st.provision.value) ==> Expired(req, p))
  }

  ghost predicate FlightJustified(req: Request, st: RunState, n: nat, p: Pods, flight: seq<Action>)
    decreases |flight|
  {
    flight == [] ||
    match flight[0]
    case Commit(_, s) => Justified(req, s, n, p) && FlightJustified(req, s, n, p, flight[1..])
    case CallCreate(_, reply) =>
      && p.created == {} && !p.pending
      && forall q :: CreateHonest(req, reply, q) ==>
        Justified(req, st, 1, q) && FlightJustified(req, st, 1, q, flight[1..])
    case CallStart(_, _, _) => p.created != {} && FlightJustified(req, st, n, p, flight[1..])
    case CallDelete(pod, op, reply) =>
      && pod in p.created
      && forall q :: Evolves(req, p, q) && AckOf(pod, op, reply) !! q.live ==>
        FlightJustified(req, st, n, q, flight[1..])
  }

  lemma JustifiedStable(req: Request, st: RunState, n: nat, p: Pods, q: Pods)
    requires Justified(req, st, n, p) && PodsOk(req, p) && Evolves(req, p, q)
    ensures Justified(req, st, n, q)
  {
    if st.resource.Some? {
      assert DeleteIds(st) != [];
      assert DeleteIds(st)[0] in p.created;
    }
    if st.closeout.acknowledgedIds != [] {
      assert st.closeout.acknowledgedIds[0] in p.created;
    }
  }

  lemma {:induction false} FlightStable(req: Request, st: RunState, n: nat, p: Pods, q: Pods, flight: seq<Action>)
    requires FlightJustified(req, st, n, p, flight) && PodsOk(req, p) && Evolves(req, p, q)
    ensures FlightJustified(req, st, n, q, flight)
    decreases |flight|
  {
    if flight != [] {
      match flight[0]
      case Commit(_, s) =>
        JustifiedStable(req, s, n, p, q);
        FlightStable(req, s, n, p, q, flight[1..]);
      case CallCreate(_, _) =>
      case CallStart(_, _, _) => FlightStable(req, st, n, p, q, flight[1..]);
      case CallDelete(_, _, _) =>
    }
  }

  // ---- every script is justified ----

  lemma RejectionJustified(req: Request, st: RunState, s: RunState, n: nat, p: Pods, kind: OperationKind, op: Operation,
                           ids: seq<PodId>, message: string)
    requires StateOk(req, st) && PodsOk(req, p) && Justified(req, st, n, p)
    requires st.lifecycle == Provisioning || st.lifecycle == Starting
    requires kind != Delete && (kind == Start ==> st.lifecycle == Starting)
    requires s == st.(provision := s.provision, start := s.start, resource := s.resource)
    requires s.resource.Some? == st.resource.Some? && (s.resource.Some? ==> s.resource.value.id == st.resource.value.id)
    requires Names(ids, p.created)
    requires ids == [] && st.resource.None? ==> Gone(req, p)
    requires s.provision.Some?
    ensures FlightJustified(req, st, n, p, Rejection(s, kind, op, ids, message).acts)
  {
    var t := Rejection(s, kind, op, ids, message).acts[0].state;
    if ids != [] {
      assert ids[0] in p.created;
      assert DeleteIds(t) == ids;
    } else {
      assert DeleteIds(t) == DeleteIds(st);
    }
    assert Justified(req, t, n, p);
  }

  lemma AdoptedJustified(req: Request, st: RunState, s: RunState, n: nat, p: Pods, ids: seq<PodId>)
    requires PodsOk(req, p) && Justified(req, st, n, p)
    requires s.closeout.acknowledgedIds == st.closeout.acknowledgedIds
    requires s.resource.Some? && DeleteIds(s) == ids && ids != [] && Names(ids, p.created)
    ensures Justified(req, s, n, p)
  {
    assert ids[0] in p.created;
  }

  lemma AfterCreateJustified(req: Request, st: RunState, op: Operation, q: Pods, reply: CreateReply)
    requires StateOk(req, st) && st.lifecycle == Provisioning && st.provision == Some(op) && op.status == Dispatched
    requires CreateHonest(req, reply, q)
    ensures Justified(req, st, 1, q)
    ensures FlightJustified(req, st, 1, q, AfterCreate(st, op, reply).acts)
  {
    match reply
    case CreateRejected(ids, message) => RejectionJustified(req, st, st, 1, q, Provision, op, ids, message);
    case CreateUnknown(_) =>
    case CreateFailed(_) =>
    case Created(view) =>
  }

  lemma DispatchJustified(req: Request, st: RunState, n: nat, p: Pods, op: Operation, r: Replies)
    requires StateOk(req, st) && CreatesOk(st, n) && PodsOk(req, p) && Justified(req, st, n, p)
    requires st.lifecycle == Provisioning && st.provision == Some(op) && op.status == Intended
    ensures FlightJustified(req, st, n, p, Dispatch(st, op, r).acts)
  {
    var sent := op.(attempts := op.attempts + 1, status := Dispatched, dispatchedAt := Some(r.now));
    var s := st.(provision := Some(sent));
    var after := AfterCreate(s, sent, r.create).acts;
    forall q | CreateHonest(req, r.create, q)
      ensures Justified(req, s, 1, q) && FlightJustified(req, s, 1, q, after)
    {
      AfterCreateJustified(req, s, sent, q, r.create);
    }
    var acts := Dispatch(st, op, r).acts;
    assert acts[1..][1..] == after;
    assert acts[1..][0] == CallCreate(op.id, r.create);
    assert Justified(req, s, n, p);
    assert FlightJustified(req, s, n, p, acts[1..]);
  }

  lemma ProvisionJustified(req: Request, grace: Time, st: RunState, n: nat, p: Pods, r: Replies)
    requires StateOk(req, st) && CreatesOk(st, n) && PodsOk(req, p) && Justified(req, st, n, p)
    requires st.lifecycle == Provisioning && FindHonest(p, r.find)
    ensures FlightJustified(req, st, n, p, ProvisionScript(req, grace, st, r).acts)
  {
    var op := st.provision.value;
    var acts := ProvisionScript(req, grace, st, r).acts;
    match r.find
    case FindError =>
    case FindRejected(ids, message) => RejectionJustified(req, st, st, n, p, Provision, op, ids, message);
    case Found(views) =>
      if |views| > 1 {
        AdoptedJustified(req, st, acts[0].state, n, p, ViewIds(views));
      } else if |views| == 1 {
        if acts != [] {
          assert ViewIds(views)[0] == views[0].id;
          AdoptedJustified(req, st, acts[0].state, n, p, [views[0].id]);
        }
      } else if op.status != Intended {
      } else if !req.provider.Malformed? {
        DispatchJustified(req, st, n, p, op, r);
      }
  }

  lemma StartJustified(req: Request, st: RunState, n: nat, p: Pods, r: Replies)
    requires StateOk(req, st) && PodsOk(req, p) && Justified(req, st, n, p)
    requires st.lifecycle == Starting
    requires GetHonest(st.resource.value.id, r.get) && StartHonest(st.resource.value.id, r.start)
    ensures FlightJustified(req, st, n, p, StartScript(st, r).acts)
  {
    var pod, op := st.resource.value.id, st.start.value;
    assert DeleteIds(st) == [pod];
    assert DeleteIds(st)[0] in p.created;
    match r.get
    case GetError =>
    case GetRejected(ids, message) => RejectionJustified(req, st, st, n, p, Start, op, ids, message);
    case Absent =>
    case Got(view) =>
      if view.state != PodRunning {
        var tried := op.(attempts := op.attempts + 1);
        var s := st.(resource := Some(Projected(view)), start := Some(tried));
        assert StartScript(st, r).acts[1..] == AfterStart(s, tried, r.start).acts;
        AfterStartJustified(req, st, s, n, p, tried, r.start);
      }
  }

  lemma AfterStartJustified(req: Request, st: RunState, s: RunState, n: nat, p: Pods, op: Operation, reply: StartReply)
    requires StateOk(req, st) && PodsOk(req, p) && Justified(req, st, n, p) && st.lifecycle == Starting
    requires s.resource.Some? && s.resource.value.id == st.resource.value.id
    requires s == st.(resource := s.resource, start := Some(op))
    requires StartHonest(st.resource.value.id, reply)
    ensures FlightJustified(req, st, n, p, AfterStart(s, op, reply).acts)
  {
    assert DeleteIds(st) == DeleteIds(s) == [st.resource.value.id];
    assert DeleteIds(st)[0] in p.created;
    match reply
    case StartRejected(ids, message) => RejectionJustified(req, st, s, n, p, Start, op, ids, message);
    case StartUnknown(_) =>
    case StartFailed(_) =>
    case Started(view) =>
      var acts := AfterStart(s, op, reply).acts;
      assert DeleteIds(acts[0].state) == DeleteIds(s);
  }

  /** Closing the absence window after the deadline proves the provider's clock is past it too. */
  lemma WindowJustified(req: Request, st: RunState, n: nat, p: Pods, op: Operation, deadline: Option<Deadline>,
      now: Time)
    requires StateOk(req, st) && PodsOk(req, p) && Justified(req, st, n, p)
    requires st.lifecycle == Deleting && AbsenceOpen(st) && st.provision == Some(op)
    requires if DeadlineRequired(op) then deadline == Some(TerminationDeadline(req)) && deadline.value.At?
      else deadline.None?
    requires ClosesWindow(st, deadline, now) ==> now <= p.time + ABSENCE_GRACE
    ensures FlightJustified(req, st, n, p, AbsenceWindow(st, op, deadline, now).acts)
  {
  }

  lemma AbsenceJustified(req: Request, st: RunState, n: nat, p: Pods, r: Replies)
    requires StateOk(req, st) && CreatesOk(st, n) && PodsOk(req, p) && Justified(req, st, n, p)
    requires st.lifecycle == Deleting && AbsenceOpen(st)
    requires FindHonest(p, r.find) && (ConfirmsAbsence(req, st, r) ==> r.now <= p.time + ABSENCE_GRACE)
    ensures FlightJustified(req, st, n, p, AbsenceScript(req, st, st.provision.value, r).acts)
  {
    var op := st.provision.value;
    var acts := AbsenceScript(req, st, op, r).acts;
    match r.find
    case FindError =>
    case FindRejected(ids, _) => AdoptedJustified(req, st, acts[0].state, n, p, ids);
    case Found(views) =>
      if |views| > 1 {
        AdoptedJustified(req, st, acts[0].state, n, p, ViewIds(views));
      } else if |views| == 1 {
        assert ViewIds(views)[0] == views[0].id;
        AdoptedJustified(req, st, acts[0].state, n, p, [views[0].id]);
      } else if op.attempts == 0 {
      } else if DeadlineRequired(op) {
        if TerminationDeadline(req).At? {
          WindowJustified(req, st, n, p, op, Some(TerminationDeadline(req)), r.now);
        }
      } else {
        WindowJustified(req, st, n, p, op, None, r.now);
      }
  }

  lemma AfterDeleteJustified(req: Request, st: RunState, s: RunState, n: nat, p: Pods, q: Pods, op: Operation,
      pod: PodId, reply: DeleteReply)
    requires StateOk(req, st) && PodsOk(req, p) && Justified(req, st, n, p) && st.lifecycle == Deleting
    requires pod in p.created && s == st.(delete := Some(op))
    requires Evolves(req, p, q) && AckOf(pod, op.id, reply) !! q.live
    ensures FlightJustified(req, st, n, q, AfterDelete(s, op, pod, reply).acts)
  {
    JustifiedStable(req, st, n, p, q);
    var acts := AfterDelete(s, op, pod, reply).acts;
    if acts != [] {
      var t := acts[0].state;
      assert DeleteIds(t) == DeleteIds(st);
      if reply.Deleted? {
        assert pod in AckOf(pod, op.id, reply);
        assert Names(t.closeout.acknowledgedIds, q.created - q.live);
      }
      assert Justified(req, t, n, q);
    }
  }

  lemma DeletePendingJustified(req: Request, st: RunState, n: nat, p: Pods, r: Replies)
    requires StateOk(req, st) && PodsOk(req, p) && Justified(req, st, n, p)
    requires st.lifecycle == Deleting && !AbsenceOpen(st) && !st.closeout.deleteAcknowledged
    ensures FlightJustified(req, st, n, p, DeletePending(st, st.delete.value, r).acts)
  {
    var op := st.delete.value;
    var pending := FirstPending(DeleteIds(st), st.closeout.acknowledgedIds);
    var acts := DeletePending(st, op, r).acts;
    if pending.Some? {
      var tried := op.(attempts := op.attempts + 1);
      var s := st.(delete := Some(tried));
      assert acts[1..] == AfterDelete(s, tried, pending.value, r.delete).acts;
      forall q | Evolves(req, p, q) && AckOf(pending.value, op.id, r.delete) !! q.live
        ensures FlightJustified(req, st, n, q, acts[1..])
      {
        AfterDeleteJustified(req, st, s, n, p, q, tried, pending.value, r.delete);
      }
    } else {
      assert DeleteIds(acts[0].state) == DeleteIds(st);
    }
  }

  /** A script of one commit that leaves everything about pods as it was. */
  lemma SameJustified(req: Request, st: RunState, s: RunState, n: nat, p: Pods)
    requires Justified(req, st, n, p)
    requires s.resource == st.resource && s.quarantined == st.quarantined && s.provision == st.provision
    requires s.closeout.acknowledgedIds == st.closeout.acknowledgedIds
    requires s.closeout.absenceConfirmed == st.closeout.absenceConfirmed
    ensures Justified(req, s, n, p)
  {
    assert DeleteIds(s) == DeleteIds(st);
  }

  lemma DeleteJustified(req: Request, st: RunState, n: nat, p: Pods, r: Replies)
    requires StateOk(req, st) && CreatesOk(st, n) && PodsOk(req, p) && Justified(req, st, n, p)
    requires st.lifecycle == Deleting
    requires FindHonest(p, r.find) && (ConfirmsAbsence(req, st, r) ==> r.now <= p.time + ABSENCE_GRACE)
    ensures FlightJustified(req, st, n, p, DeleteScript(req, st, r).acts)
  {
    var acts := DeleteScript(req, st, r).acts;
    if AbsenceOpen(st) {
      AbsenceJustified(req, st, n, p, r);
    } else if !st.closeout.deleteAcknowledged {
      DeletePendingJustified(req, st, n, p, r);
    } else if acts != [] {
      LateStepFrame(req, st, r);
      SameJustified(req, st, acts[0].state, n, p);
    }
  }

  /** After the acknowledgement only the not-found and spend evidence changes. */
  lemma LateStepFrame(req: Request, st: RunState, r: Replies)
    requires !AbsenceOpen(st) && st.closeout.deleteAcknowledged
    ensures var acts := DeleteScript(req, st, r).acts;
      acts == [] ||
      (|acts| == 1 && acts[0].Commit? &&
       var s := acts[0].state;
       s == st.(lifecycle := s.lifecycle,
                closeout := st.closeout.(providerNotFound := s.closeout.providerNotFound,
                                         spend := s.closeout.spend, scope := s.closeout.scope)))
  {
  }

  lemma ReconcileJustified(req: Request, grace: Time, st: RunState, n: nat, p: Pods, r: Replies)
    requires StateOk(req, st) && CreatesOk(st, n) && PodsOk(req, p) && Justified(req, st, n, p)
    requires FindHonest(p, r.find) && (ConfirmsAbsence(req, st, r) ==> r.now <= p.time + ABSENCE_GRACE)
    requires st.resource.Some? ==> GetHonest(st.resource.value.id, r.get) && StartHonest(st.resource.value.id, r.start)
    ensures FlightJustified(req, st, n, p, ReconcileScript(req, grace, st, r).acts)
  {
    match st.lifecycle
    case Provisioning => ProvisionJustified(req, grace, st, n, p, r);
    case Starting => StartJustified(req, st, n, p, r);
    case Deleting => DeleteJustified(req, st, n, p, r);
    case _ =>
  }

  lemma CallJustified(w: World, step: Step, lead: Time)
    requires WorldOk(w) && PodsOk(w.req, w.pods) && Justified(w.req, Current(w), |w.creates|, w.pods)
    requires Honest(w, step, lead) && lead <= ABSENCE_GRACE
    ensures FlightJustified(w.req, Current(w), |w.creates|, w.pods, CallScript(w, step).acts)
  {
    var st, acts := Current(w), CallScript(w, step).acts;
    if step.Reconcile? {
      ReconcileJustified(w.req, w.grace, st, |w.creates|, w.pods, step.replies);
    } else if acts != [] {
      SameJustified(w.req, st, acts[0].state, |w.creates|, w.pods);
    }
  }

  // ---- runs ----

  /** Every pod any record of the journal names was made by the create. */
  ghost predicate RecordedPods(journal: seq<Record>, created: set<PodId>) {
    forall i :: 0 <= i < |journal| ==> Names(DeleteIds(journal[i].state), created)
  }

  ghost predicate ContractOk(w: World) {
    && WorldOk(w)
    && PodsOk(w.req, w.pods)
    && Justified(w.req, Current(w), |w.creates|, w.pods)
    && FlightJustified(w.req, Current(w), |w.creates|, w.pods, w.flight)
    && RecordedPods(w.journal, w.pods.created)
  }

  lemma PerformJustified(w: World, q: Pods, lead: Time)
    requires ContractOk(w) && Honest(w, Perform(q), lead) && w.flight != []
    ensures var n := PerformNext(w, q);
      && PodsOk(n.req, n.pods)
      && Justified(n.req, Current(n), |n.creates|, n.pods)
      && FlightJustified(n.req, Current(n), |n.creates|, n.pods, n.flight)
  {
    match w.flight[0]
    case Commit(kind, s) => assert Current(PerformNext(w, q)) == s;
    case CallCreate(_, _) => assert |w.creates| == 0;
    case CallStart(_, _, _) =>
      JustifiedStable(w.req, Current(w), |w.creates|, w.pods, q);
      FlightStable(w.req, Current(w), |w.creates|, w.pods, q, w.flight[1..]);
    case CallDelete(_, _, _) =>
      JustifiedStable(w.req, Current(w), |w.creates|, w.pods, q);
  }

  lemma DriftJustified(w: World, q: Pods)
    requires ContractOk(w) && Evolves(w.req, w.pods, q)
    ensures ContractOk(w.(pods := q))
  {
    DriftOk(w, q);
    JustifiedStable(w.req, Current(w), |w.creates|, w.pods, q);
    FlightStable(w.req, Current(w), |w.creates|, w.pods, q, w.flight);
    RecordedStay(w, w.pods.created, q.created);
  }

  lemma RecordedStay(w: World, before: set<PodId>, after: set<PodId>)
    requires w.journal != [] && RecordedPods(w.journal, before) && before <= after
    ensures RecordedPods(w.journal, after)
  {
  }

  lemma RecordedAfter(w: World, step: Step, lead: Time)
    requires ContractOk(w) && Honest(w, step, lead)
    requires Justified(w.req, Current(Next(w, step)), |Next(w, step).creates|, Next(w, step).pods)
    ensures RecordedPods(Next(w, step).journal, Next(w, step).pods.created)
  {
    var n := Next(w, step);
    assert w.pods.created <= n.pods.created;
    RecordedStay(w, w.pods.created, n.pods.created);
    if n.journal != w.journal {
      var st := Current(n);
      assert n.journal == w.journal + [n.journal[|w.journal|]];
      assert st.resource.None? ==> st.quarantined.None?;
    }
  }

  lemma PerformContract(w: World, q: Pods, lead: Time)
    requires ContractOk(w) && Honest(w, Perform(q), lead)
    ensures ContractOk(Next(w, Perform(q)))
  {
    NextOk(w, Perform(q));
    if w.flight != [] {
      PerformJustified(w, q, lead);
      RecordedAfter(w, Perform(q), lead);
    }
  }

  lemma NextContract(w: World, step: Step, lead: Time)
    requires ContractOk(w) && Honest(w, step, lead) && lead <= ABSENCE_GRACE
    ensures ContractOk(Next(w, step))
  {
    match step
    case Perform(q) => PerformContract(w, q, lead);
    case Die => DieContract(w);
    case Drift(q) => DriftJustified(w, q);
    case _ => BeginContract(w, step, lead);
  }

  lemma DieContract(w: World)
    requires ContractOk(w)
    ensures ContractOk(w.(flight := []))
  {
    DieOk(w);
  }

  lemma BeginContract(w: World, step: Step, lead: Time)
    requires ContractOk(w) && Honest(w, step, lead) && lead <= ABSENCE_GRACE
    ensures ContractOk(Begin(w, CallScript(w, step)))
  {
    BeginCallOk(w, step);
    CallJustified(w, step, lead);
  }

  lemma {:induction false} RunContract(w: World, steps: seq<Step>, lead: Time)
    requires ContractOk(w) && HonestRun(w, steps, lead) && lead <= ABSENCE_GRACE
    ensures ContractOk(Run(w, steps))
  {
    if steps != [] {
      RunContract(w, steps[..|steps| - 1], lead);
      NextContract(Run(w, steps[..|steps| - 1]), steps[|steps| - 1], lead);
    }
  }

  lemma PlannedContract(req: Request, grace: Time, time: Time)
    ensures ContractOk(PlannedRun(req, grace, time))
  {
  }

  /**
    Closed means gone, in every run that keeps the contract; and every pod that
    any record of the journal ever named has an acknowledged delete.
   */
  lemma ClosedIsGone(req: Request, grace: Time, time: Time, steps: seq<Step>, lead: Time)
    requires HonestRun(PlannedRun(req, grace, time), steps, lead) && lead <= ABSENCE_GRACE
    ensures var w := Run(PlannedRun(req, grace, time), steps);
      Current(w).lifecycle == Closed ==>
        && Gone(req, w.pods)
        && forall i, id :: 0 <= i < |w.journal| && id in DeleteIds(w.journal[i].state) ==> id in w.acks
  {
    var w0 := PlannedRun(req, grace, time);
    PlannedContract(req, grace, time);
    RunContract(w0, steps, lead);
    RunKeepsRequest(w0, steps);
    var w := Run(w0, steps);
    if Current(w).lifecycle == Closed {
      ClosedGone(w);
      forall i, id | 0 <= i < |w.journal| && id in DeleteIds(w.journal[i].state)
        ensures id in w.acks
      {
        RecordedDeleted(w, i, id);
      }
    }
  }

  lemma RecordedDeleted(w: World, i: nat, id: PodId)
    requires ContractOk(w) && Current(w).lifecycle == Closed
    requires i < |w.journal| && id in DeleteIds(w.journal[i].state)
    ensures id in w.acks
  {
    JournalKeeps(w.req, w.journal, i, |w.journal| - 1);
    assert id in w.pods.created;
    DeletedInTheEnd(w, id);
  }

  /** A closed record that names a resource has an acknowledged delete of every pod that was created. */
  lemma DeletedInTheEnd(w: World, id: PodId)
    requires ContractOk(w) && Current(w).lifecycle == Closed && Current(w).resource.Some? && id in w.pods.created
    ensures id in w.acks
  {
    var st := Current(w);
    assert id in DeleteIds(st);
    assert id in st.closeout.acknowledgedIds;
  }

  lemma ClosedGone(w: World)
    requires ContractOk(w) && Current(w).lifecycle == Closed
    ensures Gone(w.req, w.pods)
  {
    var st, p := Current(w), w.pods;
    if st.resource.Some? {
      forall id | id in p.created
        ensures id !in p.live
      {
        assert id in DeleteIds(st);
        assert id in st.closeout.acknowledgedIds;
      }
      assert DeleteIds(st)[0] in p.created;
    } else if st.provision.Some? && Uncertain(st.provision.value.status) {
      assert st.closeout.absenceConfirmed;
    } else if st.provision.None? {
      assert |w.creates| == 0;
    }
  }
}
