/**
  What every run of the controller keeps, whatever the provider answers, and
  wherever the process dies.
 */
module LifecycleSafety {
  import opened Prelude
  import opened LifecycleState
  import opened LifecycleRuns

  ghost predicate Reachable(w: World) {
    exists req, grace, time, steps :: w == Run(PlannedRun(req, grace, time), steps)
  }

  lemma ReachableOk(w: World)
    requires Reachable(w)
    ensures WorldOk(w)
  {
    var req, grace, time, steps :| w == Run(PlannedRun(req, grace, time), steps);
    PlannedRunOk(req, grace, time);
    RunOk(PlannedRun(req, grace, time), steps);
  }

  /**
    `provider.create` is called at most once in any run, and only when the
    last durable record already says that this very operation is dispatched.
   */
  lemma AtMostOneCreate(req: Request, grace: Time, time: Time, steps: seq<Step>)
    ensures var w := Run(PlannedRun(req, grace, time), steps);
      && |w.creates| <= 1
      && forall i :: 0 <= i < |w.creates| ==>
        && 0 < w.creates[i].at <= |w.journal|
        && w.creates[i].op == OpId(req.runId, Provision)
        && var st := w.journal[w.creates[i].at - 1].state;
        && st.provision.Some?
        && st.provision.value.id == w.creates[i].op
        && st.provision.value.status == Dispatched
        && st.provision.value.attempts == 1
  {
    var w0 := PlannedRun(req, grace, time);
    ReachableOk(Run(w0, steps));
    RunKeepsRequest(w0, steps);
  }

  lemma {:induction false} RunKeepsRequest(w: World, steps: seq<Step>)
    requires w.journal != []
    ensures Run(w, steps).req == w.req && Run(w, steps).grace == w.grace
  {
    if steps != [] {
      RunKeepsRequest(w, steps[..|steps| - 1]);
    }
  }

  /** What the later of two committed states keeps of the earlier one. */
  ghost predicate Keeps(st: RunState, s: RunState) {
    && s.runId == st.runId
    && s.approvedMaxUsd == st.approvedMaxUsd
    && s.protocol == st.protocol
    && (st.result.Some? ==> s.result == st.result)
    && (st.closeout.disposition.Some? ==> s.closeout.disposition == st.closeout.disposition)
    && (st.quarantined.Some? ==> s.quarantined == st.quarantined)
    && (st.resource.Some? ==> s.resource.Some?)
    && st.closeout.acknowledgedIds <= s.closeout.acknowledgedIds
    && (st.provision.Some? ==> s.provision.Some? && s.provision.value.attempts >= st.provision.value.attempts)
    && (st.closeout.deleteAcknowledged ==> s.closeout.deleteAcknowledged)
  }

  lemma {:induction false} JournalKeeps(req: Request, journal: seq<Record>, i: nat, j: nat)
    requires JournalOk(req, journal) && i <= j < |journal|
    ensures Keeps(journal[i].state, journal[j].state)
    decreases j
  {
    if i < j {
      JournalKeeps(req, journal, i, j - 1);
      assert Follows(journal[j - 1].state, journal[j].state);
    }
  }

  /**
    Outcomes are write-once and never set while the workload has not ended;
    nothing follows a closed record.
   */
  lemma OutcomesWrittenOnce(w: World, i: nat, j: nat)
    requires Reachable(w) && i <= j < |w.journal|
    ensures var st, s := w.journal[i].state, w.journal[j].state;
      && (st.result.Some? ==> s.result == st.result)
      && (st.closeout.disposition.Some? ==> s.closeout.disposition == st.closeout.disposition)
      && (Early(st.lifecycle) ==> st.result.None? && st.closeout.disposition.None?)
      && (st.lifecycle == Closed ==> i == j == |w.journal| - 1)
      && (st.quarantined.Some? ==> s.quarantined == st.quarantined)
  {
    ReachableOk(w);
    JournalKeeps(w.req, w.journal, i, j);
    if i + 1 < |w.journal| {
      assert Follows(w.journal[i].state, w.journal[i + 1].state);
    }
  }

  /** Once closed, no call, reply or crash adds a record or touches the provider. */
  lemma {:induction false} ClosedIsAbsorbing(w: World, steps: seq<Step>)
    requires Reachable(w) && Current(w).lifecycle == Closed
    ensures var n := Run(w, steps);
      n.journal == w.journal && n.creates == w.creates && n.acks == w.acks && n.flight == []
  {
    ReachableOk(w);
    ClosedStays(w, steps);
  }

  lemma ClosedStays(w: World, steps: seq<Step>)
    requires WorldOk(w) && Current(w).lifecycle == Closed
    ensures var n := Run(w, steps);
      n.journal == w.journal && n.creates == w.creates && n.acks == w.acks && n.flight == []
  {
    ClosedIsQuiet(w);
    QuietStays(w, steps);
  }

  lemma {:induction false} QuietStays(w: World, steps: seq<Step>)
    requires w.journal != [] && Current(w).lifecycle == Closed && w.flight == []
    ensures var n := Run(w, steps);
      n.journal == w.journal && n.creates == w.creates && n.acks == w.acks && n.flight == []
  {
    if steps != [] {
      QuietStays(w, steps[..|steps| - 1]);
      ClosedStep(Run(w, steps[..|steps| - 1]), steps[|steps| - 1]);
    }
  }

  lemma ClosedIsQuiet(w: World)
    requires WorldOk(w) && Current(w).lifecycle == Closed
    ensures w.flight == []
  {
  }

  lemma ClosedStep(w: World, step: Step)
    requires w.journal != [] && Current(w).lifecycle == Closed && w.flight == []
    ensures var n := Next(w, step);
      n.journal == w.journal && n.creates == w.creates && n.acks == w.acks && n.flight == []
  {
    assert CallScript(w, step).acts == [];
  }

  /**
    When deletion reaches its last step with a zero spend observation, the
    scope comparison and the all-at-once closeout check cannot fail: the
    evidence collected stage by stage is already the complete proof.
   */
  lemma ZeroSpendCloses(w: World, r: Replies)
    requires Reachable(w)
    requires var st := Current(w);
      && st.lifecycle == Deleting
      && !AbsenceOpen(st)
      && st.closeout.deleteAcknowledged
      && st.closeout.providerNotFound
    requires r.spend == Spend(0)
    ensures var script := ReconcileScript(w.req, w.grace, Current(w), r);
      && |script.acts| == 1
      && script.acts[0].Commit?
      && script.acts[0].kind == CloseoutCompleted
      && script.acts[0].state.lifecycle == Closed
      && script.outcome == Returned(script.acts[0].state)
  {
    ReachableOk(w);
    var st := Current(w);
    assert ResolutionComplete(w.req, st) == Success(true);
    var scope := CurrentScope(w.req, st);
    assert scope.Success?;
    var s := st.(closeout := st.closeout.(spend := Some(0), scope := Some(scope.value)));
    SpendKeepsScope(w.req, st, s);
  }

  /**
    The evidence behind every closed record: each recorded pod's deletion was
    acknowledged by the provider, and a create of uncertain outcome without a
    recorded pod carries an absence window that began at or after the
    provider's termination deadline and lasted at least the grace.
   */
  lemma ClosedEvidence(w: World)
    requires Reachable(w) && Current(w).lifecycle == Closed
    ensures var st := Current(w);
      && st.closeout.disposition.Some?
      && st.closeout.providerNotFound
      && st.closeout.spend == Some(0)
      && (forall i :: 0 <= i < |DeleteIds(st)| ==> DeleteIds(st)[i] in w.acks)
      && (st.resource.None? && st.provision.Some? && DeadlineRequired(st.provision.value) ==>
            && TerminationDeadline(w.req).At?
            && st.closeout.resolution.Some?
            && var res, d := st.closeout.resolution.value, TerminationDeadline(w.req);
            && res.op == OpId(st.runId, Provision)
            && res.deadlineText == d.text
            && d.time <= res.firstObservedAt
            && res.firstObservedAt + ABSENCE_GRACE <= res.confirmedAt)
  {
    ReachableOk(w);
    var st := Current(w);
    forall i | 0 <= i < |DeleteIds(st)|
      ensures DeleteIds(st)[i] in w.acks
    {
      assert DeleteIds(st)[i] in st.closeout.acknowledgedIds;
    }
  }

  /** What a complete deletion covers stays acknowledged in every later state. */
  lemma CoverStays(req: Request, st: RunState, now: RunState, acks: set<PodId>)
    requires StateOk(req, st) && st.closeout.deleteAcknowledged
    requires st.closeout.acknowledgedIds <= now.closeout.acknowledgedIds && Covered(now, acks)
    ensures forall k :: 0 <= k < |DeleteIds(st)| ==> DeleteIds(st)[k] in acks
  {
    var ids, acked := DeleteIds(st), st.closeout.acknowledgedIds;
    assert AllIn(ids, acked);
    forall k | 0 <= k < |ids|
      ensures ids[k] in acks
    {
      assert ids[k] in acked;
      var a :| 0 <= a < |acked| && acked[a] == ids[k];
      assert now.closeout.acknowledgedIds[a] == ids[k];
    }
  }

  /**
    Deletion is only ever called complete when the provider has acknowledged
    the deletion of every adopted or quarantined id, whatever the provider does.
   */
  lemma CompleteDeletionCoversAll(w: World, i: nat)
    requires Reachable(w) && i < |w.journal| && w.journal[i].state.closeout.deleteAcknowledged
    ensures forall k :: 0 <= k < |DeleteIds(w.journal[i].state)| ==> DeleteIds(w.journal[i].state)[k] in w.acks
  {
    ReachableOk(w);
    JournalKeeps(w.req, w.journal, i, |w.journal| - 1);
    CoverStays(w.req, w.journal[i].state, Current(w), w.acks);
  }
}
