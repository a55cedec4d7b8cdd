/**
  Deletion terminates: with a provider that answers, past the termination
  deadline and with at least the absence grace between observations, every
  reconcile call strictly lowers an explicit measure, so a stopped run closes
  within a known number of calls.
 */
module LifecycleProgress {
  import opened Prelude
  import opened LifecycleState
  import opened LifecycleRuns
  import opened LifecycleSafety

  /** The durable state once a script has run to its end. */
  function After(st: RunState, s: Script): RunState
    decreases |s.acts|
  {
    if s.acts == [] then st
    else if s.acts[|s.acts| - 1].Commit? then s.acts[|s.acts| - 1].state
    else After(st, Script(s.acts[..|s.acts| - 1], s.outcome))
  }

  /** The answers a working provider gives at this point of the deletion; lookups may still find at most `k` pods. */
  ghost predicate Cooperative(req: Request, st: RunState, k: nat, r: Replies) {
    && st.delete.Some?
    && r.find.Found?
    && |r.find.views| <= k
    && (AbsenceOpen(st) && DeadlineRequired(st.provision.value) ==>
          TerminationDeadline(req).At? && r.now >= TerminationDeadline(req).time)
    && (AbsenceOpen(st) && st.closeout.absenceFirstAt.Some? ==>
      r.now - st.closeout.absenceFirstAt.value >= ABSENCE_GRACE)
    && r.delete.Deleted? && r.delete.op == st.delete.value.id && r.delete.acknowledged
    && (st.closeout.deleteAcknowledged ==> r.find == Found([]) && r.get == Absent)
    && r.spend == Spend(0)
  }

  function Unacknowledged(ids: seq<PodId>, acknowledged: seq<PodId>): nat {
    if ids == [] then 0
    else (if ids[0] in acknowledged then 0 else 1) + Unacknowledged(ids[1..], acknowledged)
  }

  function AbsenceStage(req: Request, st: RunState): nat
    requires AbsenceOpen(st)
  {
    var first := st.closeout.absenceFirstAt;
    if first.None? then 2
    else if DeadlineRequired(st.provision.value) && TerminationDeadline(req).At?
      && first.value < TerminationDeadline(req).time then 2
    else 1
  }

  /** How many more calls a deletion needs, if each lookup finds at most `k` pods. */
  function Remaining(req: Request, st: RunState, k: nat): nat {
    if st.lifecycle == Closed then 0
    else if AbsenceOpen(st) then AbsenceStage(req, st) + k + 3
    else
      1
      + (if st.closeout.providerNotFound then 0 else 1)
      + (if st.closeout.deleteAcknowledged then 0 else 1 + Unacknowledged(DeleteIds(st), st.closeout.acknowledgedIds))
  }

  lemma {:induction false} UnacknowledgedBound(ids: seq<PodId>, acknowledged: seq<PodId>)
    ensures Unacknowledged(ids, acknowledged) <= |ids|
  {
    if ids != [] {
      UnacknowledgedBound(ids[1..], acknowledged);
    }
  }

  lemma {:induction false} UnacknowledgedMonotone(ids: seq<PodId>, acknowledged: seq<PodId>, id: PodId)
    ensures Unacknowledged(ids, AddId(acknowledged, id)) <= Unacknowledged(ids, acknowledged)
    ensures id in ids && id !in acknowledged ==>
      Unacknowledged(ids, AddId(acknowledged, id)) < Unacknowledged(ids, acknowledged)
  {
    if ids != [] {
      UnacknowledgedMonotone(ids[1..], acknowledged, id);
    }
  }

  lemma {:induction false} NoneUnacknowledged(ids: seq<PodId>, acknowledged: seq<PodId>)
    requires FirstPending(ids, acknowledged).None?
    ensures Unacknowledged(ids, acknowledged) == 0
  {
    if ids != [] {
      NoneUnacknowledged(ids[1..], acknowledged);
    }
  }

  lemma AbsenceProgress(req: Request, st: RunState, k: nat, r: Replies)
    requires StateOk(req, st) && st.lifecycle == Deleting && AbsenceOpen(st) && Cooperative(req, st, k, r)
    ensures var s := After(st, AbsenceScript(req, st, st.provision.value, r));
      && s.lifecycle == Deleting
      && Remaining(req, s, k) < Remaining(req, st, k)
  {
    var op := st.provision.value;
    var script := AbsenceScript(req, st, op, r);
    assert |script.acts| == 1;
    var s := script.acts[0].state;
    assert After(st, script) == s;
    if s.resource.Some? {
      UnacknowledgedBound(DeleteIds(s), s.closeout.acknowledgedIds);
      assert !s.closeout.providerNotFound;
    }
  }

  lemma DeleteProgress(req: Request, st: RunState, k: nat, r: Replies)
    requires StateOk(req, st) && st.lifecycle == Deleting && Cooperative(req, st, k, r)
    requires !AbsenceOpen(st) && !st.closeout.deleteAcknowledged
    ensures var s := After(st, DeletePending(st, st.delete.value, r));
      && s.lifecycle == Deleting
      && Remaining(req, s, k) < Remaining(req, st, k)
  {
    var op, ids, acknowledged := st.delete.value, DeleteIds(st), st.closeout.acknowledgedIds;
    var script := DeletePending(st, op, r);
    var pending := FirstPending(ids, acknowledged);
    if pending.None? {
      NoneUnacknowledged(ids, acknowledged);
      assert After(st, script) == script.acts[0].state;
    } else {
      UnacknowledgedMonotone(ids, acknowledged, pending.value);
      assert |script.acts| == 2 && script.acts[1].Commit?;
      var s := script.acts[1].state;
      assert After(st, script) == s;
      assert DeleteIds(s) == ids;
      assert s.closeout.acknowledgedIds == AddId(acknowledged, pending.value);
    }
  }

  lemma EvidenceProgress(req: Request, st: RunState, k: nat, r: Replies)
    requires StateOk(req, st) && st.lifecycle == Deleting && Cooperative(req, st, k, r)
    requires !AbsenceOpen(st) && st.closeout.deleteAcknowledged
    ensures var s := After(st, DeleteScript(req, st, r));
      && (s.lifecycle == Deleting || s.lifecycle == Closed)
      && Remaining(req, s, k) < Remaining(req, st, k)
  {
    var script := DeleteScript(req, st, r);
    if st.closeout.providerNotFound {
      CloseProgress(req, st, r);
    } else {
      assert st.quarantined.Some? ==> st.resource.Some?;
      var s := st.(closeout := st.closeout.(providerNotFound := true));
      assert script == Done(ProviderAbsenceConfirmed, s);
    }
  }

  lemma CloseProgress(req: Request, st: RunState, r: Replies)
    requires StateOk(req, st) && st.lifecycle == Deleting && st.closeout.providerNotFound
    requires r.spend == Spend(0) && st.delete.Some?
    ensures var script := DeleteScript(req, st, r);
      |script.acts| == 1 && script.acts[0].Commit? && script.acts[0].state.lifecycle == Closed
  {
    assert ResolutionComplete(req, st) == Success(true);
    var scope := CurrentScope(req, st);
    SpendKeepsScope(req, st, st.(closeout := st.closeout.(spend := Some(0), scope := Some(scope.value))));
  }

  lemma ReconcileProgress(req: Request, grace: Time, st: RunState, k: nat, r: Replies)
    requires StateOk(req, st) && st.lifecycle == Deleting && Cooperative(req, st, k, r)
    ensures var s := After(st, ReconcileScript(req, grace, st, r));
      && (s.lifecycle == Deleting || s.lifecycle == Closed)
      && Remaining(req, s, k) < Remaining(req, st, k)
  {
    if AbsenceOpen(st) {
      AbsenceProgress(req, st, k, r);
    } else if !st.closeout.deleteAcknowledged {
      DeleteProgress(req, st, k, r);
    } else {
      EvidenceProgress(req, st, k, r);
    }
  }

  // ---- in a run ----

  function Performs(n: nat, pods: Pods): seq<Step> {
    seq(n, _ => Perform(pods))
  }

  /** A call that is not interrupted commits the last state of its script. */
  lemma {:induction false} PerformAll(w: World, pods: Pods, script: Script)
    requires w.journal != [] && w.flight == script.acts
    ensures var n := Run(w, Performs(|script.acts|, pods));
      && n.flight == []
      && n.req == w.req && n.grace == w.grace
      && Current(n) == After(Current(w), script)
    decreases |script.acts|
  {
    if script.acts != [] {
      PerformSome(w, pods, script.acts, |script.acts|);
      AfterIsLast(w, pods, script, |script.acts|);
      assert script.acts[|script.acts|..] == [];
      assert script.acts[..|script.acts|] == script.acts;
    }
  }

  lemma {:induction false} PerformSome(w: World, pods: Pods, acts: seq<Action>, n: nat)
    requires w.journal != [] && w.flight == acts && n <= |acts|
    ensures var m := Run(w, Performs(n, pods));
      m.flight == acts[n..] && m.req == w.req && m.grace == w.grace
  {
    if n > 0 {
      assert Performs(n, pods)[..n - 1] == Performs(n - 1, pods);
      PerformSome(w, pods, acts, n - 1);
    }
  }

  lemma {:induction false} AfterIsLast(w: World, pods: Pods, script: Script, n: nat)
    requires w.journal != [] && w.flight == script.acts && n <= |script.acts|
    ensures Current(Run(w, Performs(n, pods))) == After(Current(w), Script(script.acts[..n], script.outcome))
  {
    if n > 0 {
      assert Performs(n, pods)[..n - 1] == Performs(n - 1, pods);
      PerformSome(w, pods, script.acts, n - 1);
      AfterIsLast(w, pods, script, n - 1);
      var m := Run(w, Performs(n - 1, pods));
      assert m.flight[0] == script.acts[n - 1];
      assert script.acts[..n][..n - 1] == script.acts[..n - 1];
    } else {
      assert script.acts[..0] == [];
    }
  }

  /** One whole reconcile call. */
  function Settled(w: World, r: Replies): (n: World)
    requires w.journal != []
    ensures n.journal != []
  {
    var b := Next(w, Reconcile(r));
    Run(b, Performs(|b.flight|, w.pods))
  }

  /** The world after a sequence of whole calls. */
  function SettledAll(w: World, rs: seq<Replies>): (n: World)
    requires w.journal != []
    ensures n.journal != []
  {
    if rs == [] then w else Settled(SettledAll(w, rs[..|rs| - 1]), rs[|rs| - 1])
  }

  ghost predicate AllCooperative(w: World, k: nat, rs: seq<Replies>)
    requires w.journal != []
  {
    rs == [] ||
    (AllCooperative(w, k, rs[..|rs| - 1]) &&
     var m := SettledAll(w, rs[..|rs| - 1]);
     Current(m).lifecycle == Deleting ==> Cooperative(m.req, Current(m), k, rs[|rs| - 1]))
  }

  lemma SettledProgress(w: World, k: nat, r: Replies)
    requires WorldOk(w) && w.flight == [] && Current(w).lifecycle in {Deleting, Closed}
    requires Current(w).lifecycle == Deleting ==> Cooperative(w.req, Current(w), k, r)
    ensures var n := Settled(w, r);
      && WorldOk(n) && n.flight == [] && n.req == w.req
      && Current(n).lifecycle in {Deleting, Closed}
      && Remaining(n.req, Current(n), k) <= if Current(w).lifecycle == Closed then 0
        else Remaining(w.req, Current(w), k) - 1
  {
    var script := ReconcileScript(w.req, w.grace, Current(w), r);
    var b := Next(w, Reconcile(r));
    assert b.flight == script.acts && Current(b) == Current(w);
    NextOk(w, Reconcile(r));
    RunOk(b, Performs(|b.flight|, w.pods));
    PerformAll(b, w.pods, script);
    if Current(w).lifecycle == Deleting {
      ReconcileProgress(w.req, w.grace, Current(w), k, r);
    }
  }

  /**
    A run in deletion closes after at most `Remaining` whole reconcile calls
    with a working provider.
   */
  lemma {:induction false} DeletionCloses(w: World, k: nat, rs: seq<Replies>)
    requires Reachable(w) && w.flight == [] && Current(w).lifecycle in {Deleting, Closed}
    requires AllCooperative(w, k, rs) && |rs| >= Remaining(w.req, Current(w), k)
    ensures Current(SettledAll(w, rs)).lifecycle == Closed
  {
    ReachableOk(w);
    Countdown(w, k, rs);
  }

  lemma {:induction false} Countdown(w: World, k: nat, rs: seq<Replies>)
    requires WorldOk(w) && w.flight == [] && Current(w).lifecycle in {Deleting, Closed} && AllCooperative(w, k, rs)
    ensures var n := SettledAll(w, rs);
      && WorldOk(n) && n.flight == [] && n.req == w.req
      && Current(n).lifecycle in {Deleting, Closed}
      && (Current(n).lifecycle == Closed || Remaining(n.req, Current(n), k) + |rs| <= Remaining(w.req, Current(w), k))
    ensures var n := SettledAll(w, rs);
      |rs| >= Remaining(w.req, Current(w), k) ==> Current(n).lifecycle == Closed
  {
    if rs != [] {
      Countdown(w, k, rs[..|rs| - 1]);
      SettledProgress(SettledAll(w, rs[..|rs| - 1]), k, rs[|rs| - 1]);
    }
  }

  /** The bound is small: a stop in any state closes within `k + 5` calls when no deletion was under way. */
  lemma RemainingBound(req: Request, st: RunState, k: nat)
    requires StateOk(req, st) && st.lifecycle == Deleting && |DeleteIds(st)| <= k
    ensures Remaining(req, st, k) <= k + 5
  {
    UnacknowledgedBound(DeleteIds(st), st.closeout.acknowledgedIds);
  }
}
