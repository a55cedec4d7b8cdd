/**
  Ties the controller class to the runs: whatever one call of the class leaves
  in the store and sends to the provider, complete or cut short anywhere, is
  what some reachable world of `LifecycleRuns` shows.
 */
module ControllerRuns {
  import opened Prelude
  import opened LifecycleState
  import opened LifecycleRuns
  import opened LifecycleSafety
  import opened LifecycleProgress
  import opened ClosedMeansGone
  import opened RunStore
  import opened LifecycleController

  function Records(log: seq<Event>): (r: seq<Record>)
    ensures |r| == |log|
    ensures forall i :: 0 <= i < |r| ==> r[i] == Record(log[i].kind, log[i].projection.state)
  {
    seq(|log|, i requires 0 <= i < |log| => Record(log[i].kind, log[i].projection.state))
  }

  function CreateCalls(calls: seq<Action>): nat
    decreases |calls|
  {
    if calls == [] then 0
    else CreateCalls(calls[..|calls| - 1]) + (if calls[|calls| - 1].CallCreate? then 1 else 0)
  }

  lemma {:induction false} RunConcat(w: World, first: seq<Step>, rest: seq<Step>)
    requires w.journal != []
    ensures Run(w, first + rest) == Run(Run(w, first), rest)
    decreases |rest|
  {
    if rest == [] {
      assert first + rest == first;
    } else {
      assert (first + rest)[..|first + rest| - 1] == first + rest[..|rest| - 1];
      RunConcat(w, first, rest[..|rest| - 1]);
    }
  }

  lemma ReachableOn(w: World, steps: seq<Step>)
    requires Reachable(w) && w.journal != []
    ensures Reachable(Run(w, steps))
  {
    var req, grace, time, before :| w == Run(PlannedRun(req, grace, time), before);
    RunConcat(PlannedRun(req, grace, time), before, steps);
  }

  lemma {:induction false} CreateCallsConcat(a: seq<Action>, b: seq<Action>)
    ensures CreateCalls(a + b) == CreateCalls(a) + CreateCalls(b)
    decreases |b|
  {
    if b == [] {
      assert a + b == a;
    } else {
      assert (a + b)[..|a + b| - 1] == a + b[..|b| - 1];
      CreateCallsConcat(a, b[..|b| - 1]);
    }
  }

  /** Performing the first `n` actions of a script writes the records the class would have written. */
  lemma {:induction false} PerformIsAppend(w: World, pods: Pods, acts: seq<Action>, n: nat, log0: seq<Event>)
    requires w.journal == Records(log0) && w.journal != [] && w.flight == acts && n <= |acts|
    ensures var m := Run(w, Performs(n, pods));
      && m.journal == Records(AppendCommits(log0, acts[..n]))
      && |m.creates| == |w.creates| + CreateCalls(CallsOf(acts[..n]))
  {
    if n == 0 {
      assert acts[..0] == [];
    } else {
      assert Performs(n, pods)[..n - 1] == Performs(n - 1, pods);
      PerformIsAppend(w, pods, acts, n - 1, log0);
      PerformSome(w, pods, acts, n - 1);
      AppendsNext(log0, acts, n);
      var m := Run(w, Performs(n - 1, pods));
      assert m.flight[0] == acts[n - 1];
    }
  }

  /** One more action adds its record to the list or its call to the calls. */
  lemma AppendsNext(log0: seq<Event>, acts: seq<Action>, n: nat)
    requires 0 < n <= |acts|
    ensures var before, after, a := AppendCommits(log0, acts[..n - 1]), AppendCommits(log0, acts[..n]), acts[n - 1];
      && Records(after) ==
        (if a.Commit? then Records(before) + [LifecycleRuns.Record(a.kind, a.state)] else Records(before))
      && CreateCalls(CallsOf(acts[..n])) == CreateCalls(CallsOf(acts[..n - 1])) + (if a.CallCreate? then 1 else 0)
  {
    assert acts[..n][..n - 1] == acts[..n - 1];
    var a, calls := acts[n - 1], CallsOf(acts[..n - 1]);
    if a.Commit? {
      assert calls + [] == calls;
    } else {
      assert (calls + [a])[..|calls|] == calls;
    }
  }

  predicate IsCall(step: Step) {
    step.Reconcile? || step.RecordResult? || step.RecordDisposition? || step.RequestStop?
  }

  lemma OneStep(w: World, step: Step)
    requires w.journal != []
    ensures Run(w, [step]) == Next(w, step)
  {
    var steps := [step];
    assert steps[..|steps| - 1] == [];
    assert Run(w, []) == w;
  }

  lemma BeginCall(w: World, step: Step) returns (b: World)
    requires Reachable(w) && w.flight == [] && w.journal != [] && IsCall(step)
    ensures Reachable(b) && b == w.(flight := CallScript(w, step).acts)
  {
    b := Next(w, step);
    OneStep(w, step);
    ReachableOn(w, [step]);
  }

  lemma Perish(w: World) returns (n: World)
    requires Reachable(w) && w.journal != []
    ensures Reachable(n) && n == w.(flight := [])
  {
    n := Next(w, Die);
    OneStep(w, Die);
    ReachableOn(w, [Die]);
  }

  /**
    What a call of the class leaves behind is a reachable world: the store's
    list is its journal, and the provider saw as many creates as it counts.
   */
  lemma CallIsRun(w: World, step: Step, log0: seq<Event>, calls0: seq<Action>, log: seq<Event>, calls: seq<Action>,
      v: Verdict)
    returns (n: World)
    requires Reachable(w) && w.flight == [] && w.journal != [] && IsCall(step)
    requires w.journal == Records(log0) && |w.creates| == CreateCalls(calls0)
    requires Performed(CallScript(w, step), log0, calls0, log, calls, v)
    ensures Reachable(n) && n.flight == [] && n.journal == Records(log) && n.journal != []
    ensures |n.creates| == CreateCalls(calls) <= 1
  {
    var script := CallScript(w, step);
    var cut: nat :| Cut(script, cut, log0, calls0, log, calls, v);
    var b := BeginCall(w, step);
    assert b.flight == script.acts && b.journal == w.journal && b.creates == w.creates;
    PerformIsAppend(b, w.pods, script.acts, cut, log0);
    CreateCallsConcat(calls0, CallsOf(script.acts[..cut]));
    var m := Run(b, Performs(cut, w.pods));
    ReachableOn(b, Performs(cut, w.pods));
    n := Perish(m);
    ReachableOk(n);
  }

  // ---- calls at a provider that keeps its contract ----

  /** The provider's honest steps keep `holds`. */
  ghost predicate Kept(holds: World -> bool, lead: Time) {
    forall w, step {:trigger holds(Next(w, step))} ::
      holds(w) && w.journal != [] && Honest(w, step, lead) ==> holds(Next(w, step))
  }

  /** The pods after the provider's `n`-th turn; `p` if that was before the call. */
  function PodsAt(p: Pods, turns: nat -> Turn, from: nat, n: nat): Pods {
    if n <= from then p else turns(n - 1).after
  }

  /** The provider kept its contract in the turns that these calls took, and between them. */
  ghost predicate ContractKept(req: Request, p: Pods, turns: nat -> Turn, from: nat, calls: seq<Action>) {
    forall i {:trigger calls[i]} :: from <= i < |calls| ==>
      && Evolves(req, PodsAt(p, turns, from, i), turns(i).before)
      && EffectHonest(req, turns(i).before, calls[i], turns(i).after)
  }

  lemma ContractKeptBefore(req: Request, p: Pods, turns: nat -> Turn, from: nat, calls: seq<Action>, more: seq<Action>)
    requires ContractKept(req, p, turns, from, more) && calls <= more
    ensures ContractKept(req, p, turns, from, calls)
  {
    forall i | from <= i < |calls|
      ensures EffectHonest(req, turns(i).before, calls[i], turns(i).after)
      ensures Evolves(req, PodsAt(p, turns, from, i), turns(i).before)
    {
      assert calls[i] == more[i];
    }
  }

  lemma KeptByCommit(holds: World -> bool, lead: Time, w: World)
    requires Kept(holds, lead) && holds(w) && w.journal != [] && w.flight != [] && w.flight[0].Commit?
    ensures holds(PerformNext(w, w.pods))
  {
    assert holds(Next(w, Perform(w.pods)));
  }

  /** The provider drifts to where the next call finds it, and the call leaves it where it says. */
  lemma KeptByTurn(holds: World -> bool, lead: Time, w: World, turn: Turn)
    requires Kept(holds, lead) && holds(w) && w.journal != [] && w.flight != []
    requires Evolves(w.req, w.pods, turn.before) && EffectHonest(w.req, turn.before, w.flight[0], turn.after)
    ensures holds(PerformNext(w.(pods := turn.before), turn.after))
  {
    var d := w.(pods := turn.before);
    assert Next(w, Drift(turn.before)) == d && holds(Next(w, Drift(turn.before)));
    assert holds(Next(d, Perform(turn.after)));
  }

  /** What `m` shows after the first `n` actions that `b` had in flight. */
  predicate ShowsPerformed(b: World, n: nat, log0: seq<Event>, from: nat, turns: nat -> Turn, m: World)
    requires n <= |b.flight|
  {
    && m.req == b.req && m.flight == b.flight[n..]
    && m.journal == Records(AppendCommits(log0, b.flight[..n])) && m.journal != []
    && m.pods == PodsAt(b.pods, turns, from, from + |CallsOf(b.flight[..n])|)
  }

  lemma ShowsCommit(b: World, n: nat, log0: seq<Event>, from: nat, turns: nat -> Turn, k: World)
    requires 0 < n <= |b.flight| && b.flight[n - 1].Commit? && ShowsPerformed(b, n - 1, log0, from, turns, k)
    ensures k.flight != [] && k.flight[0] == b.flight[n - 1]
    ensures ShowsPerformed(b, n, log0, from, turns, PerformNext(k, k.pods))
  {
    FlightMoves(b.flight, n);
    assert |CallsOf(b.flight[..n])| == |CallsOf(b.flight[..n - 1])|;
    var m := PerformNext(k, k.pods);
    assert m.pods == k.pods && m.flight == b.flight[n..];
    CommitRecorded(b.flight, n, log0, k);
  }

  lemma CommitRecorded(flight: seq<Action>, n: nat, log0: seq<Event>, k: World)
    requires 0 < n <= |flight| && flight[n - 1].Commit? && k.flight != [] && k.flight[0] == flight[n - 1]
    requires k.journal == Records(AppendCommits(log0, flight[..n - 1]))
    ensures PerformNext(k, k.pods).journal == Records(AppendCommits(log0, flight[..n]))
  {
    AppendsNext(log0, flight, n);
    assert PerformNext(k, k.pods).journal == k.journal
      + [LifecycleRuns.Record(flight[n - 1].kind, flight[n - 1].state)];
  }

  /** The list in flight, and the calls it has made, after one more action. */
  lemma FlightMoves(flight: seq<Action>, n: nat)
    requires 0 < n <= |flight|
    ensures flight[n - 1..][0] == flight[n - 1] && flight[n - 1..][1..] == flight[n..]
    ensures CallsOf(flight[..n]) == CallsOf(flight[..n - 1]) + (if flight[n - 1].Commit? then [] else [flight[n - 1]])
  {
    assert flight[..n][..n - 1] == flight[..n - 1];
  }

  lemma TurnPerforms(k: World, turn: Turn)
    requires k.flight != [] && !k.flight[0].Commit?
    ensures var m := PerformNext(k.(pods := turn.before), turn.after);
      m.req == k.req && m.flight == k.flight[1..] && m.journal == k.journal && m.pods == turn.after
  {
  }

  lemma NothingRecorded(flight: seq<Action>, n: nat, log0: seq<Event>)
    requires 0 < n <= |flight| && !flight[n - 1].Commit?
    ensures AppendCommits(log0, flight[..n]) == AppendCommits(log0, flight[..n - 1])
  {
    assert flight[..n][..n - 1] == flight[..n - 1];
  }

  lemma ShowsTurn(b: World, n: nat, log0: seq<Event>, from: nat, turns: nat -> Turn, k: World)
    requires 0 < n <= |b.flight| && !b.flight[n - 1].Commit? && ShowsPerformed(b, n - 1, log0, from, turns, k)
    ensures k.flight != [] && k.flight[0] == b.flight[n - 1]
    ensures var turn := turns(from + |CallsOf(b.flight[..n - 1])|);
      ShowsPerformed(b, n, log0, from, turns, PerformNext(k.(pods := turn.before), turn.after))
  {
    FlightMoves(b.flight, n);
    NothingRecorded(b.flight, n, log0);
    var at := from + |CallsOf(b.flight[..n - 1])|;
    assert from + |CallsOf(b.flight[..n])| == at + 1;
    TurnPerforms(k, turns(at));
  }

  /** What honest steps keep is kept by performing a script at a provider that keeps its contract. */
  lemma {:induction false} PerformsHonestly(holds: World -> bool, lead: Time, b: World, n: nat, log0: seq<Event>,
                                            calls0: seq<Action>, turns: nat -> Turn) returns (m: World)
    requires Kept(holds, lead) && holds(b) && b.journal == Records(log0) && b.journal != [] && n <= |b.flight|
    requires ContractKept(b.req, b.pods, turns, |calls0|, calls0 + CallsOf(b.flight[..n]))
    ensures holds(m) && ShowsPerformed(b, n, log0, |calls0|, turns, m)
  {
    if n == 0 {
      assert b.flight[..0] == [] && b.flight[0..] == b.flight;
      m := b;
    } else {
      var calls, next := calls0 + CallsOf(b.flight[..n - 1]), calls0 + CallsOf(b.flight[..n]);
      assert b.flight[..n][..n - 1] == b.flight[..n - 1];
      ContractKeptBefore(b.req, b.pods, turns, |calls0|, calls, next);
      var k := PerformsHonestly(holds, lead, b, n - 1, log0, calls0, turns);
      if b.flight[n - 1].Commit? {
        ShowsCommit(b, n, log0, |calls0|, turns, k);
        KeptByCommit(holds, lead, k);
        m := PerformNext(k, k.pods);
      } else {
        ShowsTurn(b, n, log0, |calls0|, turns, k);
        FlightMoves(b.flight, n);
        assert next[|calls|] == b.flight[n - 1];
        var turn := turns(|calls|);
        KeptByTurn(holds, lead, k, turn);
        m := PerformNext(k.(pods := turn.before), turn.after);
      }
    }
  }

  /** How far the script got. */
  lemma CutOf(flight: seq<Action>, script: Script, log0: seq<Event>, calls0: seq<Action>, log: seq<Event>,
      calls: seq<Action>, v: Verdict)
    returns (n: nat)
    requires flight == script.acts && Performed(script, log0, calls0, log, calls, v)
    ensures n <= |flight| && log == AppendCommits(log0, flight[..n]) && calls == calls0 + CallsOf(flight[..n])
  {
    var cut: nat :| Cut(script, cut, log0, calls0, log, calls, v);
    n := cut;
  }

  lemma KeptByBegin(holds: World -> bool, lead: Time, w: World, step: Step)
    requires Kept(holds, lead) && holds(w) && w.flight == [] && w.journal != [] && IsCall(step) && Honest(w, step, lead)
    ensures holds(w.(flight := CallScript(w, step).acts))
  {
    assert holds(Next(w, step));
  }

  lemma KeptByDeath(holds: World -> bool, lead: Time, w: World)
    requires Kept(holds, lead) && holds(w) && w.journal != []
    ensures holds(w.(flight := []))
  {
    assert holds(Next(w, Die));
  }

  lemma CutKeeps(holds: World -> bool, lead: Time, b: World, script: Script, log0: seq<Event>, calls0: seq<Action>,
                 log: seq<Event>, calls: seq<Action>, v: Verdict, turns: nat -> Turn) returns (n: World)
    requires Kept(holds, lead) && holds(b) && b.journal == Records(log0) && b.journal != [] && b.flight == script.acts
    requires Performed(script, log0, calls0, log, calls, v)
    requires ContractKept(b.req, b.pods, turns, |calls0|, calls)
    ensures holds(n) && n.req == b.req && n.flight == [] && n.journal == Records(log) && n.journal != []
    ensures n.pods == PodsAt(b.pods, turns, |calls0|, |calls|)
  {
    var cut := CutOf(b.flight, script, log0, calls0, log, calls, v);
    var m := PerformsHonestly(holds, lead, b, cut, log0, calls0, turns);
    KeptByDeath(holds, lead, m);
    n := m.(flight := []);
  }

  /** What honest steps keep is kept by a call of the class, complete or cut short. */
  lemma CallKeeps(holds: World -> bool, lead: Time, w: World, step: Step, log0: seq<Event>, calls0: seq<Action>,
                  log: seq<Event>, calls: seq<Action>, v: Verdict, turns: nat -> Turn) returns (n: World)
    requires Kept(holds, lead) && holds(w) && w.flight == [] && w.journal != [] && IsCall(step) && Honest(w, step, lead)
    requires w.journal == Records(log0)
    requires Performed(CallScript(w, step), log0, calls0, log, calls, v)
    requires ContractKept(w.req, w.pods, turns, |calls0|, calls)
    ensures holds(n) && n.req == w.req && n.flight == [] && n.journal == Records(log) && n.journal != []
    ensures n.pods == PodsAt(w.pods, turns, |calls0|, |calls|)
  {
    KeptByBegin(holds, lead, w, step);
    var script := CallScript(w, step);
    n := CutKeeps(holds, lead, w.(flight := script.acts), script, log0, calls0, log, calls, v, turns);
  }

  ghost predicate HonestReachable(w: World, lead: Time) {
    exists req, grace, time, steps ::
      HonestRun(PlannedRun(req, grace, time), steps, lead) && w == Run(PlannedRun(req, grace, time), steps)
  }

  lemma HonestOn(w: World, step: Step, lead: Time)
    requires HonestReachable(w, lead) && w.journal != [] && Honest(w, step, lead)
    ensures HonestReachable(Next(w, step), lead)
  {
    var req, grace, time, steps :|
      HonestRun(PlannedRun(req, grace, time), steps, lead) && w == Run(PlannedRun(req, grace, time), steps);
    assert (steps + [step])[..|steps|] == steps;
    assert Next(w, step) == Run(PlannedRun(req, grace, time), steps + [step]);
  }

  lemma HonestRunsGoOn(lead: Time)
    ensures Kept(w => HonestReachable(w, lead), lead)
  {
    forall w: World, step: Step | HonestReachable(w, lead) && w.journal != [] && Honest(w, step, lead)
      ensures HonestReachable(Next(w, step), lead)
    {
      HonestOn(w, step, lead);
    }
  }

  /**
    What a call of the class leaves behind, complete or cut short, is an honest
    run whenever the provider's lookups and turns keep the contract.
   */
  lemma CallIsHonestRun(w: World, step: Step, log0: seq<Event>, calls0: seq<Action>, log: seq<Event>,
      calls: seq<Action>, v: Verdict, turns: nat -> Turn, lead: Time) returns (n: World)
    requires HonestReachable(w, lead) && w.flight == [] && w.journal != [] && IsCall(step) && Honest(w, step, lead)
    requires w.journal == Records(log0)
    requires Performed(CallScript(w, step), log0, calls0, log, calls, v)
    requires ContractKept(w.req, w.pods, turns, |calls0|, calls)
    ensures HonestReachable(n, lead) && n.req == w.req && n.flight == [] && n.journal == Records(log) && n.journal != []
    ensures n.pods == PodsAt(w.pods, turns, |calls0|, |calls|)
  {
    HonestRunsGoOn(lead);
    n := CallKeeps(w => HonestReachable(w, lead), lead, w, step, log0, calls0, log, calls, v, turns);
  }

  lemma HonestClosedGone(w: World, lead: Time)
    requires HonestReachable(w, lead) && lead <= ABSENCE_GRACE && w.journal != [] && Current(w).lifecycle == Closed
    ensures Gone(w.req, w.pods)
  {
    var req, grace, time, steps :|
      HonestRun(PlannedRun(req, grace, time), steps, lead) && w == Run(PlannedRun(req, grace, time), steps);
    ClosedIsGone(req, grace, time, steps, lead);
    RunKeepsRequest(PlannedRun(req, grace, time), steps);
  }

  lemma ReconcileIsHonestRun(w: World, r: Replies, log0: seq<Event>, calls0: seq<Action>, log: seq<Event>,
      calls: seq<Action>, v: Verdict, turns: nat -> Turn, lead: Time) returns (n: World)
    requires HonestReachable(w, lead) && w.flight == [] && w.journal != [] && Honest(w, Reconcile(r), lead)
    requires w.journal == Records(log0) && lead <= ABSENCE_GRACE
    requires Performed(ReconcileScript(w.req, w.grace, Current(w), r), log0, calls0, log, calls, v)
    ensures ContractKept(w.req, w.pods, turns, |calls0|, calls) ==>
      && HonestReachable(n, lead) && n.req == w.req && n.flight == [] && n.journal == Records(log) && n.journal != []
      && n.pods == PodsAt(w.pods, turns, |calls0|, |calls|)
      && (Current(n).lifecycle == Closed ==> Gone(w.req, n.pods))
  {
    n := w;
    if ContractKept(w.req, w.pods, turns, |calls0|, calls) {
      n := CallIsHonestRun(w, Reconcile(r), log0, calls0, log, calls, v, turns, lead);
      if Current(n).lifecycle == Closed {
        HonestClosedGone(n, lead);
      }
    }
  }

  /**
    One reconcile of the controller object, at a provider that keeps its
    contract: the run stays honest, and if the store then says closed, no pod
    of the run is left and none can come.
   */
  method ReconcileAtProvider(c: LifecycleController, fuse: nat, ghost w: World, ghost lead: Time)
    returns (v: Verdict, left: nat, ghost n: World)
    requires c.Valid() && w.req == c.store.request.value && w.grace == c.grace && w.journal == Records(c.store.log)
    requires HonestReachable(w, lead) && w.flight == [] && Honest(w, Reconcile(c.provider.replies), lead)
      && lead <= ABSENCE_GRACE
    modifies c.store, c.provider
    ensures c.Valid() && left <= fuse
    ensures ContractKept(w.req, w.pods, c.provider.turns, |old(c.provider.calls)|, c.provider.calls) ==>
      && HonestReachable(n, lead) && n.req == w.req && n.flight == [] && n.journal == Records(c.store.log)
      && n.pods == PodsAt(w.pods, c.provider.turns, |old(c.provider.calls)|, |c.provider.calls|)
      && (Last(c.store.log).lifecycle == Closed ==> Gone(w.req, n.pods))
  {
    ghost var log0, calls0, r := c.store.log, c.provider.calls, c.provider.replies;
    v, left := c.Reconcile(fuse);
    n := ReconcileIsHonestRun(w, r, log0, calls0, c.store.log, c.provider.calls, v, c.provider.turns, lead);
  }
}
