/**
  The controller itself: each call reads the durable state, updates its copy
  step by step and commits it to the store, calling the provider in between.
  Every method is proved to perform exactly a prefix of the script that
  `LifecycleState` defines for the call, whole unless the store refuses or the
  process dies.
 */
module LifecycleController {
  import opened Prelude
  import opened Journal
  import opened LifecycleState
  import LifecycleRuns
  import opened RunStore

  /** How a call ended: as the script says, or cut short by the store or by death. */
  datatype Verdict = Finished(outcome: Outcome) | StoreRefused | NoRun | ProcessDied

  // ---- the effects of a list of actions ----

  function AppendCommits(log: seq<Event>, acts: seq<Action>): seq<Event>
    decreases |acts|
  {
    if acts == [] then log
    else
      var before := AppendCommits(log, acts[..|acts| - 1]);
      var last := acts[|acts| - 1];
      if last.Commit? then before + [NewEvent(before, last.kind, last.state)] else before
  }

  function CallsOf(acts: seq<Action>): seq<Action>
    decreases |acts|
  {
    if acts == [] then []
    else
      var last := acts[|acts| - 1];
      CallsOf(acts[..|acts| - 1]) + (if last.Commit? then [] else [last])
  }

  function Last(log: seq<Event>): RunState
    requires log != []
  {
    log[|log| - 1].projection.state
  }

  /** The first `cut` actions of the script happened; all of them if the call finished. */
  ghost predicate Cut(s: Script, cut: nat, log0: seq<Event>, calls0: seq<Action>, log: seq<Event>, calls: seq<Action>,
      v: Verdict) {
    && cut <= |s.acts|
    && log == AppendCommits(log0, s.acts[..cut])
    && calls == calls0 + CallsOf(s.acts[..cut])
    && (v.Finished? ==> cut == |s.acts| && v.outcome == s.outcome)
  }

  ghost predicate Performed(s: Script, log0: seq<Event>, calls0: seq<Action>, log: seq<Event>, calls: seq<Action>,
      v: Verdict) {
    exists cut :: Cut(s, cut, log0, calls0, log, calls, v)
  }

  lemma {:induction false} ConcatEffects(log: seq<Event>, first: seq<Action>, rest: seq<Action>)
    ensures AppendCommits(log, first + rest) == AppendCommits(AppendCommits(log, first), rest)
    ensures CallsOf(first + rest) == CallsOf(first) + CallsOf(rest)
    decreases |rest|
  {
    if rest == [] {
      assert first + rest == first;
    } else {
      var front := rest[..|rest| - 1];
      assert (first + rest)[..|first + rest| - 1] == first + front;
      ConcatEffects(log, first, front);
    }
  }

  /** After `first` was performed whole, what the rest does is what the joined script does. */
  lemma JoinPerformed(first: seq<Action>, s: Script, log0: seq<Event>, calls0: seq<Action>, log: seq<Event>,
      calls: seq<Action>, v: Verdict)
    requires Performed(s, AppendCommits(log0, first), calls0 + CallsOf(first), log, calls, v)
    ensures Performed(Then(first, s), log0, calls0, log, calls, v)
  {
    var cut: nat :| Cut(s, cut, AppendCommits(log0, first), calls0 + CallsOf(first), log, calls, v);
    assert (first + s.acts)[..|first| + cut] == first + s.acts[..cut];
    ConcatEffects(log0, first, s.acts[..cut]);
    assert Cut(Then(first, s), |first| + cut, log0, calls0, log, calls, v);
  }

  /** A call cut short inside `first`. */
  lemma CutInFirst(first: seq<Action>, s: Script, cut: nat, log0: seq<Event>, calls0: seq<Action>, log: seq<Event>,
      calls: seq<Action>, v: Verdict)
    requires cut <= |first| && !v.Finished?
    requires log == AppendCommits(log0, first[..cut]) && calls == calls0 + CallsOf(first[..cut])
    ensures Performed(Then(first, s), log0, calls0, log, calls, v)
  {
    assert (first + s.acts)[..cut] == first[..cut];
    assert Cut(Then(first, s), cut, log0, calls0, log, calls, v);
  }

  lemma NothingPerformed(s: Script, log: seq<Event>, calls: seq<Action>, v: Verdict)
    requires v.Finished? ==> s.acts == [] && v.outcome == s.outcome
    ensures Performed(s, log, calls, log, calls, v)
  {
    assert s.acts[..0] == [];
    assert calls + CallsOf([]) == calls;
    assert Cut(s, 0, log, calls, log, calls, v);
  }

  lemma NothingHappened(s: Script, log: seq<Event>, calls: seq<Action>)
    ensures Performed(s, log, calls, log, calls, ProcessDied)
  {
    NothingPerformed(Script([], s.outcome), log, calls, ProcessDied);
    CutInFirst([], s, 0, log, calls, log, calls, ProcessDied);
    assert [] + s.acts == s.acts;
  }

  /** A commit that was cut short, as the first of two actions. */
  lemma FirstCommit(first: seq<Action>, rest: Script, log0: seq<Event>, calls0: seq<Action>, log: seq<Event>,
      calls: seq<Action>, v: Verdict)
    requires |first| == 2 && first[0].Commit?
    requires Performed(LifecycleState.Done(first[0].kind, first[0].state), log0, calls0, log, calls, v)
    ensures !v.Finished? ==> Performed(Then(first, rest), log0, calls0, log, calls, v)
    ensures v.Finished? ==> log == AppendCommits(log0, first[..1]) && calls == calls0
  {
    var one := LifecycleState.Done(first[0].kind, first[0].state);
    var cut: nat :| Cut(one, cut, log0, calls0, log, calls, v);
    assert one.acts == first[..1] && one.acts[..cut] == first[..cut];
    if v.Finished? {
      OneEffect(log0, first[0]);
      assert one.acts[..1] == [first[0]];
    } else {
      CutInFirst(first, rest, cut, log0, calls0, log, calls, v);
    }
  }

  /** A commit and a provider call. */
  lemma BothEffects(first: seq<Action>, rest: Script, log0: seq<Event>, calls0: seq<Action>)
    requires |first| == 2 && first[0].Commit? && !first[1].Commit?
    ensures AppendCommits(log0, first) == AppendCommits(log0, first[..1])
    ensures CallsOf(first) == [first[1]] && CallsOf(first[..1]) == []
  {
    OneEffect(log0, first[0]);
    assert first[..1] == [first[0]];
  }

  lemma OneEffect(log: seq<Event>, a: Action)
    ensures AppendCommits(log, [a]) == if a.Commit? then log + [NewEvent(log, a.kind, a.state)] else log
    ensures CallsOf([a]) == if a.Commit? then [] else [a]
  {
    assert [a][..0] == [];
  }

  /** The pods a call with an effect finds at the provider, and the pods it leaves there. */
  datatype Turn = Turn(before: LifecycleRuns.Pods, after: LifecycleRuns.Pods)

  /**
    The provider as one call sees it: the replies it will give, and the log of
    the calls with effects that reached it. The n-th such call is the turn
    `turns(n)` of the provider's pods, about which nothing is assumed here.
   */
  class Provider {
    var replies: Replies
    var calls: seq<Action>
    ghost const turns: nat -> Turn

    constructor (replies: Replies, ghost turns: nat -> Turn)
      ensures this.replies == replies && calls == [] && this.turns == turns
    {
      this.replies, calls, this.turns := replies, [], turns;
    }

    method Effect(call: Action, fuse: nat) returns (alive: bool, left: nat)
      modifies this`calls
      ensures alive <==> fuse > 0
      ensures alive ==> calls == old(calls) + [call] && left == fuse - 1
      ensures !alive ==> calls == old(calls) && left == 0
    {
      alive, left := fuse > 0, fuse;
      if alive {
        calls, left := calls + [call], fuse - 1;
      }
    }
  }

  class LifecycleController {
    const store: RunStore
    const provider: Provider
    const grace: Time

    ghost predicate Valid()
      reads this, store
    {
      store.Valid() && store.log != []
    }

    /** What happened since the store held `log0` and the provider had seen `calls0`. */
    ghost predicate Did(s: Script, log0: seq<Event>, calls0: seq<Action>, v: Verdict)
      reads this, store, provider
    {
      Performed(s, log0, calls0, store.log, provider.calls, v)
    }

    /** A call is cut short only by the end of the process, or by a journal that cannot be read. */
    ghost predicate CutShort(v: Verdict, left: nat)
      reads store
    {
      (v.ProcessDied? ==> left == 0) && (v.StoreRefused? ==> !store.Legible()) && !v.NoRun?
    }

    constructor (store: RunStore, provider: Provider, grace: Time)
      requires store.Valid() && store.log != []
      ensures Valid() && this.store == store && this.provider == provider && this.grace == grace
    {
      this.store, this.provider, this.grace := store, provider, grace;
    }

    method Commit(kind: EventKind, state: RunState, fuse: nat) returns (v: Verdict, left: nat)
      requires Valid()
      modifies store
      ensures Valid() && store.request == old(store.request) && left <= fuse
      ensures CutShort(v, left)
      ensures Did(Done(kind, state), old(store.log), old(provider.calls), v)
    {
      ghost var script := Done(kind, state);
      ghost var calls := provider.calls;
      OneEffect(store.log, script.acts[0]);
      assert script.acts[..0] == [] && script.acts[..1] == script.acts;
      assert calls + [] == calls;
      var r;
      r, left := store.CommitState(kind, state, fuse);
      v := if r.Ok? then Finished(Returned(state)) else if r.Died? then ProcessDied else StoreRefused;
      assert Cut(script, if store.log == old(store.log) then 0 else 1, old(store.log), calls, store.log, calls, v);
    }

    /** A commit that the source follows by re-raising a provider error. */
    method CommitAndRaise(kind: EventKind, state: RunState, error: Error, fuse: nat) returns (v: Verdict, left: nat)
      requires Valid()
      modifies store
      ensures Valid() && store.request == old(store.request) && left <= fuse
      ensures CutShort(v, left)
      ensures Did(Script([Action.Commit(kind, state)], Raised(error)), old(store.log), old(provider.calls), v)
    {
      v, left := Commit(kind, state, fuse);
      ghost var cut: nat :| Cut(Done(kind, state), cut, old(store.log), old(provider.calls), store.log,
        provider.calls, v);
      if v.Finished? {
        v := Finished(Raised(error));
      }
      assert Cut(Script([Action.Commit(kind, state)], Raised(error)), cut, old(store.log), old(provider.calls),
        store.log, provider.calls, v);
    }

    method Fail(error: Error, fuse: nat) returns (v: Verdict, left: nat)
      requires Valid()
      ensures v == Finished(Raised(error)) && left == fuse
      ensures CutShort(v, left)
      ensures Did(Raise(error), store.log, provider.calls, v)
    {
      v, left := Finished(Raised(error)), fuse;
      NothingPerformed(Raise(error), store.log, provider.calls, v);
    }

    // ---- provisioning ----

    method IntendProvision(state: RunState, fuse: nat) returns (v: Verdict, left: nat)
      requires Valid()
      modifies store
      ensures Valid() && store.request == old(store.request) && left <= fuse
      ensures CutShort(v, left)
      ensures Did(LifecycleState.IntendProvision(state), old(store.log), old(provider.calls), v)
    {
      var st := state;
      if st.provision.None? {
        st := st.(provision := Some(NewOperation(st.runId, Provision)));
      }
      st := st.(lifecycle := Provisioning);
      v, left := Commit(ProviderOperationIntended, st, fuse);
    }

    /** The fail-closed fields that every cancelling branch sets. */
    method CancelInto(state: RunState, detail: string, next: Lifecycle) returns (st: RunState)
      ensures st == Abandon(state, detail, next)
    {
      st := state.(result := Some(Cancelled));
      st := st.(closeout := st.closeout.(disposition := Some(Disposition(Unavailable, detail))));
      if st.delete.None? {
        st := st.(delete := Some(NewOperation(st.runId, Delete)));
      }
      st := st.(lifecycle := next);
    }

    method RecordRejection(state: RunState, kind: OperationKind, operation: Operation, ids: seq<PodId>,
        message: string, fuse: nat)
      returns (v: Verdict, left: nat)
      requires Valid()
      modifies store
      ensures Valid() && store.request == old(store.request) && left <= fuse
      ensures CutShort(v, left)
      ensures Did(Rejection(state, kind, operation, ids, message), old(store.log), old(provider.calls), v)
    {
      var op := operation.(status := Rejected, lastError := Some(message));
      var st := CancelInto(WithOperation(state, kind, op), message, Deleting);
      if |ids| > 0 {
        st := st.(quarantined := Some(ids), resource := Some(Resource(ids[0], None)));
      }
      v, left := Commit(ResourceRejected, st, fuse);
    }

    method RecordUnknown(state: RunState, kind: OperationKind, operation: Operation, message: string, fuse: nat)
      returns (v: Verdict, left: nat)
      requires Valid()
      modifies store
      ensures Valid() && store.request == old(store.request) && left <= fuse
      ensures CutShort(v, left)
      ensures Did(UnknownOutcome(state, kind, operation, message), old(store.log), old(provider.calls), v)
    {
      var op := operation.(status := OutcomeUnknown);
      op := op.(lastError := Some(message));
      v, left := CommitAndRaise(OutcomeUnknownRecorded, WithOperation(state, kind, op), ProviderUnknown, fuse);
    }

    method RecordFailure(state: RunState, kind: OperationKind, operation: Operation, message: string, fuse: nat)
      returns (v: Verdict, left: nat)
      requires Valid()
      modifies store
      ensures Valid() && store.request == old(store.request) && left <= fuse
      ensures CutShort(v, left)
      ensures Did(FailedOperation(state, kind, operation, message), old(store.log), old(provider.calls), v)
    {
      var op := operation.(status := OpFailed);
      op := op.(lastError := Some(message));
      v, left := CommitAndRaise(OperationFailed, WithOperation(state, kind, op), ProviderFailure, fuse);
    }

    method RecordProvisioned(state: RunState, operation: Operation, view: PodView, fuse: nat)
      returns (v: Verdict, left: nat)
      requires Valid()
      modifies store
      ensures Valid() && store.request == old(store.request) && left <= fuse
      ensures CutShort(v, left)
      ensures Did(LifecycleState.RecordProvisioned(state, operation, view), old(store.log), old(provider.calls), v)
    {
      if view.run != state.runId || view.op != operation.id {
        v, left := Fail(ProviderProtocol, fuse);
        return;
      }
      var st := state.(provision := Some(operation.(status := Observed, resourceId := Some(view.id))));
      if st.start.None? {
        st := st.(start := Some(NewOperation(st.runId, Start)));
      }
      st := st.(resource := Some(Projected(view)), lifecycle := Starting);
      v, left := Commit(ResourceProvisioned, st, fuse);
    }

    method ObserveVisibility(state: RunState, operation: Operation, fuse: nat) returns (v: Verdict, left: nat)
      requires Valid()
      modifies store
      ensures Valid() && store.request == old(store.request) && left <= fuse
      ensures CutShort(v, left)
      ensures Did(LifecycleState.ObserveVisibility(state, operation, grace, provider.replies.now), old(store.log),
        old(provider.calls), v)
    {
      var now := provider.replies.now;
      var op := operation;
      var first := if op.dispatchedAt.Some? then op.dispatchedAt else op.visibilityFirstAt;
      if first.None? {
        first := Some(now);
        op := op.(visibilityFirstAt := first);
      }
      ghost var script := LifecycleState.ObserveVisibility(state, operation, grace, now);
      var elapsed := now - first.value;
      if elapsed < 0 {
        v, left := Fail(LifecycleConflict, fuse);
        return;
      }
      op := op.(visibilityCount := op.visibilityCount + 1, visibilityLastAt := Some(now));
      assert script == if elapsed < grace then Done(VisibilityPending, state.(provision := Some(op)))
        else Exhaust(state, op);
      if elapsed < grace {
        v, left := Commit(VisibilityPending, state.(provision := Some(op)), fuse);
      } else {
        v, left := ExhaustVisibility(state, op, fuse);
      }
    }

    method ExhaustVisibility(state: RunState, operation: Operation, fuse: nat) returns (v: Verdict, left: nat)
      requires Valid()
      modifies store
      ensures Valid() && store.request == old(store.request) && left <= fuse
      ensures CutShort(v, left)
      ensures Did(Exhaust(state, operation), old(store.log), old(provider.calls), v)
    {
      var st := state.(provision := Some(operation.(status := Unresolved)));
      st := st.(recoveryReason := Some(DispatchUnresolved));
      st := CancelInto(st, INVISIBLE_DETAIL, Recovering);
      v, left := Commit(VisibilityExhausted, st, fuse);
    }

    method RecordCreate(state: RunState, operation: Operation, reply: CreateReply, fuse: nat)
      returns (v: Verdict, left: nat)
      requires Valid()
      modifies store
      ensures Valid() && store.request == old(store.request) && left <= fuse
      ensures CutShort(v, left)
      ensures Did(AfterCreate(state, operation, reply), old(store.log), old(provider.calls), v)
    {
      match reply {
        case CreateRejected(ids, message) =>
          v, left := RecordRejection(state, Provision, operation, ids, message, fuse);
        case CreateUnknown(message) => v, left := RecordUnknown(state, Provision, operation, message, fuse);
        case CreateFailed(message) => v, left := RecordFailure(state, Provision, operation, message, fuse);
        case Created(view) => v, left := RecordProvisioned(state, operation, view, fuse);
      }
    }

    /** The one place that creates: dispatch is durable before the call. */
    method DispatchCreate(state: RunState, operation: Operation, fuse: nat) returns (v: Verdict, left: nat)
      requires Valid()
      modifies store, provider`calls
      ensures Valid() && store.request == old(store.request) && left <= fuse
      ensures CutShort(v, left)
      ensures Did(Dispatch(state, operation, provider.replies), old(store.log), old(provider.calls), v)
    {
      var now, reply := provider.replies.now, provider.replies.create;
      var op := operation.(attempts := operation.attempts + 1);
      op := op.(status := Dispatched);
      op := op.(dispatchedAt := Some(now));
      var st := state.(provision := Some(op));
      ghost var first := [Action.Commit(ProviderOperationDispatched, st), CallCreate(op.id, reply)];
      ghost var rest := AfterCreate(st, op, reply);
      assert Dispatch(state, operation, provider.replies) == Then(first, rest);
      ghost var log0, calls0 := store.log, provider.calls;
      v, left := Commit(ProviderOperationDispatched, st, fuse);
      FirstCommit(first, rest, log0, calls0, store.log, provider.calls, v);
      if !v.Finished? {
        return;
      }
      var alive;
      alive, left := provider.Effect(CallCreate(op.id, reply), left);
      BothEffects(first, rest, log0, calls0);
      if !alive {
        v := ProcessDied;
        CutInFirst(first, rest, 1, log0, calls0, store.log, provider.calls, v);
        return;
      }
      v, left := RecordCreate(st, op, reply, left);
      JoinPerformed(first, rest, log0, calls0, store.log, provider.calls, v);
    }

    method ReconcileProvision(state: RunState, fuse: nat) returns (v: Verdict, left: nat)
      requires Valid() && store.request.Some?
      modifies store, provider`calls
      ensures Valid() && store.request == old(store.request) && left <= fuse
      ensures CutShort(v, left)
      ensures Did(ProvisionScript(store.request.value, grace, state, provider.replies), old(store.log),
        old(provider.calls), v)
    {
      if state.provision.None? {
        v, left := Fail(LifecycleConflict, fuse);
        return;
      }
      var operation := state.provision.value;
      var found := provider.replies.find;
      if found.FindError? {
        v, left := Fail(ProviderFailure, fuse);
        return;
      }
      if found.FindRejected? {
        v, left := RecordRejection(state, Provision, operation, found.ids, found.message, fuse);
        return;
      }
      var matches := found.views;
      if |matches| > 1 {
        var st := state.(recoveryReason := Some(DuplicateResources));
        st := st.(provision := Some(operation.(status := Conflict, resourceIds := ViewIds(matches))));
        st := st.(quarantined := Some(ViewIds(matches)));
        st := st.(resource := Some(Projected(matches[0])));
        st := CancelInto(st, DUPLICATES_DETAIL, Deleting);
        v, left := Commit(ConflictQuarantined, st, fuse);
        return;
      }
      if |matches| == 1 {
        v, left := RecordProvisioned(state, operation, matches[0], fuse);
        return;
      }
      if operation.status != Intended {
        v, left := ObserveVisibility(state, operation, fuse);
        return;
      }
      if store.request.value.provider.Malformed? {
        v, left := Fail(ProviderProtocol, fuse);
        return;
      }
      v, left := DispatchCreate(state, operation, fuse);
    }

    // ---- starting ----

    method ReconcileStart(state: RunState, fuse: nat) returns (v: Verdict, left: nat)
      requires Valid()
      modifies store, provider`calls
      ensures Valid() && store.request == old(store.request) && left <= fuse
      ensures CutShort(v, left)
      ensures Did(StartScript(state, provider.replies), old(store.log), old(provider.calls), v)
    {
      if state.resource.None? || state.start.None? {
        v, left := Fail(LifecycleConflict, fuse);
        return;
      }
      var pod, operation := state.resource.value.id, state.start.value;
      match provider.replies.get {
        case GetError =>
          v, left := Fail(ProviderFailure, fuse);
        case GetRejected(ids, message) =>
          v, left := RecordRejection(state, Start, operation, ids, message, fuse);
        case Absent =>
          v, left := RecordMissing(state, operation, fuse);
        case Got(observed) =>
          v, left := StartObserved(state, pod, operation, observed, fuse);
      }
    }

    /** The resource disappeared before it was started. */
    method RecordMissing(state: RunState, operation: Operation, fuse: nat) returns (v: Verdict, left: nat)
      requires Valid()
      modifies store
      ensures Valid() && store.request == old(store.request) && left <= fuse
      ensures CutShort(v, left)
      ensures Did(Done(ResourceMissing,
                       Abandon(state.(recoveryReason := Some(DisappearedBeforeStart),
                                      start := Some(operation.(status := ResourceNotFound))),
                               DISAPPEARED_DETAIL, Deleting)),
                  old(store.log), old(provider.calls), v)
    {
      var st := state.(recoveryReason := Some(DisappearedBeforeStart));
      st := st.(start := Some(operation.(status := ResourceNotFound)));
      st := CancelInto(st, DISAPPEARED_DETAIL, Deleting);
      v, left := Commit(ResourceMissing, st, fuse);
    }

    /** The resource is there: it runs already, or is started now. */
    method StartObserved(state: RunState, pod: PodId, operation: Operation, observed: PodView, fuse: nat)
      returns (v: Verdict, left: nat)
      requires Valid() && state.resource.Some? && state.resource.value.id == pod && state.start == Some(operation)
      requires provider.replies.get == Got(observed)
      modifies store, provider`calls
      ensures Valid() && store.request == old(store.request) && left <= fuse
      ensures CutShort(v, left)
      ensures Did(StartScript(state, provider.replies), old(store.log), old(provider.calls), v)
    {
      var st := state.(resource := Some(Projected(observed)));
      if observed.state == PodRunning {
        st := st.(start := Some(operation.(status := ObservedRunning)));
        st := st.(lifecycle := Running);
        assert StartScript(state, provider.replies) == Done(ResourceRunning, st);
        v, left := Commit(ResourceRunning, st, fuse);
      } else {
        var tried := operation.(attempts := operation.attempts + 1);
        ghost var reply := provider.replies.start;
        assert StartScript(state, provider.replies) ==
          Then([CallStart(pod, tried.id, reply)], AfterStart(st.(start := Some(tried)), tried, reply));
        v, left := CallStartNow(st, pod, tried, fuse);
      }
    }

    method CallStartNow(state: RunState, pod: PodId, operation: Operation, fuse: nat) returns (v: Verdict, left: nat)
      requires Valid()
      modifies store, provider`calls
      ensures Valid() && store.request == old(store.request) && left <= fuse
      ensures CutShort(v, left)
      ensures Did(Then([CallStart(pod, operation.id, provider.replies.start)],
                       AfterStart(state.(start := Some(operation)), operation, provider.replies.start)),
                  old(store.log), old(provider.calls), v)
    {
      var st, reply := state.(start := Some(operation)), provider.replies.start;
      ghost var first, rest := [CallStart(pod, operation.id, reply)], AfterStart(st, operation, reply);
      ghost var log0, calls0 := store.log, provider.calls;
      OneEffect(log0, first[0]);
      var alive;
      alive, left := provider.Effect(CallStart(pod, operation.id, reply), fuse);
      if !alive {
        v := ProcessDied;
        NothingHappened(Then(first, rest), log0, calls0);
        return;
      }
      v, left := RecordStart(st, operation, reply, left);
      JoinPerformed(first, rest, log0, calls0, store.log, provider.calls, v);
    }

    /** Records what the start call answered. */
    method RecordStart(state: RunState, operation: Operation, reply: StartReply, fuse: nat)
      returns (v: Verdict, left: nat)
      requires Valid()
      modifies store
      ensures Valid() && store.request == old(store.request) && left <= fuse
      ensures CutShort(v, left)
      ensures Did(AfterStart(state, operation, reply), old(store.log), old(provider.calls), v)
    {
      match reply {
        case StartRejected(ids, message) => v, left := RecordRejection(state, Start, operation, ids, message, fuse);
        case StartUnknown(message) => v, left := RecordUnknown(state, Start, operation, message, fuse);
        case StartFailed(message) => v, left := RecordFailure(state, Start, operation, message, fuse);
        case Started(started) =>
          var st := state.(resource := Some(Projected(started)));
          st := st.(start := Some(operation.(status := Acknowledged)));
          if started.state == PodRunning {
            v, left := Commit(ResourceRunning, st.(lifecycle := Running), fuse);
          } else {
            v, left := Commit(ResourceStarting, st, fuse);
          }
      }
    }

    // ---- deleting ----

    method AbsenceStep(state: RunState, operation: Operation, deadline: Option<Deadline>, fuse: nat)
      returns (v: Verdict, left: nat)
      requires Valid() && (deadline.Some? ==> deadline.value.At?)
      modifies store
      ensures Valid() && store.request == old(store.request) && left <= fuse
      ensures CutShort(v, left)
      ensures Did(AbsenceWindow(state, operation, deadline, provider.replies.now), old(store.log),
        old(provider.calls), v)
    {
      var now, closeout := provider.replies.now, state.closeout;
      if deadline.Some? && now < deadline.value.time {
        closeout := closeout.(absenceFirstAt := None);
        v, left := Commit(TerminationPending, state.(closeout := closeout), fuse);
        return;
      }
      if closeout.absenceFirstAt.None? {
        closeout := closeout.(absenceFirstAt := Some(now));
        v, left := Commit(AbsenceObserved, state.(closeout := closeout), fuse);
        return;
      }
      var first := closeout.absenceFirstAt.value;
      if deadline.Some? && first < deadline.value.time {
        closeout := closeout.(absenceFirstAt := Some(now));
        v, left := Commit(AbsenceObserved, state.(closeout := closeout), fuse);
        return;
      }
      if now - first < ABSENCE_GRACE {
        v, left := Commit(AbsencePending, state, fuse);
        return;
      }
      closeout := closeout.(absenceConfirmed := true);
      if deadline.Some? {
        closeout := closeout.(resolution := Some(Resolution(operation.id, deadline.value.text, first, now)));
      }
      v, left := Commit(EventKind.AbsenceConfirmed, state.(closeout := closeout), fuse);
    }

    method ResolveAbsence(state: RunState, operation: Operation, fuse: nat) returns (v: Verdict, left: nat)
      requires Valid() && store.request.Some?
      modifies store
      ensures Valid() && store.request == old(store.request) && left <= fuse
      ensures CutShort(v, left)
      ensures Did(AbsenceScript(store.request.value, state, operation, provider.replies), old(store.log),
        old(provider.calls), v)
    {
      var found := provider.replies.find;
      if found.FindError? || (found.FindRejected? && |found.ids| == 0) {
        v, left := Fail(ProviderFailure, fuse);
        return;
      }
      if found.FindRejected? {
        var st := state.(quarantined := Some(found.ids));
        st := st.(resource := Some(Resource(found.ids[0], None)));
        st := st.(closeout := st.closeout.(absenceFirstAt := None));
        v, left := Commit(RejectedAdopted, st, fuse);
        return;
      }
      var matches := found.views;
      if |matches| > 1 {
        var st := state.(quarantined := Some(ViewIds(matches)));
        st := st.(resource := Some(Projected(matches[0])));
        v, left := Commit(DuplicatesQuarantined, st, fuse);
        return;
      }
      if |matches| == 1 {
        var st := state.(resource := Some(Projected(matches[0])));
        st := st.(closeout := st.closeout.(absenceFirstAt := None));
        v, left := Commit(ResourceAdopted, st, fuse);
        return;
      }
      if operation.attempts == 0 {
        v, left := Commit(NotDispatchedConfirmed, state.(closeout := state.closeout.(absenceConfirmed := true)), fuse);
        return;
      }
      var deadline := None;
      if DeadlineRequired(operation) {
        deadline := Some(TerminationDeadline(store.request.value));
        if deadline.value.Unusable? {
          v, left := Fail(LifecycleConflict, fuse);
          return;
        }
      }
      v, left := AbsenceStep(state, operation, deadline, fuse);
    }

    method CallDeleteNow(state: RunState, pod: PodId, operation: Operation, fuse: nat) returns (v: Verdict, left: nat)
      requires Valid()
      modifies store, provider`calls
      ensures Valid() && store.request == old(store.request) && left <= fuse
      ensures CutShort(v, left)
      ensures Did(Then([CallDelete(pod, operation.id, provider.replies.delete)],
                       AfterDelete(state.(delete := Some(operation)), operation, pod, provider.replies.delete)),
                  old(store.log), old(provider.calls), v)
    {
      var st, reply := state.(delete := Some(operation)), provider.replies.delete;
      ghost var first, rest := [CallDelete(pod, operation.id, reply)], AfterDelete(st, operation, pod, reply);
      ghost var log0, calls0 := store.log, provider.calls;
      OneEffect(log0, first[0]);
      var alive;
      alive, left := provider.Effect(CallDelete(pod, operation.id, reply), fuse);
      if !alive {
        v := ProcessDied;
        NothingHappened(Then(first, rest), log0, calls0);
        return;
      }
      match reply {
        case DeleteUnknown(message) => v, left := RecordUnknown(st, Delete, operation, message, left);
        case DeleteFailed(message) => v, left := RecordFailure(st, Delete, operation, message, left);
        case Deleted(_, _, _) => v, left := RecordReceipt(st, operation, pod, reply, left);
      }
      JoinPerformed(first, rest, log0, calls0, store.log, provider.calls, v);
    }

    method RecordReceipt(state: RunState, operation: Operation, pod: PodId, receipt: DeleteReply, fuse: nat)
      returns (v: Verdict, left: nat)
      requires Valid() && receipt.Deleted?
      modifies store
      ensures Valid() && store.request == old(store.request) && left <= fuse
      ensures CutShort(v, left)
      ensures Did(RecordDeleteReceipt(state, operation, pod, receipt), old(store.log), old(provider.calls), v)
    {
      if !receipt.acknowledged || receipt.op != operation.id {
        v, left := Fail(ProviderProtocol, fuse);
        return;
      }
      var op := operation.(status := Acknowledged);
      var closeout := state.closeout;
      if pod !in closeout.acknowledgedIds {
        closeout := closeout.(acknowledgedIds := closeout.acknowledgedIds + [pod]);
      }
      var all :=
        if state.quarantined.Some? then state.quarantined.value
        else if state.resource.Some? then [state.resource.value.id]
        else [];
      if AllIn(all, closeout.acknowledgedIds) {
        closeout := closeout.(deleteAcknowledged := true);
        op := op.(status := AcknowledgedAll);
      }
      closeout := closeout.(deleteAlreadyAbsent := receipt.alreadyAbsent);
      ghost var script := RecordDeleteReceipt(state, operation, pod, receipt);
      var st := state.(closeout := closeout, delete := Some(op));
      assert script == Done(DeleteAcknowledgedEvent, st);
      v, left := Commit(DeleteAcknowledgedEvent, st, fuse);
    }

    method DeleteNext(state: RunState, operation: Operation, fuse: nat) returns (v: Verdict, left: nat)
      requires Valid()
      modifies store, provider`calls
      ensures Valid() && store.request == old(store.request) && left <= fuse
      ensures CutShort(v, left)
      ensures Did(DeletePending(state, operation, provider.replies), old(store.log), old(provider.calls), v)
    {
      var ids := DeleteIds(state);
      var pending := FirstPending(ids, state.closeout.acknowledgedIds);
      if pending.None? {
        var closeout := state.closeout.(deleteAcknowledged := true);
        closeout := closeout.(deleteAlreadyAbsent := |ids| == 0);
        var op := operation.(status := if |ids| > 0 then AcknowledgedAll else NotRequired);
        v, left := Commit(DeleteAcknowledgedEvent, state.(closeout := closeout, delete := Some(op)), fuse);
        return;
      }
      v, left := CallDeleteNow(state, pending.value, operation.(attempts := operation.attempts + 1), fuse);
    }

    method ConfirmAbsent(state: RunState, fuse: nat) returns (v: Verdict, left: nat)
      requires Valid()
      modifies store
      ensures Valid() && store.request == old(store.request) && left <= fuse
      ensures CutShort(v, left)
      ensures Did(ConfirmNotFound(state, provider.replies), old(store.log), old(provider.calls), v)
    {
      var absent;
      if state.quarantined.Some? && |state.quarantined.value| > 0 {
        if state.provision.None? {
          v, left := Fail(LifecycleConflict, fuse);
          return;
        }
        if !provider.replies.find.Found? {
          v, left := Fail(ProviderFailure, fuse);
          return;
        }
        absent := |provider.replies.find.views| == 0;
      } else if state.resource.None? {
        absent := true;
      } else {
        match provider.replies.get {
          case Absent => absent := true;
          case Got(_) => absent := false;
          case _ =>
            v, left := Fail(ProviderFailure, fuse);
            return;
        }
      }
      if absent {
        v, left := Commit(ProviderAbsenceConfirmed, state.(closeout := state.closeout.(providerNotFound := true)),
          fuse);
      } else {
        v, left := Commit(DeletionPending, state, fuse);
      }
    }

    method CloseOut(state: RunState, fuse: nat) returns (v: Verdict, left: nat)
      requires Valid() && store.request.Some?
      modifies store
      ensures Valid() && store.request == old(store.request) && left <= fuse
      ensures CutShort(v, left)
      ensures Did(SpendScript(store.request.value, state, provider.replies), old(store.log), old(provider.calls), v)
    {
      var scope := CurrentScope(store.request.value, state);
      if scope.Failure? {
        v, left := Fail(scope.error, fuse);
        return;
      }
      if state.closeout.scope.Some? && state.closeout.scope.value != scope.value {
        v, left := Fail(LifecycleConflict, fuse);
        return;
      }
      var spend := provider.replies.spend;
      if scope.value.OperationScope? || scope.value.RunScope? {
        spend := Spend(0);
      }
      if spend.SpendError? {
        v, left := Fail(ProviderFailure, fuse);
        return;
      }
      if spend.usdPerHour < 0 {
        v, left := Fail(ProviderProtocol, fuse);
        return;
      }
      var st := state.(closeout := state.closeout.(spend := Some(spend.usdPerHour), scope := Some(scope.value)));
      if spend.usdPerHour != 0 {
        v, left := Commit(SpendObserved, st, fuse);
        return;
      }
      var ready := CloseoutReady(store.request.value, st);
      if ready.Failure? {
        v, left := Fail(ready.error, fuse);
        return;
      }
      if !ready.value {
        v, left := Fail(InvalidTransition, fuse);
        return;
      }
      v, left := Commit(CloseoutCompleted, st.(lifecycle := Closed), fuse);
    }

    method ReconcileDelete(state: RunState, fuse: nat) returns (v: Verdict, left: nat)
      requires Valid() && store.request.Some?
      modifies store, provider`calls
      ensures Valid() && store.request == old(store.request) && left <= fuse
      ensures CutShort(v, left)
      ensures Did(DeleteScript(store.request.value, state, provider.replies), old(store.log), old(provider.calls), v)
    {
      if state.closeout.disposition.None? {
        v, left := Fail(InvalidTransition, fuse);
      } else if state.delete.None? {
        v, left := Fail(LifecycleConflict, fuse);
      } else if state.resource.None? && state.provision.Some? && !state.closeout.absenceConfirmed {
        v, left := ResolveAbsence(state, state.provision.value, fuse);
      } else if !state.closeout.deleteAcknowledged {
        v, left := DeleteNext(state, state.delete.value, fuse);
      } else if !state.closeout.providerNotFound {
        v, left := ConfirmAbsent(state, fuse);
      } else {
        v, left := CloseOut(state, fuse);
      }
    }

    // ---- the public calls ----

    /** Takes the lock and reads the effective state. */
    method Open(fuse: nat) returns (state: Option<RunState>, v: Verdict, left: nat)
      requires Valid()
      modifies store`journal, store`tail
      ensures Valid() && left <= fuse
      ensures state.Some? ==> state.value == Last(store.log)
      ensures state.None? ==> (v == StoreRefused || v == ProcessDied) && CutShort(v, left)
    {
      var r;
      r, left := store.EffectiveState(fuse);
      state := if r.Ok? then Some(r.value) else None;
      v := if r.Died? then ProcessDied else StoreRefused;
    }

    /** Exactly one lifecycle step on the durable state, or a prefix of it. */
    method Reconcile(fuse: nat) returns (v: Verdict, left: nat)
      requires Valid()
      modifies store, provider`calls
      ensures Valid() && store.request == old(store.request) && left <= fuse
      ensures CutShort(v, left)
      ensures Did(ReconcileScript(store.request.value, grace, Last(old(store.log)), provider.replies),
                  old(store.log), old(provider.calls), v)
    {
      ghost var script := ReconcileScript(store.request.value, grace, Last(store.log), provider.replies);
      var state;
      state, v, left := Open(fuse);
      if state.None? {
        NothingPerformed(script, store.log, provider.calls, v);
        return;
      }
      var st := state.value;
      match st.lifecycle {
        case Planned => v, left := IntendProvision(st, left);
        case Provisioning => v, left := ReconcileProvision(st, left);
        case Starting => v, left := ReconcileStart(st, left);
        case Deleting => v, left := ReconcileDelete(st, left);
        case _ =>
          v := Finished(Returned(st));
          NothingPerformed(script, store.log, provider.calls, v);
      }
    }

    method RecordWorkloadResult(result: WorkloadResult, fuse: nat) returns (v: Verdict, left: nat)
      requires Valid()
      modifies store
      ensures Valid() && store.request == old(store.request) && left <= fuse
      ensures CutShort(v, left)
      ensures Did(ResultScript(Last(old(store.log)), result), old(store.log), old(provider.calls), v)
    {
      ghost var script := ResultScript(Last(store.log), result);
      var state;
      state, v, left := Open(fuse);
      if state.None? {
        NothingPerformed(script, store.log, provider.calls, v);
        return;
      }
      var st := state.value;
      if st.result == Some(result) {
        v := Finished(Returned(st));
        NothingPerformed(script, store.log, provider.calls, v);
      } else if st.result.Some? {
        v, left := Fail(LifecycleConflict, left);
      } else if st.lifecycle == Closed {
        v, left := Fail(InvalidTransition, left);
      } else {
        st := st.(result := Some(result));
        st := st.(lifecycle := Recovering);
        v, left := Commit(WorkloadTerminal, st, left);
      }
    }

    method RecordArtifactDisposition(disposition: Disposition, fuse: nat) returns (v: Verdict, left: nat)
      requires Valid()
      modifies store
      ensures Valid() && store.request == old(store.request) && left <= fuse
      ensures CutShort(v, left)
      ensures Did(DispositionScript(Last(old(store.log)), disposition), old(store.log), old(provider.calls), v)
    {
      ghost var script := DispositionScript(Last(store.log), disposition);
      var state;
      state, v, left := Open(fuse);
      if state.None? {
        NothingPerformed(script, store.log, provider.calls, v);
        return;
      }
      var st := state.value;
      if st.closeout.disposition == Some(disposition) {
        v := Finished(Returned(st));
        NothingPerformed(script, store.log, provider.calls, v);
      } else if st.closeout.disposition.Some? {
        v, left := Fail(LifecycleConflict, left);
      } else if st.lifecycle == Closed {
        v, left := Fail(InvalidTransition, left);
      } else {
        st := st.(closeout := st.closeout.(disposition := Some(disposition)));
        if st.delete.None? {
          st := st.(delete := Some(NewOperation(st.runId, Delete)));
        }
        st := st.(lifecycle := Deleting);
        v, left := Commit(DispositionRecorded, st, left);
      }
    }

    method RequestStop(reason: string, fuse: nat) returns (v: Verdict, left: nat)
      requires Valid()
      modifies store
      ensures Valid() && store.request == old(store.request) && left <= fuse
      ensures CutShort(v, left)
      ensures Did(StopScript(Last(old(store.log)), reason), old(store.log), old(provider.calls), v)
    {
      ghost var script := StopScript(Last(store.log), reason);
      var state;
      state, v, left := Open(fuse);
      if state.None? {
        NothingPerformed(script, store.log, provider.calls, v);
        return;
      }
      var st := state.value;
      if st.lifecycle == Closed {
        v := Finished(Returned(st));
        NothingPerformed(script, store.log, provider.calls, v);
        return;
      }
      if st.result.None? {
        st := st.(result := Some(Cancelled));
      }
      if st.closeout.disposition.None? {
        st := st.(closeout := st.closeout.(disposition := Some(Disposition(Unavailable, reason))));
      }
      if st.delete.None? {
        st := st.(delete := Some(NewOperation(st.runId, Delete)));
      }
      st := st.(lifecycle := Deleting);
      v, left := Commit(StopRequested, st, left);
    }
  }
}
