/**
  Everything the remote runner of one request ever makes durable or starts,
  over all its incarnations, as one trace of effects. `Allowed` says which
  effect may come next given the whole past; the runner class is proved to
  produce only allowed effects wherever its processes die, and the theorems
  here are about every such trace.

  Elapsed time is in whole microseconds; the cost cap is compared exactly.
 */
module RunnerTrace {
  import opened Prelude

  datatype Phase = Verify | Preflight | Train | Evaluate | Package

  const PHASE_ORDER: seq<Phase> := [Verify, Preflight, Train, Evaluate, Package]

  function Index(p: Phase): (i: nat)
    ensures i < |PHASE_ORDER| && PHASE_ORDER[i] == p
  {
    match p case Verify => 0 case Preflight => 1 case Train => 2 case Evaluate => 3 case Package => 4
  }

  /** The caps; the rate is in money units per hour. */
  datatype Limits = Limits(maxElapsed: nat, maxCost: nat, rate: nat)
  datatype PhaseConfig = PhaseConfig(enabled: bool, timeout: nat)
  /** The identity a runner image carries and a request pins. */
  datatype Identity = Identity(version: string, commit: string)
  datatype Request = Request(identity: Identity, phases: Phase -> PhaseConfig, limits: Limits)

  datatype EventKind =
    | Ready | RunnerResumed | LaunchAuthorized
    | PhaseStarted | PhaseCompleted | PhaseFailed | PhaseStartFailed | PhaseDisabled
    | TerminalRecorded

  datatype Event = Event(sequence: nat, kind: EventKind, phase: Option<Phase>, exitCode: Option<int>,
      outcome: Option<Outcome>, elapsed: nat)

  datatype Outcome = Succeeded | Failed | Stopped | TimedOut | LimitExceeded

  datatype Terminal = Terminal(
    outcome: Outcome,
    reason: string,
    phase: Option<Phase>,
    elapsed: nat,
    completed: seq<Phase>,
    exitCodes: map<Phase, int>)

  datatype Status = Status(state: string, identity: Identity, phase: Option<Phase>, elapsed: nat,
      terminal: Option<Terminal>)

  /** Only a runner that may do work says so. */
  predicate ClaimsWork(s: Status) {
    s.state == "ready" || s.state == "running"
  }

  datatype Effect =
    | Appended(event: Event)
    | Published(status: Status)
    | Ended(result: Terminal)
    | Spawned(phase: Phase)
    // the launch token was on disk and its digest the pinned one
    | SawToken

  // ---- replay of the journal ----

  datatype PhaseFailure = PhaseFailure(phase: Phase, reason: string)

  datatype Recovered = Recovered(
    active: Option<Phase>,
    completed: seq<Phase>,
    settled: set<Phase>,
    failure: Option<PhaseFailure>,
    exitCodes: map<Phase, int>)

  const FRESH: Recovered := Recovered(None, [], {}, None, map[])

  function Noted(codes: map<Phase, int>, p: Phase, code: Option<int>): map<Phase, int> {
    if code.Some? then codes[p := code.value] else codes
  }

  function Absorb(r: Recovered, e: Event): Recovered {
    if e.phase.None? then r
    else
      var p := e.phase.value;
      match e.kind
      case PhaseStarted => r.(active := Some(p))
      case PhaseCompleted =>
        r.(active := None, settled := r.settled + {p}, completed := r.completed + [p],
          exitCodes := Noted(r.exitCodes, p, e.exitCode))
      case PhaseDisabled => r.(settled := r.settled + {p})
      case PhaseFailed =>
        r.(active := None, failure := Some(PhaseFailure(p, "phase_nonzero_exit")),
          exitCodes := Noted(r.exitCodes, p, e.exitCode))
      case PhaseStartFailed =>
        r.(active := None, failure := Some(PhaseFailure(p, "phase_start_failed")),
          exitCodes := Noted(r.exitCodes, p, e.exitCode))
      case _ => r
  }

  function Replay(history: seq<Event>): Recovered {
    if history == [] then FRESH else Absorb(Replay(history[..|history| - 1]), history[|history| - 1])
  }

  /** The history holds an event of this kind for this phase. */
  predicate Noticed(history: seq<Event>, kind: EventKind, p: Phase) {
    exists i :: 0 <= i < |history| && history[i].kind == kind && history[i].phase == Some(p)
  }

  lemma NoticedSnoc(history: seq<Event>, e: Event, kind: EventKind, p: Phase)
    ensures Noticed(history + [e], kind, p) <==> Noticed(history, kind, p) || (e.kind == kind && e.phase == Some(p))
  {
    var n := history + [e];
    assert n[|history|] == e;
    if Noticed(history, kind, p) {
      var i :| 0 <= i < |history| && history[i].kind == kind && history[i].phase == Some(p);
      assert n[i] == history[i];
    }
  }

  /** Which phases a history says are settled, completed, started, or failed and how. */
  predicate Reads(history: seq<Event>, r: Recovered, p: Phase) {
    && (p in r.settled <==> Noticed(history, PhaseCompleted, p) || Noticed(history, PhaseDisabled, p))
    && (p in r.completed <==> Noticed(history, PhaseCompleted, p))
    && (r.active == Some(p) ==> Noticed(history, PhaseStarted, p))
    && (r.failure.None? ==> !Noticed(history, PhaseFailed, p) && !Noticed(history, PhaseStartFailed, p))
    && (r.failure == Some(PhaseFailure(p, "phase_nonzero_exit")) ==> Noticed(history, PhaseFailed, p))
    && (r.failure == Some(PhaseFailure(p, "phase_start_failed")) ==> Noticed(history, PhaseStartFailed, p))
    && (r.failure.Some? ==> r.failure.value.reason in {"phase_nonzero_exit", "phase_start_failed"})
  }

  lemma ReadsSnoc(history: seq<Event>, r: Recovered, e: Event, p: Phase)
    requires Reads(history, r, p)
    ensures Reads(history + [e], Absorb(r, e), p)
  {
    NoticedSnoc(history, e, PhaseCompleted, p);
    NoticedSnoc(history, e, PhaseDisabled, p);
    NoticedSnoc(history, e, PhaseStarted, p);
    NoticedSnoc(history, e, PhaseFailed, p);
    NoticedSnoc(history, e, PhaseStartFailed, p);
    if e.phase.Some? && e.kind == PhaseCompleted {
      assert forall q: Phase :: q in r.completed + [e.phase.value] <==> q in r.completed || q == e.phase.value;
    }
  }

  /** Replay reads exactly what the history says. */
  lemma {:induction false} ReplayReads(history: seq<Event>, p: Phase)
    ensures Reads(history, Replay(history), p)
  {
    if history != [] {
      var before, e := history[..|history| - 1], history[|history| - 1];
      assert history == before + [e];
      ReplayReads(before, p);
      ReadsSnoc(before, Replay(before), e, p);
    }
  }

  /** And what came after a start or an end of the active phase. */
  lemma ReplayMoves(history: seq<Event>, e: Event, p: Phase)
    requires e.phase == Some(p)
    ensures var r := Replay(history + [e]);
      && (e.kind == PhaseStarted ==> r.active == Some(p))
      && (e.kind in {PhaseCompleted, PhaseFailed, PhaseStartFailed} ==> r.active.None?)
      && (e.kind == PhaseFailed ==> r.failure == Some(PhaseFailure(p, "phase_nonzero_exit")))
      && (e.kind == PhaseStartFailed ==> r.failure == Some(PhaseFailure(p, "phase_start_failed")))
      && (e.exitCode.Some? && e.kind in {PhaseCompleted, PhaseFailed} ==>
            p in r.exitCodes && r.exitCodes[p] == e.exitCode.value)
  {
    assert (history + [e])[..|history|] == history;
  }

  // ---- what a trace leaves on disk ----

  function Events(w: seq<Effect>): seq<Event> {
    if w == [] then []
    else
      var before, x := Events(w[..|w| - 1]), w[|w| - 1];
      if x.Appended? then before + [x.event] else before
  }

  function StatusOf(w: seq<Effect>): Option<Status> {
    if w == [] then None
    else
      var x := w[|w| - 1];
      if x.Published? then Some(x.status) else StatusOf(w[..|w| - 1])
  }

  function TerminalOf(w: seq<Effect>): Option<Terminal> {
    if w == [] then None
    else
      var x := w[|w| - 1];
      if x.Ended? then Some(x.result) else TerminalOf(w[..|w| - 1])
  }

  predicate TokenSeen(w: seq<Effect>) {
    w != [] && (w[|w| - 1].SawToken? || TokenSeen(w[..|w| - 1]))
  }

  /** The elapsed time an effect leaves in the journal or the status. */
  function Recorded(x: Effect): nat {
    match x
    case Appended(e) => e.elapsed
    case Published(s) => s.elapsed
    case _ => 0
  }

  function Max(a: nat, b: nat): nat {
    if a < b then b else a
  }

  function HighWater(w: seq<Effect>): nat {
    if w == [] then 0 else Max(HighWater(w[..|w| - 1]), Recorded(w[|w| - 1]))
  }

  predicate Holds(events: seq<Event>, kind: EventKind) {
    exists i :: 0 <= i < |events| && events[i].kind == kind
  }

  /** `_limit_reason` gives a reason */
  predicate CapReached(limits: Limits, elapsed: nat) {
    elapsed >= limits.maxElapsed || CostOf(limits, elapsed) >= limits.maxCost * 3_600_000_000
  }

  function FirstPhases(k: nat): set<Phase> {
    set p: Phase | Index(p) < k
  }

  function EnabledFirst(req: Request, k: nat): seq<Phase>
    requires k <= |PHASE_ORDER|
  {
    if k == 0 then []
    else EnabledFirst(req, k - 1) + if req.phases(PHASE_ORDER[k - 1]).enabled then [PHASE_ORDER[k - 1]] else []
  }

  // ---- the rules ----

  predicate EventAllowed(req: Request, w: seq<Effect>, kind: EventKind, phase: Option<Phase>, exitCode: Option<int>) {
    var events := Events(w);
    var r := Replay(events);
    if TerminalOf(w).Some? then kind == TerminalRecorded && !Holds(events, TerminalRecorded)
    else
      && kind != TerminalRecorded
      && r.failure.None?
      && match kind
         case Ready => events == [] && phase.None?
         case RunnerResumed => events != [] && r.active.None? && phase.None?
         case LaunchAuthorized =>
           !Holds(events, LaunchAuthorized) && r.active.None? && phase.None? && w != [] && w[|w| - 1].SawToken?
         case PhaseStarted =>
           && Holds(events, LaunchAuthorized) && r.active.None?
           && phase.Some? && req.phases(phase.value).enabled
           && r.settled == FirstPhases(Index(phase.value))
           && !CapReached(req.limits, HighWater(w))
         case PhaseDisabled =>
           && Holds(events, LaunchAuthorized) && r.active.None?
           && phase.Some? && !req.phases(phase.value).enabled
           && r.settled == FirstPhases(Index(phase.value))
         case PhaseCompleted => phase.Some? && r.active == phase && Spawned(phase.value) in w && exitCode == Some(0)
         case PhaseFailed => phase.Some? && r.active == phase && Spawned(phase.value) in w && exitCode.Some?
           && exitCode != Some(0)
         case _ => phase.Some? && r.active == phase && exitCode.None?
  }

  predicate Allowed(req: Request, w: seq<Effect>, x: Effect) {
    match x
    case Appended(e) =>
      && e.sequence == |Events(w)| + 1
      && e.elapsed >= HighWater(w)
      && (TerminalOf(w).Some? ==> e.elapsed >= TerminalOf(w).value.elapsed)
      && EventAllowed(req, w, e.kind, e.phase, e.exitCode)
    case Published(s) =>
      s.elapsed >= HighWater(w) && s.terminal == TerminalOf(w) && (ClaimsWork(s) ==> s.identity == req.identity)
    case SawToken => TerminalOf(w).None?
    case Ended(t) =>
      var r := Replay(Events(w));
      && TerminalOf(w).None?
      && t.elapsed >= HighWater(w)
      && t.completed == r.completed
      && (t.outcome == Succeeded ==>
            r.active.None? && r.failure.None? && r.settled == FirstPhases(|PHASE_ORDER|)
              && Holds(Events(w), LaunchAuthorized))
    case Spawned(p) =>
      w != [] && w[|w| - 1].Appended? && w[|w| - 1].event.kind == PhaseStarted && w[|w| - 1].event.phase == Some(p)
  }

  predicate Legal(req: Request, w: seq<Effect>) {
    w == [] || (Legal(req, w[..|w| - 1]) && Allowed(req, w[..|w| - 1], w[|w| - 1]))
  }

  /** What one more effect adds to the disk. */
  lemma DiskSnoc(w: seq<Effect>, x: Effect)
    ensures (w + [x])[..|w|] == w
    ensures Events(w + [x]) == if x.Appended? then Events(w) + [x.event] else Events(w)
    ensures StatusOf(w + [x]) == if x.Published? then Some(x.status) else StatusOf(w)
    ensures TerminalOf(w + [x]) == if x.Ended? then Some(x.result) else TerminalOf(w)
    ensures HighWater(w + [x]) == Max(HighWater(w), Recorded(x))
    ensures TokenSeen(w + [x]) <==> TokenSeen(w) || x.SawToken?
  {
    assert (w + [x])[..|w|] == w;
  }

  lemma Snoc(req: Request, w: seq<Effect>, x: Effect)
    ensures (w + [x])[..|w|] == w
    ensures Events(w + [x]) == if x.Appended? then Events(w) + [x.event] else Events(w)
    ensures StatusOf(w + [x]) == if x.Published? then Some(x.status) else StatusOf(w)
    ensures TerminalOf(w + [x]) == if x.Ended? then Some(x.result) else TerminalOf(w)
    ensures HighWater(w + [x]) == Max(HighWater(w), Recorded(x))
    ensures TokenSeen(w + [x]) <==> TokenSeen(w) || x.SawToken?
    ensures Legal(req, w + [x]) <==> Legal(req, w) && Allowed(req, w, x)
  {
    DiskSnoc(w, x);
  }

  lemma HoldsSnoc(events: seq<Event>, e: Event)
    ensures forall kind :: Holds(events + [e], kind) <==> Holds(events, kind) || e.kind == kind
  {
    var n := events + [e];
    assert n[|events|] == e;
    forall kind | Holds(events, kind)
      ensures Holds(n, kind)
    {
      var i :| 0 <= i < |events| && events[i].kind == kind;
      assert n[i] == events[i];
    }
  }

  lemma ReplaySnoc(events: seq<Event>, e: Event)
    ensures Replay(events + [e]) == Absorb(Replay(events), e)
  {
    assert (events + [e])[..|events|] == events;
  }

  lemma {:induction false} LegalPrefix(req: Request, w: seq<Effect>, k: nat)
    requires Legal(req, w) && k <= |w|
    ensures Legal(req, w[..k])
    ensures k < |w| ==> Allowed(req, w[..k], w[k])
    decreases |w|
  {
    if k == |w| {
      assert w[..k] == w;
    } else {
      var front := w[..|w| - 1];
      if k < |front| {
        LegalPrefix(req, front, k);
        assert front[..k] == w[..k];
      }
    }
  }

  // ---- the shape of every replayed journal ----

  /**
    The first `k` phases are settled, the enabled ones of them completed in order,
    and only the next one may be active.
   */
  predicate InOrder(req: Request, r: Recovered, k: nat) {
    && k <= |PHASE_ORDER|
    && r.settled == FirstPhases(k)
    && r.completed == EnabledFirst(req, k)
    && (r.active.Some? ==>
      k < |PHASE_ORDER| && r.active.value == PHASE_ORDER[k] && req.phases(PHASE_ORDER[k]).enabled && r.failure.None?)
  }

  lemma AtPosition(i: nat, k: nat)
    requires i < |PHASE_ORDER|
    ensures PHASE_ORDER[i] in FirstPhases(k) <==> i < k
  {
    assert Index(PHASE_ORDER[i]) == i;
  }

  lemma SamePosition(j: nat, k: nat)
    requires j <= |PHASE_ORDER| && k <= |PHASE_ORDER| && FirstPhases(j) == FirstPhases(k)
    ensures j == k
  {
    if j < |PHASE_ORDER| {
      AtPosition(j, j);
      AtPosition(j, k);
    }
    if k < |PHASE_ORDER| {
      AtPosition(k, j);
      AtPosition(k, k);
    }
  }

  lemma NextPosition(k: nat)
    requires k < |PHASE_ORDER|
    ensures FirstPhases(k) + {PHASE_ORDER[k]} == FirstPhases(k + 1)
  {
    forall p: Phase
      ensures p in FirstPhases(k) + {PHASE_ORDER[k]} <==> p in FirstPhases(k + 1)
    {
      assert Index(p) == k <==> p == PHASE_ORDER[k];
    }
  }

  lemma AbsorbInOrder(req: Request, w: seq<Effect>, e: Event, k: nat) returns (n: nat)
    requires InOrder(req, Replay(Events(w)), k)
    requires EventAllowed(req, w, e.kind, e.phase, e.exitCode)
    ensures InOrder(req, Absorb(Replay(Events(w)), e), n) && k <= n
  {
    n := k;
    if e.phase.Some? && TerminalOf(w).None? {
      var p := e.phase.value;
      if e.kind == PhaseCompleted {
        NextPosition(k);
        n := k + 1;
      } else if e.kind == PhaseDisabled {
        SamePosition(k, Index(p));
        NextPosition(k);
        n := k + 1;
      } else if e.kind == PhaseStarted {
        SamePosition(k, Index(p));
      }
    }
  }

  /** The journal of every trace replays to a position in the phase order. */
  lemma {:induction false} ReplaysInOrder(req: Request, w: seq<Effect>) returns (k: nat)
    requires Legal(req, w)
    ensures InOrder(req, Replay(Events(w)), k)
  {
    if w == [] {
      k := 0;
    } else {
      var front, x := w[..|w| - 1], w[|w| - 1];
      k := ReplaysInOrder(req, front);
      if x.Appended? {
        k := AbsorbInOrder(req, front, x.event, k);
        ReplaySnoc(Events(front), x.event);
      }
    }
  }

  // ---- phases run at most once, in order ----

  predicate Begun(r: Recovered, p: Phase) {
    r.active == Some(p) || p in r.settled || r.failure.Some?
  }

  lemma AbsorbKeepsBegun(req: Request, w: seq<Effect>, e: Event, p: Phase)
    requires EventAllowed(req, w, e.kind, e.phase, e.exitCode) && Begun(Replay(Events(w)), p)
    ensures Begun(Absorb(Replay(Events(w)), e), p)
  {
  }

  lemma BegunNext(req: Request, past: seq<Effect>, x: Effect, p: Phase)
    requires Legal(req, past) && Allowed(req, past, x) && Begun(Replay(Events(past)), p)
    ensures Begun(Replay(Events(past + [x])), p)
  {
    DiskSnoc(past, x);
    if x.Appended? {
      ReplaySnoc(Events(past), x.event);
      AbsorbKeepsBegun(req, past, x.event, p);
    }
  }

  /** An active phase stays active until it settles or the run has failed; both are for good. */
  lemma {:induction false} ActiveSettles(req: Request, w: seq<Effect>, i: nat, n: nat, p: Phase)
    requires Legal(req, w) && i <= n <= |w|
    requires Replay(Events(w[..i])).active == Some(p)
    ensures Begun(Replay(Events(w[..n])), p)
    decreases n
  {
    if i < n {
      ActiveSettles(req, w, i, n - 1, p);
      LegalPrefix(req, w, n - 1);
      assert w[..n] == w[..n - 1] + [w[n - 1]];
      BegunNext(req, w[..n - 1], w[n - 1], p);
    }
  }

  lemma SpawnFollowsStart(req: Request, w: seq<Effect>, j: nat, p: Phase)
    requires Legal(req, w) && j < |w| && w[j] == Spawned(p)
    ensures j > 0 && w[j - 1].Appended? && w[j - 1].event.kind == PhaseStarted && w[j - 1].event.phase == Some(p)
    ensures TerminalOf(w[..j - 1]).None?
      && EventAllowed(req, w[..j - 1], PhaseStarted, Some(p), w[j - 1].event.exitCode)
    ensures Replay(Events(w[..j])).active == Some(p) && TerminalOf(w[..j]).None?
  {
    LegalPrefix(req, w, j);
    assert w[..j][|w[..j]| - 1] == w[j - 1];
    LegalPrefix(req, w, j - 1);
    assert w[..j] == w[..j - 1] + [w[j - 1]];
    StartActive(req, w[..j - 1], w[j - 1], p);
  }

  lemma StartActive(req: Request, past: seq<Effect>, x: Effect, p: Phase)
    requires Allowed(req, past, x) && x.Appended? && x.event.kind == PhaseStarted && x.event.phase == Some(p)
    ensures TerminalOf(past).None? && EventAllowed(req, past, PhaseStarted, Some(p), x.event.exitCode)
    ensures Replay(Events(past + [x])).active == Some(p) && TerminalOf(past + [x]).None?
  {
    DiskSnoc(past, x);
    ReplaySnoc(Events(past), x.event);
  }

  /**
    Over all incarnations, phase commands are spawned in strictly increasing
    phase order: each at most once.
   */
  lemma SpawnsRiseInOrder(req: Request, w: seq<Effect>, i: nat, j: nat, p: Phase, q: Phase)
    requires Legal(req, w) && i < j < |w| && w[i] == Spawned(p) && w[j] == Spawned(q)
    ensures Index(p) < Index(q)
  {
    SpawnFollowsStart(req, w, i, p);
    SpawnFollowsStart(req, w, j, q);
    assert i < j - 1;
    ActiveSettles(req, w, i, j - 1, p);
  }

  lemma {:induction false} CompletedIsDurable(req: Request, w: seq<Effect>, q: Phase) returns (i: nat)
    requires Legal(req, w) && q in Replay(Events(w)).completed
    ensures i < |w| && w[i].Appended?
    ensures w[i].event.kind == PhaseCompleted && w[i].event.phase == Some(q) && w[i].event.exitCode == Some(0)
  {
    var front, x := w[..|w| - 1], w[|w| - 1];
    if x.Appended? {
      ReplaySnoc(Events(front), x.event);
      if x.event.kind == PhaseCompleted && x.event.phase == Some(q) {
        assert TerminalOf(front).None?;
        return |w| - 1;
      }
    }
    i := CompletedIsDurable(req, front, q);
  }

  lemma {:induction false} EventIsDurable(w: seq<Effect>, kind: EventKind) returns (i: nat)
    requires Holds(Events(w), kind)
    ensures i < |w| && w[i].Appended? && w[i].event.kind == kind
  {
    var front, x := w[..|w| - 1], w[|w| - 1];
    if x.Appended? && x.event.kind == kind {
      return |w| - 1;
    }
    var k :| 0 <= k < |Events(w)| && Events(w)[k].kind == kind;
    assert k < |Events(front)|;
    i := EventIsDurable(front, kind);
  }

  lemma {:induction false} EnabledFirstHas(req: Request, k: nat, q: Phase)
    requires k <= |PHASE_ORDER| && Index(q) < k && req.phases(q).enabled
    ensures q in EnabledFirst(req, k)
  {
    if Index(q) < k - 1 {
      EnabledFirstHas(req, k - 1, q);
    }
  }

  /**
    A phase command is spawned only when, before that, the launch token was
    seen, its start was made durable, and every earlier enabled phase had a
    durable completion with exit code 0.
   */
  lemma SpawnNeedsAllBefore(req: Request, w: seq<Effect>, j: nat, p: Phase)
    requires Legal(req, w) && j < |w| && w[j] == Spawned(p)
    ensures req.phases(p).enabled
    ensures exists i :: 0 <= i < j && w[i].Appended? && w[i].event.kind == LaunchAuthorized
    ensures forall q: Phase :: Index(q) < Index(p) && req.phases(q).enabled ==> CompletedBefore(w, j, q)
  {
    SpawnFollowsStart(req, w, j, p);
    var past := w[..j - 1];
    LegalPrefix(req, w, j - 1);
    var a := EventIsDurable(past, LaunchAuthorized);
    assert w[a] == past[a];
    var k := ReplaysInOrder(req, past);
    SamePosition(k, Index(p));
    forall q: Phase | Index(q) < Index(p) && req.phases(q).enabled
      ensures CompletedBefore(w, j, q)
    {
      EnabledFirstHas(req, k, q);
      var i := CompletedIsDurable(req, past, q);
      assert w[i] == past[i];
    }
  }

  predicate CompletedBefore(w: seq<Effect>, j: nat, q: Phase) {
    exists i :: 0 <= i < j && i < |w| && w[i].Appended?
      && w[i].event.kind == PhaseCompleted && w[i].event.phase == Some(q) && w[i].event.exitCode == Some(0)
  }

  /** The launch is recorded only after the token was seen. */
  lemma {:induction false} AuthorizedSawToken(req: Request, w: seq<Effect>)
    requires Legal(req, w) && Holds(Events(w), LaunchAuthorized)
    ensures TokenSeen(w)
  {
    var front, x := w[..|w| - 1], w[|w| - 1];
    if x.Appended? {
      HoldsSnoc(Events(front), x.event);
    }
    if !(x.Appended? && x.event.kind == LaunchAuthorized) {
      AuthorizedSawToken(req, front);
    }
  }

  // ---- the terminal record ----

  lemma AfterEnd(req: Request, past: seq<Effect>, x: Effect)
    requires TerminalOf(past).Some? && Allowed(req, past, x)
    ensures !x.Ended? && !x.SawToken?
    ensures x.Appended? ==> x.event.kind == TerminalRecorded
    ensures x.Published? ==> x.status.terminal == TerminalOf(past)
    ensures x.Spawned? ==> past[|past| - 1].Appended? && past[|past| - 1].event.kind == PhaseStarted
  {
  }

  /** The terminal event changes nothing that a restart reads. */
  lemma EndStays(past: seq<Effect>, x: Effect)
    requires !x.Ended? && (x.Appended? ==> x.event.kind == TerminalRecorded)
    ensures TerminalOf(past + [x]) == TerminalOf(past)
    ensures Replay(Events(past + [x])) == Replay(Events(past))
  {
    DiskSnoc(past, x);
    if x.Appended? {
      ReplaySnoc(Events(past), x.event);
    }
  }

  predicate Final(x: Effect, t: Terminal) {
    && !x.Ended? && !x.Spawned? && !x.SawToken?
    && (x.Appended? ==> x.event.kind == TerminalRecorded)
    && (x.Published? ==> x.status.terminal == Some(t))
  }

  lemma FinalNext(req: Request, past: seq<Effect>, x: Effect, t: Terminal)
    requires past != [] && TerminalOf(past) == Some(t) && Allowed(req, past, x)
    requires past[|past| - 1].Ended? || Final(past[|past| - 1], t)
    ensures Final(x, t) && TerminalOf(past + [x]) == Some(t) && Replay(Events(past + [x])) == Replay(Events(past))
  {
    AfterEnd(req, past, x);
    EndStays(past, x);
  }

  lemma EndedNow(past: seq<Effect>, x: Effect)
    requires x.Ended?
    ensures TerminalOf(past + [x]) == Some(x.result) && Events(past + [x]) == Events(past)
  {
    DiskSnoc(past, x);
  }

  lemma {:induction false} FinalAt(req: Request, w: seq<Effect>, i: nat, n: nat)
    requires Legal(req, w) && i < n <= |w| && w[i].Ended?
    ensures TerminalOf(w[..n]) == Some(w[i].result)
    ensures Replay(Events(w[..n])) == Replay(Events(w[..i]))
    ensures i < n - 1 ==> Final(w[n - 1], w[i].result)
    decreases n
  {
    var past := w[..n - 1];
    assert w[..n] == past + [w[n - 1]];
    if i == n - 1 {
      EndedNow(past, w[i]);
    } else {
      FinalAt(req, w, i, n - 1);
      LegalPrefix(req, w, n - 1);
      assert past[|past| - 1] == w[n - 2];
      FinalNext(req, past, w[n - 1], w[i].result);
    }
  }

  /** After the terminal record nothing changes but its own event and the status, which repeats it. */
  lemma TerminalIsFinal(req: Request, w: seq<Effect>, i: nat, n: nat)
    requires Legal(req, w) && i < n <= |w| && w[i].Ended?
    ensures TerminalOf(w[..n]) == Some(w[i].result)
    ensures Replay(Events(w[..n])) == Replay(Events(w[..i]))
    ensures forall j :: i < j < n ==> Final(w[j], w[i].result)
  {
    FinalAt(req, w, i, n);
    forall j | i < j < n
      ensures Final(w[j], w[i].result)
    {
      FinalAt(req, w, i, j + 1);
    }
  }

  /**
    The one terminal record lists exactly the completions of the journal, in
    order, and they are a prefix of the enabled phases; a success means all of
    them completed after an authorised launch.
   */
  lemma TerminalTruth(req: Request, w: seq<Effect>, i: nat)
    requires Legal(req, w) && i < |w| && w[i].Ended?
    ensures w[i].result.completed == Replay(Events(w)).completed
    ensures w[i].result.completed <= EnabledFirst(req, |PHASE_ORDER|)
    ensures w[i].result.outcome == Succeeded ==>
      && w[i].result.completed == EnabledFirst(req, |PHASE_ORDER|)
      && exists a :: 0 <= a < i && w[a].Appended? && w[a].event.kind == LaunchAuthorized
  {
    LegalPrefix(req, w, i);
    TerminalIsFinal(req, w, i, |w|);
    assert w[..|w|] == w;
    var k := ReplaysInOrder(req, w[..i]);
    EnabledFirstGrows(req, k, |PHASE_ORDER|);
    if w[i].result.outcome == Succeeded {
      SamePosition(k, |PHASE_ORDER|);
      var a := EventIsDurable(w[..i], LaunchAuthorized);
      assert w[..i][a] == w[a];
    }
  }

  lemma {:induction false} EnabledFirstGrows(req: Request, j: nat, k: nat)
    requires j <= k <= |PHASE_ORDER|
    ensures EnabledFirst(req, j) <= EnabledFirst(req, k)
    decreases k
  {
    if j < k {
      EnabledFirstGrows(req, j, k - 1);
    }
  }

  // ---- elapsed time and the caps ----

  lemma {:induction false} RecordedBelowHighWater(req: Request, w: seq<Effect>, i: nat, n: nat)
    requires i < n <= |w|
    ensures Recorded(w[i]) <= HighWater(w[..n])
    decreases n
  {
    assert w[..n] == w[..n - 1] + [w[n - 1]];
    DiskSnoc(w[..n - 1], w[n - 1]);
    if i < n - 1 {
      RecordedBelowHighWater(req, w, i, n - 1);
    }
  }

  /** The estimated cost of an elapsed time, in money units times the microseconds of an hour. */
  function CostOf(limits: Limits, elapsed: nat): nat {
    elapsed * limits.rate
  }

  lemma CostGrows(limits: Limits, a: nat, b: nat)
    ensures a <= b ==> CostOf(limits, a) <= CostOf(limits, b)
  {
  }

  /**
    Recorded elapsed time and estimated cost never fall, over all events,
    statuses and incarnations; and a terminal record is no earlier than them.
   */
  lemma ElapsedNeverFalls(req: Request, w: seq<Effect>, i: nat, j: nat)
    requires Legal(req, w) && i < j < |w|
    ensures w[j].Appended? || w[j].Published? ==>
      Recorded(w[i]) <= Recorded(w[j]) && CostOf(req.limits, Recorded(w[i])) <= CostOf(req.limits, Recorded(w[j]))
    ensures w[j].Ended? ==> Recorded(w[i]) <= w[j].result.elapsed
  {
    LegalPrefix(req, w, j);
    RecordedBelowHighWater(req, w, i, j);
    CostGrows(req.limits, Recorded(w[i]), Recorded(w[j]));
  }

  // ---- the terminal record's own elapsed time ----

  /** No event or status after the terminal record shows an earlier elapsed time than it. */
  predicate KeepsTerminalElapsed(w: seq<Effect>, i: nat)
    requires i < |w| && w[i].Ended?
  {
    forall j :: i < j < |w| ==> Recorded(w[j]) >= w[i].result.elapsed
  }

  /** The elapsed time of the terminal record is kept exactly when the very next effect keeps it. */
  lemma TerminalElapsedKeptIff(req: Request, w: seq<Effect>, i: nat)
    requires Legal(req, w) && i < |w| && w[i].Ended?
    ensures KeepsTerminalElapsed(w, i) <==> (i + 1 < |w| ==> Recorded(w[i + 1]) >= w[i].result.elapsed)
  {
    if i + 1 < |w| && Recorded(w[i + 1]) >= w[i].result.elapsed {
      forall j | i < j < |w|
        ensures Recorded(w[j]) >= w[i].result.elapsed
      {
        TerminalIsFinal(req, w, i, |w|);
        assert Final(w[j], w[i].result);
        if i + 1 < j {
          ElapsedNeverFalls(req, w, i + 1, j);
        }
      }
    }
  }

  /** It is kept whenever the process that wrote the record lived to append the terminal event. */
  lemma TerminalEventSeals(req: Request, w: seq<Effect>, i: nat)
    requires Legal(req, w) && i + 1 < |w| && w[i].Ended? && w[i + 1].Appended?
    ensures KeepsTerminalElapsed(w, i)
  {
    LegalPrefix(req, w, i + 1);
    assert w[..i + 1] == w[..i] + [w[i]];
    Snoc(req, w[..i], w[i]);
    TerminalElapsedKeptIff(req, w, i);
  }

  /**
    It is kept in every possible future exactly when it has been kept so far and
    the journal or the status already shows an elapsed time that late. A record
    whose writer died before its event is not safe, unless nothing had passed
    since the last event or status.
   */
  lemma TerminalElapsedSafeIff(req: Request, w: seq<Effect>, i: nat)
    requires Legal(req, w) && i < |w| && w[i].Ended?
    ensures (forall more :: Legal(req, w + more) ==> KeepsTerminalElapsed(w + more, i)) <==>
            KeepsTerminalElapsed(w, i) && HighWater(w) >= w[i].result.elapsed
  {
    if KeepsTerminalElapsed(w, i) && HighWater(w) >= w[i].result.elapsed {
      forall more | Legal(req, w + more)
        ensures KeepsTerminalElapsed(w + more, i)
      {
        KeptByHighWater(req, w, i, more);
      }
    } else {
      FallsBack(req, w, i);
    }
  }

  lemma KeptByHighWater(req: Request, w: seq<Effect>, i: nat, more: seq<Effect>)
    requires Legal(req, w + more) && i < |w| && w[i].Ended?
    requires KeepsTerminalElapsed(w, i) && HighWater(w) >= w[i].result.elapsed
    ensures KeepsTerminalElapsed(w + more, i)
  {
    var n := w + more;
    forall j | i < j < |n|
      ensures Recorded(n[j]) >= n[i].result.elapsed
    {
      TerminalIsFinal(req, n, i, |n|);
      assert Final(n[j], n[i].result);
      if j >= |w| {
        LegalPrefix(req, n, j);
        assert n[..j][..|w|] == w;
        HighWaterGrows(req, n[..j], |w|);
      }
    }
  }

  lemma {:induction false} HighWaterGrows(req: Request, w: seq<Effect>, k: nat)
    requires k <= |w|
    ensures HighWater(w[..k]) <= HighWater(w)
    decreases |w|
  {
    if k == |w| {
      assert w[..k] == w;
    } else {
      HighWaterGrows(req, w[..|w| - 1], k);
      assert w[..|w| - 1][..k] == w[..k];
    }
  }

  /** Otherwise some future falls back: the next incarnation publishes its status at once. */
  lemma FallsBack(req: Request, w: seq<Effect>, i: nat)
    requires Legal(req, w) && i < |w| && w[i].Ended?
    requires !KeepsTerminalElapsed(w, i) || HighWater(w) < w[i].result.elapsed
    ensures exists more :: Legal(req, w + more) && !KeepsTerminalElapsed(w + more, i)
  {
    if !KeepsTerminalElapsed(w, i) {
      assert w + [] == w;
    } else {
      var s := Published(Status("terminal", req.identity, None, HighWater(w), TerminalOf(w)));
      Snoc(req, w, s);
      assert (w + [s])[|w|] == s && (w + [s])[i] == w[i];
      assert Legal(req, w + [s]) && !KeepsTerminalElapsed(w + [s], i);
    }
  }

  lemma CapStays(limits: Limits, a: nat, b: nat)
    requires a <= b && CapReached(limits, a)
    ensures CapReached(limits, b)
  {
    CostGrows(limits, a, b);
  }

  /** A phase is started, and spawned, only below the caps. */
  lemma BelowCaps(req: Request, w: seq<Effect>, j: nat)
    requires Legal(req, w) && j < |w|
    ensures w[j].Appended? && w[j].event.kind == PhaseStarted ==> !CapReached(req.limits, HighWater(w[..j]))
    ensures w[j].Spawned? ==> j > 0 && !CapReached(req.limits, HighWater(w[..j - 1]))
  {
    LegalPrefix(req, w, j);
    if w[j].Spawned? {
      SpawnFollowsStart(req, w, j, w[j].phase);
    }
  }

  lemma CapReachedBy(req: Request, w: seq<Effect>, i: nat, n: nat)
    requires i < n <= |w| && CapReached(req.limits, Recorded(w[i]))
    ensures CapReached(req.limits, HighWater(w[..n]))
  {
    RecordedBelowHighWater(req, w, i, n);
    CapStays(req.limits, Recorded(w[i]), HighWater(w[..n]));
  }

  /**
    Once any recorded elapsed time has reached the time or the cost cap, no later
    incarnation starts or spawns a phase.
   */
  lemma CapStopsPhases(req: Request, w: seq<Effect>, i: nat, j: nat)
    requires Legal(req, w) && i < j < |w|
    requires (w[i].Appended? || w[i].Published?) && CapReached(req.limits, Recorded(w[i]))
    ensures !(w[j].Appended? && w[j].event.kind == PhaseStarted)
    ensures w[j].Spawned? ==> i == j - 1
  {
    BelowCaps(req, w, j);
    CapReachedBy(req, w, i, j);
    if i < j - 1 {
      CapReachedBy(req, w, i, j - 1);
    }
  }

  /**
    What a restarted runner resumes from, the last event and the status, is the
    highest elapsed time ever recorded there.
   */
  lemma {:induction false} ResumedElapsed(req: Request, w: seq<Effect>)
    requires Legal(req, w)
    ensures HighWater(w) ==
      Max(if Events(w) == [] then 0 else Events(w)[|Events(w)| - 1].elapsed,
          if StatusOf(w).None? then 0 else StatusOf(w).value.elapsed)
  {
    if w != [] {
      ResumedElapsed(req, w[..|w| - 1]);
    }
  }
}
