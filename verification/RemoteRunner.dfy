/**
  The remote runner process and the directory its incarnations share. Each
  incarnation lives for a fixed number of steps chosen by its host; a step is
  one durable write, one spawn or one look at the child or the launch token,
  and the process dies at the step it has no life left for.
 */
module RemoteRunner {
  import opened Prelude
  import opened RunnerTrace

  /** How the events file ends: after a newline, in a fragment recognised as torn, or in one that is not. */
  datatype Tail = Clean | Torn | Unrecognised

  datatype Token = Absent | Genuine | Wrong

  /** What one incarnation meets, step by step. */
  datatype Host = Host(
    lifetime: nat,
    clock: nat -> nat,
    cut: Tail,
    // the identity the image carries, if it can be read, and the one of the source tree
    identity: Option<Identity>,
    sourceIdentity: Identity,
    protocolsSupported: bool,
    storageFailure: Option<string>,
    tokenIsStatusToken: bool,
    token: nat -> Token,
    launchTimeout: nat,
    heartbeat: nat,
    stop: nat -> Option<string>,
    spawns: nat -> bool,
    poll: nat -> Option<int>,
    killed: nat -> Option<int>,
    artifactFailure: Option<string>)

  ghost predicate Monotonic(clock: nat -> nat) {
    forall m: nat, n: nat :: m <= n ==> clock(m) <= clock(n)
  }

  /** `_identity_failure` */
  function IdentityFailure(request: Request, host: Host): Option<string> {
    if host.identity.None? then Some("runner_identity_unavailable")
    else if host.identity.value.version != request.identity.version then Some("runner_version_mismatch")
    else if host.identity.value.commit != request.identity.commit then Some("runner_git_commit_mismatch")
    else if !host.protocolsSupported then Some("unsupported_protocol_major")
    else None
  }

  function OwnIdentity(host: Host): Identity {
    if host.identity.Some? then host.identity.value else host.sourceIdentity
  }

  /** The host showed this incarnation a genuine launch token. */
  ghost predicate ShowsToken(host: Host) {
    exists n: nat :: n <= host.lifetime && host.token(n).Genuine?
  }

  /** The status directory; `effects` is everything ever made durable in it or spawned. */
  class StatusDir {
    var events: seq<Event>
    var tail: Tail
    var status: Option<Status>
    var terminal: Option<Terminal>
    ghost var effects: seq<Effect>

    constructor ()
      ensures events == [] && tail == Clean && status.None? && terminal.None? && effects == []
    {
      events, tail, status, terminal, effects := [], Clean, None, None, [];
    }

    ghost predicate Lawful(req: Request)
      reads this
    {
      && Legal(req, effects)
      && events == Events(effects)
      && status == StatusOf(effects)
      && terminal == TerminalOf(effects)
    }

    /** Reads the event history, removing a torn tail; the reader refuses an unrecognised one. */
    method ReadHistory(ghost req: Request) returns (history: Option<seq<Event>>)
      requires Lawful(req)
      modifies this`tail
      ensures history == if old(tail) == Unrecognised then None else Some(events)
      ensures history.Some? ==> tail == Clean
    {
      if tail == Unrecognised {
        return None;
      }
      tail := Clean;
      Numbering(req, effects);
      for i := 0 to |events|
      {
        if events[i].sequence != i + 1 {
          return None;
        }
      }
      return Some(events);
    }
  }

  lemma {:induction false} Numbering(req: Request, w: seq<Effect>)
    requires Legal(req, w)
    ensures forall i :: 0 <= i < |Events(w)| ==> Events(w)[i].sequence == i + 1
  {
    if w != [] {
      Numbering(req, w[..|w| - 1]);
    }
  }

  ghost predicate AddsEvent(before: seq<Event>, after: seq<Event>, kind: EventKind, phase: Option<Phase>,
      exitCode: Option<int>) {
    && |after| == |before| + 1 && after[..|before|] == before
    && var e := after[|before|];
      && e.kind == kind && e.phase == phase && e.exitCode == exitCode
      && Replay(after) == Absorb(Replay(before), e)
  }

  ghost predicate AddsStatus(before: seq<Effect>, after: seq<Effect>, s: Status) {
    after == before + [Published(s)]
  }

  lemma AppendLawful(req: Request, w: seq<Effect>, e: Event)
    requires Legal(req, w) && Allowed(req, w, Appended(e))
    ensures var n := w + [Appended(e)];
      && Legal(req, n)
      && Events(n) == Events(w) + [e] && StatusOf(n) == StatusOf(w) && TerminalOf(n) == TerminalOf(w)
      && HighWater(n) == e.elapsed
      && AddsEvent(Events(w), Events(n), e.kind, e.phase, e.exitCode)
      && TokenSeen(n) == TokenSeen(w)
      && (Holds(Events(n), LaunchAuthorized) <==> Holds(Events(w), LaunchAuthorized) || e.kind == LaunchAuthorized)
  {
    Snoc(req, w, Appended(e));
    HoldsSnoc(Events(w), e);
    ReplaySnoc(Events(w), e);
  }

  /** An effect that is no event and no terminal record leaves both as they are. */
  lemma OtherLawful(req: Request, w: seq<Effect>, x: Effect)
    requires Legal(req, w) && Allowed(req, w, x) && !x.Appended? && !x.Ended?
    ensures var n := w + [x];
      && Legal(req, n)
      && Events(n) == Events(w) && TerminalOf(n) == TerminalOf(w)
      && StatusOf(n) == (if x.Published? then Some(x.status) else StatusOf(w))
      && HighWater(n) == Max(HighWater(w), Recorded(x))
      && (TokenSeen(n) <==> TokenSeen(w) || x.SawToken?)
  {
    Snoc(req, w, x);
  }

  lemma EndLawful(req: Request, w: seq<Effect>, t: Terminal)
    requires Legal(req, w) && Allowed(req, w, Ended(t))
    ensures var n := w + [Ended(t)];
      && Legal(req, n)
      && Events(n) == Events(w) && StatusOf(n) == StatusOf(w) && TerminalOf(n) == Some(t)
      && HighWater(n) == HighWater(w) && TokenSeen(n) == TokenSeen(w)
  {
    Snoc(req, w, Ended(t));
  }

  /** The terminal event is written only after the terminal record. */
  lemma {:induction false} NoTerminalEvent(req: Request, w: seq<Effect>)
    requires Legal(req, w) && TerminalOf(w).None?
    ensures !Holds(Events(w), TerminalRecorded)
  {
    if w != [] {
      var front, x := w[..|w| - 1], w[|w| - 1];
      NoTerminalEvent(req, front);
      if x.Appended? {
        HoldsSnoc(Events(front), x.event);
      }
    }
  }

  /**
    What follows the terminal record in so many steps of life: its event, no earlier
    than it, and a status that repeats it.
   */
  ghost predicate AnnouncedIn(before: seq<Effect>, after: seq<Effect>, result: Terminal, life: nat) {
    var n := |before|;
    && |after| == n + (if life < 2 then life else 2) && before <= after
    && (life > 0 ==>
      after[n].Appended? && after[n].event.kind == TerminalRecorded && after[n].event.elapsed >= result.elapsed)
    && (life > 1 ==> after[n + 1].Published? && after[n + 1].status.terminal == Some(result))
  }

  /** What finishing adds to the trace in so many steps of life. */
  ghost predicate FinishedIn(before: seq<Effect>, after: seq<Effect>, result: Terminal, life: nat) {
    if life == 0 then after == before else AnnouncedIn(before + [Ended(result)], after, result, life - 1)
  }

  // ---- why a run ended ----

  /** Every phase is settled, none is active and none has failed. */
  predicate AllSettled(r: Recovered) {
    r.settled == FirstPhases(|PHASE_ORDER|) && r.active.None? && r.failure.None?
  }

  /** The host asked this incarnation to stop for this reason. */
  ghost predicate AskedToStop(host: Host, reason: string) {
    exists n: nat :: n <= host.lifetime && host.stop(n) == Some(reason)
  }

  /** At least this time passed during this incarnation. */
  ghost predicate Waited(host: Host, time: int) {
    exists m: nat, n: nat :: m <= n <= host.lifetime && host.clock(n) - host.clock(m) >= time
  }

  /** What this incarnation met keeps it from running any phase. */
  ghost predicate Refuses(request: Request, host: Host, reason: string) {
    || IdentityFailure(request, host) == Some(reason)
    || host.storageFailure == Some(reason)
    || AskedToStop(host, reason)
    || (reason == "launch_authorization_invalid"
        && (host.tokenIsStatusToken || exists n: nat :: n <= host.lifetime && host.token(n).Wrong?))
    || (reason == "launch_authorization_timeout" && Waited(host, host.launchTimeout))
  }

  /** The cause of a terminal record, in the journal or in what the incarnation that wrote it met. */
  ghost predicate Explained(request: Request, host: Host, r: Recovered, t: Terminal) {
    match t.outcome
    case Succeeded =>
      AllSettled(r) && host.artifactFailure.None? && t.reason == "all_enabled_phases_completed" && t.phase.None?
    case Failed =>
      || (r.failure.Some? && t.reason == r.failure.value.reason && t.phase == Some(r.failure.value.phase))
      || (r.failure.None? && r.active.Some? && t.reason == "runner_restart_unknown_child" && t.phase == r.active)
      || (r.failure.None? && r.active.None? && t.phase.None? && Refuses(request, host, t.reason))
      || (AllSettled(r) && host.artifactFailure == Some(t.reason) && t.phase == Some(Package))
    case Stopped => r.active.Some? && t.phase == r.active && AskedToStop(host, t.reason)
    case TimedOut =>
      && r.active.Some? && t.phase == r.active && t.reason == "phase_timeout"
      && Waited(host, request.phases(r.active.value).timeout)
    case LimitExceeded =>
      && t.phase.Some? && (t.phase == r.active || (r.active.None? && r.settled == FirstPhases(Index(t.phase.value))))
      && t.reason == (if t.elapsed >= request.limits.maxElapsed then "elapsed_cap" else "cost_cap")
      && (t.elapsed >= request.limits.maxElapsed
          || t.elapsed * request.limits.rate >= request.limits.maxCost * 3_600_000_000)
  }

  /**
    When every phase is settled and nothing refuses the incarnation, the record is a
    success exactly if the artifacts verify.
   */
  lemma SettledSucceeds(request: Request, host: Host, r: Recovered, t: Terminal)
    requires Explained(request, host, r, t) && AllSettled(r)
    requires t.phase.None? ==> !Refuses(request, host, t.reason)
    ensures t.outcome == Succeeded <==> host.artifactFailure.None?
    ensures t.outcome == Succeeded || (t.outcome == Failed && host.artifactFailure == Some(t.reason))
  {
    if t.outcome == LimitExceeded {
      SamePosition(Index(t.phase.value), |PHASE_ORDER|);
    }
  }

  /** How and why a running child is ended. */
  datatype Ending = Ending(outcome: Outcome, reason: string)

  class RemoteRunner {
    const request: Request
    const dir: StatusDir
    const host: Host
    var step: nat
    var sequence: nat
    var priorElapsed: nat
    var completed: seq<Phase>
    var settled: set<Phase>
    var exitCodes: map<Phase, int>
    var currentPhase: Option<Phase>
    var recoveredFailure: Option<PhaseFailure>
    var launchAuthorized: bool
    // an earlier incarnation had seen the token
    ghost const tokenBefore: bool

    /** The directory is lawful, and a token it says was seen was shown to this incarnation or an earlier one. */
    ghost predicate Lawful()
      reads dir
    {
      dir.Lawful(request) && (TokenSeen(dir.effects) ==> tokenBefore || ShowsToken(host))
    }

    /** The directory is lawful and the process clock is past everything in it. */
    ghost predicate Valid()
      reads this, dir
    {
      && Monotonic(host.clock)
      && Lawful()
      && dir.tail == Clean
      && sequence == |dir.events|
      && step <= host.lifetime
      && HighWater(dir.effects) <= priorElapsed + host.clock(step)
      && launchAuthorized == Holds(dir.events, LaunchAuthorized)
    }

    constructor (request: Request, dir: StatusDir, host: Host, history: seq<Event>)
      requires dir.Lawful(request) && dir.tail == Clean && history == dir.events && Monotonic(host.clock)
      ensures Valid() && this.request == request && this.dir == dir && this.host == host
      ensures var r := Replay(history);
        && completed == r.completed && settled == r.settled && exitCodes == r.exitCodes
        && currentPhase == r.active && recoveredFailure == r.failure
      ensures tokenBefore == TokenSeen(dir.effects) && step == 0
      ensures priorElapsed == HighWater(dir.effects)
    {
      this.request, this.dir, this.host := request, dir, host;
      tokenBefore := TokenSeen(dir.effects);
      step := 0;
      sequence := |history|;
      var elapsed := if history == [] then 0 else history[|history| - 1].elapsed;
      var prior := if dir.status.None? then elapsed else Max(elapsed, dir.status.value.elapsed);
      ResumedElapsed(request, dir.effects);
      assert prior == HighWater(dir.effects);
      priorElapsed := prior;
      completed, settled, exitCodes, currentPhase, recoveredFailure := [], {}, map[], None, None;
      launchAuthorized := Holds(history, LaunchAuthorized);
      new;
      RecoverHistory(history);
    }

    /** Rebuilds the phase bookkeeping from the event history. */
    method RecoverHistory(history: seq<Event>)
      requires completed == [] && settled == {} && exitCodes == map[] && currentPhase.None? && recoveredFailure.None?
      modifies this`completed, this`settled, this`exitCodes, this`currentPhase, this`recoveredFailure
      ensures var r := Replay(history);
        && completed == r.completed && settled == r.settled && exitCodes == r.exitCodes
        && currentPhase == r.active && recoveredFailure == r.failure
    {
      var activePhase: Option<Phase> := None;
      for i := 0 to |history|
        invariant Replay(history[..i]) == Recovered(activePhase, completed, settled, recoveredFailure, exitCodes)
        invariant currentPhase.None?
      {
        assert history[..i + 1] == history[..i] + [history[i]];
        ReplaySnoc(history[..i], history[i]);
        var event := history[i];
        if event.phase.Some? {
          var phase := event.phase.value;
          if event.kind == PhaseStarted {
            activePhase := Some(phase);
          } else if event.kind == PhaseCompleted {
            activePhase := None;
            settled := settled + {phase};
            completed := completed + [phase];
            if event.exitCode.Some? {
              exitCodes := exitCodes[phase := event.exitCode.value];
            }
          } else if event.kind == PhaseDisabled {
            settled := settled + {phase};
          } else if event.kind == PhaseFailed || event.kind == PhaseStartFailed {
            activePhase := None;
            var reason := if event.kind == PhaseFailed then "phase_nonzero_exit" else "phase_start_failed";
            recoveredFailure := Some(PhaseFailure(phase, reason));
            if event.exitCode.Some? {
              exitCodes := exitCodes[phase := event.exitCode.value];
            }
          }
        }
      }
      assert history[..|history|] == history;
      currentPhase := activePhase;
    }

    function Elapsed(): nat
      reads this
    {
      priorElapsed + host.clock(step)
    }

    /** Nothing but the end of the process cuts a call short. */
    predicate Spent()
      reads this
    {
      step >= host.lifetime
    }

    /** One more step of life, if there is any. */
    method Live() returns (alive: bool)
      requires Valid()
      modifies this`step
      ensures Valid()
      ensures alive <==> old(step) < host.lifetime
      ensures step == old(step) + if alive then 1 else 0
    {
      alive := step < host.lifetime;
      if alive {
        assert host.clock(step) <= host.clock(step + 1);
        step := step + 1;
      }
    }

    method AppendEvent(kind: EventKind, phase: Option<Phase>, exitCode: Option<int>, outcome: Option<Outcome>)
      returns (alive: bool)
      requires Valid() && EventAllowed(request, dir.effects, kind, phase, exitCode)
      requires dir.terminal.Some? ==> dir.terminal.value.elapsed <= Elapsed()
      modifies this`step, this`sequence, this`launchAuthorized, dir`events, dir`tail, dir`effects
      ensures Lawful()
      ensures alive <==> old(step) < host.lifetime
      ensures alive ==>
        Valid() && step == old(step) + 1 && AddsEvent(old(dir.events), dir.events, kind, phase, exitCode)
      ensures alive ==> dir.effects == old(dir.effects) + [Appended(dir.events[|old(dir.events)|])]
      ensures alive ==> dir.events[|old(dir.events)|].elapsed == Elapsed()
      ensures alive ==> launchAuthorized == (old(launchAuthorized) || kind == LaunchAuthorized)
      ensures !alive ==> dir.effects == old(dir.effects) && dir.tail == host.cut
      ensures !alive ==> Spent()
    {
      alive := Live();
      if !alive {
        dir.tail := host.cut;
        return;
      }
      sequence := sequence + 1;
      var event := Event(sequence, kind, phase, exitCode, outcome, Elapsed());
      AppendLawful(request, dir.effects, event);
      dir.events := dir.events + [event];
      dir.effects := dir.effects + [Appended(event)];
      launchAuthorized := launchAuthorized || kind == LaunchAuthorized;
    }

    /** The status this incarnation would publish now. */
    function StatusNow(state: string): Status
      reads this, dir
    {
      Status(state, OwnIdentity(host), currentPhase, Elapsed(), dir.terminal)
    }

    method PublishStatus(state: string) returns (alive: bool)
      requires Valid() && (state == "ready" || state == "running" ==> IdentityFailure(request, host).None?)
      modifies this`step, dir`status, dir`effects
      ensures Lawful()
      ensures alive <==> old(step) < host.lifetime
      ensures alive ==> Valid() && step == old(step) + 1 && AddsStatus(old(dir.effects), dir.effects, StatusNow(state))
      ensures alive ==> dir.status == Some(StatusNow(state))
      ensures !alive ==> dir.effects == old(dir.effects)
      ensures !alive ==> Spent()
    {
      alive := Live();
      if alive {
        var status := StatusNow(state);
        OtherLawful(request, dir.effects, Published(status));
        dir.status := Some(status);
        dir.effects := dir.effects + [Published(status)];
      }
    }

    function TerminalResult(outcome: Outcome, reason: string, phase: Option<Phase>): Terminal
      reads this
    {
      Terminal(outcome, reason, phase, Elapsed(), completed, exitCodes)
    }

    /** A terminal record that exists is kept and returned. */
    method WriteTerminalOnce(result: Terminal) returns (persisted: Option<Terminal>)
      requires Valid()
      requires dir.terminal.None? ==> Allowed(request, dir.effects, Ended(result))
      modifies this`step, dir`terminal, dir`effects
      ensures Lawful()
      ensures persisted.Some? <==> old(step) < host.lifetime
      ensures persisted.Some? ==> Valid() && dir.terminal == persisted && step == old(step) + 1
      ensures persisted.None? || old(dir.terminal).Some? ==>
        dir.terminal == old(dir.terminal) && dir.effects == old(dir.effects)
      ensures persisted.Some? && old(dir.terminal).None? ==>
        persisted == Some(result) && dir.effects == old(dir.effects) + [Ended(result)]
      ensures persisted.None? ==> Spent()
    {
      var alive := Live();
      if !alive {
        return None;
      }
      if dir.terminal.Some? {
        return dir.terminal;
      }
      EndLawful(request, dir.effects, result);
      dir.terminal := Some(result);
      dir.effects := dir.effects + [Ended(result)];
      return dir.terminal;
    }

    /**
      Writes the terminal record, its event, and the status that repeats it,
      as far as the process lives. If it lives to append the event, the event
      is no earlier than the record.
     */
    method Finish(result: Terminal) returns (r: Option<Terminal>)
      requires Valid() && dir.terminal.None? && Conclusive(result)
      modifies this`step, this`sequence, this`launchAuthorized, dir
      ensures Lawful() && FinishedIn(old(dir.effects), dir.effects, result, host.lifetime - old(step))
      ensures r.Some? <==> host.lifetime - old(step) >= 3
      ensures dir.tail == Clean || dir.tail == host.cut
      ensures r.Some? ==> r == Some(result) && dir.terminal == r && dir.status.Some? && dir.status.value.terminal == r
      ensures r.None? ==> dir.terminal == if host.lifetime > old(step) then Some(result) else None
      ensures dir.terminal.Some? ==> Explained(request, host, Replay(dir.events), dir.terminal.value)
      ensures r.None? ==> Spent()
    {
      NoTerminalEvent(request, dir.effects);
      EndLawful(request, dir.effects, result);
      var persisted := WriteTerminalOnce(result);
      if persisted.None? {
        return None;
      }
      r := AnnounceTerminal(persisted.value);
    }

    /** The terminal event and the status after a record that was just written. */
    method AnnounceTerminal(persisted: Terminal) returns (r: Option<Terminal>)
      requires Valid() && dir.terminal == Some(persisted) && persisted.elapsed <= Elapsed()
      requires !Holds(dir.events, TerminalRecorded)
      modifies this`step, this`sequence, this`launchAuthorized, dir
      ensures Lawful() && AnnouncedIn(old(dir.effects), dir.effects, persisted, host.lifetime - old(step))
      ensures r.Some? <==> host.lifetime - old(step) >= 2
      ensures dir.tail == Clean || dir.tail == host.cut
      ensures dir.terminal == Some(persisted) && Replay(dir.events) == old(Replay(dir.events))
      ensures r.Some? ==> r == dir.terminal && dir.status.Some? && dir.status.value.terminal == r
      ensures r.None? ==> Spent()
    {
      var alive := AppendEvent(TerminalRecorded, currentPhase, None, Some(persisted.outcome));
      if !alive {
        return None;
      }
      alive := PublishStatus("terminal");
      if !alive {
        return None;
      }
      return Some(persisted);
    }

    /** Between phases: the first `k` are settled, nothing is active and nothing has failed. */
    ghost predicate Idle(k: nat)
      reads this, dir
    {
      && Valid()
      && dir.terminal.None?
      && IdentityFailure(request, host).None?
      && Replay(dir.events) == Recovered(None, completed, FirstPhases(k), None, Replay(dir.events).exitCodes)
    }

    /** This record may end the run now. */
    ghost predicate Conclusive(result: Terminal)
      reads this, dir
    {
      && Allowed(request, dir.effects, Ended(result)) && result.elapsed <= Elapsed()
      && Explained(request, host, Replay(dir.events), result)
    }

    /** The command of `phase`, the phase after the first `k`, has been spawned and has not been seen to exit. */
    ghost predicate Busy(k: nat, phase: Phase)
      reads this, dir
    {
      && Valid()
      && dir.terminal.None?
      && IdentityFailure(request, host).None?
      && Replay(dir.events) == Recovered(Some(phase), completed, FirstPhases(k), None, Replay(dir.events).exitCodes)
      && Spawned(phase) in dir.effects
      && launchAuthorized
    }

    /** `phase`, the one after the first `k`, has completed; `run` has not counted it yet. */
    ghost predicate Settled(k: nat, phase: Phase)
      reads this, dir
    {
      && Valid()
      && dir.terminal.None?
      && Replay(dir.events) ==
        Recovered(None, completed + [phase], FirstPhases(k + 1), None, Replay(dir.events).exitCodes)
      && launchAuthorized
    }

    /** The token on disk is the pinned one; the launch is recorded once. */
    method AuthorizeLaunch(ghost k: nat) returns (alive: bool)
      requires Idle(k) && host.token(step).Genuine?
      modifies this`step, this`sequence, this`launchAuthorized, dir
      ensures Lawful() && old(dir.effects) <= dir.effects && dir.terminal.None?
      ensures alive ==> Idle(k) && launchAuthorized && ShowsToken(host)
      ensures !alive ==> Spent()
    {
      OtherLawful(request, dir.effects, SawToken);
      dir.effects := dir.effects + [SawToken];
      alive := true;
      if !launchAuthorized {
        alive := AppendEvent(LaunchAuthorized, None, None, None);
      }
    }

    /** Waits for the launch token; a restarted runner checks it again. */
    method WaitForLaunchAuthorization(ghost k: nat) returns (alive: bool, failure: Option<string>)
      requires Idle(k)
      modifies this`step, this`sequence, this`launchAuthorized, dir
      ensures Lawful() && old(dir.effects) <= dir.effects && dir.terminal.None?
      ensures alive ==> Idle(k)
      ensures alive && failure.None? ==> launchAuthorized && ShowsToken(host)
      ensures alive && failure.Some? ==> Refuses(request, host, failure.value)
      ensures !alive ==> Spent()
    {
      if host.tokenIsStatusToken {
        return true, Some("launch_authorization_invalid");
      }
      ghost var began := step;
      var deadline := host.clock(step) + host.launchTimeout;
      var nextHeartbeat := host.clock(step) + host.heartbeat;
      while true
        invariant Idle(k) && old(dir.effects) <= dir.effects && began <= step
        decreases host.lifetime - step
      {
        alive := Live();
        if !alive {
          return false, None;
        }
        if host.stop(step).Some? {
          return true, host.stop(step);
        }
        if host.token(step).Wrong? {
          return true, Some("launch_authorization_invalid");
        }
        if host.token(step).Genuine? {
          alive := AuthorizeLaunch(k);
          return alive, None;
        }
        var now := host.clock(step);
        if now >= deadline {
          return true, Some("launch_authorization_timeout");
        }
        if now >= nextHeartbeat {
          alive := PublishStatus("ready");
          if !alive {
            return false, None;
          }
          nextHeartbeat := now + host.heartbeat;
        }
      }
    }

    method LimitReason() returns (reason: Option<string>)
      requires Valid()
      ensures reason.Some? <==> CapReached(request.limits, Elapsed())
      ensures Elapsed() >= request.limits.maxElapsed ==> reason == Some("elapsed_cap")
      ensures Elapsed() < request.limits.maxElapsed ==>
        reason == if Elapsed() * request.limits.rate >= request.limits.maxCost * 3_600_000_000 then Some("cost_cap")
          else None
      ensures reason.None? ==> !CapReached(request.limits, HighWater(dir.effects))
    {
      var elapsed := Elapsed();
      if elapsed >= request.limits.maxElapsed {
        return Some("elapsed_cap");
      }
      if CostOf(request.limits, elapsed) >= request.limits.maxCost * 3_600_000_000 {
        return Some("cost_cap");
      }
      if CapReached(request.limits, HighWater(dir.effects)) {
        CapStays(request.limits, HighWater(dir.effects), elapsed);
      }
      return None;
    }

    /** Kills the child's process group and notes the exit code it is reaped with. */
    method TerminateProcessGroup(phase: Phase)
      modifies this`exitCodes
      ensures exitCodes == Noted(old(exitCodes), phase, host.killed(step))
    {
      var code := host.killed(step);
      if code.Some? {
        exitCodes := exitCodes[phase := code.value];
      }
    }

    /** A cap that is reached ends the run before the phase starts. */
    method CapEnding(ghost k: nat, phase: Phase) returns (result: Option<Terminal>)
      requires Idle(k) && k == Index(phase)
      ensures result.Some? <==> CapReached(request.limits, Elapsed())
      ensures result.Some? ==> result.value.outcome == LimitExceeded && Conclusive(result.value)
      ensures result.None? ==> !CapReached(request.limits, HighWater(dir.effects))
    {
      var limitReason := LimitReason();
      if limitReason.Some? {
        return Some(TerminalResult(LimitExceeded, limitReason.value, Some(phase)));
      }
      return None;
    }

    /** Starts the command of a phase: its start is durable before it is spawned. */
    method StartPhase(ghost k: nat, phase: Phase) returns (alive: bool, result: Option<Terminal>)
      requires Idle(k) && k == Index(phase) && launchAuthorized && request.phases(phase).enabled
      modifies this`step, this`sequence, this`launchAuthorized, this`currentPhase, dir
      ensures Lawful() && old(dir.effects) <= dir.effects && dir.terminal.None?
      ensures alive && result.None? ==> Busy(k, phase)
      ensures alive && result.Some? ==> Valid() && result.value.outcome != Succeeded && Conclusive(result.value)
      ensures !alive ==> Spent()
    {
      result := CapEnding(k, phase);
      if result.Some? {
        return true, result;
      }
      currentPhase := Some(phase);
      alive := AppendEvent(PhaseStarted, Some(phase), None, None);
      if !alive {
        return false, None;
      }
      alive, result := Spawn(k, phase);
    }

    /** The command could not be spawned. */
    method FailStart(phase: Phase) returns (alive: bool, result: Option<Terminal>)
      requires Valid() && dir.terminal.None? && Replay(dir.events).completed == completed
      requires EventAllowed(request, dir.effects, PhaseStartFailed, Some(phase), None)
      modifies this`step, this`sequence, this`launchAuthorized, dir
      ensures Lawful() && old(dir.effects) <= dir.effects && dir.terminal.None? && (result.Some? <==> alive)
      ensures alive ==> Valid() && result.value.outcome != Succeeded && Conclusive(result.value)
      ensures !alive ==> Spent()
    {
      alive := AppendEvent(PhaseStartFailed, Some(phase), None, None);
      if !alive {
        return false, None;
      }
      return true, Some(TerminalResult(Failed, "phase_start_failed", Some(phase)));
    }

    /**
      The start of `phase` is the last thing made durable; its command is spawned,
      or the failure to do so is recorded.
     */
    method Spawn(ghost k: nat, phase: Phase) returns (alive: bool, result: Option<Terminal>)
      requires Valid() && dir.terminal.None? && k == Index(phase) && launchAuthorized
      requires IdentityFailure(request, host).None?
      requires Replay(dir.events) ==
        Recovered(Some(phase), completed, FirstPhases(k), None, Replay(dir.events).exitCodes)
      requires Allowed(request, dir.effects, Spawned(phase))
      modifies this`step, this`sequence, this`launchAuthorized, dir
      ensures Lawful() && old(dir.effects) <= dir.effects && dir.terminal.None?
      ensures alive && result.None? ==> Busy(k, phase)
      ensures alive && result.Some? ==> Valid() && result.value.outcome != Succeeded && Conclusive(result.value)
      ensures !alive ==> Spent()
    {
      if !host.spawns(step) {
        alive, result := FailStart(phase);
        return;
      }
      alive := Live();
      if !alive {
        return false, None;
      }
      OtherLawful(request, dir.effects, Spawned(phase));
      dir.effects := dir.effects + [Spawned(phase)];
      return true, None;
    }

    /** Makes the exit of the child durable and judges it. */
    method RecordExit(ghost k: nat, phase: Phase, code: int) returns (alive: bool, result: Option<Terminal>)
      requires Busy(k, phase) && k == Index(phase)
      modifies this`step, this`sequence, this`launchAuthorized, dir
      ensures Lawful() && old(dir.effects) <= dir.effects && dir.terminal.None?
      ensures alive ==> Valid() && (result.None? <==> code == 0)
      ensures alive && result.None? ==> Settled(k, phase)
      ensures alive && result.Some? ==> result.value.outcome != Succeeded && Conclusive(result.value)
      ensures !alive ==> Spent()
    {
      alive := AppendEvent(if code == 0 then PhaseCompleted else PhaseFailed, Some(phase), Some(code), None);
      if !alive {
        return false, None;
      }
      NextPosition(k);
      if code != 0 {
        return true, Some(TerminalResult(Failed, "phase_nonzero_exit", Some(phase)));
      }
      return true, None;
    }

    /** The child has exited: publish, then record the exit. */
    method SettlePhase(ghost k: nat, phase: Phase, code: int) returns (alive: bool, result: Option<Terminal>)
      requires Busy(k, phase) && k == Index(phase)
      modifies this`step, this`sequence, this`launchAuthorized, this`exitCodes, dir
      ensures Lawful() && old(dir.effects) <= dir.effects && dir.terminal.None?
      ensures alive ==> Valid() && (result.None? <==> code == 0)
      ensures alive && result.None? ==> Settled(k, phase)
      ensures alive && result.Some? ==> result.value.outcome != Succeeded && Conclusive(result.value)
      ensures !alive ==> Spent()
    {
      exitCodes := exitCodes[phase := code];
      alive := PublishStatus("running");
      if !alive {
        return false, None;
      }
      alive, result := RecordExit(k, phase, code);
    }

    /** Why a running child must be ended now: a stop request, the phase timeout, or a cap, in this order. */
    method EndingOf(phase: Phase, elapsed: int) returns (ending: Option<Ending>)
      requires Valid()
      ensures host.stop(step).Some? ==> ending == Some(Ending(Stopped, host.stop(step).value))
      ensures host.stop(step).None? && elapsed >= request.phases(phase).timeout ==>
        ending == Some(Ending(TimedOut, "phase_timeout"))
      ensures host.stop(step).None? && elapsed < request.phases(phase).timeout && ending.Some? ==>
        && ending.value.outcome == LimitExceeded
        && ending.value.reason == if Elapsed() >= request.limits.maxElapsed then "elapsed_cap" else "cost_cap"
      ensures ending.Some? ==> ending.value.outcome != Succeeded
      ensures ending.None? <==>
        host.stop(step).None? && elapsed < request.phases(phase).timeout && !CapReached(request.limits, Elapsed())
    {
      if host.stop(step).Some? {
        return Some(Ending(Stopped, host.stop(step).value));
      }
      if elapsed >= request.phases(phase).timeout {
        return Some(Ending(TimedOut, "phase_timeout"));
      }
      var limitReason := LimitReason();
      if limitReason.Some? {
        return Some(Ending(LimitExceeded, limitReason.value));
      }
      return None;
    }

    /** The child is still running: end it if it must be, else publish when a heartbeat is due. */
    method WatchChild(ghost k: nat, ghost began: nat, phase: Phase, phaseStarted: nat, nextHeartbeat: nat)
      returns (alive: bool, result: Option<Terminal>, next: nat)
      requires Busy(k, phase) && began <= step && phaseStarted == host.clock(began)
      modifies this`step, this`exitCodes, dir`status, dir`effects
      ensures Lawful() && old(dir.effects) <= dir.effects && dir.terminal.None?
      ensures alive && result.None? ==> Busy(k, phase) && step >= old(step)
      ensures alive && result.Some? ==> Valid() && result.value.outcome != Succeeded && Conclusive(result.value)
      ensures !alive ==> Spent()
    {
      next := nextHeartbeat;
      var now := host.clock(step);
      var ending := EndingOf(phase, now - phaseStarted);
      if ending.Some? {
        TerminateProcessGroup(phase);
        return true, Some(TerminalResult(ending.value.outcome, ending.value.reason, Some(phase))), next;
      }
      if now >= nextHeartbeat {
        alive := PublishStatus("running");
        if !alive {
          return false, None, next;
        }
        next := now + host.heartbeat;
      }
      return true, None, next;
    }

    method RunPhase(ghost k: nat, phase: Phase) returns (alive: bool, result: Option<Terminal>)
      requires Idle(k) && k == Index(phase) && launchAuthorized && request.phases(phase).enabled
      modifies this`step, this`sequence, this`launchAuthorized, this`currentPhase, this`exitCodes, dir
      ensures Lawful() && old(dir.effects) <= dir.effects && dir.terminal.None?
      ensures alive ==> Valid()
      ensures alive && result.None? ==> Settled(k, phase)
      ensures alive && result.Some? ==> result.value.outcome != Succeeded && Conclusive(result.value)
      ensures !alive ==> Spent()
    {
      alive, result := StartPhase(k, phase);
      if !alive || result.Some? {
        return;
      }
      ghost var began := step;
      var phaseStarted, nextHeartbeat := host.clock(step), 0;
      while true
        invariant Busy(k, phase) && old(dir.effects) <= dir.effects && began <= step
        decreases host.lifetime - step
      {
        alive := Live();
        if !alive {
          return false, None;
        }
        var exitCode := host.poll(step);
        if exitCode.Some? {
          alive, result := SettlePhase(k, phase, exitCode.value);
          return;
        }
        alive, result, nextHeartbeat := WatchChild(k, began, phase, phaseStarted, nextHeartbeat);
        if !alive || result.Some? {
          return;
        }
      }
    }

    /** What the constructor has rebuilt is what the journal replays to. */
    ghost predicate Restored()
      reads this, dir
    {
      && Valid()
      && Replay(dir.events) == Recovered(currentPhase, completed, settled, recoveredFailure, exitCodes)
    }

    /** One unsettled phase: disabled, or run and counted as completed. */
    method AdvancePhase(ghost k: nat, phase: Phase) returns (alive: bool, result: Option<Terminal>)
      requires Idle(k) && k == Index(phase) && launchAuthorized
      modifies this`step, this`sequence, this`launchAuthorized, this`currentPhase, this`exitCodes, this`completed, dir
      ensures Lawful() && old(dir.effects) <= dir.effects && dir.terminal.None?
      ensures alive && result.None? ==> Idle(k + 1) && launchAuthorized
      ensures alive && result.Some? ==> Valid() && result.value.outcome != Succeeded && Conclusive(result.value)
      ensures !alive ==> Spent()
    {
      NextPosition(k);
      if !request.phases(phase).enabled {
        alive := AppendEvent(PhaseDisabled, Some(phase), None, None);
        return alive, None;
      }
      alive, result := RunPhase(k, phase);
      if alive && result.None? {
        completed := completed + [phase];
      }
    }

    /** Runs the phases that an earlier incarnation has not settled. */
    method RunPhases(ghost first: nat) returns (alive: bool, result: Option<Terminal>)
      requires Idle(first) && first <= |PHASE_ORDER| && settled == FirstPhases(first) && launchAuthorized
      modifies this`step, this`sequence, this`launchAuthorized, this`currentPhase, this`exitCodes, this`completed, dir
      ensures Lawful() && old(dir.effects) <= dir.effects && dir.terminal.None?
      ensures alive && result.None? ==> Idle(|PHASE_ORDER|) && launchAuthorized
      ensures alive && result.Some? ==> Valid() && result.value.outcome != Succeeded && Conclusive(result.value)
      ensures !alive ==> Spent()
    {
      for i := 0 to |PHASE_ORDER|
        invariant Idle(if i < first then first else i) && launchAuthorized
        invariant old(dir.effects) <= dir.effects
      {
        var phase := PHASE_ORDER[i];
        AtPosition(i, first);
        if phase in settled {
          continue;
        }
        alive, result := AdvancePhase(i, phase);
        if !alive || result.Some? {
          return;
        }
      }
      return true, None;
    }

    /** `run`: returns the terminal record, or nothing if the process died on the way. */
    method Run() returns (r: Option<Terminal>)
      requires Restored()
      modifies this, dir
      ensures Lawful() && old(dir.effects) <= dir.effects
      ensures old(dir.terminal).None? && dir.terminal.Some? ==>
        Explained(request, host, Replay(dir.events), dir.terminal.value)
      ensures r.Some? ==> dir.terminal == r && dir.status.Some? && dir.status.value.terminal == r
      ensures old(dir.terminal).Some? ==> dir.terminal == old(dir.terminal) && dir.events == old(dir.events)
      ensures old(dir.terminal).Some? && old(step) < host.lifetime ==>
        exists s: Status :: dir.effects == old(dir.effects) + [Published(s)]
          && s.terminal == old(dir.terminal) && s.elapsed == old(priorElapsed) + host.clock(old(step) + 1)
      ensures (old(dir.terminal).None? && old(recoveredFailure).None? && old(currentPhase).None?
               && IdentityFailure(request, host).Some?) ==>
        FinishedIn(old(dir.effects), dir.effects,
          old(TerminalResult(Failed, IdentityFailure(request, host).value, None)), host.lifetime - old(step))
        && (dir.tail == Clean || dir.tail == host.cut)
      ensures r.Some? && old(dir.terminal).None? && old(recoveredFailure).Some? ==>
        r.value.outcome == Failed && r.value.reason == old(recoveredFailure).value.reason
          && r.value.phase == Some(old(recoveredFailure).value.phase)
      ensures r.Some? && old(dir.terminal).None? && old(recoveredFailure).None? && old(currentPhase).Some? ==>
        r.value.outcome == Failed && r.value.reason == "runner_restart_unknown_child"
          && r.value.phase == old(currentPhase)
      ensures r.None? ==> Spent()
    {
      if dir.terminal.Some? {
        var alive := PublishStatus("terminal");
        if !alive {
          return None;
        }
        return dir.terminal;
      }
      r := RunUnended();
    }

    /** The part of `run` when no terminal record exists: every refusal in its order, or the run itself. */
    method RunUnended() returns (r: Option<Terminal>)
      requires Restored() && dir.terminal.None?
      modifies this, dir
      ensures Lawful() && old(dir.effects) <= dir.effects
      ensures dir.terminal.Some? ==> Explained(request, host, Replay(dir.events), dir.terminal.value)
      ensures r.Some? ==> dir.terminal == r && dir.status.Some? && dir.status.value.terminal == r
      ensures old(recoveredFailure).None? && old(currentPhase).None? && IdentityFailure(request, host).Some? ==>
        FinishedIn(old(dir.effects), dir.effects,
          old(TerminalResult(Failed, IdentityFailure(request, host).value, None)), host.lifetime - old(step))
        && (dir.tail == Clean || dir.tail == host.cut)
      ensures r.Some? && old(recoveredFailure).Some? ==>
        && r.value.outcome == Failed && r.value.reason == old(recoveredFailure).value.reason
        && r.value.phase == Some(old(recoveredFailure).value.phase)
      ensures r.Some? && old(recoveredFailure).None? && old(currentPhase).Some? ==>
        r.value.outcome == Failed && r.value.reason == "runner_restart_unknown_child"
          && r.value.phase == old(currentPhase)
      ensures r.None? ==> Spent()
    {
      if recoveredFailure.Some? {
        currentPhase := Some(recoveredFailure.value.phase);
        r := Finish(TerminalResult(Failed, recoveredFailure.value.reason, currentPhase));
        return;
      }
      if currentPhase.Some? {
        r := Finish(TerminalResult(Failed, "runner_restart_unknown_child", currentPhase));
        return;
      }
      var identityFailure := IdentityFailure(request, host);
      if identityFailure.Some? {
        r := Finish(TerminalResult(Failed, identityFailure.value, None));
        return;
      }
      if host.storageFailure.Some? {
        r := Finish(TerminalResult(Failed, host.storageFailure.value, None));
        return;
      }
      ghost var k := ReplaysInOrder(request, dir.effects);
      r := RunFresh(k);
    }

    method Announce(ghost k: nat) returns (alive: bool)
      requires Idle(k)
      modifies this`step, this`sequence, this`launchAuthorized, dir
      ensures Lawful() && old(dir.effects) <= dir.effects && dir.terminal.None?
      ensures alive ==> Idle(k)
      ensures !alive ==> Spent()
    {
      alive := AppendEvent(if sequence != 0 then RunnerResumed else Ready, None, None, None);
      if alive {
        alive := PublishStatus("ready");
      }
    }

    /** The conclusion once every phase is settled: success, unless the artifacts do not verify. */
    method Conclude() returns (r: Option<Terminal>)
      requires Idle(|PHASE_ORDER|) && launchAuthorized
      modifies this`step, this`sequence, this`launchAuthorized, dir
      ensures Lawful() && old(dir.effects) <= dir.effects
      ensures r.Some? ==> dir.terminal == r && dir.status.Some? && dir.status.value.terminal == r
      ensures r.Some? ==> (r.value.outcome == Succeeded <==> host.artifactFailure.None?)
      ensures dir.terminal.Some? ==> Explained(request, host, Replay(dir.events), dir.terminal.value)
      ensures r.None? ==> Spent()
    {
      if host.artifactFailure.Some? {
        r := Finish(TerminalResult(Failed, host.artifactFailure.value, Some(Package)));
      } else {
        r := Finish(TerminalResult(Succeeded, "all_enabled_phases_completed", None));
      }
    }

    /** The part of `run` after the launch: run the phases, conclude. */
    method RunLaunched(ghost k: nat) returns (r: Option<Terminal>)
      requires Idle(k) && k <= |PHASE_ORDER| && settled == FirstPhases(k) && launchAuthorized
      modifies this`step, this`sequence, this`launchAuthorized, this`currentPhase, this`exitCodes, this`completed, dir
      ensures Lawful() && old(dir.effects) <= dir.effects
      ensures dir.terminal.Some? ==> Explained(request, host, Replay(dir.events), dir.terminal.value)
      ensures r.Some? ==> dir.terminal == r && dir.status.Some? && dir.status.value.terminal == r
      ensures r.None? ==> Spent()
    {
      var alive, result := RunPhases(k);
      if !alive {
        return None;
      }
      if result.Some? {
        r := Finish(result.value);
        return;
      }
      r := Conclude();
    }

    /** The part of `run` after every refusal: announce, wait for the launch, run the phases, conclude. */
    method RunFresh(ghost k: nat) returns (r: Option<Terminal>)
      requires Idle(k) && k <= |PHASE_ORDER| && settled == FirstPhases(k)
      modifies this`step, this`sequence, this`launchAuthorized, this`currentPhase, this`exitCodes, this`completed, dir
      ensures Lawful() && old(dir.effects) <= dir.effects
      ensures dir.terminal.Some? ==> Explained(request, host, Replay(dir.events), dir.terminal.value)
      ensures r.Some? ==> dir.terminal == r && dir.status.Some? && dir.status.value.terminal == r
      ensures r.None? ==> Spent()
    {
      var alive := Announce(k);
      if !alive {
        return None;
      }
      var failure;
      alive, failure := WaitForLaunchAuthorization(k);
      if !alive {
        return None;
      }
      if failure.Some? {
        r := Finish(TerminalResult(Failed, failure.value, None));
        return;
      }
      r := RunLaunched(k);
    }
  }

  /**
    Any number of incarnations of the runner of one request, each dying
    wherever its host has it die: everything they ever did is one legal trace,
    and a launch token it saw was shown by some host. A terminal record is
    returned by every incarnation that lives to return, and its cause is in the
    journal or in what the incarnation that wrote it met.
   */
  method RunIncarnations(request: Request, hosts: seq<Host>) returns (dir: StatusDir, results: seq<Option<Terminal>>)
    requires forall i :: 0 <= i < |hosts| ==> Monotonic(hosts[i].clock)
    ensures dir.Lawful(request)
    ensures TokenSeen(dir.effects) ==> exists i :: 0 <= i < |hosts| && ShowsToken(hosts[i])
    ensures dir.terminal.Some? ==>
      exists i :: 0 <= i < |hosts| && Explained(request, hosts[i], Replay(dir.events), dir.terminal.value)
    ensures |results| == |hosts|
    ensures forall i :: 0 <= i < |results| && results[i].Some? ==> dir.terminal == results[i]
  {
    dir := new StatusDir();
    results := [];
    for i := 0 to |hosts|
      invariant fresh(dir) && dir.Lawful(request) && |results| == i
      invariant TokenSeen(dir.effects) ==> exists j :: 0 <= j < i && ShowsToken(hosts[j])
      invariant dir.terminal.Some? ==>
        exists j :: 0 <= j < i && Explained(request, hosts[j], Replay(dir.events), dir.terminal.value)
      invariant forall j :: 0 <= j < |results| && results[j].Some? ==> dir.terminal == results[j]
    {
      var history := dir.ReadHistory(request);
      var result: Option<Terminal> := None;
      if history.Some? {
        var runner := new RemoteRunner(request, dir, hosts[i], history.value);
        result := runner.Run();
      }
      results := results + [result];
    }
  }

  /** A host of the wrong identity whose clock stands still. */
  function WrongHost(request: Request, lifetime: nat, time: nat): Host {
    Host(lifetime, n => time, Clean, None, request.identity, false, None, false, n => Absent, 0, 0,
         n => None, n => false, n => None, n => None, None)
  }

  /**
    The terminal record's elapsed time is not always kept: one incarnation dies
    after writing the record and before its event, and the next publishes the
    record under an earlier time.
   */
  method RecordOutlivesItsTime(request: Request) returns (dir: StatusDir)
    ensures dir.Lawful(request) && |dir.effects| == 2
    ensures dir.effects[0].Ended? && !KeepsTerminalElapsed(dir.effects, 0)
  {
    dir := new StatusDir();
    var first := new RemoteRunner(request, dir, WrongHost(request, 1, 7), []);
    var r := first.Run();
    assert dir.effects[0].Ended? && dir.effects[0].result.elapsed == 7;
    var history := dir.ReadHistory(request);
    if history.Some? {
      var second := new RemoteRunner(request, dir, WrongHost(request, 1, 1), history.value);
      r := second.Run();
    }
  }

  /**
    All phases settled is not enough for a success: an incarnation that finds
    them settled and is refused, here for its identity, records a failure.
   */
  method SettledYetRefused(request: Request, dir: StatusDir) returns (host: Host)
    requires dir.Lawful(request) && dir.terminal.None? && dir.tail != Unrecognised && AllSettled(Replay(dir.events))
    modifies dir
    ensures dir.Lawful(request) && AllSettled(Replay(dir.events)) && host.artifactFailure.None?
    ensures dir.terminal.Some? && dir.terminal.value.outcome == Failed
      && Refuses(request, host, dir.terminal.value.reason)
  {
    host := WrongHost(request, 3, 0);
    ghost var before := dir.effects;
    var history := dir.ReadHistory(request);
    var runner := new RemoteRunner(request, dir, host, history.value);
    var r := runner.Run();
    ghost var w := dir.effects;
    assert w[|before|].Ended? && w[|before|].result.outcome == Failed && w[..|before|] == before && w[..|w|] == w;
    TerminalIsFinal(request, w, |before|, |w|);
  }
}
