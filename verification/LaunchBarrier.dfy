/**
  The launch barrier between two machines that share only the remote disk and
  the status endpoint: the controller's executor, which may die and be started
  again at any point of its two publications, and the remote runner, whose
  effects follow `RunnerTrace`.
 */
module LaunchBarrier {
  import opened Prelude
  import opened RunnerTrace

  /** The fixed terms of a run: the request, which pins the runner's identity, and the allow-listed inputs. */
  datatype Terms = Terms(request: Request, allowed: map<string, string>)

  /** Where the executor's loop is between two of its effects. */
  datatype Point = Outside | Attested | Uploaded | InputsSure | TokenSent

  datatype Launch = Launch(
    // on the remote disk
    inputs: map<string, string>,
    token: bool,
    effects: seq<Effect>,
    // on the controller's disk
    inputReceipt: bool,
    launchReceipt: bool,
    // in the executor's process
    point: Point,
    // a ready status with the pinned identity has been read at least once; only the proof looks at it
    attested: bool)

  datatype LaunchStep =
    | ReadStatus
    | UploadInputs(sent: set<string>, acknowledged: bool)
    | RecordInputs
    | PublishToken(arrives: bool, acknowledged: bool)
    | RecordLaunch
    | ExecutorDies
    | RunnerDoes(effect: Effect)

  function Initial(): Launch {
    Launch(map[], false, [], false, false, Outside, false)
  }

  /** A runner that says it is ready under this identity has published a status. */
  predicate ReadyPublished(w: seq<Effect>, identity: Identity) {
    exists i :: 0 <= i < |w| && w[i].Published? && w[i].status.state == "ready" && w[i].status.identity == identity
  }

  /** The status endpoint serves the last status; the executor goes on only with a ready one of the pinned identity. */
  predicate Attests(t: Terms, status: Option<Status>) {
    status.Some? && status.value.identity == t.request.identity && status.value.state == "ready"
  }

  /** The files of the allow-list among `paths`, as `upload` writes them. */
  function Sent(allowed: map<string, string>, paths: set<string>): map<string, string> {
    map p | p in allowed && p in paths :: allowed[p]
  }

  function NextLaunch(t: Terms, l: Launch, s: LaunchStep): Launch {
    match s
    case ReadStatus =>
      // an authenticated status of another identity ends the execution
      if l.point == Outside && Attests(t, StatusOf(l.effects)) then l.(point := Attested, attested := true)
      else l.(point := Outside)
    case UploadInputs(sent, acknowledged) =>
      if l.point != Attested then l
      else if l.inputReceipt then l.(point := InputsSure)
      else if acknowledged then l.(inputs := l.inputs + t.allowed, point := Uploaded)
      else l.(inputs := l.inputs + Sent(t.allowed, sent), point := Outside)
    case RecordInputs =>
      if l.point == Uploaded then l.(inputReceipt := true, point := InputsSure) else l
    case PublishToken(arrives, acknowledged) =>
      if l.point != InputsSure then l
      else if l.launchReceipt then l.(point := Outside)
      else if acknowledged then l.(token := true, point := TokenSent)
      else l.(token := l.token || arrives, point := Outside)
    case RecordLaunch =>
      if l.point == TokenSent then l.(launchReceipt := true, point := Outside) else l
    case ExecutorDies => l.(point := Outside)
    case RunnerDoes(x) =>
      if Allowed(t.request, l.effects, x) && (x.SawToken? ==> l.token) then l.(effects := l.effects + [x]) else l
  }

  function RunLaunch(t: Terms, steps: seq<LaunchStep>): Launch {
    if steps == [] then Initial() else NextLaunch(t, RunLaunch(t, steps[..|steps| - 1]), steps[|steps| - 1])
  }

  /** Every allow-listed input is on the remote disk with its content. */
  predicate Complete(t: Terms, inputs: map<string, string>) {
    forall p :: p in t.allowed ==> p in inputs && inputs[p] == t.allowed[p]
  }

  /** Nothing else is. */
  predicate Within(t: Terms, inputs: map<string, string>) {
    forall p :: p in inputs ==> p in t.allowed && inputs[p] == t.allowed[p]
  }

  predicate LaunchOk(t: Terms, l: Launch) {
    && Legal(t.request, l.effects)
    && Within(t, l.inputs)
    && (l.point != Outside || l.token ==> l.attested)
    && (l.point in {Uploaded, InputsSure, TokenSent} || l.inputReceipt || l.token ==> Complete(t, l.inputs))
    && (l.point == TokenSent || l.launchReceipt ==> l.token)
    && (l.attested ==> ReadyPublished(l.effects, t.request.identity))
    && (TokenSeen(l.effects) ==> l.token)
  }

  lemma ReadyStays(w: seq<Effect>, x: Effect, identity: Identity)
    requires ReadyPublished(w, identity)
    ensures ReadyPublished(w + [x], identity)
  {
    var i :| 0 <= i < |w| && w[i].Published? && w[i].status.state == "ready" && w[i].status.identity == identity;
    assert (w + [x])[i] == w[i];
  }

  lemma {:induction false} StatusIsPublished(w: seq<Effect>)
    ensures StatusOf(w).Some? ==> exists i :: 0 <= i < |w| && w[i] == Published(StatusOf(w).value)
  {
    if StatusOf(w).Some? && !w[|w| - 1].Published? {
      StatusIsPublished(w[..|w| - 1]);
    } else if w != [] {
      assert w[|w| - 1].Published? ==> w[|w| - 1] == Published(StatusOf(w).value);
    }
  }

  lemma RunnerStepOk(t: Terms, l: Launch, x: Effect)
    requires LaunchOk(t, l) && Allowed(t.request, l.effects, x) && (x.SawToken? ==> l.token)
    ensures LaunchOk(t, l.(effects := l.effects + [x]))
  {
    Snoc(t.request, l.effects, x);
    if l.attested {
      ReadyStays(l.effects, x, t.request.identity);
    }
  }

  lemma NextLaunchOk(t: Terms, l: Launch, s: LaunchStep)
    requires LaunchOk(t, l)
    ensures LaunchOk(t, NextLaunch(t, l, s))
  {
    match s
    case RunnerDoes(x) =>
      if Allowed(t.request, l.effects, x) && (x.SawToken? ==> l.token) {
        RunnerStepOk(t, l, x);
      }
    case ReadStatus => StatusIsPublished(l.effects);
    case _ =>
  }

  lemma {:induction false} RunLaunchOk(t: Terms, steps: seq<LaunchStep>)
    ensures LaunchOk(t, RunLaunch(t, steps))
  {
    if steps != [] {
      RunLaunchOk(t, steps[..|steps| - 1]);
      NextLaunchOk(t, RunLaunch(t, steps[..|steps| - 1]), steps[|steps| - 1]);
    }
  }

  /**
    In every interleaving, a spawned phase means that the runner had seen the
    launch token, that the token was on the remote disk, that the whole input
    set was there and nothing beside it, and that the executor had read a ready
    status carrying the pinned identity.
   */
  lemma PhaseMeansLaunched(t: Terms, steps: seq<LaunchStep>, p: Phase)
    requires Spawned(p) in RunLaunch(t, steps).effects
    ensures var l := RunLaunch(t, steps);
      && TokenSeen(l.effects) && l.token
      && l.attested && ReadyPublished(l.effects, t.request.identity)
      && Complete(t, l.inputs) && Within(t, l.inputs)
  {
    RunLaunchOk(t, steps);
    var w := RunLaunch(t, steps).effects;
    var j :| 0 <= j < |w| && w[j] == Spawned(p);
    SpawnNeedsAllBefore(t.request, w, j, p);
    var i :| 0 <= i < j && w[i].Appended? && w[i].event.kind == LaunchAuthorized;
    AppendedHolds(w, i);
    AuthorizedSawToken(t.request, w);
  }

  lemma {:induction false} AppendedHolds(w: seq<Effect>, i: nat)
    requires i < |w| && w[i].Appended?
    ensures w[i].event in Events(w)
    decreases |w|
  {
    if i < |w| - 1 {
      AppendedHolds(w[..|w| - 1], i);
    }
  }

  /**
    The barrier closes in this order: when the token arrives, the inputs are already
    complete and the runner attested.
   */
  lemma TokenComesLast(t: Terms, steps: seq<LaunchStep>, s: LaunchStep)
    requires !RunLaunch(t, steps).token && NextLaunch(t, RunLaunch(t, steps), s).token
    ensures var l := RunLaunch(t, steps);
      l.attested && Complete(t, l.inputs) && NextLaunch(t, l, s).inputs == l.inputs
  {
    RunLaunchOk(t, steps);
  }

  /** And when the launch is in the runner's journal, the runner has seen the token, which has arrived. */
  lemma AuthorizedAfterToken(t: Terms, steps: seq<LaunchStep>)
    requires Holds(Events(RunLaunch(t, steps).effects), LaunchAuthorized)
    ensures TokenSeen(RunLaunch(t, steps).effects) && RunLaunch(t, steps).token
  {
    RunLaunchOk(t, steps);
    AuthorizedSawToken(t.request, RunLaunch(t, steps).effects);
  }

  /** What is once complete, published or recorded stays so through every restart. */
  lemma LaunchOnlyAdvances(t: Terms, l: Launch, s: LaunchStep)
    requires LaunchOk(t, l)
    ensures var n := NextLaunch(t, l, s);
      && (forall p :: p in l.inputs ==> p in n.inputs && n.inputs[p] == l.inputs[p])
      && (l.token ==> n.token) && (l.inputReceipt ==> n.inputReceipt) && (l.launchReceipt ==> n.launchReceipt)
      && l.effects <= n.effects
  {
  }
}
