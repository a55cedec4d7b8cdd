/**
  The durable state of one run and what each lifecycle step does with it.

  A controller call reads the state under the run lock, asks the provider, and
  then performs a short list of durable actions: journal commits and provider
  calls with effects. `ReconcileScript` and the functions below it give that
  list for every state and every reply of the provider. A process that dies
  leaves a prefix of the list behind; the runs of module `LifecycleRuns`
  interleave such prefixes with every other event.
 */
module LifecycleState {
  import opened Prelude

  type RunId = string
  type PodId = string
  /** Microseconds since the epoch. */
  type Time = int
  /** Money in whole units small enough to hold every amount exactly. */
  type Money = int

  datatype Lifecycle = Planned | Provisioning | Starting | Running | Recovering | Deleting | Closed

  function Rank(l: Lifecycle): nat {
    match l
    case Planned => 0
    case Provisioning => 1
    case Starting => 2
    case Running => 3
    case Recovering => 4
    case Deleting => 5
    case Closed => 6
  }

  datatype WorkloadResult = Succeeded | Failed | Cancelled
  datatype DispositionStatus = Verified | PartialRecovered | Unavailable | NotApplicable
  datatype Disposition = Disposition(status: DispositionStatus, detail: string)
  datatype RecoveryReason = DuplicateResources | DispatchUnresolved | DisappearedBeforeStart

  datatype OperationKind = Provision | Start | Delete
  /** A name-based identifier: equal only for equal run and kind. */
  datatype OpId = OpId(run: RunId, kind: OperationKind)

  datatype OpStatus =
    | Intended | Dispatched | OutcomeUnknown | Unresolved | Observed | Conflict | OpFailed | Rejected
    | ResourceNotFound | ObservedRunning | Acknowledged | AcknowledgedAll | NotRequired

  /** The statuses under which a create may still have had an effect. */
  predicate Uncertain(s: OpStatus) {
    s == Dispatched || s == OutcomeUnknown || s == Unresolved
  }

  datatype Operation = Operation(
    id: OpId,
    status: OpStatus,
    attempts: nat,
    dispatchedAt: Option<Time>,
    visibilityFirstAt: Option<Time>,
    visibilityCount: nat,
    visibilityLastAt: Option<Time>,
    resourceId: Option<PodId>,
    resourceIds: seq<PodId>,
    lastError: Option<string>)

  function NewOperation(run: RunId, kind: OperationKind): Operation {
    Operation(OpId(run, kind), Intended, 0, None, None, 0, None, None, [], None)
  }

  datatype PodState = PodProvisioned | PodStarting | PodRunning | PodStopped
  datatype PodView = PodView(id: PodId, run: RunId, op: OpId, name: string, state: PodState, rate: Money)
  datatype Resource = Resource(id: PodId, view: Option<PodView>)

  function Projected(v: PodView): Resource { Resource(v.id, Some(v)) }

  datatype ScopeProof = NotDispatched | DeadlineAbsence
  datatype SpendScope =
    | ResourceScope(pod: PodId)
    | RunScope
    | OperationScope(op: OpId, proof: ScopeProof)
    | AccountScope

  datatype Resolution = Resolution(
    op: OpId, deadlineText: string, firstObservedAt: Time, confirmedAt: Time)

  datatype Closeout = Closeout(
    disposition: Option<Disposition>,
    deleteAcknowledged: bool,
    deleteAlreadyAbsent: bool,
    providerNotFound: bool,
    spend: Option<Money>,
    scope: Option<SpendScope>,
    absenceFirstAt: Option<Time>,
    absenceConfirmed: bool,
    resolution: Option<Resolution>,
    acknowledgedIds: seq<PodId>)

  datatype RunState = RunState(
    protocol: string,
    runId: RunId,
    lifecycle: Lifecycle,
    result: Option<WorkloadResult>,
    approvedMaxUsd: Money,
    resource: Option<Resource>,
    provision: Option<Operation>,
    start: Option<Operation>,
    delete: Option<Operation>,
    recoveryReason: Option<RecoveryReason>,
    quarantined: Option<seq<PodId>>,
    closeout: Closeout)

  /** `terminate_at` of the immutable request: usable, or one of the rejected shapes. */
  datatype Deadline = Unusable | At(text: string, time: Time)
  datatype ProviderSpec = Missing | Malformed | Spec(deadline: Deadline, networkVolume: Option<string>)
  datatype Request = Request(runId: RunId, approvedMaxUsd: Money, provider: ProviderSpec)

  const ABSENCE_GRACE: Time := 5_000_000
  const VISIBILITY_GRACE: Time := 30_000_000

  function InitialState(req: Request): RunState {
    RunState("run-status/1", req.runId, Planned, None, req.approvedMaxUsd, None, None, None, None, None, None,
             Closeout(None, false, false, false, None, None, None, false, None, []))
  }

  // ---- what the provider can answer ----

  datatype FindReply = Found(views: seq<PodView>) | FindRejected(ids: seq<PodId>, message: string) | FindError
  datatype CreateReply =
    | Created(view: PodView)
    | CreateRejected(ids: seq<PodId>, message: string)
    | CreateUnknown(message: string)
    | CreateFailed(message: string)
  datatype GetReply = Got(view: PodView) | Absent | GetRejected(ids: seq<PodId>, message: string) | GetError
  datatype StartReply =
    | Started(view: PodView)
    | StartRejected(ids: seq<PodId>, message: string)
    | StartUnknown(message: string)
    | StartFailed(message: string)
  datatype DeleteReply =
    | Deleted(op: OpId, acknowledged: bool, alreadyAbsent: bool)
    | DeleteUnknown(message: string)
    | DeleteFailed(message: string)
  datatype SpendReply = Spend(usdPerHour: Money) | SpendError

  /** Everything one reconcile call can learn from outside. */
  datatype Replies = Replies(
    now: Time, find: FindReply, create: CreateReply, get: GetReply,
    start: StartReply, delete: DeleteReply, spend: SpendReply)

  // ---- what a call does ----

  datatype EventKind =
    | RunPlanned | ProviderOperationIntended | ProviderOperationDispatched | ConflictQuarantined
    | VisibilityPending | VisibilityExhausted | ResourceProvisioned | ResourceRunning | ResourceStarting
    | ResourceMissing | ResourceRejected | OutcomeUnknownRecorded | OperationFailed
    | WorkloadTerminal | DispositionRecorded | StopRequested
    | RejectedAdopted | DuplicatesQuarantined | ResourceAdopted | NotDispatchedConfirmed
    | TerminationPending | AbsenceObserved | AbsencePending | AbsenceConfirmed
    | DeleteAcknowledgedEvent | ProviderAbsenceConfirmed | DeletionPending | SpendObserved | CloseoutCompleted

  datatype Action =
    | Commit(kind: EventKind, state: RunState)
    | CallCreate(op: OpId, create: CreateReply)
    | CallStart(pod: PodId, startOp: OpId, start: StartReply)
    | CallDelete(pod: PodId, deleteOp: OpId, delete: DeleteReply)

  datatype Error = LifecycleConflict | InvalidTransition | ProviderProtocol | ProviderFailure | ProviderUnknown

  datatype Outcome = Returned(state: RunState) | Raised(error: Error)

  datatype Script = Script(acts: seq<Action>, outcome: Outcome)

  function Done(kind: EventKind, st: RunState): Script { Script([Commit(kind, st)], Returned(st)) }
  function Raise(e: Error): Script { Script([], Raised(e)) }
  function Then(first: seq<Action>, s: Script): Script { Script(first + s.acts, s.outcome) }

  function OrNew(op: Option<Operation>, run: RunId, kind: OperationKind): Option<Operation> {
    if op.Some? then op else Some(NewOperation(run, kind))
  }

  function WithOperation(st: RunState, kind: OperationKind, op: Operation): RunState {
    match kind
    case Provision => st.(provision := Some(op))
    case Start => st.(start := Some(op))
    case Delete => st.(delete := Some(op))
  }

  /** A fail-closed end of the workload: cancelled, nothing recoverable, deletion intended. */
  function Abandon(st: RunState, detail: string, next: Lifecycle): RunState {
    st.(result := Some(Cancelled),
        closeout := st.closeout.(disposition := Some(Disposition(Unavailable, detail))),
        delete := OrNew(st.delete, st.runId, Delete),
        lifecycle := next)
  }

  function Rejection(st: RunState, kind: OperationKind, op: Operation, ids: seq<PodId>, message: string): Script {
    var s := Abandon(WithOperation(st, kind, op.(status := Rejected, lastError := Some(message))), message, Deleting);
    Done(ResourceRejected,
         if ids == [] then s
         else s.(quarantined := Some(ids), resource := Some(Resource(ids[0], None))))
  }

  function UnknownOutcome(st: RunState, kind: OperationKind, op: Operation, message: string): Script {
    Script([Commit(OutcomeUnknownRecorded,
                   WithOperation(st, kind, op.(status := OutcomeUnknown, lastError := Some(message))))],
           Raised(ProviderUnknown))
  }

  function FailedOperation(st: RunState, kind: OperationKind, op: Operation, message: string): Script {
    Script([Commit(OperationFailed,
                   WithOperation(st, kind, op.(status := OpFailed, lastError := Some(message))))],
           Raised(ProviderFailure))
  }

  // ---- provisioning ----

  function IntendProvision(st: RunState): Script {
    Done(ProviderOperationIntended,
         st.(provision := OrNew(st.provision, st.runId, Provision), lifecycle := Provisioning))
  }

  function ViewIds(views: seq<PodView>): (ids: seq<PodId>)
    ensures |ids| == |views|
    ensures forall i :: 0 <= i < |ids| ==> ids[i] == views[i].id
  {
    seq(|views|, i requires 0 <= i < |views| => views[i].id)
  }

  const DUPLICATES_DETAIL := "duplicate provider resources quarantined"
  const INVISIBLE_DETAIL := "provider create was dispatched but its exact resource did not become visible"
  const DISAPPEARED_DETAIL := "provider resource disappeared before workload start"

  function QuarantineDuplicates(st: RunState, op: Operation, views: seq<PodView>): Script
    requires |views| > 1
  {
    var s := st.(recoveryReason := Some(DuplicateResources),
                 provision := Some(op.(status := Conflict, resourceIds := ViewIds(views))),
                 quarantined := Some(ViewIds(views)),
                 resource := Some(Projected(views[0])));
    Done(ConflictQuarantined, Abandon(s, DUPLICATES_DETAIL, Deleting))
  }

  function RecordProvisioned(st: RunState, op: Operation, view: PodView): Script {
    if view.run != st.runId || view.op != op.id then Raise(ProviderProtocol)
    else
      Done(ResourceProvisioned,
           st.(provision := Some(op.(status := Observed, resourceId := Some(view.id))),
               start := OrNew(st.start, st.runId, Start),
               resource := Some(Projected(view)),
               lifecycle := Starting))
  }

  function Exhaust(st: RunState, op: Operation): Script {
    var s := st.(provision := Some(op.(status := Unresolved)), recoveryReason := Some(DispatchUnresolved));
    Done(VisibilityExhausted, Abandon(s, INVISIBLE_DETAIL, Recovering))
  }

  /** A dispatched create is only observed, never issued again. */
  function ObserveVisibility(st: RunState, op: Operation, grace: Time, now: Time): Script {
    var first :=
      if op.dispatchedAt.Some? then op.dispatchedAt.value
      else if op.visibilityFirstAt.Some? then op.visibilityFirstAt.value
      else now;
    var firstAt := if op.dispatchedAt.None? && op.visibilityFirstAt.None? then Some(now) else op.visibilityFirstAt;
    if now < first then Raise(LifecycleConflict)
    else
      var seen := op.(visibilityFirstAt := firstAt,
                      visibilityCount := op.visibilityCount + 1,
                      visibilityLastAt := Some(now));
      if now - first < grace then Done(VisibilityPending, st.(provision := Some(seen)))
      else Exhaust(st, seen)
  }

  function AfterCreate(st: RunState, op: Operation, reply: CreateReply): Script {
    match reply
    case CreateRejected(ids, message) => Rejection(st, Provision, op, ids, message)
    case CreateUnknown(message) => UnknownOutcome(st, Provision, op, message)
    case CreateFailed(message) => FailedOperation(st, Provision, op, message)
    case Created(view) => RecordProvisioned(st, op, view)
  }

  function Dispatch(st: RunState, op: Operation, r: Replies): Script {
    var sent := op.(attempts := op.attempts + 1, status := Dispatched, dispatchedAt := Some(r.now));
    var s := st.(provision := Some(sent));
    Then([Commit(ProviderOperationDispatched, s), CallCreate(op.id, r.create)], AfterCreate(s, sent, r.create))
  }

  function ProvisionScript(req: Request, grace: Time, st: RunState, r: Replies): Script {
    if st.provision.None? then Raise(LifecycleConflict)
    else
      var op := st.provision.value;
      match r.find
      case FindError => Raise(ProviderFailure)
      case FindRejected(ids, message) => Rejection(st, Provision, op, ids, message)
      case Found(views) =>
        if |views| > 1 then QuarantineDuplicates(st, op, views)
        else if |views| == 1 then RecordProvisioned(st, op, views[0])
        else if op.status != Intended then ObserveVisibility(st, op, grace, r.now)
        else if req.provider.Malformed? then Raise(ProviderProtocol)
        else Dispatch(st, op, r)
  }

  // ---- starting ----

  function AfterStart(st: RunState, op: Operation, reply: StartReply): Script {
    match reply
    case StartRejected(ids, message) => Rejection(st, Start, op, ids, message)
    case StartUnknown(message) => UnknownOutcome(st, Start, op, message)
    case StartFailed(message) => FailedOperation(st, Start, op, message)
    case Started(view) =>
      var s := st.(resource := Some(Projected(view)), start := Some(op.(status := Acknowledged)));
      if view.state == PodRunning then Done(ResourceRunning, s.(lifecycle := Running))
      else Done(ResourceStarting, s)
  }

  function StartScript(st: RunState, r: Replies): Script {
    if st.resource.None? || st.start.None? then Raise(LifecycleConflict)
    else
      var pod, op := st.resource.value.id, st.start.value;
      match r.get
      case GetError => Raise(ProviderFailure)
      case GetRejected(ids, message) => Rejection(st, Start, op, ids, message)
      case Absent =>
        var s := st.(recoveryReason := Some(DisappearedBeforeStart),
                     start := Some(op.(status := ResourceNotFound)));
        Done(ResourceMissing, Abandon(s, DISAPPEARED_DETAIL, Deleting))
      case Got(view) =>
        var s := st.(resource := Some(Projected(view)));
        if view.state == PodRunning then
          Done(ResourceRunning, s.(start := Some(op.(status := ObservedRunning)), lifecycle := Running))
        else
          var tried := op.(attempts := op.attempts + 1);
          Then([CallStart(pod, op.id, r.start)], AfterStart(s.(start := Some(tried)), tried, r.start))
  }

  // ---- deleting ----

  function TerminationDeadline(req: Request): Deadline {
    if req.provider.Spec? then req.provider.deadline else Unusable
  }

  predicate DeadlineRequired(op: Operation) {
    op.attempts > 0 && Uncertain(op.status)
  }

  /** No resource was recorded and its absence is not yet proved. */
  predicate AbsenceOpen(st: RunState) {
    st.resource.None? && st.provision.Some? && !st.closeout.absenceConfirmed
  }

  function AbsenceWindow(st: RunState, op: Operation, deadline: Option<Deadline>, now: Time): Script
    requires deadline.Some? ==> deadline.value.At?
  {
    var c := st.closeout;
    if deadline.Some? && now < deadline.value.time then
      Done(TerminationPending, st.(closeout := c.(absenceFirstAt := None)))
    else if c.absenceFirstAt.None? || (deadline.Some? && c.absenceFirstAt.value < deadline.value.time) then
      Done(AbsenceObserved, st.(closeout := c.(absenceFirstAt := Some(now))))
    else if now - c.absenceFirstAt.value < ABSENCE_GRACE then
      Done(AbsencePending, st)
    else
      var resolved :=
        if deadline.None? then c.resolution
        else Some(Resolution(op.id, deadline.value.text, c.absenceFirstAt.value, now));
      Done(AbsenceConfirmed, st.(closeout := c.(absenceConfirmed := true, resolution := resolved)))
  }

  function AbsenceScript(req: Request, st: RunState, op: Operation, r: Replies): Script {
    match r.find
    case FindError => Raise(ProviderFailure)
    case FindRejected(ids, message) =>
      if ids == [] then Raise(ProviderFailure)
      else Done(RejectedAdopted,
                st.(quarantined := Some(ids), resource := Some(Resource(ids[0], None)),
                    closeout := st.closeout.(absenceFirstAt := None)))
    case Found(views) =>
      if |views| > 1 then
        Done(DuplicatesQuarantined, st.(quarantined := Some(ViewIds(views)), resource := Some(Projected(views[0]))))
      else if |views| == 1 then
        Done(ResourceAdopted,
             st.(resource := Some(Projected(views[0])), closeout := st.closeout.(absenceFirstAt := None)))
      else if op.attempts == 0 then
        Done(NotDispatchedConfirmed, st.(closeout := st.closeout.(absenceConfirmed := true)))
      else if DeadlineRequired(op) then
        var d := TerminationDeadline(req);
        if d.Unusable? then Raise(LifecycleConflict) else AbsenceWindow(st, op, Some(d), r.now)
      else AbsenceWindow(st, op, None, r.now)
  }

  /** The provider ids that deletion has to cover. */
  function DeleteIds(st: RunState): seq<PodId> {
    if st.quarantined.Some? && st.quarantined.value != [] then st.quarantined.value
    else if st.resource.Some? then [st.resource.value.id]
    else []
  }

  function FirstPending(ids: seq<PodId>, acknowledged: seq<PodId>): (p: Option<PodId>)
    ensures p.Some? ==> p.value in ids && p.value !in acknowledged
    ensures p.None? ==> forall id :: id in ids ==> id in acknowledged
  {
    if ids == [] then None
    else if ids[0] !in acknowledged then Some(ids[0])
    else FirstPending(ids[1..], acknowledged)
  }

  function AddId(ids: seq<PodId>, id: PodId): seq<PodId> {
    if id in ids then ids else ids + [id]
  }

  predicate AllIn(ids: seq<PodId>, acknowledged: seq<PodId>) {
    forall i :: 0 <= i < |ids| ==> ids[i] in acknowledged
  }

  /** The ids whose acknowledgement completes the deletion, as the receipt step collects them. */
  function CoveredIds(st: RunState): seq<PodId> {
    if st.quarantined.Some? then st.quarantined.value
    else if st.resource.Some? then [st.resource.value.id]
    else []
  }

  function RecordDeleteReceipt(st: RunState, op: Operation, pod: PodId, reply: DeleteReply): Script
    requires reply.Deleted?
  {
    if !reply.acknowledged || reply.op != op.id then Raise(ProviderProtocol)
    else
      var ids := AddId(st.closeout.acknowledgedIds, pod);
      var all := AllIn(CoveredIds(st), ids);
      var c := st.closeout.(acknowledgedIds := ids,
                            deleteAcknowledged := st.closeout.deleteAcknowledged || all,
                            deleteAlreadyAbsent := reply.alreadyAbsent);
      Done(DeleteAcknowledgedEvent,
           st.(closeout := c, delete := Some(op.(status := if all then AcknowledgedAll else Acknowledged))))
  }

  function AfterDelete(st: RunState, op: Operation, pod: PodId, reply: DeleteReply): Script {
    match reply
    case DeleteUnknown(message) => UnknownOutcome(st, Delete, op, message)
    case DeleteFailed(message) => FailedOperation(st, Delete, op, message)
    case Deleted(_, _, _) => RecordDeleteReceipt(st, op, pod, reply)
  }

  function DeletePending(st: RunState, op: Operation, r: Replies): Script {
    var ids := DeleteIds(st);
    var pending := FirstPending(ids, st.closeout.acknowledgedIds);
    if pending.None? then
      Done(DeleteAcknowledgedEvent,
           st.(closeout := st.closeout.(deleteAcknowledged := true, deleteAlreadyAbsent := ids == []),
               delete := Some(op.(status := if ids == [] then NotRequired else AcknowledgedAll))))
    else
      var tried := op.(attempts := op.attempts + 1);
      Then([CallDelete(pending.value, op.id, r.delete)],
           AfterDelete(st.(delete := Some(tried)), tried, pending.value, r.delete))
  }

  function ConfirmNotFound(st: RunState, r: Replies): Script {
    var gone := Done(ProviderAbsenceConfirmed, st.(closeout := st.closeout.(providerNotFound := true)));
    var present := Done(DeletionPending, st);
    if st.quarantined.Some? && st.quarantined.value != [] then
      if st.provision.None? then Raise(LifecycleConflict)
      else if !r.find.Found? then Raise(ProviderFailure)
      else if r.find.views == [] then gone else present
    else if st.resource.None? then gone
    else
      match r.get
      case Absent => gone
      case Got(_) => present
      case _ => Raise(ProviderFailure)
  }

  /** Whether an uncertain create carries its deadline proof. */
  function ResolutionComplete(req: Request, st: RunState): Result<bool, Error> {
    if st.resource.Some? || st.provision.None? || !DeadlineRequired(st.provision.value) then Success(true)
    else if st.closeout.resolution.None? then Success(false)
    else
      var d, p, res := TerminationDeadline(req), st.provision.value, st.closeout.resolution.value;
      if d.Unusable? then Failure(LifecycleConflict)
      else
        Success(
          && st.closeout.absenceConfirmed
          && res.op == p.id
          && res.deadlineText == d.text
          && res.firstObservedAt >= d.time
          && res.confirmedAt - res.firstObservedAt >= ABSENCE_GRACE)
  }

  function CurrentScope(req: Request, st: RunState): Result<SpendScope, Error> {
    if st.resource.Some? then Success(ResourceScope(st.resource.value.id))
    else if req.provider.Spec? && req.provider.networkVolume.Some? && req.provider.networkVolume.value != "" then
      if st.provision.None? then Success(RunScope)
      else
        var p := st.provision.value;
        if p.attempts == 0 then Success(OperationScope(p.id, NotDispatched))
        else if !Uncertain(p.status) then Success(AccountScope)
        else
          match ResolutionComplete(req, st)
          case Failure(e) => Failure(e)
          case Success(complete) => Success(if complete then OperationScope(p.id, DeadlineAbsence) else AccountScope)
    else Success(AccountScope)
  }

  /** `_assert_closeout_ready`: the all-at-once proof demanded before closing. */
  function CloseoutReady(req: Request, st: RunState): Result<bool, Error> {
    match CurrentScope(req, st)
    case Failure(e) => Failure(e)
    case Success(scope) =>
      match ResolutionComplete(req, st)
      case Failure(e) => Failure(e)
      case Success(complete) =>
        Success(
          && st.closeout.disposition.Some?
          && st.closeout.deleteAcknowledged
          && st.closeout.providerNotFound
          && st.closeout.spend == Some(0)
          && st.closeout.scope == Some(scope)
          && complete)
  }

  /** A spend observation in a scope: pending while there is spend, otherwise closed if the whole proof is there. */
  function SpendVerdict(req: Request, st: RunState, scope: SpendScope, usdPerHour: Money): Script {
    var s := st.(closeout := st.closeout.(spend := Some(usdPerHour), scope := Some(scope)));
    if usdPerHour != 0 then Done(SpendObserved, s)
    else
      match CloseoutReady(req, s)
      case Failure(e) => Raise(e)
      case Success(ready) =>
        if ready then Done(CloseoutCompleted, s.(lifecycle := Closed)) else Raise(InvalidTransition)
  }

  function SpendScript(req: Request, st: RunState, r: Replies): Script {
    match CurrentScope(req, st)
    case Failure(e) => Raise(e)
    case Success(scope) =>
      if st.closeout.scope.Some? && st.closeout.scope.value != scope then Raise(LifecycleConflict)
      else
        var spend := if scope.RunScope? || scope.OperationScope? then Spend(0) else r.spend;
        if spend.SpendError? then Raise(ProviderFailure)
        else if spend.usdPerHour < 0 then Raise(ProviderProtocol)
        else SpendVerdict(req, st, scope, spend.usdPerHour)
  }

  function DeleteScript(req: Request, st: RunState, r: Replies): Script {
    if st.closeout.disposition.None? then Raise(InvalidTransition)
    else if st.delete.None? then Raise(LifecycleConflict)
    else if AbsenceOpen(st) then AbsenceScript(req, st, st.provision.value, r)
    else if !st.closeout.deleteAcknowledged then DeletePending(st, st.delete.value, r)
    else if !st.closeout.providerNotFound then ConfirmNotFound(st, r)
    else SpendScript(req, st, r)
  }

  // ---- the public calls ----

  /** One reconcile call. */
  function ReconcileScript(req: Request, grace: Time, st: RunState, r: Replies): Script {
    match st.lifecycle
    case Planned => IntendProvision(st)
    case Provisioning => ProvisionScript(req, grace, st, r)
    case Starting => StartScript(st, r)
    case Deleting => DeleteScript(req, st, r)
    case _ => Script([], Returned(st))
  }

  function ResultScript(st: RunState, result: WorkloadResult): Script {
    if st.result == Some(result) then Script([], Returned(st))
    else if st.result.Some? then Raise(LifecycleConflict)
    else if st.lifecycle == Closed then Raise(InvalidTransition)
    else Done(WorkloadTerminal, st.(result := Some(result), lifecycle := Recovering))
  }

  function DispositionScript(st: RunState, d: Disposition): Script {
    if st.closeout.disposition == Some(d) then Script([], Returned(st))
    else if st.closeout.disposition.Some? then Raise(LifecycleConflict)
    else if st.lifecycle == Closed then Raise(InvalidTransition)
    else
      Done(DispositionRecorded,
           st.(closeout := st.closeout.(disposition := Some(d)),
               delete := OrNew(st.delete, st.runId, Delete),
               lifecycle := Deleting))
  }

  function StopScript(st: RunState, reason: string): Script {
    if st.lifecycle == Closed then Script([], Returned(st))
    else
      var d := if st.closeout.disposition.Some? then st.closeout.disposition
               else Some(Disposition(Unavailable, reason));
      Done(StopRequested,
           st.(result := if st.result.Some? then st.result else Some(Cancelled),
               closeout := st.closeout.(disposition := d),
               delete := OrNew(st.delete, st.runId, Delete),
               lifecycle := Deleting))
  }
}
