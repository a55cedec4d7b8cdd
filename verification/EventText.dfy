/**
  A codec for the events that the store really writes: one JSON object per
  event, printed by the canonical printer with its keys in order and non-ASCII
  characters left raw. It meets everything `RunStore` assumes, so stores exist;
  and it shows an event of the lifecycle whose journal cannot be read again.

  Absent and null fields are one, an operation id is its run and kind, and
  times and amounts are printed as whole numbers.
 */
module EventText {
  import opened Prelude
  import opened Journal
  import opened JsonNumbers
  import opened JsonStrings
  import opened CanonicalJson
  import opened CanonicalText
  import opened LifecycleState
  import opened RunStore

  // ---- names ----

  function LifecycleName(l: Lifecycle): string {
    match l
    case Planned => "planned"
    case Provisioning => "provisioning"
    case Starting => "starting"
    case Running => "running"
    case Recovering => "recovering"
    case Deleting => "deleting"
    case Closed => "closed"
  }

  function ResultName(r: WorkloadResult): string {
    match r
    case Succeeded => "succeeded"
    case Failed => "failed"
    case Cancelled => "cancelled"
  }

  function DispositionName(s: DispositionStatus): string {
    match s
    case Verified => "verified"
    case PartialRecovered => "partial_recovered"
    case Unavailable => "unavailable"
    case NotApplicable => "not_applicable"
  }

  function ReasonName(r: RecoveryReason): string {
    match r
    case DuplicateResources => "duplicate_provider_resources"
    case DispatchUnresolved => "provision_dispatch_unresolved"
    case DisappearedBeforeStart => "resource_disappeared_before_start"
  }

  function OperationName(k: OperationKind): string {
    match k
    case Provision => "provision"
    case Start => "start"
    case Delete => "delete"
  }

  function StatusName(s: OpStatus): string {
    match s
    case Intended => "intended"
    case Dispatched => "dispatched"
    case OutcomeUnknown => "outcome_unknown"
    case Unresolved => "unresolved"
    case Observed => "observed"
    case Conflict => "conflict"
    case OpFailed => "failed"
    case Rejected => "rejected"
    case ResourceNotFound => "resource_not_found"
    case ObservedRunning => "observed_running"
    case Acknowledged => "acknowledged"
    case AcknowledgedAll => "acknowledged_all"
    case NotRequired => "not_required_no_resource"
  }

  function PodStateName(s: PodState): string {
    match s
    case PodProvisioned => "provisioned"
    case PodStarting => "starting"
    case PodRunning => "running"
    case PodStopped => "stopped"
  }

  /** The length and the tenth character of its name tell an event kind from all others. */
  function KindTold(length: nat, tenth: char): EventKind {
    match length
    case 11 => RunPlanned
    case 14 => StopRequested
    case 16 => ResourceRunning
    case 17 => if tenth == 's' then ResourceStarting else WorkloadTerminal
    case 18 => CloseoutCompleted
    case 19 => DeleteAcknowledgedEvent
    case 20 => ResourceProvisioned
    case 23 => SpendObserved
    case 24 => if tenth == 'o' then OutcomeUnknownRecorded else ResourceAdopted
    case 25 => if tenth == 'r' then ResourceMissing else if tenth == 'o' then OperationFailed else DeletionPending
    case 26 => if tenth == 'r' then ResourceRejected else ProviderAbsenceConfirmed
    case 27 => ProviderOperationIntended
    case 29 => if tenth == 'o' then ProviderOperationDispatched else DispositionRecorded
    case 32 => NotDispatchedConfirmed
    case 33 => if tenth == 'e' then RejectedAdopted else AbsencePending
    case 34 => AbsenceObserved
    case 35 => EventKind.AbsenceConfirmed
    case 36 => if tenth == 'r' then VisibilityPending else VisibilityExhausted
    case 37 => TerminationPending
    case 39 => DuplicatesQuarantined
    case 44 => ConflictQuarantined
    case _ => RunPlanned
  }

  datatype KindGroup = Provider | Stopped | Other

  function Group(k: EventKind): KindGroup {
    match k
    case ProviderOperationIntended => Provider
    case ProviderOperationDispatched => Provider
    case ConflictQuarantined => Provider
    case VisibilityPending => Provider
    case VisibilityExhausted => Provider
    case ResourceMissing => Provider
    case ResourceRejected => Provider
    case OutcomeUnknownRecorded => Provider
    case OperationFailed => Provider
    case ProviderAbsenceConfirmed => Provider
    case DeletionPending => Provider
    case SpendObserved => Provider
    case StopRequested => Stopped
    case RejectedAdopted => Stopped
    case DuplicatesQuarantined => Stopped
    case ResourceAdopted => Stopped
    case NotDispatchedConfirmed => Stopped
    case TerminationPending => Stopped
    case AbsenceObserved => Stopped
    case AbsencePending => Stopped
    case AbsenceConfirmed => Stopped
    case _ => Other
  }

  function ProviderName(k: EventKind): (name: string)
    ensures Group(k) == Provider ==> |name| > 9 && KindTold(|name|, name[9]) == k
  {
    match k
    case ProviderOperationIntended => "provider_operation_intended"
    case ProviderOperationDispatched => "provider_operation_dispatched"
    case ConflictQuarantined => "provider_reconciliation_conflict_quarantined"
    case VisibilityPending => "provider_resource_visibility_pending"
    case VisibilityExhausted => "provider_create_visibility_exhausted"
    case ResourceMissing => "provider_resource_missing"
    case ResourceRejected => "provider_resource_rejected"
    case OutcomeUnknownRecorded => "provider_outcome_unknown"
    case OperationFailed => "provider_operation_failed"
    case ProviderAbsenceConfirmed => "provider_absence_confirmed"
    case DeletionPending => "provider_deletion_pending"
    case SpendObserved => "provider_spend_observed"
    case _ => ""
  }

  function StoppedName(k: EventKind): (name: string)
    ensures Group(k) == Stopped ==> |name| > 9 && KindTold(|name|, name[9]) == k
  {
    match k
    case StopRequested => "stop_requested"
    case RejectedAdopted => "stopped_rejected_resource_adopted"
    case DuplicatesQuarantined => "stopped_duplicate_resources_quarantined"
    case ResourceAdopted => "stopped_resource_adopted"
    case NotDispatchedConfirmed => "stopped_provision_not_dispatched"
    case TerminationPending => "stopped_provision_termination_pending"
    case AbsenceObserved => "stopped_provision_absence_observed"
    case AbsencePending => "stopped_provision_absence_pending"
    case AbsenceConfirmed => "stopped_provision_absence_confirmed"
    case _ => ""
  }

  function OtherName(k: EventKind): (name: string)
    ensures Group(k) == Other ==> |name| > 9 && KindTold(|name|, name[9]) == k
  {
    match k
    case RunPlanned => "run_planned"
    case ResourceProvisioned => "resource_provisioned"
    case ResourceRunning => "resource_running"
    case ResourceStarting => "resource_starting"
    case WorkloadTerminal => "workload_terminal"
    case DispositionRecorded => "artifact_disposition_recorded"
    case DeleteAcknowledgedEvent => "delete_acknowledged"
    case CloseoutCompleted => "closeout_completed"
    case _ => ""
  }

  function KindName(k: EventKind): (name: string)
    ensures |name| > 9 && KindTold(|name|, name[9]) == k
  {
    match Group(k)
    case Provider => ProviderName(k)
    case Stopped => StoppedName(k)
    case Other => OtherName(k)
  }

  lemma LifecycleNames(a: Lifecycle, b: Lifecycle)
    ensures LifecycleName(a) == LifecycleName(b) ==> a == b
  {
  }

  lemma ResultNames(a: WorkloadResult, b: WorkloadResult)
    ensures ResultName(a) == ResultName(b) ==> a == b
  {
  }

  lemma DispositionNames(a: DispositionStatus, b: DispositionStatus)
    ensures DispositionName(a) == DispositionName(b) ==> a == b
  {
  }

  lemma ReasonNames(a: RecoveryReason, b: RecoveryReason)
    ensures ReasonName(a) == ReasonName(b) ==> a == b
  {
  }

  lemma OperationNames(a: OperationKind, b: OperationKind)
    ensures OperationName(a) == OperationName(b) ==> a == b
  {
  }

  lemma StatusNames(a: OpStatus, b: OpStatus)
    ensures StatusName(a) == StatusName(b) ==> a == b
  {
  }

  lemma PodStateNames(a: PodState, b: PodState)
    ensures PodStateName(a) == PodStateName(b) ==> a == b
  {
  }

  // ---- the JSON of an event ----

  function Number(i: int): Canon {
    CNum(Fixed(i, 0))
  }

  function OptNumber(o: Option<int>): Canon {
    if o.None? then CNull else Number(o.value)
  }

  function OptText(o: Option<string>): Canon {
    if o.None? then CNull else CStr(o.value)
  }

  function Texts(ids: seq<string>): Canon {
    CArr(seq(|ids|, i requires 0 <= i < |ids| => CStr(ids[i])))
  }

  function OptTexts(o: Option<seq<string>>): Canon {
    if o.None? then CNull else Texts(o.value)
  }

  function OpIdJson(id: OpId): Canon {
    CArr([CStr(id.run), CStr(OperationName(id.kind))])
  }

  function OperationJson(o: Operation): Canon {
    CObj([
      Entry("attempts", Number(o.attempts)),
      Entry("dispatched_at", OptNumber(o.dispatchedAt)),
      Entry("first_visibility_observed_at", OptNumber(o.visibilityFirstAt)),
      Entry("id", OpIdJson(o.id)),
      Entry("last_error", OptText(o.lastError)),
      Entry("last_visibility_observed_at", OptNumber(o.visibilityLastAt)),
      Entry("resource_id", OptText(o.resourceId)),
      Entry("resource_ids", Texts(o.resourceIds)),
      Entry("status", CStr(StatusName(o.status))),
      Entry("visibility_observations", Number(o.visibilityCount))])
  }

  function OptOperation(o: Option<Operation>): Canon {
    if o.None? then CNull else OperationJson(o.value)
  }

  function ViewJson(v: PodView): Canon {
    CObj([
      Entry("create_operation_id", OpIdJson(v.op)),
      Entry("hourly_rate_usd", Number(v.rate)),
      Entry("id", CStr(v.id)),
      Entry("name", CStr(v.name)),
      Entry("run_id", CStr(v.run)),
      Entry("state", CStr(PodStateName(v.state)))])
  }

  function OptResource(o: Option<Resource>): Canon {
    if o.None? then CNull
    else CArr([CStr(o.value.id), if o.value.view.None? then CNull else ViewJson(o.value.view.value)])
  }

  function ProofJson(p: ScopeProof): Canon {
    CBool(p == DeadlineAbsence)
  }

  function ScopeJson(s: SpendScope): Canon {
    match s
    case ResourceScope(pod) => CArr([CStr("resource"), CStr(pod)])
    case RunScope => CStr("run")
    case OperationScope(op, proof) => CArr([OpIdJson(op), ProofJson(proof)])
    case AccountScope => CStr("account")
  }

  function OptScope(o: Option<SpendScope>): Canon {
    if o.None? then CNull else ScopeJson(o.value)
  }

  function OptResolution(o: Option<Resolution>): Canon {
    if o.None? then CNull
    else CObj([
      Entry("absence_first_observed_at", Number(o.value.firstObservedAt)),
      Entry("confirmed_at", Number(o.value.confirmedAt)),
      Entry("operation_id", OpIdJson(o.value.op)),
      Entry("termination_deadline", CStr(o.value.deadlineText))])
  }

  function OptDisposition(o: Option<Disposition>): Canon {
    if o.None? then CNull
    else CObj([Entry("detail", CStr(o.value.detail)), Entry("status", CStr(DispositionName(o.value.status)))])
  }

  function CloseoutJson(c: Closeout): Canon {
    CObj([
      Entry("artifact_disposition", OptDisposition(c.disposition)),
      Entry("current_spend_scope", OptScope(c.scope)),
      Entry("current_spend_usd_per_hour", OptNumber(c.spend)),
      Entry("delete_acknowledged", CBool(c.deleteAcknowledged)),
      Entry("delete_acknowledged_resource_ids", Texts(c.acknowledgedIds)),
      Entry("delete_already_absent", CBool(c.deleteAlreadyAbsent)),
      Entry("provider_not_found", CBool(c.providerNotFound)),
      Entry("provision_absence_confirmed", CBool(c.absenceConfirmed)),
      Entry("provision_absence_first_observed_at", OptNumber(c.absenceFirstAt)),
      Entry("provision_resolution", OptResolution(c.resolution))])
  }

  function OptResult(o: Option<WorkloadResult>): Canon {
    if o.None? then CNull else CStr(ResultName(o.value))
  }

  function OptReason(o: Option<RecoveryReason>): Canon {
    if o.None? then CNull else CStr(ReasonName(o.value))
  }

  function OperationsJson(s: RunState): Canon {
    CObj([
      Entry("delete", OptOperation(s.delete)),
      Entry("provision", OptOperation(s.provision)),
      Entry("start", OptOperation(s.start))])
  }

  function ProjectionJson(p: Projection): Canon {
    var s := p.state;
    CObj([
      Entry("approved_max_usd", Number(s.approvedMaxUsd)),
      Entry("closeout", CloseoutJson(s.closeout)),
      Entry("event_sequence", Number(p.eventSequence)),
      Entry("lifecycle", CStr(LifecycleName(s.lifecycle))),
      Entry("operations", OperationsJson(s)),
      Entry("protocol", CStr(s.protocol)),
      Entry("quarantined_resource_ids", OptTexts(s.quarantined)),
      Entry("recovery_reason", OptReason(s.recoveryReason)),
      Entry("resource", OptResource(s.resource)),
      Entry("run_id", CStr(s.runId)),
      Entry("workload_result", OptResult(s.result))])
  }

  function EventMembers(e: Event): seq<Entry<Canon>> {
    [ Entry("kind", CStr(KindName(e.kind))),
      Entry("projection", ProjectionJson(e.projection)),
      Entry("protocol", CStr("run-event/1")),
      Entry("sequence", Number(e.sequence)) ]
  }

  function EventLine(e: Event): string {
    Print(CObj(EventMembers(e)))
  }

  // ---- different events print differently ----

  lemma TextsInjective(a: seq<string>, b: seq<string>)
    ensures Texts(a) == Texts(b) ==> a == b
  {
    if Texts(a) == Texts(b) {
      forall i | 0 <= i < |a|
        ensures a[i] == b[i]
      {
        assert Texts(a).items[i] == Texts(b).items[i];
      }
    }
  }

  lemma OpIdInjective(a: OpId, b: OpId)
    ensures OpIdJson(a) == OpIdJson(b) ==> a == b
  {
    OperationNames(a.kind, b.kind);
    assert OpIdJson(a).items[0] == CStr(a.run) && OpIdJson(b).items[0] == CStr(b.run);
    assert OpIdJson(a).items[1] == CStr(OperationName(a.kind)) && OpIdJson(b).items[1] == CStr(OperationName(b.kind));
  }

  lemma OperationInjective(a: Operation, b: Operation)
    ensures OperationJson(a) == OperationJson(b) ==> a == b
  {
    OpIdInjective(a.id, b.id);
    TextsInjective(a.resourceIds, b.resourceIds);
    StatusNames(a.status, b.status);
    var x, y := OperationJson(a).members, OperationJson(b).members;
    if x == y {
      assert x[0] == y[0] && x[1] == y[1] && x[2] == y[2] && x[3] == y[3] && x[4] == y[4];
      assert x[5] == y[5] && x[6] == y[6] && x[7] == y[7] && x[8] == y[8] && x[9] == y[9];
    }
  }

  lemma ViewInjective(a: PodView, b: PodView)
    ensures ViewJson(a) == ViewJson(b) ==> a == b
  {
    OpIdInjective(a.op, b.op);
    PodStateNames(a.state, b.state);
    var x, y := ViewJson(a).members, ViewJson(b).members;
    if x == y {
      assert x[0] == y[0] && x[1] == y[1] && x[2] == y[2] && x[3] == y[3] && x[4] == y[4] && x[5] == y[5];
    }
  }

  lemma ResourceInjective(a: Option<Resource>, b: Option<Resource>)
    ensures OptResource(a) == OptResource(b) ==> a == b
  {
    if a.Some? && b.Some? {
      var x, y := OptResource(a).items, OptResource(b).items;
      if x == y {
        assert x[0] == y[0] && x[1] == y[1];
        if a.value.view.Some? && b.value.view.Some? {
          ViewInjective(a.value.view.value, b.value.view.value);
        }
      }
    }
  }

  lemma ScopeInjective(a: SpendScope, b: SpendScope)
    ensures ScopeJson(a) == ScopeJson(b) ==> a == b
  {
    if ScopeJson(a) == ScopeJson(b) && ScopeJson(a).CArr? {
      var x, y := ScopeJson(a).items, ScopeJson(b).items;
      assert x[0] == y[0] && x[1] == y[1];
      if a.OperationScope? && b.OperationScope? {
        OpIdInjective(a.op, b.op);
      }
    }
  }

  lemma ResolutionInjective(a: Option<Resolution>, b: Option<Resolution>)
    ensures OptResolution(a) == OptResolution(b) ==> a == b
  {
    if a.Some? && b.Some? {
      OpIdInjective(a.value.op, b.value.op);
      var x, y := OptResolution(a).members, OptResolution(b).members;
      if x == y {
        assert x[0] == y[0] && x[1] == y[1] && x[2] == y[2] && x[3] == y[3];
      }
    }
  }

  lemma DispositionInjective(a: Option<Disposition>, b: Option<Disposition>)
    ensures OptDisposition(a) == OptDisposition(b) ==> a == b
  {
    if a.Some? && b.Some? {
      DispositionNames(a.value.status, b.value.status);
      var x, y := OptDisposition(a).members, OptDisposition(b).members;
      if x == y {
        assert x[0] == y[0] && x[1] == y[1];
      }
    }
  }

  lemma CloseoutInjective(a: Closeout, b: Closeout)
    ensures CloseoutJson(a) == CloseoutJson(b) ==> a == b
  {
    DispositionInjective(a.disposition, b.disposition);
    ResolutionInjective(a.resolution, b.resolution);
    TextsInjective(a.acknowledgedIds, b.acknowledgedIds);
    if a.scope.Some? && b.scope.Some? {
      ScopeInjective(a.scope.value, b.scope.value);
    }
    var x, y := CloseoutJson(a).members, CloseoutJson(b).members;
    if x == y {
      assert x[0] == y[0] && x[1] == y[1] && x[2] == y[2] && x[3] == y[3] && x[4] == y[4];
      assert x[5] == y[5] && x[6] == y[6] && x[7] == y[7] && x[8] == y[8] && x[9] == y[9];
    }
  }

  lemma OptOperationInjective(a: Option<Operation>, b: Option<Operation>)
    ensures OptOperation(a) == OptOperation(b) ==> a == b
  {
    if a.Some? && b.Some? {
      OperationInjective(a.value, b.value);
    }
  }

  lemma OperationsInjective(a: RunState, b: RunState)
    ensures OperationsJson(a) == OperationsJson(b) ==>
      a.provision == b.provision && a.start == b.start && a.delete == b.delete
  {
    OptOperationInjective(a.delete, b.delete);
    OptOperationInjective(a.provision, b.provision);
    OptOperationInjective(a.start, b.start);
    var x, y := OperationsJson(a).members, OperationsJson(b).members;
    if x == y {
      assert x[0] == y[0] && x[1] == y[1] && x[2] == y[2];
    }
  }

  lemma ProjectionInjective(a: Projection, b: Projection)
    ensures ProjectionJson(a) == ProjectionJson(b) ==> a == b
  {
    var s, t := a.state, b.state;
    CloseoutInjective(s.closeout, t.closeout);
    OperationsInjective(s, t);
    LifecycleNames(s.lifecycle, t.lifecycle);
    ResourceInjective(s.resource, t.resource);
    if s.quarantined.Some? && t.quarantined.Some? {
      TextsInjective(s.quarantined.value, t.quarantined.value);
    }
    if s.recoveryReason.Some? && t.recoveryReason.Some? {
      ReasonNames(s.recoveryReason.value, t.recoveryReason.value);
    }
    if s.result.Some? && t.result.Some? {
      ResultNames(s.result.value, t.result.value);
    }
    var x, y := ProjectionJson(a).members, ProjectionJson(b).members;
    if x == y {
      assert x[0] == y[0] && x[1] == y[1] && x[2] == y[2] && x[3] == y[3] && x[4] == y[4] && x[5] == y[5];
      assert x[6] == y[6] && x[7] == y[7] && x[8] == y[8] && x[9] == y[9] && x[10] == y[10];
    }
  }

  lemma EventInjective(a: Event, b: Event)
    requires EventMembers(a) == EventMembers(b)
    ensures a == b
  {
    var x, y := EventMembers(a), EventMembers(b);
    assert x[0] == y[0] && x[1] == y[1] && x[3] == y[3];
    ProjectionInjective(a.projection, b.projection);
  }

  // ---- what the print of a document holds ----

  /** A character above ASCII occurs in a string or a key of the document. */
  predicate Mentions(c: Canon, ch: char)
    decreases c
  {
    match c
    case CStr(s) => ch in s
    case CArr(items) => exists i :: 0 <= i < |items| && Mentions(items[i], ch)
    case CObj(members) => exists i :: 0 <= i < |members| && (ch in members[i].key || Mentions(members[i].value, ch))
    case _ => false
  }

  lemma {:induction false} EscapedHolds(s: string, ch: char)
    requires ch > '\U{7F}'
    ensures ch in Escaped(s) <==> ch in s
  {
    if s != "" {
      EscapedHolds(s[1..], ch);
      assert s == [s[0]] + s[1..];
      assert ch in EscapedChar(s[0]) <==> ch == s[0];
    }
  }

  lemma QuotedHolds(s: string, ch: char)
    requires ch > '\U{7F}'
    ensures ch in Quoted(s) <==> ch in s
  {
    EscapedHolds(s, ch);
  }

  lemma {:induction false} JoinHolds(texts: seq<string>, ch: char)
    requires ch != ','
    ensures ch in Join(texts) <==> exists i :: 0 <= i < |texts| && ch in texts[i]
  {
    if |texts| > 1 {
      JoinHolds(texts[1..], ch);
      if ch in Join(texts[1..]) {
        var i :| 0 <= i < |texts[1..]| && ch in texts[1..][i];
        assert ch in texts[i + 1];
      }
      if i :| 0 <= i < |texts| && ch in texts[i] && i > 0 {
        assert ch in texts[1..][i - 1];
      }
    } else if |texts| == 1 {
      assert Join(texts) == texts[0];
    }
  }

  lemma {:induction false} PrintHolds(c: Canon, ch: char)
    requires ch > '\U{7F}'
    ensures ch in Print(c) <==> Mentions(c, ch)
    decreases c, 1
  {
    match c
    case CNum(f) => FixedTextChars(f);
    case CStr(s) => QuotedHolds(s, ch);
    case CArr(items) =>
      PrintAllHolds(items, ch);
      JoinHolds(PrintAll(items), ch);
    case CObj(members) =>
      PrintMembersHolds(members, ch);
      JoinHolds(MemberTexts(PrintMembers(members)), ch);
    case _ =>
  }

  lemma {:induction false} PrintAllHolds(items: seq<Canon>, ch: char)
    requires ch > '\U{7F}'
    ensures forall i :: 0 <= i < |items| ==> (ch in PrintAll(items)[i] <==> Mentions(items[i], ch))
    decreases items, 0
  {
    if items != [] {
      PrintHolds(items[0], ch);
      PrintAllHolds(items[1..], ch);
      forall i | 0 < i < |items|
        ensures ch in PrintAll(items)[i] <==> Mentions(items[i], ch)
      {
        assert PrintAll(items)[i] == PrintAll(items[1..])[i - 1] && items[i] == items[1..][i - 1];
      }
    }
  }

  lemma {:induction false} PrintMembersHolds(members: seq<Entry<Canon>>, ch: char)
    requires ch > '\U{7F}'
    ensures var texts := MemberTexts(PrintMembers(members));
      && |texts| == |members|
      && forall i :: 0 <= i < |members| ==> (ch in texts[i] <==> ch in members[i].key || Mentions(members[i].value, ch))
    decreases members, 0
  {
    if members != [] {
      QuotedHolds(members[0].key, ch);
      PrintHolds(members[0].value, ch);
      PrintMembersHolds(members[1..], ch);
      var texts, rest := MemberTexts(PrintMembers(members)), MemberTexts(PrintMembers(members[1..]));
      forall i | 0 < i < |members|
        ensures ch in texts[i] <==> ch in members[i].key || Mentions(members[i].value, ch)
      {
        assert texts[i] == rest[i - 1] && members[i] == members[1..][i - 1];
      }
    }
  }

  predicate NoControls(s: string) {
    forall i :: 0 <= i < |s| ==> s[i] >= ' '
  }

  predicate AllNoControls(texts: seq<string>) {
    forall i :: 0 <= i < |texts| ==> NoControls(texts[i])
  }

  lemma {:induction false} EscapedNoControls(s: string)
    ensures NoControls(Escaped(s)) && NoControls(Quoted(s))
  {
    if s != "" {
      EscapedNoControls(s[1..]);
    }
  }

  lemma {:induction false} JoinNoControls(texts: seq<string>)
    requires AllNoControls(texts)
    ensures NoControls(Join(texts))
  {
    if |texts| > 1 {
      JoinNoControls(texts[1..]);
    }
  }

  lemma {:induction false} PrintNoControls(c: Canon)
    ensures NoControls(Print(c))
    decreases c, 1
  {
    match c
    case CNum(f) => FixedTextChars(f);
    case CStr(s) => EscapedNoControls(s);
    case CArr(items) =>
      PrintAllNoControls(items);
      JoinNoControls(PrintAll(items));
    case CObj(members) =>
      PrintMembersNoControls(members);
      JoinNoControls(MemberTexts(PrintMembers(members)));
    case _ =>
  }

  lemma {:induction false} PrintAllNoControls(items: seq<Canon>)
    ensures AllNoControls(PrintAll(items))
    decreases items, 0
  {
    if items != [] {
      PrintNoControls(items[0]);
      PrintAllNoControls(items[1..]);
    }
  }

  lemma {:induction false} PrintMembersNoControls(members: seq<Entry<Canon>>)
    ensures AllNoControls(MemberTexts(PrintMembers(members)))
    decreases members, 0
  {
    if members != [] {
      var first, rest := Quoted(members[0].key) + ":" + Print(members[0].value),
        MemberTexts(PrintMembers(members[1..]));
      EscapedNoControls(members[0].key);
      PrintNoControls(members[0].value);
      PrintMembersNoControls(members[1..]);
      assert NoControls(first);
      assert PrintMembers(members)[1..] == PrintMembers(members[1..]);
      assert MemberTexts(PrintMembers(members)) == [first] + rest;
    }
  }

  // ---- the codec ----

  ghost function DecodeEvent(s: string): Option<Event> {
    if exists e :: EventLine(e) == s then
      var e :| EventLine(e) == s;
      Some(e)
    else None
  }

  ghost function EventCodec(): Codec<Event> {
    Codec(
      EventLine,
      s => DecodeEvent(s),
      s => DecodeEvent(s).None?,
      (e: Event, n: nat) => e.sequence == n && e.projection.eventSequence == n)
  }

  /** An event's line determines the event and where the line ends. */
  lemma EventLineUnambiguous(a: Event, b: Event, s: string, t: string)
    requires EventLine(a) + s == EventLine(b) + t
    ensures a == b && s == t
  {
    var x, y := MemberTexts(PrintMembers(EventMembers(a))), MemberTexts(PrintMembers(EventMembers(b)));
    Bracketed("{", Join(x), '}', s, Join(y), t);
    MembersUnambiguous(EventMembers(a), EventMembers(b), s, t);
    EventInjective(a, b);
  }

  lemma EventDecodes(e: Event)
    ensures DecodeEvent(EventLine(e)) == Some(e)
  {
    assert EventLine(e) == EventLine(e);
    var d := DecodeEvent(EventLine(e)).value;
    assert EventLine(e) + "" == EventLine(d) + "";
    EventLineUnambiguous(e, d, "", "");
  }

  lemma CutEventFails(e: Event, k: nat)
    requires k < |EventLine(e)|
    ensures DecodeEvent(EventLine(e)[..k]).None?
  {
    if d :| EventLine(d) == EventLine(e)[..k] {
      assert EventLine(e) + "" == EventLine(d) + EventLine(e)[k..];
      EventLineUnambiguous(e, d, "", EventLine(e)[k..]);
    }
  }

  /** The store's assumptions on its codec are met by the printer it uses. */
  lemma EventCodecValid()
    ensures ValidEventCodec(EventCodec())
  {
    var c := EventCodec();
    forall e: Event
      ensures c.decode(c.encode(e)) == Some(e) && !c.torn(c.encode(e))
    {
      EventDecodes(e);
    }
    forall e: Event, i | 0 <= i < |c.encode(e)|
      ensures c.encode(e)[i] >= ' '
    {
      PrintNoControls(CObj(EventMembers(e)));
    }
    forall e: Event, k | 0 <= k < |c.encode(e)|
      ensures c.decode(c.encode(e)[..k]) == None
    {
      CutEventFails(e, k);
    }
  }

  // ---- which journals can be read again ----

  /** Some text of the event holds one of the three raw line boundaries that JSON does not escape. */
  predicate HoldsBoundary(e: Event) {
    var c := CObj(EventMembers(e));
    Mentions(c, '\U{85}') || Mentions(c, '\U{2028}') || Mentions(c, '\U{2029}')
  }

  lemma LineBreakFreeIff(e: Event)
    ensures BreakFree(EventLine(e)) <==> !HoldsBoundary(e)
  {
    var c := CObj(EventMembers(e));
    PrintNoControls(c);
    PrintHolds(c, '\U{85}');
    PrintHolds(c, '\U{2028}');
    PrintHolds(c, '\U{2029}');
    var line := EventLine(e);
    assert BreakFree(line) <==> '\U{85}' !in line && '\U{2028}' !in line && '\U{2029}' !in line;
  }

  /** A complete journal of the store reads back exactly when no text of any event holds a raw line boundary. */
  lemma StoreReadsBackIff(log: seq<Event>)
    requires Numbered(EventCodec(), log)
    ensures Read(EventCodec(), Text(EventCodec(), log)) ==
      if forall i :: 0 <= i < |log| ==> !HoldsBoundary(log[i]) then Some(log) else None
  {
    var c := EventCodec();
    EventCodecValid();
    assert Text(c, log) + "" == Text(c, log);
    ReadBack(c, log, "");
    ReadableIff(log);
  }

  lemma ReadableIff(log: seq<Event>)
    ensures Readable(EventCodec(), log) <==> forall i :: 0 <= i < |log| ==> !HoldsBoundary(log[i])
  {
    var c := EventCodec();
    forall i | 0 <= i < |log|
      ensures BreakFree(c.encode(log[i])) <==> !HoldsBoundary(log[i])
    {
      LineBreakFreeIff(log[i]);
    }
  }

  /** The journal of a run that an operator stopped before it began, giving this reason. */
  function StoppedLog(req: Request, reason: string): seq<Event> {
    var first := NewEvent([], RunPlanned, InitialState(req));
    [first, NewEvent([first], StopRequested, StopScript(InitialState(req), reason).acts[0].state)]
  }

  /** A stop whose reason holds U+2028 is committed whole, and the run can then not be read again. */
  lemma StopReasonUnreadable(req: Request, reason: string)
    requires '\U{2028}' in reason
    ensures Numbered(EventCodec(), StoppedLog(req, reason))
    ensures Read(EventCodec(), Text(EventCodec(), StoppedLog(req, reason))) == None
  {
    var log := StoppedLog(req, reason);
    StopReasonMentioned(log[1], reason);
    StoreReadsBackIff(log);
  }

  lemma DetailMentioned(c: Closeout, reason: string, ch: char)
    requires ch in reason && c.disposition == Some(Disposition(Unavailable, reason))
    ensures Mentions(CloseoutJson(c), ch)
  {
    var d := OptDisposition(c.disposition);
    assert d.members[0].value == CStr(reason) && Mentions(CStr(reason), ch);
    assert CloseoutJson(c).members[0].value == d;
  }

  lemma StopReasonMentioned(e: Event, reason: string)
    requires '\U{2028}' in reason
    requires e.projection.state.closeout.disposition == Some(Disposition(Unavailable, reason))
    ensures HoldsBoundary(e)
  {
    var c, p := CloseoutJson(e.projection.state.closeout), ProjectionJson(e.projection);
    DetailMentioned(e.projection.state.closeout, reason, '\U{2028}');
    MemberMentioned(p, 1, '\U{2028}');
    MemberMentioned(CObj(EventMembers(e)), 1, '\U{2028}');
  }

  lemma MemberMentioned(c: Canon, i: nat, ch: char)
    requires c.CObj? && i < |c.members| && Mentions(c.members[i].value, ch)
    ensures Mentions(c, ch)
  {
  }
}
