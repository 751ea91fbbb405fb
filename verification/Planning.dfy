/** Requests, and the planner of each mutation kind. */
module Planning {
  import opened Basics
  import opened Records
  import opened Lifecycle
  import opened Profiles
  import opened Identifiers
  import opened Utf8
  import opened Wording

  // -------------------------------------------------------------------------
  // Requests
  // -------------------------------------------------------------------------

  datatype AuthorityContext = AuthorityContext(
    epoch: Generation, publisher: Id, boot: Id,
    ownership: Id, ownershipGeneration: Generation,
    expectedConfiguration: Generation, expectedCapability: Generation,
    expectedTopology: Generation, expectedDevice: Generation,
    attempt: Id)
  {
    predicate Valid() { epoch != 0 && Named(publisher) && Named(boot) && Named(attempt) }
  }

  datatype Envelope = Envelope(
    authority: AuthorityContext, port: Id, provenanceKind: ProvenanceKind, provenanceSource: Text)

  datatype Claim = Claim(kind: PortOwnerKind, owner: Id, exclusive: bool, delegatePublisher: Id, delegateBoot: Id)

  datatype Operation =
    | Configure(configuration: PortConfiguration)
    | Reconfigure(configuration: PortConfiguration)
    | Administrative(op: AdministrativeOp)
    | AssignProfile(profile: Id, generation: Generation)
    | ReleaseProfile
    | BindCapabilities(binding: CapabilityBinding)
    | Reconcile(detail: Text)
    | Supersede(detail: Text)
    | Retire(detail: Text)
    | ClaimOwnership(claim: Claim)
    | TransferOwnership(claim: Claim)
    | ReleaseOwnership
    | RecordEvidence(evidence: AppliedEvidence)
    | ObserveDrift(observed: DriftState, detail: Text)
  {
    /** Kinds that produce a new configuration generation. */
    predicate NeedsConfigurationExpectation() {
      Configure? || Reconfigure? || AssignProfile? || ReleaseProfile? || Reconcile?
    }

    /** Kinds that may run against a replaced parent device. */
    predicate ToleratesReplacedDevice() { Reconcile? || Supersede? || Retire? }

    predicate AppliesToDevice() {
      Configure? || Reconfigure? || AssignProfile? || ReleaseProfile? || Reconcile?
    }

    function FallbackProvenance(): ProvenanceKind {
      if Reconcile? then ProvenanceKind.Reconciliation
      else if RecordEvidence? || ObserveDrift? then ProvenanceKind.HostAdapter
      else ProvenanceKind.Operator
    }
  }

  type PayloadDigest = n: u64 | n != 0 witness 1

  /** A request with the digest of its payload. */
  datatype Request = Request(envelope: Envelope, operation: Operation, digest: PayloadDigest) {
    function Authority(): AuthorityContext { envelope.authority }
    function Attempt(): Id { envelope.authority.attempt }
    function Port(): Id { envelope.port }
  }

  function MakeProvenance(e: Envelope, fallback: ProvenanceKind): Provenance {
    Provenance(
      if e.provenanceKind.Unknown? then fallback else e.provenanceKind,
      e.provenanceSource, e.authority.publisher, e.authority.boot, e.authority.epoch, e.authority.attempt)
  }

  // -------------------------------------------------------------------------
  // The optimistic expectation
  // -------------------------------------------------------------------------

  datatype ExpectedState = ExpectedState(
    configuration: Generation, lifecycle: Generation, administrative: Generation,
    ownership: Generation, evidence: Generation, lastAttempt: Id)
  {
    predicate Matches(r: PortRecord) { CaptureExpected(r) == this }
  }

  function CaptureExpected(r: PortRecord): ExpectedState {
    ExpectedState(
      r.generations.configuration, r.generations.lifecycle, r.generations.administrative,
      r.generations.ownership, r.generations.evidence, r.lastMutation.attempt)
  }

  // -------------------------------------------------------------------------
  // Counters of a record
  // -------------------------------------------------------------------------

  function AdvanceConfiguration(g: GenerationVector): GenerationVector {
    g.(configuration := Advance(g.configuration))
  }

  function AdvanceAdministrative(g: GenerationVector): GenerationVector {
    g.(administrative := Advance(g.administrative))
  }

  function AdvanceLifecycle(g: GenerationVector): GenerationVector { g.(lifecycle := Advance(g.lifecycle)) }

  function AdvanceOwnership(g: GenerationVector): GenerationVector { g.(ownership := Advance(g.ownership)) }

  function AdvanceEvidence(g: GenerationVector): GenerationVector { g.(evidence := Advance(g.evidence)) }

  // -------------------------------------------------------------------------
  // Planning
  // -------------------------------------------------------------------------

  /** What a planner may consult besides the record. Three answers are left open because they
      depend on rendered text: whether two configurations render identically, whether two
      capability readings do, and the wording of a rejection by new evidence. */
  datatype BuildInput = BuildInput(
    topology: Generation,
    device: Option<Generation>,
    capability: CapabilityBinding,
    profiles: Registry,
    looksIdentical: bool,
    sameEvidence: bool,
    note: Text)

  datatype MutationPlan = MutationPlan(
    expected: ExpectedState,
    next: PortRecord,
    capability: CapabilityBinding,
    requiresCapabilityValidation: bool,
    apply: Option<PortConfiguration>)

  /** `Undefined` is the use of a device generation that is not there. */
  datatype Planned = Rejected(code: OutcomeCode) | Prepared(plan: MutationPlan) | Undefined

  /** A planner that decides: it rejects for a reason, or it proposes. */
  predicate Decided(p: Planned) { !p.Undefined? && (p.Rejected? ==> p.code != Ok) }

  function FencedRejection(lifecycle: PortLifecycle): (code: OutcomeCode)
    ensures !code.Accepted()
  {
    match lifecycle
    case Retired => PortRetired
    case Superseded => PortSuperseded
    case RevalidationRequired => OutcomeCode.RevalidationRequired
    case Conflicted => ConflictDetected
    case _ => InvalidLifecycleTransition
  }

  predicate ProfileIsKnown(c: PortConfiguration, profiles: Registry) {
    c.profile.bound ==> Get(profiles, c.profile.id, c.profile.generation).Some?
  }

  function Fresh(generation: Generation): AppliedEvidence { NO_EVIDENCE.(generation := generation) }

  /** The plan that commits `c` under the next configuration generation and applies it. */
  function CommitConfiguration(current: PortRecord, next: PortRecord, c: PortConfiguration, input: BuildInput): Planned {
    Prepared(MutationPlan(
      CaptureExpected(current),
      next.(configuration := Some(c), applied := Fresh(c.generation)),
      input.capability, true, Some(c)))
  }

  function OnlyRecord(current: PortRecord, next: PortRecord): Planned {
    Prepared(MutationPlan(CaptureExpected(current), next, NO_BINDING, false, None))
  }

  /** The first configuration as it will be committed. */
  function FirstConfiguration(current: PortRecord, input: BuildInput, e: Envelope, wanted: PortConfiguration, device: Generation)
    : PortConfiguration
  {
    wanted.(
      port := current.port,
      parentDevice := current.parentDevice,
      deviceGeneration := device,
      topologyGeneration := input.topology,
      generation := 1,
      record := if Named(wanted.record) then wanted.record else ConfigurationId(current.port),
      administrative :=
        if wanted.administrative.Unknown? then AdministrativeState.Enabled else wanted.administrative,
      capabilityGeneration := input.capability.generation,
      evidenceGeneration := current.generations.evidence,
      provenance := MakeProvenance(e, ProvenanceKind.Operator))
  }

  function Configured(current: PortRecord): PortRecord {
    current.(
      lifecycle := PortLifecycle.Configured,
      generations := AdvanceLifecycle(AdvanceAdministrative(AdvanceConfiguration(current.generations))),
      statusReason := "CONFIGURED",
      statusDetail := [],
      drift := DriftState.Unknown)
  }

  function PlanConfigure(current: PortRecord, input: BuildInput, e: Envelope, wanted: PortConfiguration): (p: Planned)
    ensures Decided(p)
  {
    hide PortConfiguration.Valid, ValidIdentifier, FirstConfiguration, Configured, ProfileIsKnown;
    if !current.lifecycle.Unconfigured? then Rejected(FencedRejection(current.lifecycle))
    else if input.device.None? then Rejected(UnknownDevice)
    else if !input.capability.present then Rejected(CapabilityUnavailable)
    else if Named(wanted.port) && wanted.port != current.port then Rejected(WrongEntityClass)
    else if Named(wanted.parentDevice) && wanted.parentDevice != current.parentDevice then Rejected(WrongEntityClass)
    else
      var c := FirstConfiguration(current, input, e, wanted, input.device.value);
      if c.administrative.RevalidationRequired? then Rejected(InvalidConfiguration)
      else if !ProfileIsKnown(c, input.profiles) then Rejected(UnknownProfile)
      else if !c.Valid() then Rejected(InvalidConfiguration)
      else
        CommitConfiguration(current, Configured(current), c, input)
  }

  /** The replacement configuration before it is given its generation. */
  function ReplacementConfiguration(current: PortRecord, committed: PortConfiguration, input: BuildInput, e: Envelope,
                                    wanted: PortConfiguration, device: Generation): PortConfiguration
  {
    wanted.(
      port := current.port,
      parentDevice := current.parentDevice,
      deviceGeneration := device,
      topologyGeneration := input.topology,
      record := committed.record,
      generation := current.generations.configuration,
      administrative := if wanted.administrative.Unknown? then committed.administrative else wanted.administrative,
      capabilityGeneration := input.capability.generation,
      evidenceGeneration := current.generations.evidence,
      provenance := MakeProvenance(e, ProvenanceKind.Operator))
  }

  /** The record both reconfiguration and profile assignment build on. */
  function Reissued(current: PortRecord, reason: Text): PortRecord {
    current.(
      generations := AdvanceLifecycle(AdvanceConfiguration(current.generations)),
      statusReason := reason,
      statusDetail := [])
  }

  function PlanReconfigure(current: PortRecord, input: BuildInput, e: Envelope, wanted: PortConfiguration): Planned {
    if current.configuration.None? then Rejected(InvalidLifecycleTransition)
    else if !IsLive(current.lifecycle) then Rejected(FencedRejection(current.lifecycle))
    else if !input.capability.present then Rejected(CapabilityUnavailable)
    else if Named(wanted.port) && wanted.port != current.port then Rejected(WrongEntityClass)
    else if input.device.None? then Undefined
    else
      var committed := current.configuration.value;
      var c := ReplacementConfiguration(current, committed, input, e, wanted, input.device.value);
      if c.administrative != committed.administrative then Rejected(InvalidConfiguration)
      else if !ProfileIsKnown(c, input.profiles) then Rejected(UnknownProfile)
      else if !c.Valid() then Rejected(InvalidConfiguration)
      else if input.looksIdentical && c.profile == committed.profile then Rejected(AlreadyCurrent)
      else
        CommitConfiguration(current, Reissued(current, "RECONFIGURED"),
                            c.(generation := Advance(current.generations.configuration)), input)
  }

  function AdministrativeReason(op: AdministrativeOp): Text {
    match op
    case Enable => "ADMINISTRATIVE_ENABLE"
    case Disable => "ADMINISTRATIVE_DISABLE"
    case Drain => "ADMINISTRATIVE_DRAIN"
    case Maintain => "ADMINISTRATIVE_ENTER_MAINTENANCE"
    case Resume => "ADMINISTRATIVE_RESUME"
    case Revalidate => "ADMINISTRATIVE_REQUIRE_REVALIDATION"
  }

  function PlanAdministrative(current: PortRecord, e: Envelope, op: AdministrativeOp): (p: Planned)
    ensures Decided(p)
  {
    if current.configuration.None? then Rejected(InvalidLifecycleTransition)
    else if !IsLive(current.lifecycle) then Rejected(FencedRejection(current.lifecycle))
    else
      var evaluation := Evaluate(current.lifecycle, TransitionFor(op));
      var target := AdministrativeTarget(op);
      var committed := current.configuration.value;
      if evaluation.None? then Rejected(InvalidLifecycleTransition)
      else if committed.administrative == target && current.lifecycle == evaluation.value then Rejected(AlreadyCurrent)
      else
        var c := committed.(administrative := target, provenance := MakeProvenance(e, ProvenanceKind.Operator));
        var next := current.(
          configuration := Some(c),
          lifecycle := evaluation.value,
          generations := AdvanceLifecycle(AdvanceAdministrative(current.generations)),
          statusReason := AdministrativeReason(op),
          statusDetail := [],
          drift :=
            if target.RevalidationRequired? then DriftState.RevalidationRequired else current.drift);
        Prepared(MutationPlan(CaptureExpected(current), next, NO_BINDING, false,
                              if op.Revalidate? then None else Some(c)))
  }

  /** The configuration with a profile's dimensions applied, or with its binding dropped. */
  function Reprofiled(committed: PortConfiguration, profile: Option<PortProfile>): PortConfiguration {
    match profile
    case None => committed.(profile := NO_PROFILE)
    case Some(p) => ApplyProfile(p.configuration, committed).(profile := ProfileBinding(true, p.id, p.generation))
  }

  function PlanProfile(current: PortRecord, input: BuildInput, e: Envelope, profile: Option<PortProfile>): Planned {
    if input.device.None? || current.configuration.None? then Undefined
    else
      var c := Reprofiled(current.configuration.value, profile).(
        port := current.port,
        parentDevice := current.parentDevice,
        deviceGeneration := input.device.value,
        topologyGeneration := input.topology,
        capabilityGeneration :=
          if input.capability.present then input.capability.generation else current.generations.capability,
        provenance := MakeProvenance(e, ProvenanceKind.Operator));
      if !c.Valid() then Rejected(InvalidProfile)
      else if input.looksIdentical then Rejected(AlreadyCurrent)
      else
        CommitConfiguration(
          current, Reissued(current, if profile.None? then "PROFILE_RELEASED" else "PROFILE_ASSIGNED"),
          c.(generation := Advance(current.generations.configuration)), input)
  }

  function PlanAssignProfile(current: PortRecord, input: BuildInput, e: Envelope, id: Id, generation: Generation): Planned {
    if current.configuration.None? then Rejected(InvalidLifecycleTransition)
    else if !IsLive(current.lifecycle) then Rejected(FencedRejection(current.lifecycle))
    else
      var profile := Get(input.profiles, id, generation);
      if profile.None? then Rejected(UnknownProfile)
      else PlanProfile(current, input, e, Some(profile.value.(id := id, generation := generation)))
  }

  function PlanReleaseProfile(current: PortRecord, input: BuildInput, e: Envelope): Planned {
    if current.configuration.None? then Rejected(InvalidLifecycleTransition)
    else if !IsLive(current.lifecycle) then Rejected(FencedRejection(current.lifecycle))
    else if !current.configuration.value.profile.bound then Rejected(AlreadyCurrent)
    else PlanProfile(current, input, e, None)
  }

  /** New evidence fences a configuration it does not support. */
  function WithEvidence(current: PortRecord, binding: CapabilityBinding, note: Text): PortRecord {
    var bound := current.(
      capability := binding,
      generations := current.generations.(capability := binding.generation, evidence := binding.evidenceGeneration),
      statusReason := "CAPABILITY_BOUND",
      statusDetail := []);
    match current.configuration
    case None => bound
    case Some(c) =>
      if Supports(binding, c) then bound.(drift := DriftState.Unknown)
      else
        bound.(
          lifecycle := PortLifecycle.RevalidationRequired,
          drift := DriftState.RevalidationRequired,
          statusReason := "CAPABILITY_INVALIDATED",
          statusDetail := note,
          generations := AdvanceLifecycle(bound.generations))
  }

  function PlanBindCapabilities(current: PortRecord, input: BuildInput, binding: CapabilityBinding): (p: Planned)
    ensures Decided(p)
  {
    if !binding.present || binding.generation == 0 || binding.evidenceGeneration == 0 then Rejected(MalformedRequest)
    else if !binding.capabilities.Valid() then Rejected(CapabilityUnavailable)
    else if current.capability.present && binding.generation < current.capability.generation then
      Rejected(StaleCapabilityGeneration)
    else if current.capability.present && binding.generation == current.capability.generation then
      Rejected(if input.sameEvidence then AlreadyCurrent else ConflictDetected)
    else OnlyRecord(current, WithEvidence(current, binding, input.note))
  }

  /** Whether reconciling would bind the configuration to anything new. */
  predicate Rebinds(committed: PortConfiguration, c: PortConfiguration) {
    || c.deviceGeneration != committed.deviceGeneration
    || c.topologyGeneration != committed.topologyGeneration
    || c.capabilityGeneration != committed.capabilityGeneration
  }

  function PlanReconcile(current: PortRecord, input: BuildInput, e: Envelope, detail: Text): (p: Planned)
    ensures Decided(p)
  {
    if current.configuration.None? then Rejected(InvalidLifecycleTransition)
    else if input.device.None? then Rejected(UnknownDevice)
    else if !input.capability.present then Rejected(CapabilityUnavailable)
    else
      var committed := current.configuration.value;
      var c := committed.(
        deviceGeneration := input.device.value,
        topologyGeneration := input.topology,
        capabilityGeneration := input.capability.generation,
        provenance := MakeProvenance(e, ProvenanceKind.Reconciliation));
      if !ProfileIsKnown(c, input.profiles) then Rejected(UnknownProfile)
      else if !c.Valid() then Rejected(InvalidConfiguration)
      else if !RequiresReconciliation(current.lifecycle) && !current.drift.Drifted?
              && !current.drift.RevalidationRequired? && !Rebinds(committed, c) then
        Rejected(AlreadyCurrent)
      else
        var next := current.(
          lifecycle := PortLifecycle.Configured,
          generations := AdvanceLifecycle(AdvanceConfiguration(current.generations)),
          drift := DriftState.Unknown,
          statusReason := "RECONCILED",
          statusDetail := detail);
        CommitConfiguration(current, next,
                            c.(generation := next.generations.configuration,
                               evidenceGeneration := next.generations.evidence), input)
  }

  function PlanFence(current: PortRecord, detail: Text, retire: bool): (p: Planned)
    ensures Decided(p)
  {
    var evaluation := Evaluate(current.lifecycle, if retire then Transition.Retire else Transition.Supersede);
    if evaluation.None? then
      Rejected(if current.lifecycle.Superseded? then AlreadyCurrent else FencedRejection(current.lifecycle))
    else
      var fenced := current.(
        lifecycle := evaluation.value,
        generations := AdvanceLifecycle(current.generations),
        statusReason := if retire then "RETIRED" else "SUPERSEDED",
        statusDetail := detail,
        applied := current.applied.(verified := false));
      OnlyRecord(current,
                 if retire && current.ownership.Some? then
                   fenced.(generations := AdvanceOwnership(fenced.generations), ownership := None)
                 else
                   fenced)
  }

  predicate Holds(r: PortRecord, a: AuthorityContext) {
    r.ownership.Some? && r.ownership.value.HeldBy(a.publisher, a.boot, a.epoch)
  }

  predicate NamesOwner(claim: Claim) { !claim.kind.Unknown? && Named(claim.owner) }

  predicate Delegates(claim: Claim) { Named(claim.delegatePublisher) || Named(claim.delegateBoot) }

  function Granted(current: PortRecord, e: Envelope, claim: Claim): PortOwnership {
    var generation := Advance(current.generations.ownership);
    PortOwnership(
      OwnershipId(current.port, generation), claim.kind, claim.owner, generation,
      if Delegates(claim) then claim.delegatePublisher else e.authority.publisher,
      if Delegates(claim) then claim.delegateBoot else e.authority.boot,
      e.authority.epoch, claim.exclusive)
  }

  function Grant(current: PortRecord, e: Envelope, claim: Claim, reason: Text): Planned {
    OnlyRecord(current, current.(
      generations := AdvanceOwnership(current.generations),
      ownership := Some(Granted(current, e, claim)),
      statusReason := reason,
      statusDetail := claim.owner))
  }

  function PlanClaim(current: PortRecord, e: Envelope, claim: Claim): (p: Planned)
    ensures Decided(p)
  {
    if Holds(current, e.authority) then Rejected(AlreadyCurrent)
    else if current.ownership.Some? && current.ownership.value.exclusive then Rejected(OwnershipConflict)
    else if !NamesOwner(claim) then Rejected(MalformedRequest)
    else if Delegates(claim) then Rejected(MalformedRequest)
    else Grant(current, e, claim, "OWNERSHIP_CLAIMED")
  }

  function PlanTransfer(current: PortRecord, e: Envelope, claim: Claim): (p: Planned)
    ensures Decided(p)
  {
    if current.ownership.None? then Rejected(UnknownOwnership)
    else if !Holds(current, e.authority) then Rejected(UnauthorizedOwner)
    else if !NamesOwner(claim) then Rejected(MalformedRequest)
    else if Delegates(claim) && !(Named(claim.delegatePublisher) && Named(claim.delegateBoot)) then
      Rejected(MalformedRequest)
    else Grant(current, e, claim, "OWNERSHIP_TRANSFERRED")
  }

  function PlanRelease(current: PortRecord, e: Envelope): (p: Planned)
    ensures Decided(p)
  {
    if current.ownership.None? then Rejected(AlreadyCurrent)
    else if !Holds(current, e.authority) then Rejected(UnauthorizedOwner)
    else
      OnlyRecord(current, current.(
        generations := AdvanceOwnership(current.generations),
        ownership := None,
        statusReason := "OWNERSHIP_RELEASED",
        statusDetail := e.provenanceSource))
  }

  function EvidenceDrift(outcome: AppliedOutcome): DriftState {
    match outcome
    case Verified => DriftState.InSync
    case ApplyFailed => DriftState.Drifted
    case OutcomeUnknown => DriftState.RevalidationRequired
    case _ => DriftState.Unknown
  }

  function EvidenceReason(outcome: AppliedOutcome): Text {
    match outcome
    case Verified => "APPLIED_VERIFIED"
    case ApplyFailed => "APPLY_FAILED"
    case OutcomeUnknown => UnknownReason()
    case Applied => "APPLIED"
    case _ => "APPLIED_NOT_ATTEMPTED"
  }

  function PlanEvidence(current: PortRecord, evidence: AppliedEvidence): (p: Planned)
    ensures Decided(p)
  {
    if current.configuration.None? then Rejected(InvalidLifecycleTransition)
    else if evidence.generation != current.generations.configuration then Rejected(StaleConfigurationGeneration)
    else if current.applied.outcome == evidence.outcome && current.applied.verified == evidence.verified
            && current.applied.generation == evidence.generation then Rejected(AlreadyCurrent)
    else
      var advanced := AdvanceEvidence(current.generations);
      var fences := evidence.outcome.OutcomeUnknown? && IsLive(current.lifecycle);
      OnlyRecord(current, current.(
        applied := evidence.(evidenceGeneration := advanced.evidence),
        generations := if fences then AdvanceLifecycle(advanced) else advanced,
        lifecycle := if fences then PortLifecycle.RevalidationRequired else current.lifecycle,
        drift := EvidenceDrift(evidence.outcome),
        statusReason := EvidenceReason(evidence.outcome),
        statusDetail := evidence.source))
  }

  function DriftReason(observed: DriftState): Text {
    match observed
    case Unknown => "DRIFT_UNKNOWN"
    case InSync => "DRIFT_IN_SYNC"
    case Drifted => "DRIFT_DRIFTED"
    case RevalidationRequired => "DRIFT_REVALIDATION_REQUIRED"
    case Conflicted => "DRIFT_CONFLICTED"
  }

  /** The lifecycle an observation moves a port to. */
  function ObservedLifecycle(current: PortLifecycle, observed: DriftState): PortLifecycle {
    if observed.RevalidationRequired? && IsLive(current) then PortLifecycle.RevalidationRequired
    else if observed.Conflicted? && Evaluate(current, Transition.Conflict).Some? then
      Evaluate(current, Transition.Conflict).value
    else current
  }

  function PlanDrift(current: PortRecord, observed: DriftState, detail: Text): (p: Planned)
    ensures Decided(p)
  {
    if current.drift == observed then Rejected(AlreadyCurrent)
    else
      var lifecycle := ObservedLifecycle(current.lifecycle, observed);
      OnlyRecord(current, current.(
        drift := observed,
        statusReason := DriftReason(observed),
        statusDetail := detail,
        lifecycle := lifecycle,
        generations :=
          if lifecycle != current.lifecycle then AdvanceLifecycle(current.generations) else current.generations,
        applied := if observed.InSync? then current.applied.(verified := true) else current.applied))
  }

  /** The planner of each kind. */
  function Build(current: PortRecord, input: BuildInput, q: Request): Planned {
    var e := q.envelope;
    match q.operation
    case Configure(c) => PlanConfigure(current, input, e, c)
    case Reconfigure(c) => PlanReconfigure(current, input, e, c)
    case Administrative(op) => PlanAdministrative(current, e, op)
    case AssignProfile(id, generation) => PlanAssignProfile(current, input, e, id, generation)
    case ReleaseProfile => PlanReleaseProfile(current, input, e)
    case BindCapabilities(binding) => PlanBindCapabilities(current, input, binding)
    case Reconcile(detail) => PlanReconcile(current, input, e, detail)
    case Supersede(detail) => PlanFence(current, detail, false)
    case Retire(detail) => PlanFence(current, detail, true)
    case ClaimOwnership(claim) => PlanClaim(current, e, claim)
    case TransferOwnership(claim) => PlanTransfer(current, e, claim)
    case ReleaseOwnership => PlanRelease(current, e)
    case RecordEvidence(evidence) => PlanEvidence(current, evidence)
    case ObserveDrift(observed, detail) => PlanDrift(current, observed, detail)
  }

  /** A plan that passes validation, stamped with the attempt and its provenance. */
  function Stamp(plan: MutationPlan, q: Request): MutationPlan {
    plan.(next := plan.next.(
      lastMutation := LastMutation(q.Attempt(), q.digest, plan.next.generations.configuration),
      provenance := MakeProvenance(q.envelope, q.operation.FallbackProvenance())))
  }

  /** The checks every plan passes before any device is touched. */
  function Prepare(planned: Planned, q: Request): Planned {
    if !planned.Prepared? then planned
    else
      var plan := planned.plan;
      if !plan.next.Valid() then Rejected(InvalidConfiguration)
      else if plan.requiresCapabilityValidation && plan.next.configuration.None? then Rejected(InternalError)
      else if plan.requiresCapabilityValidation && !Supports(plan.capability, plan.next.configuration.value) then
        Rejected(CapabilityVerdict(plan.next.configuration.value, plan.capability))
      else Prepared(Stamp(plan, q))
  }

  // -------------------------------------------------------------------------
  // Screening a request against the snapshot
  // -------------------------------------------------------------------------

  /** The gate between snapshot and planning: retirement, replay, stated expectations and
      ownership, with ownership required. `None` lets the request through. */
  function Screen(snapshot: PortRecord, q: Request, topology: Generation): Option<OutcomeCode> {
    var a := q.Authority();
    if snapshot.lifecycle.Retired? then Some(if q.operation.Retire? then AlreadyCurrent else PortRetired)
    else if snapshot.lastMutation.Valid() && snapshot.lastMutation.attempt == a.attempt then
      Some(if snapshot.lastMutation.payloadDigest == q.digest then Idempotent else ConflictDetected)
    else if a.expectedTopology != 0 && a.expectedTopology != topology then Some(StaleTopologyGeneration)
    else if a.expectedCapability != 0 && a.expectedCapability != snapshot.generations.capability then
      Some(StaleCapabilityGeneration)
    else if (q.operation.NeedsConfigurationExpectation() || a.expectedConfiguration != 0)
            && a.expectedConfiguration != snapshot.generations.configuration then
      Some(StaleConfigurationGeneration)
    else OwnershipGate(snapshot, q)
  }

  function OwnershipGate(snapshot: PortRecord, q: Request): Option<OutcomeCode> {
    var a := q.Authority();
    if q.operation.ClaimOwnership? then None
    else
      match snapshot.ownership
      case None => if snapshot.configuration.Some? then Some(UnauthorizedOwner) else None
      case Some(o) =>
        if Named(a.ownership) && a.ownership != o.id then Some(StaleOwnershipGeneration)
        else if a.ownershipGeneration != 0 && a.ownershipGeneration != snapshot.generations.ownership then
          Some(StaleOwnershipGeneration)
        else if !q.operation.TransferOwnership? && !q.operation.ReleaseOwnership?
                && !o.HeldBy(a.publisher, a.boot, a.epoch) then
          Some(UnauthorizedOwner)
        else None
  }

  /** The device gate: a replaced parent device fences every kind but reconciliation. */
  function DeviceGate(snapshot: PortRecord, q: Request, device: Option<Generation>): Option<OutcomeCode> {
    if q.operation.ToleratesReplacedDevice() || device.None? then None
    else if q.Authority().expectedDevice != 0 && q.Authority().expectedDevice != device.value then
      Some(StaleDeviceGeneration)
    else if device.value != snapshot.generations.device then Some(StaleDeviceGeneration)
    else None
  }

  // -------------------------------------------------------------------------
  // Capability evidence
  // -------------------------------------------------------------------------

  /** A provider that is not configured, fails, or returns a reading. */
  datatype Provider = NoReading | Reading(binding: CapabilityBinding)

  /** Bound evidence wins; otherwise a fresh reading that says something legal. */
  function ResolveCapabilities(r: PortRecord, provider: Provider): (OutcomeCode, CapabilityBinding) {
    if r.capability.present then (Ok, r.capability)
    else
      match provider
      case NoReading => (CapabilityUnavailable, NO_BINDING)
      case Reading(binding) =>
        if !binding.present then (CapabilityUnknown, NO_BINDING)
        else if !binding.capabilities.Valid() then (CapabilityUnavailable, NO_BINDING)
        else (Ok, binding)
  }

  // -------------------------------------------------------------------------
  // The adapter
  // -------------------------------------------------------------------------

  datatype AdapterPolicy = DesiredStateOnly | Apply | ApplyAndVerify

  datatype ApplyStatus = Applied | Failed | OutcomeUnknown | Unsupported

  datatype ReadbackStatus = Verified | Mismatch | Unknown | Unsupported

  /** Everything the adapter says about one plan: whether there is one, how it names itself,
      and its answers. */
  datatype AdapterReply = AdapterReply(
    present: bool, source: Text, status: ApplyStatus, detail: Text, readback: ReadbackStatus)

  /** What the pipeline does once the adapter has answered. */
  datatype Settlement =
    | Settled(next: PortRecord)
    | Doubtful(generation: Generation, detail: Text, code: OutcomeCode)
    | Abandoned(code: OutcomeCode)

  /** A settled apply advances the evidence generation, stamps the evidence and sets the drift
      the evidence shows. */
  function SettledRecord(next: PortRecord, outcome: AppliedOutcome, source: Text): PortRecord {
    var advanced := AdvanceEvidence(next.generations);
    next.(
      generations := advanced,
      drift := if outcome.Verified? then DriftState.InSync else next.drift,
      applied := AppliedEvidence(outcome, next.generations.configuration, advanced.evidence, source, outcome.Verified?))
  }

  function Settle(plan: MutationPlan, policy: AdapterPolicy, reply: AdapterReply): Settlement {
    var next := plan.next;
    var generation := next.generations.configuration;
    if plan.apply.None? then Settled(next)
    else if policy.DesiredStateOnly? then
      Settled(next.(applied := next.applied.(outcome := NotAttempted, generation := generation, verified := false,
                                            source := "desired-state-only")))
    else if !reply.present then Settled(SettledRecord(next, AppliedOutcome.Unsupported, "no-adapter"))
    else
      match reply.status
      case Failed => Abandoned(OutcomeCode.ApplyFailed)
      case OutcomeUnknown =>
        Doubtful(generation, if reply.detail == [] then LostApply() else reply.detail, ApplyOutcomeUnknown)
      case Unsupported => Settled(SettledRecord(next, AppliedOutcome.Unsupported, reply.source))
      case Applied =>
        if !policy.ApplyAndVerify? then Settled(SettledRecord(next, AppliedOutcome.Applied, reply.source))
        else
          match reply.readback
          case Verified => Settled(SettledRecord(next, AppliedOutcome.Verified, reply.source))
          case Mismatch => Doubtful(generation, Mismatched(), ReadbackMismatch)
          case Unknown => Doubtful(generation, LostReadback(), ApplyOutcomeUnknown)
          case Unsupported => Settled(SettledRecord(next, AppliedOutcome.Applied, reply.source))
  }
}
