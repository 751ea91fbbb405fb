/** What every planned record keeps, whatever was asked. */
module PlanningLaws {
  import opened Basics
  import opened Records
  import opened Lifecycle
  import opened Planning
  import Identifiers
  import Profiles

  // -------------------------------------------------------------------------
  // Record soundness
  // -------------------------------------------------------------------------

  /** A configuration is present exactly when its generation is, and they agree. */
  predicate ConfigurationAgrees(r: PortRecord) {
    && (r.configuration.Some? <==> r.generations.configuration != 0)
    && (r.configuration.Some? ==> r.configuration.value.generation == r.generations.configuration)
    && (r.lifecycle.Unconfigured? ==> r.configuration.None?)
    && (IsLive(r.lifecycle) ==> r.configuration.Some?)
  }

  /** The capability counter tracks the bound evidence, and bound evidence is legal. */
  predicate CapabilityAgrees(r: PortRecord) {
    && r.generations.capability == (if r.capability.present then r.capability.generation else 0)
    && (r.capability.present ==> r.capability.generation != 0 && r.capability.evidenceGeneration != 0)
    && r.capability.capabilities.Valid()
  }

  /** Evidence of a completed apply names the committed configuration generation. */
  predicate EvidenceIsTrue(r: PortRecord) {
    r.applied.outcome.Applied? || r.applied.outcome.Verified? ==>
      r.configuration.Some? && r.applied.generation == r.generations.configuration
  }

  /** A live port's configuration is supported by the evidence bound to it. */
  predicate LiveIsSupported(r: PortRecord) {
    IsLive(r.lifecycle) && r.capability.present && r.configuration.Some? ==>
      Supports(r.capability, r.configuration.value)
  }

  predicate RetiredIsUnowned(r: PortRecord) { r.lifecycle.Retired? ==> r.ownership.None? }

  /** The one shape of record that `validate` rejects and the engine can still hold: a port
      fenced by an apply whose outcome is unknown before anything was ever committed. */
  predicate Stranded(r: PortRecord) {
    r.ValidButFor() && r.configuration.None? && r.lifecycle.RevalidationRequired?
  }

  ghost predicate Sound(r: PortRecord) {
    && ConfigurationAgrees(r)
    && CapabilityAgrees(r)
    && EvidenceIsTrue(r)
    && LiveIsSupported(r)
    && RetiredIsUnowned(r)
    && (r.Valid() || Stranded(r))
  }

  // -------------------------------------------------------------------------
  // How a committed record may differ from the one it replaces
  // -------------------------------------------------------------------------

  /** No counter of the record goes back; the device counter never moves at all. */
  predicate CountersAdvance(a: GenerationVector, b: GenerationVector) {
    && a.configuration <= b.configuration && a.administrative <= b.administrative
    && a.lifecycle <= b.lifecycle && a.ownership <= b.ownership && a.capability <= b.capability
    && a.device == b.device && a.topology == b.topology
  }

  /** A port enters the live states only by its first configuration or by reconciliation. */
  predicate EntersLive(op: Operation, before: PortLifecycle, after: PortLifecycle) {
    IsLive(after) && !IsLive(before) ==> op.Reconcile? || (op.Configure? && before.Unconfigured?)
  }

  /** Kinds that replace the configuration. */
  predicate Reconfigures(op: Operation) { op.NeedsConfigurationExpectation() || op.Administrative? }

  predicate MovesOwnership(op: Operation) {
    op.ClaimOwnership? || op.TransferOwnership? || op.ReleaseOwnership? || op.Retire?
  }

  ghost predicate Evolves(op: Operation, before: PortRecord, after: PortRecord) {
    && before.port == after.port && before.parentDevice == after.parentDevice
    && CountersAdvance(before.generations, after.generations)
    && EntersLive(op, before.lifecycle, after.lifecycle)
    && (after.configuration != before.configuration ==> Reconfigures(op))
    && (after.ownership != before.ownership ==> MovesOwnership(op))
    && (after.lifecycle.Unconfigured? ==> before.lifecycle.Unconfigured?)
  }

  /** What a planner hands on when it is given a sound record: a record that would be sound if
      it passes validation and, where asked for, the capability check. */
  ghost predicate Promises(op: Operation, before: PortRecord, plan: MutationPlan) {
    var r := plan.next;
    && plan.expected == CaptureExpected(before)
    && Evolves(op, before, r)
    && (r.Valid() ==> ConfigurationAgrees(r))
    && CapabilityAgrees(r)
    && EvidenceIsTrue(r)
    && RetiredIsUnowned(r)
    && (plan.requiresCapabilityValidation ==> r.capability == before.capability)
    && (!plan.requiresCapabilityValidation ==> LiveIsSupported(r))
    && (plan.apply.Some? ==> r.configuration == plan.apply)
  }

  lemma ConfigurePromises(r: PortRecord, input: BuildInput, e: Envelope, wanted: PortConfiguration)
    requires Sound(r) && PlanConfigure(r, input, e, wanted).Prepared?
    ensures var plan := PlanConfigure(r, input, e, wanted).plan;
            && Promises(Operation.Configure(wanted), r, plan)
            && input.device.Some? && plan.requiresCapabilityValidation && plan.capability == input.capability
  {
    hide PortConfiguration.Valid, PortRecord.Valid, PortRecord.ValidButFor, PortCapabilities.Valid;
    hide CapabilityVerdict, Supports, ValidIdentifier, ProfileIsKnown, Identifiers.ConfigurationId;
  }

  lemma ReconfigurePromises(r: PortRecord, input: BuildInput, e: Envelope, wanted: PortConfiguration)
    requires Sound(r) && PlanReconfigure(r, input, e, wanted).Prepared?
    ensures var plan := PlanReconfigure(r, input, e, wanted).plan;
            && Promises(Operation.Reconfigure(wanted), r, plan)
            && IsLive(r.lifecycle) && plan.requiresCapabilityValidation && plan.capability == input.capability
  {
    hide PortConfiguration.Valid, PortRecord.Valid, PortRecord.ValidButFor, PortCapabilities.Valid;
    hide CapabilityVerdict, Supports, ValidIdentifier, ProfileIsKnown;
  }

  lemma ProfilePromises(r: PortRecord, input: BuildInput, e: Envelope, profile: Option<PortProfile>, op: Operation)
    requires Sound(r) && IsLive(r.lifecycle) && PlanProfile(r, input, e, profile).Prepared?
    requires op.AssignProfile? || op.ReleaseProfile?
    ensures var plan := PlanProfile(r, input, e, profile).plan;
            && Promises(op, r, plan)
            && plan.requiresCapabilityValidation && plan.capability == input.capability
  {
    hide PortConfiguration.Valid, PortRecord.Valid, PortRecord.ValidButFor, PortCapabilities.Valid;
    hide CapabilityVerdict, Supports, ValidIdentifier, Profiles.ApplyProfile;
  }

  lemma ReconcilePromises(r: PortRecord, input: BuildInput, e: Envelope, detail: Text)
    requires Sound(r) && PlanReconcile(r, input, e, detail).Prepared?
    ensures var plan := PlanReconcile(r, input, e, detail).plan;
            && Promises(Operation.Reconcile(detail), r, plan)
            && input.device.Some? && plan.requiresCapabilityValidation && plan.capability == input.capability
  {
    hide PortConfiguration.Valid, PortRecord.Valid, PortRecord.ValidButFor, PortCapabilities.Valid;
    hide CapabilityVerdict, Supports, ValidIdentifier, ProfileIsKnown;
  }

  lemma AdministrativePromises(r: PortRecord, e: Envelope, op: AdministrativeOp)
    requires Sound(r) && PlanAdministrative(r, e, op).Prepared?
    ensures var plan := PlanAdministrative(r, e, op).plan;
            && Promises(Operation.Administrative(op), r, plan)
            && IsLive(r.lifecycle) && !plan.requiresCapabilityValidation
  {
    hide PortConfiguration.Valid, PortRecord.Valid, PortRecord.ValidButFor, PortCapabilities.Valid;
    hide CapabilityVerdict, ValidIdentifier;
    var plan := PlanAdministrative(r, e, op).plan;
    VerdictIgnoresBookkeeping(r.configuration.value, plan.next.configuration.value, r.capability);
  }

  /** Plans that leave the configuration alone and can only take a port out of the live states. */
  ghost predicate PromisesRecord(op: Operation, r: PortRecord, plan: MutationPlan) {
    && Promises(op, r, plan)
    && !plan.requiresCapabilityValidation && plan.apply.None?
    && (IsLive(plan.next.lifecycle) ==> IsLive(r.lifecycle))
  }

  lemma BindPromises(r: PortRecord, input: BuildInput, binding: CapabilityBinding)
    requires Sound(r) && PlanBindCapabilities(r, input, binding).Prepared? && !r.lifecycle.Retired?
    ensures PromisesRecord(Operation.BindCapabilities(binding), r, PlanBindCapabilities(r, input, binding).plan)
  {
    hide PortConfiguration.Valid, PortRecord.Valid, PortRecord.ValidButFor, PortCapabilities.Valid;
    hide CapabilityVerdict, Supports, ValidIdentifier;
  }

  lemma FencePromises(r: PortRecord, detail: Text, retire: bool)
    requires Sound(r) && PlanFence(r, detail, retire).Prepared?
    ensures PromisesRecord(if retire then Operation.Retire(detail) else Operation.Supersede(detail),
                           r, PlanFence(r, detail, retire).plan)
    ensures !IsLive(PlanFence(r, detail, retire).plan.next.lifecycle)
  {
    hide PortConfiguration.Valid, PortRecord.Valid, PortRecord.ValidButFor, PortCapabilities.Valid;
    hide CapabilityVerdict, Supports, ValidIdentifier;
  }

  lemma EvidencePromises(r: PortRecord, evidence: AppliedEvidence)
    requires Sound(r) && PlanEvidence(r, evidence).Prepared?
    ensures PromisesRecord(Operation.RecordEvidence(evidence), r, PlanEvidence(r, evidence).plan)
  {
    hide PortConfiguration.Valid, PortRecord.Valid, PortRecord.ValidButFor, PortCapabilities.Valid;
    hide CapabilityVerdict, Supports, ValidIdentifier;
  }

  lemma DriftPromises(r: PortRecord, observed: DriftState, detail: Text)
    requires Sound(r) && PlanDrift(r, observed, detail).Prepared?
    ensures PromisesRecord(Operation.ObserveDrift(observed, detail), r, PlanDrift(r, observed, detail).plan)
  {
    hide PortConfiguration.Valid, PortRecord.Valid, PortRecord.ValidButFor, PortCapabilities.Valid;
    hide CapabilityVerdict, Supports, ValidIdentifier;
  }

  lemma GrantPromises(r: PortRecord, e: Envelope, claim: Claim, reason: Text, op: Operation)
    requires Sound(r) && !r.lifecycle.Retired? && MovesOwnership(op)
    ensures Grant(r, e, claim, reason).Prepared?
    ensures PromisesRecord(op, r, Grant(r, e, claim, reason).plan)
  {
    hide PortConfiguration.Valid, PortRecord.Valid, PortRecord.ValidButFor, PortCapabilities.Valid;
    hide CapabilityVerdict, Supports, ValidIdentifier, Granted;
  }

  lemma ReleasePromises(r: PortRecord, e: Envelope)
    requires Sound(r) && PlanRelease(r, e).Prepared?
    ensures PromisesRecord(ReleaseOwnership, r, PlanRelease(r, e).plan)
  {
    hide PortConfiguration.Valid, PortRecord.Valid, PortRecord.ValidButFor, PortCapabilities.Valid;
    hide CapabilityVerdict, Supports, ValidIdentifier, Planning.Holds;
  }

  /** Every planner keeps its promise, and what it applies or makes live was looked up. */
  lemma BuildPromises(r: PortRecord, input: BuildInput, q: Request)
    requires Sound(r) && !r.lifecycle.Retired?
    requires Build(r, input, q).Prepared?
    ensures var plan := Build(r, input, q).plan;
            && Promises(q.operation, r, plan)
            && (plan.requiresCapabilityValidation ==>
                  q.operation.AppliesToDevice() && plan.capability == input.capability)
            && (IsLive(plan.next.lifecycle) ==> IsLive(r.lifecycle) || input.device.Some?)
  {
    hide PlanConfigure, PlanReconfigure, PlanAdministrative, PlanProfile, PlanBindCapabilities, PlanReconcile, PlanFence;
    hide PlanEvidence, PlanDrift, PlanRelease, Grant, Promises, Sound, Profiles.Get, ValidIdentifier;
    var e := q.envelope;
    match q.operation
    case Configure(c) => ConfigurePromises(r, input, e, c);
    case Reconfigure(c) => ReconfigurePromises(r, input, e, c);
    case Administrative(op) => AdministrativePromises(r, e, op);
    case AssignProfile(id, generation) =>
      ProfilePromises(r, input, e, Some(Profiles.Get(input.profiles, id, generation).value.(id := id, generation := generation)),
                      q.operation);
    case ReleaseProfile => ProfilePromises(r, input, e, None, q.operation);
    case BindCapabilities(binding) => BindPromises(r, input, binding);
    case Reconcile(detail) => ReconcilePromises(r, input, e, detail);
    case Supersede(detail) => FencePromises(r, detail, false);
    case Retire(detail) => FencePromises(r, detail, true);
    case ClaimOwnership(claim) => GrantPromises(r, e, claim, "OWNERSHIP_CLAIMED", q.operation);
    case TransferOwnership(claim) => GrantPromises(r, e, claim, "OWNERSHIP_TRANSFERRED", q.operation);
    case ReleaseOwnership => ReleasePromises(r, e);
    case RecordEvidence(evidence) => EvidencePromises(r, evidence);
    case ObserveDrift(observed, detail) => DriftPromises(r, observed, detail);
  }

  // -------------------------------------------------------------------------
  // From plan to committed record
  // -------------------------------------------------------------------------

  /** The evidence a planner is given: what is bound, where anything is. */
  predicate Consults(r: PortRecord, q: Request, capability: CapabilityBinding) {
    q.operation.AppliesToDevice() && r.capability.present ==> capability == r.capability
  }

  /** A plan that passed every check proposes a sound record that carries its attempt. */
  ghost predicate Proposes(q: Request, r: PortRecord, next: PortRecord) {
    && Sound(next) && next.Valid() && Evolves(q.operation, r, next)
    && next.lastMutation.attempt == q.Attempt() && next.lastMutation.payloadDigest == q.digest
  }

  lemma PreparedProposes(r: PortRecord, input: BuildInput, q: Request)
    requires Sound(r) && !r.lifecycle.Retired? && Consults(r, q, input.capability)
    requires Prepare(Build(r, input, q), q).Prepared?
    ensures var plan := Prepare(Build(r, input, q), q).plan;
            && Proposes(q, r, plan.next) && plan.expected == CaptureExpected(r)
            && (plan.apply.Some? ==> plan.next.configuration == plan.apply)
            && (IsLive(plan.next.lifecycle) ==> IsLive(r.lifecycle) || input.device.Some?)
  {
    hide Build, PortConfiguration.Valid, ValidIdentifier, CapabilityVerdict, PortCapabilities.Valid, Evolves;
    BuildPromises(r, input, q);
    var draft := Build(r, input, q).plan;
    var plan := Prepare(Build(r, input, q), q).plan;
    StampKeeps(draft, q, r);
  }

  /** Stamping the attempt and the provenance touches nothing soundness looks at. */
  lemma StampKeeps(plan: MutationPlan, q: Request, r: PortRecord)
    requires plan.next.Valid()
    ensures var next := Stamp(plan, q).next;
            && next.Valid()
            && (ConfigurationAgrees(next) <==> ConfigurationAgrees(plan.next))
            && (CapabilityAgrees(next) <==> CapabilityAgrees(plan.next))
            && (EvidenceIsTrue(next) <==> EvidenceIsTrue(plan.next))
            && (LiveIsSupported(next) <==> LiveIsSupported(plan.next))
            && (RetiredIsUnowned(next) <==> RetiredIsUnowned(plan.next))
            && (Evolves(q.operation, r, next) <==> Evolves(q.operation, r, plan.next))
  {
    hide PortConfiguration.Valid, ValidIdentifier, CapabilityVerdict, PortCapabilities.Valid, Supports, Utf8.ValidText;
  }

  /** Whatever the adapter answers, the record that reaches commit is still a sound proposal. */
  lemma SettledProposes(q: Request, r: PortRecord, plan: MutationPlan, policy: AdapterPolicy, reply: AdapterReply)
    requires Proposes(q, r, plan.next)
    requires plan.apply.Some? ==> plan.next.configuration == plan.apply
    ensures Settle(plan, policy, reply).Settled? ==>
              && Proposes(q, r, Settle(plan, policy, reply).next)
              && Settle(plan, policy, reply).next.lifecycle == plan.next.lifecycle
  {
    hide PortRecord.Valid, Sound, Evolves, ValidIdentifier;
    var settled := Settle(plan, policy, reply);
    if settled.Settled? && plan.apply.Some? {
      OnlyEvidence(q.operation, r, plan.next, settled.next);
    }
  }

  /** A record that differs only in fresh evidence of its own configuration stays sound. */
  lemma OnlyEvidence(op: Operation, r: PortRecord, next: PortRecord, settled: PortRecord)
    requires Sound(next) && next.Valid() && Evolves(op, r, next) && next.configuration.Some?
    requires settled == next.(applied := settled.applied, drift := settled.drift,
                              generations := next.generations.(evidence := settled.generations.evidence))
    requires settled.applied.generation == next.generations.configuration
    ensures Sound(settled) && settled.Valid() && Evolves(op, r, settled)
  {
    hide PortConfiguration.Valid, ValidIdentifier, CapabilityVerdict, PortCapabilities.Valid, Supports, Utf8.ValidText;
  }

  // -------------------------------------------------------------------------
  // Retirement, stranding, dereferences
  // -------------------------------------------------------------------------

  /** The unchecked uses of the parent device's generation are safe for a live port whose
      parent device is recorded. */
  lemma NeverUndefined(r: PortRecord, input: BuildInput, q: Request)
    requires IsLive(r.lifecycle) ==> input.device.Some?
    ensures Build(r, input, q) != Undefined
  {
    hide PortConfiguration.Valid, ValidIdentifier, ProfileIsKnown, IsLive, FencedRejection, MakeProvenance, Reissued;
    hide PlanConfigure, PlanAdministrative, PlanBindCapabilities, PlanReconcile, PlanFence, PlanClaim, PlanTransfer;
    hide PlanRelease, PlanEvidence, PlanDrift, Reprofiled, Profiles.Get;
  }

  /** A stranded record can only be superseded or retired: every other plan fails validation. */
  lemma StrandedOnlyFences(r: PortRecord, input: BuildInput, q: Request)
    requires Sound(r) && Stranded(r)
    requires Prepare(Build(r, input, q), q).Prepared?
    ensures q.operation.Supersede? || q.operation.Retire?
  {
    hide PortConfiguration.Valid, ValidIdentifier, Supports, PortCapabilities.Valid, ProfileIsKnown, ConfigurationAgrees;
    hide CapabilityAgrees, EvidenceIsTrue, LiveIsSupported, Utf8.ValidText, AdministrativeReason, FencedRejection;
    hide MakeProvenance, EvidenceReason, Granted, PlanProfile, PortOwnership.Valid;
  }

  /** A request that passed the ownership gate and was planned on an owned port is the holder's,
      unless it is a claim. */
  lemma OwnedMeansHeld(r: PortRecord, input: BuildInput, q: Request)
    requires OwnershipGate(r, q).None? && Build(r, input, q).Prepared?
    ensures r.ownership.Some? && !q.operation.ClaimOwnership? ==> Planning.Holds(r, q.Authority())
  {
    hide PortConfiguration.Valid, ValidIdentifier, Supports, PortCapabilities.Valid, ProfileIsKnown;
    hide PlanConfigure, PlanReconfigure, PlanAdministrative, PlanProfile, PlanBindCapabilities, PlanReconcile, PlanFence;
    hide PlanEvidence, PlanDrift;
  }
}
