/** Runs that show what loads and saves can do to a running engine. */
module LoadRuns {
  import opened Basics
  import opened Records
  import opened Lifecycle
  import opened Profiles
  import opened Planning
  import opened PlanningLaws
  import opened Engine
  import opened Recovery
  import opened Safety
  import opened Runs
  import opened RunLaws
  import opened RunTheorems
  import opened Parents
  import opened LiveLoad
  import opened Witnesses
  import opened LoadSteps
  import opened Utf8
  import Pipeline
  import opened Wording

  const PARENT := DeviceBinding(DEVICE, 3, [])

  function Current(epoch: Generation): PublisherRecord { PublisherRecord(AGENT, BOOT, epoch, false) }

  predicate Holding(s: State, r: PortRecord) {
    && s.config == CONFIG && s.records == map[PORT := r] && r.port == PORT
    && s.devices == map[DEVICE := PARENT] && s.profiles == map[]
  }

  // -------------------------------------------------------------------------
  // A retirement is undone by a load
  // -------------------------------------------------------------------------

  /** A retirement accepted after the last save, and nothing in flight: the load brings the port back as
      unconfigured. */
  lemma RetirementUndone() returns (w: World, v: World)
    ensures Reachable(CONFIG, w) && Reachable(CONFIG, v)
    ensures TokenAt(w, 0) == Some(Finished(Ask(1, Operation.Retire([]), A1), OutcomeCode.Ok))
    ensures PORT in w.state.records && w.state.records[PORT].lifecycle.Retired?
    ensures v == Step(w, RestoringRecords(0)) && PORT in v.state.records && v.state.records[PORT].lifecycle.Unconfigured?
  {
    hide Reachable, Step, ValidIdentifier, Consistent, BoundRecord, PortRecord.Valid, Rewritten, RecoverAuthority, Lawful;
    hide RecoveryRefusal;
    var retired, base := SavedAndRetired();
    var image := retired.disk.value;
    UnconfiguredRewrite(base);
    SameDomain(retired.state.config, image);
    w := LoadsTables(retired, 0, image);
    AuthorityFacts(retired.state.(profiles := map[]), image);
    v := LoadsRecords(w, 0, image, base);
  }

  lemma SameDomain(config: EngineConfig, image: PersistedState)
    requires |image.records| <= config.portBound && image.fabric == config.fabric && image.site == config.site
    ensures RecoveryRefusal(config, image) == Ok
  {
  }

  lemma AuthorityFacts(s: State, image: PersistedState)
    ensures var t := RecoverAuthority(s, image);
            && t.records == s.records && t.generation == s.generation && t.config == s.config && t.profiles == s.profiles
            && t.devices == RefillDevices(image.devices) && t.publishers == RefillPublishers(image.publishers)
            && t.epoch == (if image.epoch >= s.epoch then Next(image.epoch) else s.epoch)
            && t.topology == (if image.topology > s.topology then image.topology else s.topology)
  {
  }

  /** The port is bound and saved, then retired. */
  lemma SavedAndRetired() returns (w: World, base: PortRecord)
    ensures Reachable(CONFIG, w) && w.loads == map[] && w.spent == {(PORT, A0), (PORT, A1)}
    ensures w.tokens == map[0 := Finished(Ask(1, Operation.Retire([]), A1), OutcomeCode.Ok)]
    ensures w.state.config == CONFIG && w.state.epoch == 1 && w.state.generation == 2 && w.state.profiles == map[]
    ensures PORT in w.state.records && w.state.records[PORT].lifecycle.Retired?
    ensures base == BoundRecord(Bind(3, A0), NoReading) && base.Valid() && base.port == PORT && base.lifecycle.Unconfigured?
    ensures base.configuration.None? && base.ownership.None? && base.applied == NO_EVIDENCE
    ensures w.disk == Some(PersistedState([], [], 1, 1, 1, [base], [], [PARENT], []))
  {
    hide Reachable, Step, ValidIdentifier, Consistent, BoundRecord, PlannedToken, PortRecord.Valid, WouldCommit, Lawful;
    hide GateState, CaptureExpected, WalksDevices, WalksRecords, WalksPublishers;
    StartIsBlank();
    var bound := FreshPort(Start(CONFIG));
    base := BoundRecord(Bind(3, A0), NoReading);
    BoundIsValid(3, A0);
    BoundIsFresh(3, A0);
    WalksOne(bound.state);
    var saved := Saves(bound, 0, [base], [PARENT], []);
    w := RetiresFresh(saved, base);
  }

  /** The fresh port is retired. */
  lemma RetiresFresh(w: World, base: PortRecord) returns (v: World)
    requires Reachable(CONFIG, w) && w.tokens == map[] && AgentPasses(w.state, 1) && w.state.records == map[PORT := base]
    requires base == BoundRecord(Bind(3, A0), NoReading) && w.spent == {(PORT, A0)} && w.state.generation == 1
    ensures Reachable(CONFIG, v) && v.loads == w.loads && v.saves == w.saves && v.disk == w.disk
    ensures v.spent == {(PORT, A0), (PORT, A1)}
    ensures v.tokens == map[0 := Finished(Ask(1, Operation.Retire([]), A1), OutcomeCode.Ok)]
    ensures PORT in v.state.records && v.state.records[PORT].lifecycle.Retired? && v.state.records[PORT].Valid()
    ensures v.state.records == map[PORT := v.state.records[PORT]] && v.state.records[PORT].port == PORT
    ensures v.state == w.state.(records := v.state.records, generation := 2,
                                publishers := w.state.publishers[AGENT := Current(1)])
  {
    hide Reachable, Step, ValidIdentifier, Consistent, BoundRecord, PortRecord.Valid, WouldCommit, Lawful, CaptureExpected;
    BoundIsFresh(3, A0);
    var ready, next := RetirementReady(w, base);
    StillCommits(ready, 0);
    v := Commits(ready, 0);
    assert v.state.records == map[PORT := next];
  }

  lemma RetirementReady(w: World, base: PortRecord) returns (v: World, next: PortRecord)
    requires Reachable(CONFIG, w) && w.tokens == map[] && AgentPasses(w.state, 1) && w.state.records == map[PORT := base]
    requires base == BoundRecord(Bind(3, A0), NoReading)
    ensures Reachable(CONFIG, v)
    ensures v == w.(state := w.state.(publishers := w.state.publishers[AGENT := Current(1)]),
                    tokens := map[0 := Ready(Ask(1, Operation.Retire([]), A1), base, CaptureExpected(base), next)])
    ensures next.Valid() && next.lifecycle.Retired? && next.port == PORT && next.lastMutation.attempt == A1
  {
    hide Reachable, Step, ValidIdentifier, Consistent, BoundRecord, PlannedToken, PortRecord.Valid, GateState, CaptureExpected;
    BoundIsValid(3, A0);
    BoundIsFresh(3, A0);
    AgentIsGated(w.state, 1, Operation.Retire([]), A1);
    var plan := RetirePlans(GateState(w.state, Ask(1, Operation.Retire([]), A1)), base, A1);
    v := Readies(w, 0, 1, Operation.Retire([]), A1, plan);
    next := plan.next;
  }

  // -------------------------------------------------------------------------
  // A save takes the disk back
  // -------------------------------------------------------------------------

  /** A save reads its records, a retirement is accepted, a later save reads and writes it, and then the
      first one writes: the disk goes back to the port as it was before. */
  lemma SaveGoesBack() returns (w: World, v: World)
    ensures Reachable(CONFIG, w) && Reachable(CONFIG, v) && v == Step(w, Writing(0, true))
    ensures TokenAt(w, 0) == Some(Finished(Ask(1, Operation.Retire([]), A1), OutcomeCode.Ok))
    ensures w.disk.Some? && exists r :: r in w.disk.value.records && r.port == PORT && r.lifecycle.Retired?
    ensures v.disk.Some? && exists r :: r in v.disk.value.records && r.port == PORT && r.lifecycle.Unconfigured?
    ensures v.disk.value.engineGeneration < w.disk.value.engineGeneration
  {
    hide Reachable, Step, ValidIdentifier, Consistent, BoundRecord, PortRecord.Valid, Lawful, WalksDevices, WalksRecords;
    hide WalksPublishers;
    StartIsBlank();
    var bound := FreshPort(Start(CONFIG));
    var base := BoundRecord(Bind(3, A0), NoReading);
    BoundIsValid(3, A0);
    BoundIsFresh(3, A0);
    WalksOne(bound.state);
    var read := Reads(bound, 0, [base], [PARENT], []);
    var retired := RetiresFresh(read, base);
    var after := retired.state.records[PORT];
    WalksOne(retired.state);
    assert map[][AGENT := Current(1)] == map[AGENT := Current(1)];
    w := Saves(retired, 1, [after], [PARENT], [Current(1)]);
    v := Writes(w, 0, ImageOf(bound.state, [base], [PARENT], []));
    assert after in w.disk.value.records && base in v.disk.value.records;
  }

  // -------------------------------------------------------------------------
  // A live load hides an update
  // -------------------------------------------------------------------------

  /** The image of the fresh port, loaded back: a recovered, never configured port. */
  lemma RecoveredPort() returns (w: World)
    ensures Reachable(CONFIG, w) && Holding(w.state, Rewritten(BoundRecord(Bind(3, A0), NoReading)))
    ensures w.state.epoch == 2 && w.state.generation == 2 && w.state.publishers == map[] && w.state.topology == 1
    ensures w.tokens == map[] && w.saves.Keys == {0} && w.loads.Keys == {0} && w.spent == {(PORT, A0)}
  {
    hide Reachable, Step, ValidIdentifier, Consistent, BoundRecord, Rewritten, PortRecord.Valid, RecoverAuthority, Lawful;
    hide WalksDevices, WalksRecords, WalksPublishers, RecoveryRefusal;
    StartIsBlank();
    var bound := FreshPort(Start(CONFIG));
    var base := BoundRecord(Bind(3, A0), NoReading);
    BoundIsValid(3, A0);
    BoundIsFresh(3, A0);
    WalksOne(bound.state);
    var saved := Saves(bound, 0, [base], [PARENT], []);
    w := LoadsBack(saved, 0, saved.disk.value, base);
  }

  /** Loading a container of the one port and its parent, with nothing in flight on it. */
  lemma LoadsBack(w: World, lid: nat, image: PersistedState, r: PortRecord) returns (v: World)
    requires Reachable(CONFIG, w) && lid !in w.loads && w.disk == Some(image) && w.state.config == CONFIG
    requires image == PersistedState([], [], image.epoch, image.engineGeneration, 1, [r], [], [PARENT], [])
    requires !Exhaustible(image.epoch) && image.epoch >= w.state.epoch && !Exhaustible(image.engineGeneration)
    requires r.Valid() && r.port == PORT && w.tokens == map[] && w.state.topology == 1
    ensures Reachable(CONFIG, v) && Holding(v.state, Rewritten(r)) && v.state.epoch == Next(image.epoch)
    ensures v.state.generation == Next(image.engineGeneration) && v.state.publishers == map[] && v.state.topology == 1
    ensures v.tokens == w.tokens && v.saves == w.saves && v.spent == w.spent && v.disk == w.disk
    ensures v.loads == w.loads[lid := Loaded(Ok)]
  {
    hide Reachable, Step, ValidIdentifier, Rewritten, PortRecord.Valid, Reopened, Lawful, RecoveryRefusal;
    SameDomain(w.state.config, image);
    ReopenedFacts(w.state, image, r);
    OneParent();
    RewriteKeepsPort(r);
    v := Loads(w, lid, image, r);
  }

  lemma OneParent()
    ensures RefillDevices([PARENT]) == map[DEVICE := PARENT] && RefillDevices([]) == map[] && RefillPublishers([]) == map[]
    ensures forall p: PublisherRecord :: RefillPublishers([p]) == map[p.publisher := p.(fenced := true)]
  {
    hide ValidIdentifier;
    assert [PARENT][..0] == [];
    forall p: PublisherRecord ensures RefillPublishers([p]) == map[p.publisher := p.(fenced := true)] {
      assert [p][..0] == [];
    }
  }

  lemma DriftPlans(s: State, base: PortRecord, epoch: Generation, attempt: Id) returns (plan: MutationPlan)
    requires base.Valid() && base.ownership.None? && base.lifecycle.Unconfigured? && base.drift.Unknown? && Named(attempt)
    requires base.parentDevice in s.devices && s.devices[base.parentDevice].generation == base.generations.device
    ensures var q := Ask(epoch, ObserveDrift(DriftState.Drifted, []), attempt);
            PlannedToken(s, q, base, NoReading) == Planned(q, base, plan)
    ensures plan.apply.None? && plan.expected == CaptureExpected(base) && plan.next.Valid()
    ensures plan.next.lastMutation.attempt == attempt && plan.next.drift.Drifted? && plan.next.generations == base.generations
    ensures plan.next.port == base.port && plan.next.ownership.None? && plan.next.configuration == base.configuration
    ensures plan.next.lifecycle == base.lifecycle && plan.next.applied == base.applied
  {
    hide ValidText, ValidIdentifier, PortConfiguration.Valid, Consistent, PlannedToken, PlanConfigure, PlanReconfigure;
    hide PlanAdministrative, PlanProfile, PlanBindCapabilities, PlanReconcile, PlanEvidence, PlanFence, CaptureExpected, Grant;
    AsciiIsText("DRIFT_DRIFTED", MAX_NAME_LENGTH);
    AsciiIsText([], MAX_DESCRIPTION_LENGTH);
    var q := Ask(epoch, ObserveDrift(DriftState.Drifted, []), attempt);
    PlansRecord(s, q, base, PlanDrift(base, DriftState.Drifted, []).plan);
    plan := Stamp(PlanDrift(base, DriftState.Drifted, []).plan, q);
  }

  lemma ExposedToDrift(base: PortRecord, drifted: PortRecord)
    requires !Named(base.lastMutation.attempt) && drifted.generations == base.generations
    requires drifted.configuration.None? && drifted.ownership.None? && drifted.applied == NO_EVIDENCE
    ensures Exposed(base, drifted)
  {
    hide ValidIdentifier;
  }

  /** A claim and a drift observation, both ready on one snapshot. */
  lemma BothReady() returns (w: World, base: PortRecord, next: PortRecord, observed: PortRecord)
    ensures Reachable(CONFIG, w) && Holding(w.state, base) && w.state.epoch == 2 && w.state.generation == 2
    ensures w.tokens.Keys == {1, 2} && w.tokens[1] == Ready(Ask(2, ClaimOwnership(CLAIM), A1), base, CaptureExpected(base), next)
    ensures w.tokens[2] == Ready(Ask(2, ObserveDrift(DriftState.Drifted, []), A2), base, CaptureExpected(base), observed)
    ensures w.saves.Keys == {0} && w.loads.Keys == {0} && w.spent == {(PORT, A0)} && w.state.topology == 1
    ensures w.state.publishers == map[AGENT := Current(2)]
    ensures base.drift.Unknown? && next.drift.Unknown? && observed.drift.Drifted? && observed.Valid()
    ensures !Named(base.lastMutation.attempt) && observed.lastMutation.attempt == A2 && observed.port == PORT
    ensures observed.generations == base.generations && observed.configuration.None? && observed.ownership.None?
    ensures observed.applied == NO_EVIDENCE && base.lifecycle.Unconfigured? && observed.lifecycle.Unconfigured?
  {
    hide Reachable, Step, ValidIdentifier, Consistent, PlannedToken, PortRecord.Valid, GateState, CaptureExpected, Lawful;
    var claimed: World;
    claimed, base, next := ClaimReady();
    var p := Ask(2, ObserveDrift(DriftState.Drifted, []), A2);
    AgentIsGated(claimed.state, 2, p.operation, A2);
    var plan := DriftPlans(GateState(claimed.state, p), base, 2, A2);
    w := Readies(claimed, 2, 2, p.operation, A2, plan);
    observed := plan.next;
  }

  lemma ClaimReady() returns (w: World, base: PortRecord, next: PortRecord)
    ensures Reachable(CONFIG, w) && Holding(w.state, base) && w.state.epoch == 2 && w.state.generation == 2
    ensures w.tokens == map[1 := Ready(Ask(2, ClaimOwnership(CLAIM), A1), base, CaptureExpected(base), next)]
    ensures w.saves.Keys == {0} && w.loads.Keys == {0} && w.spent == {(PORT, A0)} && w.state.topology == 1
    ensures w.state.publishers == map[AGENT := Current(2)]
    ensures base.Valid() && base.drift.Unknown? && next.drift.Unknown? && !Named(base.lastMutation.attempt)
    ensures base.lifecycle.Unconfigured? && base.ownership.None? && base.configuration.None? && base.applied == NO_EVIDENCE
    ensures base.parentDevice == DEVICE && base.generations.device == 3 && base.generations.configuration == 0
  {
    hide Reachable, Step, ValidIdentifier, Consistent, BoundRecord, PlannedToken, PortRecord.Valid;
    hide GateState, CaptureExpected, Rewritten, Lawful;
    var recovered := RecoveredPort();
    var first := BoundRecord(Bind(3, A0), NoReading);
    base := Rewritten(first);
    BoundIsValid(3, A0);
    BoundIsFresh(3, A0);
    UnconfiguredRewrite(first);
    RewriteKeepsValid(first);
    var q := Ask(2, ClaimOwnership(CLAIM), A1);
    AgentIsGated(recovered.state, 2, q.operation, A1);
    var plan := ClaimPlans(GateState(recovered.state, q), base, 2, A1);
    w := Readies(recovered, 1, 2, q.operation, A1, plan);
    next := plan.next;
  }

  /** The claim is ready, the drift is committed and saved, and a load has restored all but the
      records. */
  lemma DriftSaved() returns (w: World, image: PersistedState, claim: Token, drifted: PortRecord)
    ensures Reachable(CONFIG, w) && TokenAt(w, 1) == Some(claim) && claim.Ready? && claim.q.Port() == PORT
    ensures LoadAt(w, 1) == Some(AuthorityRestored(image)) && image.records == [drifted] && image.engineGeneration == 3
    ensures PORT in w.state.records && w.state.records[PORT] == drifted
    ensures !Named(claim.base.lastMutation.attempt) && drifted.generations == claim.base.generations && drifted.port == PORT
    ensures claim.base.drift.Unknown? && claim.next.drift.Unknown? && drifted.drift.Drifted? && drifted.Valid()
    ensures drifted.configuration.None? && drifted.ownership.None? && drifted.applied == NO_EVIDENCE
    ensures !drifted.lifecycle.Retired?
  {
    hide Reachable, Step, ValidIdentifier, Consistent, PortRecord.Valid, WouldCommit, CaptureExpected, RecoverAuthority;
    hide WalksPublishers, WalksDevices, WalksRecords, Lawful, RecoveryRefusal;
    var both, base, next, observed := BothReady();
    drifted := observed;
    claim := both.tokens[1];
    StillCommits(both, 2);
    var committed := Commits(both, 2);
    WalksOne(committed.state);
    assert committed.state.records == map[PORT := drifted];
    var saved := Saves(committed, 1, [drifted], [PARENT], [Current(2)]);
    image := saved.disk.value;
    SameDomain(saved.state.config, image);
    w := LoadsTables(saved, 1, image);
    AuthorityFacts(saved.state.(profiles := map[]), image);
  }

  /** A claim holds a snapshot of a recovered port; a drift is observed, saved and loaded into the
      running engine. The claim then replaces a record that is not its snapshot: the observation is
      lost without a conflict. */
  lemma LiveLoadHidesAnUpdate() returns (w: World, v: World)
    ensures Reachable(CONFIG, w) && v == Step(w, RestoringRecords(1)) && 1 in w.tokens && w.tokens[1].Ready?
    ensures PORT in w.state.records && w.state.records[PORT].drift.Drifted?
    ensures WouldCommit(v, 1) && PORT in v.state.records && v.state.records[PORT].drift.Drifted?
    ensures w.tokens[1].base.drift.Unknown? && w.tokens[1].next.drift.Unknown?
  {
    hide Reached, Step, ValidIdentifier, Consistent, PortRecord.Valid, CaptureExpected, Rewritten, Exposed, WouldCommit;
    var image: PersistedState, claim: Token, drifted: PortRecord;
    w, image, claim, drifted := DriftSaved();
    v := Step(w, RestoringRecords(1));
    var events :| Reached(CONFIG, events, w);
    LiveLoadBoundary(CONFIG, events, w, 1, image, 1, drifted);
    ExposedToDrift(claim.base, drifted);
    UnconfiguredRewrite(drifted);
    RestoredGeneration(w, 1, image, drifted);
  }

  lemma RestoredGeneration(w: World, lid: nat, image: PersistedState, r: PortRecord)
    requires LoadAt(w, lid) == Some(AuthorityRestored(image)) && image.records == [r] && r.Valid()
    requires !Exhaustible(image.engineGeneration)
    ensures var s := Step(w, RestoringRecords(lid)).state;
            s.generation == Next(image.engineGeneration) && s.records == map[r.port := Rewritten(r)]
  {
    hide Step, Rewritten, PortRecord.Valid, Refill, ValidIdentifier, Consistent;
    RefillsOne(r);
    Pipeline.RestoringOf(w, lid);
  }
}
