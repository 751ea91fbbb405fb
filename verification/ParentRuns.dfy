/** Runs in which a load takes the parent device from under a live port, and one in which a crash lets
    an incarnation back in. */
module ParentRuns {
  import opened Basics
  import opened Records
  import opened Lifecycle
  import opened Profiles
  import opened Planning
  import opened PlanningLaws
  import opened Engine
  import opened Recovery
  import opened Safety
  import opened Runs
  import opened RunLaws
  import opened RunTheorems
  import opened Parents
  import opened Witnesses
  import opened LoadSteps
  import opened LoadRuns
  import opened Utf8
  import opened Wording
  import Incarnations

  const A3: Id := "a3"

  /** What a save of the untouched engine writes. */
  const NOTHING := PersistedState([], [], 1, 0, 1, [], [], [], [])

  lemma NothingSaved() returns (w: World)
    ensures Blank(w) && w.disk == Some(NOTHING)
  {
    hide Reachable, Step, WalksDevices, WalksRecords, WalksPublishers, ValidIdentifier;
    StartIsBlank();
    WalksOne(Start(CONFIG).state);
    w := Saves(Start(CONFIG), 0, [], [], []);
  }

  // -------------------------------------------------------------------------
  // Between the regions of a load
  // -------------------------------------------------------------------------

  /** A request that states the configuration it expects. */
  function AskExpecting(epoch: Generation, expected: Generation, operation: Operation, attempt: Id): Request {
    Request(Envelope(Authority(epoch, attempt).(expectedConfiguration := expected), PORT, ProvenanceKind.Unknown, []), operation, 1)
  }

  lemma OwnerIsScreened(base: PortRecord, q: Request, topology: Generation)
    requires q == AskExpecting(2, base.generations.configuration, q.operation, q.Attempt())
    requires base.ownership.Some? && base.ownership.value.HeldBy(AGENT, BOOT, 2)
    requires !base.lifecycle.Retired? && base.lastMutation.attempt != q.Attempt()
    ensures Screen(base, q, topology).None?
  {
    hide ValidIdentifier, Consistent;
  }

  lemma ExpectingIsGated(s: State, q: Request)
    requires AgentPasses(s, 2) && AGENT in s.publishers && Named(q.Attempt())
    requires q == AskExpecting(2, q.Authority().expectedConfiguration, q.operation, q.Attempt())
    ensures GateToken(s, q) == Gated(q) && GateState(s, q) == s
  {
    hide ValidIdentifier, Consistent;
  }

  /** A mutation of a live port whose parent is not recorded, up to its planning. */
  lemma Crashes(w: World, id: nat, q: Request) returns (v: World)
    requires Reachable(CONFIG, w) && id !in w.tokens && GateToken(w.state, q) == Gated(q) && GateState(w.state, q) == w.state
    requires q.Port() in w.state.records
    requires var base := w.state.records[q.Port()];
             && Screen(base, q, w.state.topology).None? && base.parentDevice !in w.state.devices
             && IsLive(base.lifecycle) && base.configuration.Some? && !base.capability.present
             && Dereferences(q, base, w.state.profiles)
    ensures Reachable(CONFIG, v) && TokenAt(v, id) == Some(Crashed(q)) && v.loads == w.loads
  {
    hide Reachable, Step, GateToken, GateState, Screen, PlanToken, ValidIdentifier, Consistent, Dereferences;
    hide PortCapabilities.Valid, Lawful;
    var s, base := w.state, w.state.records[q.Port()];
    EvidenceIsLegal();
    var a := Step(w, Submit(id, q));
    StepOfSubmit(w, id, q);
    ReachOn(CONFIG, w, Submit(id, q));
    var b := Step(a, Snapshot(id));
    StepOfSnapshot(a, id, q);
    ReachOn(CONFIG, a, Snapshot(id));
    var c := Step(b, Screening(id));
    StepOfScreening(b, id, q, base);
    ReachOn(CONFIG, b, Screening(id));
    var d := Step(c, Resolving(id));
    StepOfResolving(c, id, q, base);
    ReachOn(CONFIG, c, Resolving(id));
    v := Step(d, Event.Planning(id, Reading(EVIDENCE), false, false, []));
    StepOfPlanning(d, id, q, base, Reading(EVIDENCE));
    ReachOn(CONFIG, d, Event.Planning(id, Reading(EVIDENCE), false, false, []));
    CrashesExactly(s, ResolveToken(s, q, base), Reading(EVIDENCE), false, false, []);
    CrashedKeepsRequest(s, ResolveToken(s, q, base));
  }

  lemma CrashedKeepsRequest(s: State, t: Token)
    requires t.Resolved? && PlanToken(s, t, Reading(EVIDENCE), false, false, []).Crashed?
    ensures PlanToken(s, t, Reading(EVIDENCE), false, false, []) == Crashed(t.q)
  {
    hide Build, Prepare, DeviceGate, ResolveCapabilities, ValidIdentifier, Consistent;
  }

  /** A load stands between its regions: its container has neither the live port nor its parent. */
  lemma ConfiguredBetween() returns (w: World)
    ensures Reachable(CONFIG, w) && LoadAt(w, 0) == Some(AuthorityRestored(NOTHING))
    ensures w.tokens.Keys == {0} && w.tokens[0].Finished? && w.spent == {(PORT, A0), (PORT, A1)}
    ensures PORT in w.state.records && AgentPasses(w.state, 2) && w.state.devices == map[] && w.state.generation == 2
    ensures w.state.publishers == map[]
    ensures var r := w.state.records[PORT];
            && r.Valid() && r.configuration.Some? && r.ownership.None? && r.lifecycle.Configured? && r.parentDevice == DEVICE
            && r.lastMutation.attempt == A1 && r.port == PORT && r.generations.configuration == 1 && !r.capability.present
  {
    hide Reachable, Step, ValidIdentifier, PortRecord.Valid, Lawful, RecoverAuthority, RecoveryRefusal;
    var start := NothingSaved();
    var configured := ConfiguredPort(start);
    SameDomain(configured.state.config, NOTHING);
    OneParent();
    AuthorityFacts(configured.state.(profiles := map[]), NOTHING);
    w := LoadsTables(configured, 0, NOTHING);
  }

  /** The agent, registered by its first request under the new epoch, owns the port, and nothing is in
      flight. */
  lemma OwnedBetween() returns (w: World)
    ensures Reachable(CONFIG, w) && Restoring(w) && w.tokens.Keys == {0, 1}
    ensures w.tokens[0].Finished? && w.tokens[1].Finished?
    ensures PORT in w.state.records && AgentPasses(w.state, 2) && AGENT in w.state.publishers && w.state.devices == map[]
    ensures var r := w.state.records[PORT];
            && IsLive(r.lifecycle) && r.configuration.Some? && !r.capability.present && r.port == PORT
            && r.ownership.Some? && r.ownership.value.HeldBy(AGENT, BOOT, 2) && r.lastMutation.attempt == A2
            && r.generations.configuration == 1
  {
    hide Reachable, Step, ValidIdentifier, Consistent, PlannedToken, PortRecord.Valid, WouldCommit, CaptureExpected, Lawful;
    hide GateState, PortConfiguration.Valid;
    var between := ConfiguredBetween();
    var base := between.state.records[PORT];
    var q := Ask(2, ClaimOwnership(CLAIM), A2);
    AgentIsGated(between.state, 2, q.operation, A2);
    var plan := ClaimPlans(GateState(between.state, q), base, 2, A2);
    var ready := Readies(between, 1, 2, q.operation, A2, plan);
    StillCommits(ready, 1);
    w := Commits(ready, 1);
    OwnershipOfValid(plan.next);
    assert w.state.publishers == map[AGENT := Current(2)];
    assert w.loads[0].AuthorityRestored?;
  }

  lemma OwnershipOfValid(r: PortRecord)
    requires r.Valid() && r.ownership.Some?
    ensures r.ownership.value.Valid()
  {
    hide PortConfiguration.Valid, ValidText, ValidIdentifier;
  }

  /** Its reconfiguration, started and planned there, uses the generation of a device that is not
      recorded. No mutation held a snapshot in either region of the load. */
  lemma CrashBetweenRegions() returns (before: World, w: World)
    ensures Reachable(CONFIG, before) && Restoring(before) && forall id :: id in before.tokens ==> !before.tokens[id].HasBase()
    ensures Reachable(CONFIG, w) && Restoring(w) && TokenAt(w, 2).Some? && w.tokens[2].Crashed?
  {
    hide Reachable, Step, ValidIdentifier, Consistent, PortRecord.Valid, Screen, GateToken, GateState, AgentPasses;
    before := OwnedBetween();
    var base := before.state.records[PORT];
    var q := AskExpecting(2, 1, Operation.Reconfigure(WANTED), A3);
    ExpectingIsGated(before.state, q);
    OwnerIsScreened(base, q, before.state.topology);
    w := Crashes(before, 2, q);
    var id :| id in before.loads && before.loads[id].AuthorityRestored?;
    assert w.loads[id].AuthorityRestored?;
  }

  // -------------------------------------------------------------------------
  // A live port on no device
  // -------------------------------------------------------------------------

  /** A save that read the devices before the port was bound and the records after it. */
  lemma SavedWithoutParent() returns (w: World, image: PersistedState, base: PortRecord)
    ensures Reachable(CONFIG, w) && w.disk == Some(image) && w.tokens == map[] && w.loads == map[] && w.spent == {(PORT, A0)}
    ensures image == PersistedState([], [], 1, 1, 1, [base], [], [], [])
    ensures base == BoundRecord(Bind(3, A0), NoReading) && base.Valid() && base.port == PORT
    ensures w.state.config == CONFIG && w.state.epoch == 1 && w.state.topology == 1 && w.state.records == map[PORT := base]
  {
    hide Reachable, Step, ValidIdentifier, Consistent, BoundRecord, PortRecord.Valid, Lawful, WalksDevices, WalksRecords;
    hide WalksPublishers;
    StartIsBlank();
    WalksOne(Start(CONFIG).state);
    StepOfFirstRead(Start(CONFIG), 0, [], []);
    ReachOn(CONFIG, Start(CONFIG), ReadingAuthority(0, [], []));
    var begun := Step(Start(CONFIG), ReadingAuthority(0, [], []));
    var bound := FreshPort(begun);
    base := BoundRecord(Bind(3, A0), NoReading);
    BoundIsValid(3, A0);
    BoundIsFresh(3, A0);
    WalksOne(bound.state);
    var first := AuthorityImage(Start(CONFIG).state, [], []);
    image := first.(records := [base], engineGeneration := 1);
    var read := ReadsOn(bound, 0, first, [base]);
    w := Writes(read, 0, image);
  }

  /** That container is loaded, the device is registered anew, and a first configuration of the port is
      ready. */
  lemma ReadyWithoutParent() returns (w: World, image: PersistedState, saved: PortRecord, next: PortRecord)
    ensures Reachable(CONFIG, w) && w.disk == Some(image) && image == PersistedState([], [], 1, 1, 1, [saved], [], [], [])
    ensures saved.Valid() && saved.port == PORT && w.state.config == CONFIG && w.state.epoch == 2
    ensures w.state.records == map[PORT := Rewritten(saved)] && w.loads == map[0 := Loaded(Ok)] && w.spent == {(PORT, A0)}
    ensures w.tokens == map[0 := Ready(Ask(2, Operation.Configure(WANTED), A1), Rewritten(saved), CaptureExpected(Rewritten(saved)),
                                       next)]
    ensures !Named(Rewritten(saved).lastMutation.attempt) && Rewritten(saved).lifecycle.Unconfigured?
    ensures IsLive(next.lifecycle) && next.parentDevice == DEVICE && next.lastMutation.attempt == A1
  {
    hide Reachable, Step, ValidIdentifier, Consistent, BoundRecord, PortRecord.Valid, Lawful, PlannedToken, ApplyToken;
    hide GateToken, GateState, CaptureExpected, ResolveToken, Screen, Rewritten;
    var registered: World;
    registered, image, saved := RegisteredAgain();
    var base := Rewritten(saved);
    var q := Ask(2, Operation.Configure(WANTED), A1);
    AsciiIsText([], MAX_DESCRIPTION_LENGTH);
    AgentIsGated(registered.state, 2, q.operation, A1);
    UnownedIsScreened(base, q, registered.state.topology);
    var plan := ConfigurePlans(GateState(registered.state, q), base, 2, A1);
    next := SilentSettles(GateState(registered.state, q), q, base, plan);
    w := Prepares(registered, 0, q, Reading(EVIDENCE), SILENT, plan);
  }

  lemma BoundRewrites(saved: PortRecord)
    requires saved == BoundRecord(Bind(3, A0), NoReading) && saved.Valid()
    ensures var r := Rewritten(saved);
            && r.Valid() && r.lifecycle.Unconfigured? && r.ownership.None? && !r.capability.present && r.configuration.None?
            && r.generations == GenerationVector(0, 0, 0, 0, 0, 3, 1, 0) && r.parentDevice == DEVICE && r.port == PORT
            && !Named(r.lastMutation.attempt)
  {
    hide ValidIdentifier, BoundRecord, PortRecord.Valid, Rewritten;
    BoundIsFresh(3, A0);
    UnconfiguredRewrite(saved);
    RewriteKeepsValid(saved);
  }

  lemma LoadedBack() returns (w: World, image: PersistedState, saved: PortRecord)
    ensures Reachable(CONFIG, w) && w.disk == Some(image) && image == PersistedState([], [], 1, 1, 1, [saved], [], [], [])
    ensures saved == BoundRecord(Bind(3, A0), NoReading) && saved.Valid() && saved.port == PORT
    ensures w.state.config == CONFIG && w.state.epoch == 2 && w.state.topology == 1 && w.state.publishers == map[]
    ensures w.state.devices == map[] && w.state.records == map[PORT := Rewritten(saved)]
    ensures w.loads == map[0 := Loaded(Ok)] && w.tokens == map[] && w.spent == {(PORT, A0)}
  {
    hide Reachable, Step, ValidIdentifier, BoundRecord, PortRecord.Valid, Lawful, Reopened, RecoveryRefusal, Rewritten;
    var start: World;
    start, image, saved := SavedWithoutParent();
    SameDomain(start.state.config, image);
    OneParent();
    ReopenedFacts(start.state, image, saved);
    w := Loads(start, 0, image, saved);
  }

  lemma RegisteredAgain() returns (w: World, image: PersistedState, saved: PortRecord)
    ensures Reachable(CONFIG, w) && w.disk == Some(image) && image == PersistedState([], [], 1, 1, 1, [saved], [], [], [])
    ensures saved.Valid() && saved.port == PORT && AgentPasses(w.state, 2) && w.state.topology == 1
    ensures w.state.records == map[PORT := Rewritten(saved)] && w.loads == map[0 := Loaded(Ok)]
    ensures w.state.devices == map[DEVICE := PARENT] && w.tokens == map[] && w.spent == {(PORT, A0)}
    ensures var r := Rewritten(saved);
            && r.Valid() && r.lifecycle.Unconfigured? && r.ownership.None? && !r.capability.present && r.configuration.None?
            && r.generations == GenerationVector(0, 0, 0, 0, 0, 3, 1, 0) && r.parentDevice == DEVICE && r.port == PORT
            && !Named(r.lastMutation.attempt)
  {
    hide Reachable, Step, ValidIdentifier, BoundRecord, PortRecord.Valid, Lawful, Rewritten;
    var back: World;
    back, image, saved := LoadedBack();
    BoundRewrites(saved);
    w := Registers(back, 3);
  }

  /** The same container is loaded again under it, to the end. The commit is accepted, and leaves a live
      port whose parent is not recorded. */
  lemma LiveOnNoDevice() returns (w: World)
    ensures Reachable(CONFIG, w) && !Restoring(w) && TokenAt(w, 0).Some? && w.tokens[0].Finished? && w.tokens[0].code == Ok
    ensures PORT in w.state.records && IsLive(w.state.records[PORT].lifecycle)
    ensures w.state.records[PORT].parentDevice !in w.state.devices
  {
    hide Reachable, Step, ValidIdentifier, Lawful, Rewritten, CaptureExpected, WouldCommit, PortRecord.Valid;
    var back, saved, next := LoadedAgain();
    StillCommits(back, 0);
    w := Commits(back, 0);
  }

  lemma LoadedAgain() returns (w: World, saved: PortRecord, next: PortRecord)
    ensures Reachable(CONFIG, w) && w.loads == map[0 := Loaded(Ok)][1 := Loaded(Ok)] && w.spent == {(PORT, A0)}
    ensures w.state.records == map[PORT := Rewritten(saved)] && w.state.devices == map[] && w.state.generation == 2
    ensures TokenAt(w, 0) == Some(Ready(Ask(2, Operation.Configure(WANTED), A1), Rewritten(saved),
                                        CaptureExpected(Rewritten(saved)), next))
    ensures !Named(Rewritten(saved).lastMutation.attempt) && Rewritten(saved).lifecycle.Unconfigured?
    ensures IsLive(next.lifecycle) && next.parentDevice == DEVICE && next.lastMutation.attempt == A1
  {
    hide Reachable, Step, ValidIdentifier, PortRecord.Valid, Lawful, Reopened, RecoveryRefusal, Rewritten, CaptureExpected;
    var first: World, image: PersistedState;
    first, image, saved, next := ReadyWithoutParent();
    SameDomain(first.state.config, image);
    OneParent();
    ReopenedFacts(first.state, image, saved);
    w := Loads(first, 1, image, saved);
  }

  // -------------------------------------------------------------------------
  // An unsaved incarnation returns
  // -------------------------------------------------------------------------

  /** The engine is saved, its epoch advances, an agent registers by its first request and passes the
      gate; the process crashes, and the recovered one lets the same agent pass again. */
  lemma UnsavedAgentReturns() returns (w: World, v: World)
    ensures Reachable(CONFIG, w) && Reachable(CONFIG, v) && v == Step(w, Restarting(CONFIG, true))
    ensures CheckAuthority(w.state, Authority(2, A1)).1 == Ok && CheckAuthority(v.state, Authority(2, A1)).1 == Ok
    ensures w.state.epoch == v.state.epoch == 2
  {
    hide Reachable, Step, Lawful, ValidIdentifier, Consistent, Recover;
    var saved := NothingSaved();
    var advanced := AdvancesEpoch(saved);
    var q := Ask(2, ClaimOwnership(CLAIM), A1);
    AgentIsGated(advanced.state, 2, q.operation, A1);
    StepOfSubmit(advanced, 0, q);
    PlainIsLawful(advanced, Submit(0, q));
    ReachOn(CONFIG, advanced, Submit(0, q));
    w := Step(advanced, Submit(0, q));
    PlainIsLawful(w, Restarting(CONFIG, true));
    ReachOn(CONFIG, w, Restarting(CONFIG, true));
    v := Step(w, Restarting(CONFIG, true));
    RecoversNothing();
    AgentPassesGate(w.state);
    Incarnations.RestoredTables(w, Restarting(CONFIG, true));
    Incarnations.UnsavedIncarnationReturns(w, CONFIG, Authority(2, A1));
  }

  lemma AgentPassesGate(s: State)
    requires s.epoch == 2 && AGENT in s.publishers && s.publishers[AGENT] == PublisherRecord(AGENT, BOOT, 2, false)
    ensures CheckAuthority(s, Authority(2, A1)).1 == Ok
  {
    hide Consistent;
  }

  lemma RecoversNothing()
    ensures Recover(FreshEngine(CONFIG), NOTHING).1 == Ok && Recover(FreshEngine(CONFIG), NOTHING).0.epoch == 2
    ensures |RefillPublishers(NOTHING.publishers)| < MAX_PUBLISHERS
  {
    hide ValidIdentifier;
  }

  lemma AdvancesEpoch(w: World) returns (v: World)
    requires Blank(w)
    ensures Reachable(CONFIG, v) && v.tokens == map[] && v.disk == w.disk
    ensures v.state == FreshEngine(CONFIG).(epoch := 2)
  {
    hide Reachable, Step, Lawful, ValidIdentifier, BeginEpoch;
    NobodyIsLawful(w, BeginningEpoch);
    ReachOn(CONFIG, w, BeginningEpoch);
    StepOfEpoch(w);
    FreshEpoch();
    v := Step(w, BeginningEpoch);
  }

  lemma StepOfEpoch(w: World)
    ensures Step(w, BeginningEpoch) == w.(state := BeginEpoch(w.state).0)
  {
    hide MutationStep, BindingStep, SaveStep, LoadStep, RestartStep, BeginEpoch;
  }

  lemma FreshEpoch()
    ensures BeginEpoch(FreshEngine(CONFIG)).0 == FreshEngine(CONFIG).(epoch := 2)
  {
    hide ValidIdentifier;
    assert ReleaseOwnershipBefore(FreshEngine(CONFIG).(epoch := 2), 2).records == map[];
    assert FencedAll(map[], 2) == map[];
  }
}
