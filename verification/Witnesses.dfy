/** Runs that show the failures the theorems leave room for: concrete inputs, step by step. */
module Witnesses {
  import opened Basics
  import opened Records
  import opened Lifecycle
  import opened Characteristics
  import opened Profiles
  import opened Planning
  import opened PlanningLaws
  import opened Engine
  import opened Recovery
  import opened Safety
  import opened Runs
  import opened RunLaws
  import opened RunTheorems
  import opened Utf8
  import opened Wording
  import opened Durability
  import opened EngineObject
  import opened Replacement
  import Identifiers
  import Codec
  import Wire
  import Container

  // -------------------------------------------------------------------------
  // The cast
  // -------------------------------------------------------------------------

  const PORT: Id := "p"
  const DEVICE: Id := "d"
  const AGENT: Id := "x"
  const BOOT: Id := "b"
  const A0: Id := "a0"
  const A1: Id := "a1"
  const A2: Id := "a2"

  const CONFIG := EngineConfig([], [], 1, AdapterPolicy.Apply, Registration.Automatic, 8, 8)

  function Authority(epoch: Generation, attempt: Id): AuthorityContext {
    AuthorityContext(epoch, AGENT, BOOT, [], 0, 0, 0, 0, 0, attempt)
  }

  function Ask(epoch: Generation, operation: Operation, attempt: Id): Request {
    Request(Envelope(Authority(epoch, attempt), PORT, ProvenanceKind.Unknown, []), operation, 1)
  }

  function Bind(device: Generation, attempt: Id): Binding {
    Binding(PORT, DEVICE, device, ProvenanceKind.Operator, [], 1, attempt, 1)
  }

  const SILENT := AdapterReply(false, [], ApplyStatus.Applied, [], ReadbackStatus.Verified)

  // -------------------------------------------------------------------------
  // Steps
  // -------------------------------------------------------------------------

  /** The planning of a request on one state, with nothing to hear from outside but a provider. */
  function PlannedToken(s: State, q: Request, base: PortRecord, provider: Provider): Token {
    PlanToken(s, ResolveToken(s, q, base), provider, false, false, [])
  }

  /** From submission to the adapter's answer. */
  lemma Prepares(w: World, id: nat, q: Request, provider: Provider, reply: AdapterReply, plan: MutationPlan) returns (v: World)
    requires Reachable(CONFIG, w) && id !in w.tokens && ValidText(reply.detail, MAX_DESCRIPTION_LENGTH)
    requires GateToken(w.state, q) == Gated(q) && q.Port() in w.state.records
    requires var s, base := GateState(w.state, q), w.state.records[q.Port()];
             && Screen(base, q, s.topology).None?
             && PlannedToken(s, q, base, provider) == Planned(q, base, plan)
             && s.records == w.state.records
    ensures Reachable(CONFIG, v)
    ensures var s, base := GateState(w.state, q), w.state.records[q.Port()];
            v == w.(state := s, tokens := w.tokens[id := ApplyToken(s, Planned(q, base, plan), reply)])
  {
    hide Reachable, Step, GateToken, GateState, Screen, PlannedToken, ApplyToken, ValidText, ValidIdentifier, Consistent;
    hide ResolveToken, Lawful;
    var s, base := GateState(w.state, q), w.state.records[q.Port()];
    var a := Step(w, Submit(id, q));
    StepOfSubmit(w, id, q);
    ReachOn(CONFIG, w, Submit(id, q));
    var b := Step(a, Snapshot(id));
    StepOfSnapshot(a, id, q);
    ReachOn(CONFIG, a, Snapshot(id));
    var c := Step(b, Screening(id));
    StepOfScreening(b, id, q, base);
    ReachOn(CONFIG, b, Screening(id));
    var d := Step(c, Resolving(id));
    StepOfResolving(c, id, q, base);
    ReachOn(CONFIG, c, Resolving(id));
    var e := Step(d, Event.Planning(id, provider, false, false, []));
    StepOfPlanning(d, id, q, base, provider);
    ReachOn(CONFIG, d, Event.Planning(id, provider, false, false, []));
    v := Step(e, Applying(id, reply));
    StepOfApplying(e, id, q, base, plan, reply);
    ReachOn(CONFIG, e, Applying(id, reply));
    assert v.tokens == w.tokens[id := v.tokens[id]];
  }

  /** Most steps are lawful wherever they are taken. */
  lemma PlainIsLawful(w: World, e: Event)
    requires e.Submit? || e.Snapshot? || e.Screening? || e.Resolving? || e.Planning? || e.BindingPort? || e.AttachingDevice?
          || e.RecordingDevice? || e.DefiningProfile? || e.OfSave() || (e.OfLoad() && !e.RestoringRecords?)
          || e.Restarting?
    ensures Lawful(w, e)
  {
    hide FencePublisher, BeginEpoch, InsertPort, Commit, ValidIdentifier, Consistent, Refill, Tracks;
  }

  lemma StepOfSubmit(w: World, id: nat, q: Request)
    requires id !in w.tokens && GateToken(w.state, q) == Gated(q)
    ensures Step(w, Submit(id, q)) == w.(state := GateState(w.state, q), tokens := w.tokens[id := Gated(q)])
    ensures Lawful(w, Submit(id, q))
  {
    hide PlanToken, ApplyToken, ScreenToken;
    hide BindingStep, SaveStep, LoadStep, RestartStep, EnvironmentStep, GateToken, GateState, ValidIdentifier, Consistent, Lawful;
    PlainIsLawful(w, Submit(id, q));
  }

  lemma StepOfSnapshot(w: World, id: nat, q: Request)
    requires TokenAt(w, id) == Some(Gated(q)) && q.Port() in w.state.records
    ensures Step(w, Snapshot(id)) == With(w, id, Snapped(q, w.state.records[q.Port()]))
    ensures Lawful(w, Snapshot(id))
  {
    hide PlanToken, ApplyToken, ScreenToken;
    hide BindingStep, SaveStep, LoadStep, RestartStep, EnvironmentStep, ValidIdentifier, Consistent, Lawful;
    PlainIsLawful(w, Snapshot(id));
  }

  lemma StepOfScreening(w: World, id: nat, q: Request, base: PortRecord)
    requires TokenAt(w, id) == Some(Snapped(q, base)) && Screen(base, q, w.state.topology).None?
    ensures Step(w, Screening(id)) == With(w, id, Screened(q, base))
    ensures Lawful(w, Screening(id))
  {
    hide PlanToken, ApplyToken;
    hide BindingStep, SaveStep, LoadStep, RestartStep, EnvironmentStep, Screen, ValidIdentifier, Consistent, Lawful;
    PlainIsLawful(w, Screening(id));
  }

  lemma StepOfResolving(w: World, id: nat, q: Request, base: PortRecord)
    requires TokenAt(w, id) == Some(Screened(q, base))
    ensures Step(w, Resolving(id)) == With(w, id, ResolveToken(w.state, q, base))
    ensures Lawful(w, Resolving(id))
  {
    hide PlanToken, ScreenToken, ApplyToken;
    hide BindingStep, SaveStep, LoadStep, RestartStep, EnvironmentStep, ResolveToken, ValidIdentifier, Consistent, Lawful;
    PlainIsLawful(w, Resolving(id));
  }

  lemma StepOfPlanning(w: World, id: nat, q: Request, base: PortRecord, provider: Provider)
    requires TokenAt(w, id) == Some(ResolveToken(w.state, q, base))
    ensures var e := Event.Planning(id, provider, false, false, []);
            Step(w, e) == With(w, id, PlannedToken(w.state, q, base, provider)) && Lawful(w, e)
  {
    hide BindingStep, SaveStep, LoadStep, RestartStep, EnvironmentStep, PlanToken, ValidIdentifier, Consistent, Lawful;
    PlainIsLawful(w, Event.Planning(id, provider, false, false, []));
  }

  lemma StepOfApplying(w: World, id: nat, q: Request, base: PortRecord, plan: MutationPlan, reply: AdapterReply)
    requires TokenAt(w, id) == Some(Planned(q, base, plan)) && ValidText(reply.detail, MAX_DESCRIPTION_LENGTH)
    ensures Step(w, Applying(id, reply)) == With(w, id, ApplyToken(w.state, Planned(q, base, plan), reply))
    ensures Lawful(w, Applying(id, reply))
  {
    hide BindingStep, SaveStep, LoadStep, RestartStep, EnvironmentStep, PlanToken, ScreenToken, ApplyToken;
    hide ValidIdentifier, Consistent, ValidText, Lawful;
    ApplyingIsLawful(w, id, reply);
  }

  /** An accepted commit. */
  lemma Commits(w: World, id: nat) returns (v: World)
    requires Reachable(CONFIG, w) && WouldCommit(w, id)
    requires (w.tokens[id].q.Port(), w.tokens[id].q.Attempt()) !in w.spent
    ensures id in w.tokens && w.tokens[id].Ready?
    ensures Reachable(CONFIG, v) && v == Step(w, Committing(id))
    ensures var t := w.tokens[id];
            && v.state == w.state.(records := w.state.records[t.q.Port() := t.next], generation := Next(w.state.generation))
            && v.tokens == w.tokens[id := Finished(t.q, OutcomeCode.Ok)]
            && v.spent == w.spent + {(t.q.Port(), t.q.Attempt())}
            && v.binds == w.binds && v.saves == w.saves && v.loads == w.loads && v.disk == w.disk
  {
    hide Reachable, Step, Lawful, Commit, ValidIdentifier, Consistent;
    v := Step(w, Committing(id));
    StepOfCommit(w, id);
    ReachOn(CONFIG, w, Committing(id));
  }

  lemma StepOfCommit(w: World, id: nat)
    requires WouldCommit(w, id) && (w.tokens[id].q.Port(), w.tokens[id].q.Attempt()) !in w.spent
    ensures var t := w.tokens[id];
            Step(w, Committing(id))
            == w.(state := w.state.(records := w.state.records[t.q.Port() := t.next], generation := Next(w.state.generation)),
                  tokens := w.tokens[id := Finished(t.q, OutcomeCode.Ok)], spent := w.spent + {(t.q.Port(), t.q.Attempt())})
    ensures Lawful(w, Committing(id))
  {
    hide PlanToken, ScreenToken, ApplyToken, GateToken, GateState, SnapshotToken, ResolveToken, DoubtStep, FencePublisher;
    hide BeginEpoch, InsertPort, BindingStep, SaveStep, LoadStep, RestartStep, EnvironmentStep, ValidIdentifier, Consistent;
    hide CaptureExpected, Refill, Tracks;
  }

  // -------------------------------------------------------------------------
  // A port is bound
  // -------------------------------------------------------------------------

  lemma BoundIsValid(device: Generation, attempt: Id)
    ensures BoundRecord(Bind(device, attempt), NoReading).Valid()
  {
    hide ValidText, BoundReason, ValidIdentifier;
    WordingIsText();
    AsciiIsText([], MAX_DESCRIPTION_LENGTH);
  }

  /** Insertion of the port into a world that does not have it. */
  lemma Inserts(w: World, id: nat, device: Generation, attempt: Id) returns (v: World)
    requires Reachable(CONFIG, w) && id !in w.binds && device != 0 && Named(attempt) && w.state.epoch == 1
    requires PORT !in w.state.records && |w.state.records| < w.state.config.portBound && (PORT, attempt) !in w.spent
    ensures Reachable(CONFIG, v)
    ensures v.state == w.state.(records := w.state.records[PORT := BoundRecord(Bind(device, attempt), NoReading)],
                                generation := Advance(w.state.generation))
    ensures v.binds == w.binds[id := Inserted(Bind(device, attempt), BoundRecord(Bind(device, attempt), NoReading))]
    ensures v.tokens == w.tokens && v.saves == w.saves && v.loads == w.loads && v.disk == w.disk
    ensures v.spent == w.spent + {(PORT, attempt)}
  {
    hide Reachable, Step, Lawful, ValidIdentifier, Consistent, BoundRecord, PortRecord.Valid;
    var b := Bind(device, attempt);
    BoundIsValid(device, attempt);
    var u := Step(w, BindingPort(id, b));
    StepOfClear(w, id, b);
    ReachOn(CONFIG, w, BindingPort(id, b));
    v := Step(u, InsertingPort(id, NoReading));
    StepOfInsert(u, id, b);
    ReachOn(CONFIG, u, InsertingPort(id, NoReading));
    assert v.binds == w.binds[id := v.binds[id]];
  }

  lemma StepOfClear(w: World, id: nat, b: Binding)
    requires id !in w.binds && ClearToken(w.state, b) == Cleared(b)
    ensures Step(w, BindingPort(id, b)) == w.(binds := w.binds[id := Cleared(b)]) && Lawful(w, BindingPort(id, b))
  {
    hide MutationStep, SaveStep, LoadStep, RestartStep, EnvironmentStep, ValidIdentifier, Consistent, ClearToken, Lawful;
    PlainIsLawful(w, BindingPort(id, b));
  }

  lemma StepOfInsert(w: World, id: nat, b: Binding)
    requires BindAt(w, id) == Some(Cleared(b)) && b.port !in w.state.records && |w.state.records| < w.state.config.portBound
    requires BoundRecord(b, NoReading).Valid() && (b.port, b.attempt) !in w.spent
    ensures Step(w, InsertingPort(id, NoReading))
            == w.(state := w.state.(records := w.state.records[b.port := BoundRecord(b, NoReading)],
                                    generation := Advance(w.state.generation)),
                  binds := w.binds[id := Inserted(b, BoundRecord(b, NoReading))], spent := w.spent + {(b.port, b.attempt)})
    ensures Lawful(w, InsertingPort(id, NoReading))
  {
    hide MutationStep, SaveStep, LoadStep, RestartStep, EnvironmentStep, ValidIdentifier, Consistent, BoundRecord, PortRecord.Valid;
    hide BeginEpoch, FencePublisher, Commit;
  }

  /** The device is recorded under a new generation. */
  lemma Registers(w: World, generation: Generation) returns (v: World)
    requires Reachable(CONFIG, w) && w.state.config == CONFIG && generation != 0
    requires w.state.devices.Keys <= {DEVICE} && |w.state.devices| <= 1
    requires DEVICE in w.state.devices ==>
               w.state.devices[DEVICE].device == DEVICE && w.state.devices[DEVICE].generation < generation
    ensures Reachable(CONFIG, v)
    ensures v == w.(state := w.state.(devices := map[DEVICE := DeviceBinding(DEVICE, generation, [])]))
  {
    hide Reachable, Step, ValidIdentifier, Consistent, ValidText, Lawful;
    AsciiIsText([], MAX_NAME_LENGTH);
    var e := RecordingDevice(DEVICE, generation, []);
    PlainIsLawful(w, e);
    ReachOn(CONFIG, w, e);
    v := Step(w, e);
    OnlyStateChanges(w, DEVICE, generation, []);
    assert w.state.devices[DEVICE := DeviceBinding(DEVICE, generation, [])] == map[DEVICE := DeviceBinding(DEVICE, generation, [])];
  }

  /** What is left of a binding: its device. */
  lemma Attaches(w: World, id: nat, b: Binding, record: PortRecord) returns (v: World)
    requires Reachable(CONFIG, w) && BindAt(w, id) == Some(Inserted(b, record))
    ensures Reachable(CONFIG, v)
    ensures v == w.(state := AttachDevice(w.state, b).0, binds := w.binds[id := Concluded(b, AttachDevice(w.state, b).1)])
  {
    hide Reachable, MutationStep, SaveStep, LoadStep, RestartStep, EnvironmentStep, ValidIdentifier, Consistent, AttachDevice;
    v := Step(w, AttachingDevice(id));
    ReachOn(CONFIG, w, AttachingDevice(id));
  }

  /** A fresh engine with nothing in flight but saves; the disk may hold anything. */
  ghost predicate Blank(w: World) {
    && Reachable(CONFIG, w) && w.state == FreshEngine(CONFIG)
    && w.tokens == map[] && w.binds == map[] && w.loads == map[] && w.spent == {}
  }

  lemma StartIsBlank()
    ensures Blank(Start(CONFIG))
  {
    hide Reachable;
    StartIsReachable(CONFIG);
  }

  /** The engine when the port has just been bound. */
  function JustBound(): State {
    State(CONFIG, map[PORT := BoundRecord(Bind(3, A0), NoReading)], 1, map[], 1, 1, map[],
          map[DEVICE := DeviceBinding(DEVICE, 3, [])])
  }

  lemma FreshPort(start: World) returns (w: World)
    requires Blank(start)
    ensures Reachable(CONFIG, w) && w.state == JustBound()
    ensures w.tokens == map[] && w.loads == map[] && w.spent == {(PORT, A0)}
    ensures w.saves == start.saves && w.disk == start.disk
  {
    hide Reachable, Step, ValidIdentifier, BoundRecord;
    var u := Inserts(start, 0, 3, A0);
    w := Attaches(u, 0, Bind(3, A0), BoundRecord(Bind(3, A0), NoReading));
  }

  // -------------------------------------------------------------------------
  // Plans that only touch the record
  // -------------------------------------------------------------------------

  function Consulted(s: State, base: PortRecord): BuildInput {
    BuildInput(s.topology, if base.parentDevice in s.devices then Some(s.devices[base.parentDevice].generation) else None,
               NO_BINDING, s.profiles, false, false, [])
  }

  lemma PlansRecord(s: State, q: Request, base: PortRecord, plan: MutationPlan)
    requires !q.operation.AppliesToDevice() && Build(base, Consulted(s, base), q) == Prepared(plan)
    requires DeviceGate(base, q, Consulted(s, base).device).None?
    requires plan.next.Valid() && !plan.requiresCapabilityValidation
    ensures PlannedToken(s, q, base, NoReading) == Planned(q, base, Stamp(plan, q))
  {
    hide Build, DeviceGate, Stamp, PortRecord.Valid, ValidIdentifier, Consistent;
  }

  const CLAIM := Claim(PortOwnerKind.SwitchAgent, "o", true, [], [])

  lemma ClaimPlans(s: State, base: PortRecord, epoch: Generation, attempt: Id) returns (plan: MutationPlan)
    requires base.Valid() && base.ownership.None? && Named(attempt) && epoch != 0
    requires base.parentDevice in s.devices ==> s.devices[base.parentDevice].generation == base.generations.device
    ensures var q := Ask(epoch, ClaimOwnership(CLAIM), attempt); PlannedToken(s, q, base, NoReading) == Planned(q, base, plan)
    ensures plan.apply.None? && plan.expected == CaptureExpected(base) && plan.next.lastMutation.attempt == attempt
    ensures plan.next.ownership.Some? && plan.next.ownership.value.publisher == AGENT && plan.next.ownership.value.boot == BOOT
    ensures plan.next.ownership.value.epoch == epoch && plan.next.Valid() && plan.next.drift == base.drift
    ensures plan.next.configuration == base.configuration && plan.next.lifecycle == base.lifecycle
    ensures plan.next.generations.configuration == base.generations.configuration && plan.next.capability == base.capability
    ensures plan.next.parentDevice == base.parentDevice && plan.next.port == base.port
  {
    hide ValidIdentifier, Consistent, PlannedToken, Build, PortRecord.Valid, CaptureExpected, Identifiers.OwnershipId;
    var q := Ask(epoch, ClaimOwnership(CLAIM), attempt);
    ClaimBuilds(base, Consulted(s, base), q);
    GrantIsValid(base, q);
    var draft := Grant(base, q.envelope, CLAIM, "OWNERSHIP_CLAIMED").plan;
    PlansRecord(s, q, base, draft);
    plan := Stamp(draft, q);
    StampStaysValid(draft, q);
  }

  lemma StampStaysValid(plan: MutationPlan, q: Request)
    requires plan.next.Valid()
    ensures Stamp(plan, q).next.Valid()
  {
    hide PortConfiguration.Valid, ValidIdentifier, ValidText, PortOwnership.Valid;
  }

  lemma ClaimBuilds(base: PortRecord, input: BuildInput, q: Request)
    requires base.ownership.None? && q.operation == ClaimOwnership(CLAIM)
    ensures Build(base, input, q) == Grant(base, q.envelope, CLAIM, "OWNERSHIP_CLAIMED")
  {
    hide ValidIdentifier, Consistent, Grant, PlanConfigure, PlanReconfigure, PlanAdministrative, PlanProfile;
    hide PlanBindCapabilities, PlanReconcile, PlanFence, PlanEvidence, PlanDrift;
  }

  lemma GrantIsValid(base: PortRecord, q: Request)
    requires base.Valid() && q.operation == ClaimOwnership(CLAIM) && q.Authority().Valid()
    ensures var p := Grant(base, q.envelope, CLAIM, "OWNERSHIP_CLAIMED");
            p.Prepared? && p.plan.next.Valid() && !p.plan.requiresCapabilityValidation
  {
    hide ValidText, ValidIdentifier, PortConfiguration.Valid, Consistent;
    AsciiIsText("OWNERSHIP_CLAIMED", MAX_NAME_LENGTH);
    AsciiIsText("o", MAX_DESCRIPTION_LENGTH);
  }

  /** A plan that applies nothing is ready as it is. */
  lemma NothingToApply(s: State, q: Request, base: PortRecord, plan: MutationPlan, reply: AdapterReply)
    requires plan.apply.None?
    ensures ApplyToken(s, Planned(q, base, plan), reply) == Ready(q, base, plan.expected, plan.next)
  {
    hide ValidIdentifier, Consistent;
  }

  /** The agent is current or not known yet. */
  predicate AgentPasses(s: State, epoch: Generation) {
    && s.epoch == epoch != 0 && s.config == CONFIG && |s.publishers| < MAX_PUBLISHERS
    && (AGENT in s.publishers ==> s.publishers[AGENT] == PublisherRecord(AGENT, BOOT, epoch, false))
  }

  lemma AgentIsGated(s: State, epoch: Generation, operation: Operation, attempt: Id)
    requires AgentPasses(s, epoch) && Named(attempt)
    ensures var q := Ask(epoch, operation, attempt);
            && GateToken(s, q) == Gated(q)
            && GateState(s, q) == s.(publishers := s.publishers[AGENT := PublisherRecord(AGENT, BOOT, epoch, false)])
  {
    hide ValidIdentifier, Consistent;
    assert AGENT in s.publishers ==> s.publishers == s.publishers[AGENT := PublisherRecord(AGENT, BOOT, epoch, false)];
  }

  /** Without an owner a port takes claims, and anything else while it is unconfigured. */
  predicate MayAsk(base: PortRecord, operation: Operation) {
    operation.ClaimOwnership? || (base.configuration.None? && base.generations.configuration == 0)
  }

  /** A mutation of an unowned port that only touches its record, up to its commit. */
  lemma Readies(w: World, id: nat, epoch: Generation, operation: Operation, attempt: Id, plan: MutationPlan) returns (v: World)
    requires Reachable(CONFIG, w) && id !in w.tokens && AgentPasses(w.state, epoch) && Named(attempt) && PORT in w.state.records
    requires var s, base, q := GateState(w.state, Ask(epoch, operation, attempt)), w.state.records[PORT], Ask(epoch, operation, attempt);
             && PlannedToken(s, q, base, NoReading) == Planned(q, base, plan) && plan.apply.None?
             && base.ownership.None? && MayAsk(base, operation) && !base.lifecycle.Retired? && base.lastMutation.attempt != attempt
    ensures Reachable(CONFIG, v)
    ensures v == w.(state := w.state.(publishers := w.state.publishers[AGENT := PublisherRecord(AGENT, BOOT, epoch, false)]),
                    tokens := w.tokens[id := Ready(Ask(epoch, operation, attempt), w.state.records[PORT], plan.expected, plan.next)])
  {
    hide Reachable, Step, ValidIdentifier, Consistent, PlannedToken, PlanToken, PortRecord.Valid, ApplyToken, ResolveToken;
    hide GateToken, GateState, Screen;
    var q, base := Ask(epoch, operation, attempt), w.state.records[PORT];
    AgentIsGated(w.state, epoch, operation, attempt);
    UnownedIsScreened(base, q, w.state.topology);
    NothingToApply(GateState(w.state, q), q, base, plan, SILENT);
    AsciiIsText([], MAX_DESCRIPTION_LENGTH);
    v := Prepares(w, id, q, NoReading, SILENT, plan);
  }

  lemma UnownedIsScreened(base: PortRecord, q: Request, topology: Generation)
    requires q == Ask(q.Authority().epoch, q.operation, q.Attempt())
    requires base.ownership.None? && MayAsk(base, q.operation)
    requires !base.lifecycle.Retired? && base.lastMutation.attempt != q.Attempt()
    ensures Screen(base, q, topology).None?
  {
    hide ValidIdentifier, Consistent;
  }

  /** The commit of what is ready is accepted while the record is still the snapshot. */
  lemma StillCommits(w: World, id: nat)
    requires TokenAt(w, id).Some? && w.tokens[id].Ready? && w.tokens[id].q.Port() in w.state.records
    requires var t := w.tokens[id];
             && w.state.records[t.q.Port()] == t.base && t.expected == CaptureExpected(t.base)
             && t.base.lastMutation.attempt != t.next.lastMutation.attempt && !t.base.lifecycle.Retired?
    requires !Exhaustible(w.state.generation)
    ensures WouldCommit(w, id)
  {
    hide ValidIdentifier, Consistent, CaptureExpected;
  }

  // -------------------------------------------------------------------------
  // A claim outlives the fence
  // -------------------------------------------------------------------------

  /** A claim that is past the gate when its incarnation is fenced commits all the same: the port
      ends up owned by an incarnation that is fenced. */
  lemma ClaimOutlivesFence() returns (w: World)
    ensures Reachable(CONFIG, w) && PORT in w.state.records && w.state.records[PORT].ownership.Some?
    ensures var o := w.state.records[PORT].ownership.value;
            o.publisher in w.state.publishers && w.state.publishers[o.publisher].boot == o.boot
            && w.state.publishers[o.publisher].fenced
  {
    hide Reachable, Step, ValidIdentifier, Consistent, BoundRecord, PlannedToken, PortRecord.Valid, Lawful, WouldCommit;
    hide GateState, CaptureExpected;
    StartIsBlank();
    var bound := FreshPort(Start(CONFIG));
    var base := BoundRecord(Bind(3, A0), NoReading);
    var q := Ask(1, ClaimOwnership(CLAIM), A1);
    BoundIsValid(3, A0);
    BoundIsFresh(3, A0);
    AgentIsGated(bound.state, 1, q.operation, A1);
    var plan := ClaimPlans(GateState(bound.state, q), base, 1, A1);
    var ready := Readies(bound, 0, 1, q.operation, A1, plan);
    var fenced := Step(ready, Fencing(AGENT, BOOT));
    FenceOfNobody(ready);
    ReachOn(CONFIG, ready, Fencing(AGENT, BOOT));
    StillCommits(fenced, 0);
    w := Commits(fenced, 0);
  }

  lemma BoundIsFresh(device: Generation, attempt: Id)
    ensures var r := BoundRecord(Bind(device, attempt), NoReading);
            && r.port == PORT && r.parentDevice == DEVICE && r.ownership.None? && r.configuration.None?
            && r.lifecycle.Unconfigured? && r.drift.Unknown? && !r.capability.present && r.applied == NO_EVIDENCE
            && r.generations == GenerationVector(0, 0, 0, 0, 0, device, 1, 0) && r.lastMutation == LastMutation(attempt, 1, 0)
  {
    hide ValidIdentifier, BoundReason;
  }

  /** Fencing an incarnation that holds nothing touches no record. */
  lemma FenceOfNobody(w: World)
    requires AGENT in w.state.publishers && w.state.publishers[AGENT] == PublisherRecord(AGENT, BOOT, 1, false)
    requires forall port :: port in w.state.records ==> w.state.records[port].ownership.None?
    ensures Lawful(w, Fencing(AGENT, BOOT))
    ensures Step(w, Fencing(AGENT, BOOT))
            == w.(state := w.state.(publishers := w.state.publishers[AGENT := PublisherRecord(AGENT, BOOT, 1, true)]))
  {
    hide MutationStep, BindingStep, SaveStep, LoadStep, RestartStep, FencePublisher, BeginEpoch, Lawful;
    NobodyIsLawful(w, Fencing(AGENT, BOOT));
    FencesNobody(w.state);
  }

  lemma NobodyIsLawful(w: World, e: Event)
    requires e.Fencing? || e.BeginningEpoch?
    requires forall port :: port in w.state.records ==> w.state.records[port].ownership.None?
    ensures Lawful(w, e)
  {
    hide FencePublisher, BeginEpoch, InsertPort, Commit, ValidIdentifier, Consistent, Refill, Tracks;
  }

  lemma FencesNobody(s: State)
    requires AGENT in s.publishers && s.publishers[AGENT] == PublisherRecord(AGENT, BOOT, 1, false)
    requires forall port :: port in s.records ==> s.records[port].ownership.None?
    ensures FencePublisher(s, AGENT, BOOT).0 == s.(publishers := s.publishers[AGENT := PublisherRecord(AGENT, BOOT, 1, true)])
  {
    hide Consistent, FencedReason, FencedDetail;
    var t := s.(publishers := s.publishers[AGENT := PublisherRecord(AGENT, BOOT, 1, true)]);
    assert ReleaseOwnershipOf(t, AGENT, BOOT).records == t.records;
  }

  // -------------------------------------------------------------------------
  // A retirement is erased
  // -------------------------------------------------------------------------

  lemma RetirePlans(s: State, base: PortRecord, attempt: Id) returns (plan: MutationPlan)
    requires base.Valid() && base.ownership.None? && base.lifecycle.Unconfigured? && Named(attempt)
    ensures PlannedToken(s, Ask(1, Operation.Retire([]), attempt), base, NoReading)
            == Planned(Ask(1, Operation.Retire([]), attempt), base, plan)
    ensures plan.apply.None? && plan.expected == CaptureExpected(base)
    ensures plan.next.lifecycle.Retired? && plan.next.lastMutation.attempt == attempt
    ensures plan.next.Valid() && plan.next.port == base.port
  {
    hide ValidText, ValidIdentifier, PortConfiguration.Valid, Consistent, PlannedToken, PlanConfigure, PlanReconfigure;
    hide PlanAdministrative, PlanProfile, PlanBindCapabilities, PlanReconcile, PlanEvidence, PlanDrift, CaptureExpected;
    AsciiIsText("RETIRED", MAX_NAME_LENGTH);
    AsciiIsText([], MAX_DESCRIPTION_LENGTH);
    var q := Ask(1, Operation.Retire([]), attempt);
    PlansRecord(s, q, base, PlanFence(base, [], true).plan);
    plan := Stamp(PlanFence(base, [], true).plan, q);
    StampStaysValid(PlanFence(base, [], true).plan, q);
  }

  /** A retirement accepted between the two regions of the port's own binding is erased when the
      binding is taken back, and the port starts over as an unconfigured one. It was no longer filed as
      it was inserted, so it leaves a phantom in the lifecycle index. */
  lemma RetirementErased() returns (w: World, v: World, u: World)
    ensures Reachable(CONFIG, w) && Reachable(CONFIG, v) && Reachable(CONFIG, u)
    ensures PORT in w.state.records && w.state.records[PORT].lifecycle.Retired?
    ensures TokenAt(w, 0) == Some(Finished(Ask(1, Operation.Retire([]), A1), OutcomeCode.Ok))
    ensures Withdraws(w, AttachingDevice(0), PORT) && v == Step(w, AttachingDevice(0)) && PORT !in v.state.records
    ensures PORT in u.state.records && u.state.records[PORT].lifecycle.Unconfigured?
    ensures !EngineImpl.FiledAs(w.state.records, BoundRecord(Bind(3, A0), NoReading))
  {
    hide Reachable, Step, ValidIdentifier, Consistent, BoundRecord, AttachDevice;
    w := Retires();
    RetiredIsRefiled(w.state.records);
    var base := BoundRecord(Bind(3, A0), NoReading);
    v := Attaches(w, 0, Bind(3, A0), base);
    AttachTakesBack(w.state, Bind(3, A0));
    AttachIsStep(w, 0, Bind(3, A0), base);
    u := Inserts(v, 1, 5, A2);
    BoundIsFresh(5, A2);
  }

  lemma RetiredIsRefiled(m: map<Id, PortRecord>)
    requires PORT in m && m[PORT].lifecycle.Retired?
    ensures !EngineImpl.FiledAs(m, BoundRecord(Bind(3, A0), NoReading))
  {
    hide BoundRecord, ValidIdentifier;
    BoundIsFresh(3, A0);
  }

  lemma Retires() returns (w: World)
    ensures Reachable(CONFIG, w)
    ensures PORT in w.state.records && w.state.records[PORT].lifecycle.Retired? && |w.state.records| == 1
    ensures TokenAt(w, 0) == Some(Finished(Ask(1, Operation.Retire([]), A1), OutcomeCode.Ok))
    ensures w.binds == map[0 := Inserted(Bind(3, A0), BoundRecord(Bind(3, A0), NoReading))]
    ensures w.state.devices == map[DEVICE := DeviceBinding(DEVICE, 5, [])] && w.state.epoch == 1 && w.state.config == CONFIG
    ensures w.spent == {(PORT, A0), (PORT, A1)}
  {
    hide Reachable, Step, ValidIdentifier, Consistent, BoundRecord, PlannedToken, PortRecord.Valid, WouldCommit;
    hide GateState, CaptureExpected;
    var registered := DeviceFirst();
    var bound := Inserts(registered, 0, 3, A0);
    var base := BoundRecord(Bind(3, A0), NoReading);
    var q := Ask(1, Operation.Retire([]), A1);
    BoundIsValid(3, A0);
    BoundIsFresh(3, A0);
    var plan := RetirePlans(GateState(bound.state, q), base, A1);
    var ready := Readies(bound, 0, 1, q.operation, A1, plan);
    StillCommits(ready, 0);
    w := Commits(ready, 0);
  }

  /** The device is recorded before the port is bound. */
  lemma DeviceFirst() returns (w: World)
    ensures Reachable(CONFIG, w)
    ensures w == Start(CONFIG).(state := FreshEngine(CONFIG).(devices := map[DEVICE := DeviceBinding(DEVICE, 5, [])]))
  {
    hide Reachable, Step, ValidIdentifier, Consistent;
    StartIsReachable(CONFIG);
    w := Registers(Start(CONFIG), 5);
  }

  lemma AttachTakesBack(s: State, b: Binding)
    requires TakesBack(s, b)
    ensures AttachDevice(s, b) == (s.(records := s.records - {b.port}), StaleDeviceGeneration)
  {
    hide ValidIdentifier, Consistent;
  }

  lemma AttachIsStep(w: World, id: nat, b: Binding, record: PortRecord)
    requires BindAt(w, id) == Some(Inserted(b, record))
    ensures Step(w, AttachingDevice(id))
            == w.(state := AttachDevice(w.state, b).0, binds := w.binds[id := Concluded(b, AttachDevice(w.state, b).1)])
  {
    hide MutationStep, SaveStep, LoadStep, RestartStep, EnvironmentStep, ValidIdentifier, Consistent, AttachDevice;
  }

  // -------------------------------------------------------------------------
  // First configurations
  // -------------------------------------------------------------------------

  const RATE := 1_000_000_000

  const WANTED := PortConfiguration(
    [], [], [], 0, 0, 0, AdministrativeState.Unknown, PortMode.Physical, ProtocolFamily.Ethernet,
    SpeedSetting(SpeedSelection.Auto, 0), DuplexMode.Unsupported, 1500, LanePair(1, RATE), BreakoutMode.NoBreakout,
    AutonegPolicy.Unsupported, FecMode.Unsupported, PauseMode.Unsupported, Aggregation(false, [], 0, false), NO_PROFILE,
    [], [], [], 0, NO_PROVENANCE, 0, 0)

  const EVIDENCE := CapabilityBinding(
    PortCapabilities(
      CapabilityCertainty.Known, [RATE], [1], 1, false, 1, [], [], [], [ProtocolFamily.Ethernet], 68, 9000,
      DuplexMode.Unknown, false, 0, false, []),
    1, 1, [], [], true)

  function First(s: State, base: PortRecord, q: Request): PortConfiguration {
    FirstConfiguration(base, Consulted(s, base).(capability := EVIDENCE), q.envelope, WANTED, base.generations.device)
  }

  lemma FirstIsValid(s: State, base: PortRecord, q: Request)
    requires Named(base.port) && Named(base.parentDevice) && base.generations.device != 0 && s.topology != 0
    requires q.Authority().Valid()
    ensures First(s, base, q).Valid() && Supports(EVIDENCE, First(s, base, q))
  {
    hide ValidText, ValidIdentifier, Identifiers.ConfigurationId, PortCapabilities.Valid, Supports;
    AsciiIsText([], MAX_NAME_LENGTH);
    FirstIsSupported(s, base, q);
  }

  lemma FirstIsSupported(s: State, base: PortRecord, q: Request)
    ensures Supports(EVIDENCE, First(s, base, q))
  {
    hide ValidText, ValidIdentifier, Identifiers.ConfigurationId, PortCapabilities.Valid, PortConfiguration.Valid;
    EvidenceIsLegal();
  }

  lemma EvidenceIsLegal()
    ensures EVIDENCE.capabilities.Valid()
  {
    hide ValidText;
    AsciiIsText([], MAX_NAME_LENGTH);
  }

  lemma ConfigureBuilds(s: State, base: PortRecord, q: Request)
    requires q.operation == Operation.Configure(WANTED) && base.lifecycle.Unconfigured?
    requires base.parentDevice in s.devices && s.devices[base.parentDevice].generation == base.generations.device
    requires First(s, base, q).Valid()
    ensures var input := Consulted(s, base).(capability := EVIDENCE);
            Build(base, input, q) == CommitConfiguration(base, Planning.Configured(base), First(s, base, q), input)
  {
    hide PortConfiguration.Valid, ValidIdentifier, Planning.Configured, Identifiers.ConfigurationId;
  }

  lemma ConfigurePlans(s: State, base: PortRecord, epoch: Generation, attempt: Id) returns (plan: MutationPlan)
    requires epoch != 0
    requires base.Valid() && base.lifecycle.Unconfigured? && base.ownership.None? && !base.capability.present
    requires base.generations.configuration == 0 && base.generations.device != 0 && s.topology != 0 && Named(attempt)
    requires base.parentDevice in s.devices && s.devices[base.parentDevice].generation == base.generations.device
    ensures var q := Ask(epoch, Operation.Configure(WANTED), attempt);
            PlannedToken(s, q, base, Reading(EVIDENCE)) == Planned(q, base, plan)
    ensures plan.apply.Some? && plan.expected == CaptureExpected(base) && plan.next.Valid()
    ensures plan.next.configuration.Some? && plan.next.ownership.None? && !plan.next.lifecycle.Retired?
    ensures plan.next.parentDevice == base.parentDevice && plan.next.generations.device == base.generations.device
    ensures plan.next.lastMutation.attempt == attempt && plan.next.port == base.port
    ensures plan.next.lifecycle.Configured? && plan.next.generations.configuration == 1 && !plan.next.capability.present
  {
    hide ValidText, ValidIdentifier, PortConfiguration.Valid, Consistent, PlannedToken, CaptureExpected, Supports, Build;
    hide PortCapabilities.Valid, FirstConfiguration;
    var q := Ask(epoch, Operation.Configure(WANTED), attempt);
    var input := Consulted(s, base).(capability := EVIDENCE);
    FirstIsValid(s, base, q);
    ConfigureBuilds(s, base, q);
    AsciiIsText("CONFIGURED", MAX_NAME_LENGTH);
    AsciiIsText([], MAX_DESCRIPTION_LENGTH);
    var draft := CommitConfiguration(base, Planning.Configured(base), First(s, base, q), input).plan;
    FirstNamesPort(s, base, q);
    plan := Stamp(draft, q);
    PlansConfiguration(s, q, base, draft);
  }

  lemma FirstNamesPort(s: State, base: PortRecord, q: Request)
    ensures First(s, base, q).port == base.port && First(s, base, q).parentDevice == base.parentDevice
    ensures First(s, base, q).generation == 1
  {
    hide ValidIdentifier, Identifiers.ConfigurationId;
  }

  lemma PlansConfiguration(s: State, q: Request, base: PortRecord, plan: MutationPlan)
    requires q.operation.AppliesToDevice() && !base.capability.present
    requires Build(base, Consulted(s, base).(capability := EVIDENCE), q) == Prepared(plan)
    requires DeviceGate(base, q, Consulted(s, base).device).None?
    requires plan.next.Valid() && plan.next.configuration.Some? && plan.capability == EVIDENCE
    requires Supports(EVIDENCE, plan.next.configuration.value)
    ensures PlannedToken(s, q, base, Reading(EVIDENCE)) == Planned(q, base, Stamp(plan, q))
  {
    hide Build, DeviceGate, Stamp, PortRecord.Valid, ValidIdentifier, Consistent, Supports, PortCapabilities.Valid;
    EvidenceIsLegal();
  }

  /** The engine with the fresh port and the agent that asked. */
  function OnceGated(): State {
    State(CONFIG, map[PORT := BoundRecord(Bind(3, A0), NoReading)], 1, map[], 1, 1,
          map[AGENT := PublisherRecord(AGENT, BOOT, 1, false)], map[DEVICE := DeviceBinding(DEVICE, 3, [])])
  }

  function FirstPlanned(plan: MutationPlan): (t: Token)
    ensures t.Planned?
  {
    Planned(Ask(1, Operation.Configure(WANTED), A1), BoundRecord(Bind(3, A0), NoReading), plan)
  }

  /** The first configuration of a fresh port, up to the adapter's answer. */
  lemma FirstApply(start: World, reply: AdapterReply) returns (w: World, plan: MutationPlan)
    requires Blank(start) && ValidText(reply.detail, MAX_DESCRIPTION_LENGTH)
    ensures Reachable(CONFIG, w)
    ensures w.state == OnceGated()
    ensures w.tokens == map[0 := ApplyToken(OnceGated(), FirstPlanned(plan), reply)]
    ensures plan.apply.Some? && plan.expected == CaptureExpected(BoundRecord(Bind(3, A0), NoReading)) && plan.next.Valid()
    ensures plan.next.configuration.Some? && plan.next.ownership.None? && !plan.next.lifecycle.Retired?
    ensures plan.next.parentDevice == DEVICE && plan.next.generations.device == 3
    ensures plan.next.lastMutation.attempt == A1 && plan.next.port == PORT
    ensures plan.next.lifecycle.Configured? && plan.next.generations.configuration == 1 && !plan.next.capability.present
    ensures w.spent == {(PORT, A0)} && w.loads == map[] && w.saves == start.saves && w.disk == start.disk
  {
    hide Reachable, Step, ValidIdentifier, Consistent, BoundRecord, PlannedToken, PortRecord.Valid, ApplyToken, GateToken;
    hide GateState, CaptureExpected, ResolveToken, Screen;
    var bound := FreshPort(start);
    var base := BoundRecord(Bind(3, A0), NoReading);
    var q := Ask(1, Operation.Configure(WANTED), A1);
    BoundIsValid(3, A0);
    BoundIsFresh(3, A0);
    AgentIsGated(bound.state, 1, q.operation, A1);
    UnownedIsScreened(base, q, 1);
    plan := ConfigurePlans(GateState(bound.state, q), base, 1, A1);
    w := Prepares(bound, 0, q, Reading(EVIDENCE), reply, plan);
  }

  // -------------------------------------------------------------------------
  // An uncertain first apply strands the port
  // -------------------------------------------------------------------------

  const LOST := AdapterReply(true, [], ApplyStatus.OutcomeUnknown, "lost", ReadbackStatus.Unknown)

  /** A first apply whose outcome is unknown strands the port, and nothing gathered afterwards can be
      saved. */
  lemma FirstApplyStrands() returns (w: World)
    ensures Reachable(CONFIG, w) && PORT in w.state.records && Stranded(w.state.records[PORT])
    ensures forall image :: GathersRecords(w.state, image) && |image.records| <= MAX_PERSISTED_RECORDS ==>
              Container.Encode(image) == Container.Failed(InvalidConfiguration)
  {
    hide Reached, Step, ValidIdentifier, BoundRecord, PortRecord.Valid, Stranded, Container.Encode, GathersRecords;
    w := Strands();
    var events :| Reached(CONFIG, events, w);
    forall image | GathersRecords(w.state, image) && |image.records| <= MAX_PERSISTED_RECORDS
      ensures Container.Encode(image) == Container.Failed(InvalidConfiguration)
    {
      StrandedPortBlocksSaving(CONFIG, events, w, image);
    }
  }

  lemma Strands() returns (w: World)
    ensures Reachable(CONFIG, w) && PORT in w.state.records && Stranded(w.state.records[PORT])
  {
    hide Reachable, Step, ValidIdentifier, BoundRecord, PortRecord.Valid, Stranded, ApplyToken, Uncertain, ValidText;
    AsciiIsText("lost", MAX_DESCRIPTION_LENGTH);
    StartIsBlank();
    var u, plan := FirstApply(Start(CONFIG), LOST);
    var q, base := Ask(1, Operation.Configure(WANTED), A1), BoundRecord(Bind(3, A0), NoReading);
    BoundIsValid(3, A0);
    BoundIsFresh(3, A0);
    LostIsDoubted(u.state, q, base, plan);
    UncertaintyStrandsExactly(base, q.Authority(), plan.next.generations.configuration, "lost", []);
    w := Doubts(u, 0);
  }

  lemma LostIsDoubted(s: State, q: Request, base: PortRecord, plan: MutationPlan)
    requires plan.apply.Some? && s.config == CONFIG
    ensures ApplyToken(s, Planned(q, base, plan), LOST)
            == Doubting(q, base, plan.next.generations.configuration, "lost", ApplyOutcomeUnknown, [])
  {
    hide ValidIdentifier, Consistent, LostApply, LostReadback, Mismatched;
  }

  lemma Doubts(w: World, id: nat) returns (v: World)
    requires Reachable(CONFIG, w) && TokenAt(w, id).Some? && w.tokens[id].Doubting? && w.tokens[id].q.Port() in w.state.records
    requires w.state.records[w.tokens[id].q.Port()].generations.evidence < MAX_U64
    ensures Reachable(CONFIG, v)
    ensures var t := w.tokens[id];
            v.state.records
            == w.state.records[t.q.Port() := Uncertain(w.state.records[t.q.Port()], t.q.Authority(), t.generation, t.detail, t.source)]
  {
    hide Reachable, Step, Lawful, ValidIdentifier, Consistent, Uncertain;
    StepOfDoubt(w, id);
    ReachOn(CONFIG, w, RecordingDoubt(id));
    v := Step(w, RecordingDoubt(id));
  }

  lemma StepOfDoubt(w: World, id: nat)
    requires TokenAt(w, id).Some? && w.tokens[id].Doubting? && w.tokens[id].q.Port() in w.state.records
    requires w.state.records[w.tokens[id].q.Port()].generations.evidence < MAX_U64
    ensures var t := w.tokens[id];
            Step(w, RecordingDoubt(id)).state.records
            == w.state.records[t.q.Port() := Uncertain(w.state.records[t.q.Port()], t.q.Authority(), t.generation, t.detail, t.source)]
    ensures Lawful(w, RecordingDoubt(id))
  {
    hide PlanToken, ScreenToken, ApplyToken, GateToken, GateState, SnapshotToken, ResolveToken, CommitStep, FencePublisher;
    hide BeginEpoch, InsertPort, BindingStep, SaveStep, LoadStep, RestartStep, EnvironmentStep, ValidIdentifier, Consistent;
    hide Uncertain, Commit, Refill, Tracks;
  }

  // -------------------------------------------------------------------------
  // Two applies race
  // -------------------------------------------------------------------------

  const APPLIED := AdapterReply(true, [], ApplyStatus.Applied, [], ReadbackStatus.Verified)

  lemma AppliedSettles(s: State, q: Request, base: PortRecord, plan: MutationPlan) returns (next: PortRecord)
    requires plan.apply.Some? && s.config == CONFIG
    ensures ApplyToken(s, Planned(q, base, plan), APPLIED) == Ready(q, base, plan.expected, next)
    ensures next.applied.outcome.Applied? && next.lastMutation == plan.next.lastMutation
  {
    hide ValidIdentifier, Consistent, LostApply, LostReadback, Mismatched, PortConfiguration.Valid, ValidText;
    next := SettledRecord(plan.next, AppliedOutcome.Applied, []);
  }

  /** Two first configurations of one port, both applied with success by the device. */
  lemma BothApplied() returns (w: World, first: PortRecord, second: PortRecord)
    ensures Reachable(CONFIG, w) && w.state.records == map[PORT := BoundRecord(Bind(3, A0), NoReading)]
    ensures w.state.generation == 1 && w.spent == {(PORT, A0)}
    ensures var base := BoundRecord(Bind(3, A0), NoReading);
            && TokenAt(w, 0) == Some(Ready(Ask(1, Operation.Configure(WANTED), A1), base, CaptureExpected(base), first))
            && TokenAt(w, 1) == Some(Ready(Ask(1, Operation.Configure(WANTED), A2), base, CaptureExpected(base), second))
    ensures first.lastMutation.attempt == A1 && first.applied.outcome.Applied?
    ensures second.lastMutation.attempt == A2 && second.applied.outcome.Applied?
  {
    hide Reachable, Step, ValidIdentifier, Consistent, BoundRecord, PlannedToken, PortRecord.Valid, ApplyToken, GateToken;
    hide GateState, CaptureExpected, ResolveToken, Screen;
    StartIsBlank();
    AsciiIsText([], MAX_DESCRIPTION_LENGTH);
    var one, plan := FirstApply(Start(CONFIG), APPLIED);
    var base := BoundRecord(Bind(3, A0), NoReading);
    first := AppliedSettles(one.state, Ask(1, Operation.Configure(WANTED), A1), base, plan);
    var q := Ask(1, Operation.Configure(WANTED), A2);
    BoundIsValid(3, A0);
    BoundIsFresh(3, A0);
    AgentIsGated(one.state, 1, q.operation, A2);
    UnownedIsScreened(base, q, 1);
    plan := ConfigurePlans(GateState(one.state, q), base, 1, A2);
    second := AppliedSettles(GateState(one.state, q), q, base, plan);
    w := Prepares(one, 1, q, Reading(EVIDENCE), APPLIED, plan);
  }

  /** One commits; the other, applied with success as well, is refused as stale and leaves no trace. */
  lemma RaceLost() returns (w: World, v: World)
    ensures Reachable(CONFIG, w) && TokenAt(w, 1).Some? && w.tokens[1].Ready? && w.tokens[1].next.applied.outcome.Applied?
    ensures TokenAt(w, 0) == Some(Finished(Ask(1, Operation.Configure(WANTED), A1), OutcomeCode.Ok))
    ensures v == Step(w, Committing(1)) && v.state == w.state
    ensures TokenAt(v, 1) == Some(Finished(Ask(1, Operation.Configure(WANTED), A2), StaleConfigurationGeneration))
  {
    hide Reached, Step, ValidIdentifier, Consistent, BoundRecord, CaptureExpected, WouldCommit, Lawful, Inv;
    var both, first, second := BothApplied();
    BoundIsFresh(3, A0);
    StillCommits(both, 0);
    w := Commits(both, 0);
    v := Step(w, Committing(1));
    var events :| Reached(CONFIG, events, w);
    ReachedIsGood(CONFIG, events, w);
    OvertakenIsRefused(w, 1);
  }

  // -------------------------------------------------------------------------
  // A claim in flight revives an orphan
  // -------------------------------------------------------------------------

  lemma SilentSettles(s: State, q: Request, base: PortRecord, plan: MutationPlan) returns (next: PortRecord)
    requires plan.apply.Some? && s.config == CONFIG && plan.next.Valid()
    ensures ApplyToken(s, Planned(q, base, plan), SILENT) == Ready(q, base, plan.expected, next)
    ensures next.Valid() && next.configuration == plan.next.configuration && next.ownership == plan.next.ownership
    ensures next.lifecycle == plan.next.lifecycle && next.port == plan.next.port && next.parentDevice == plan.next.parentDevice
    ensures next.generations.device == plan.next.generations.device && next.lastMutation == plan.next.lastMutation
    ensures next.generations.configuration == plan.next.generations.configuration && next.capability == plan.next.capability
  {
    hide ValidIdentifier, Consistent, LostApply, LostReadback, Mismatched, PortConfiguration.Valid, ValidText;
    next := SettledRecord(plan.next, AppliedOutcome.Unsupported, "no-adapter");
  }

  /** A port that is configured and unowned. */
  lemma ConfiguredPort(start: World) returns (w: World)
    requires Blank(start)
    ensures Reachable(CONFIG, w) && PORT in w.state.records && AgentPasses(w.state, 1)
    ensures var r := w.state.records[PORT];
            && r.Valid() && r.configuration.Some? && r.ownership.None? && !r.lifecycle.Retired? && r.parentDevice == DEVICE
            && r.generations.device == 3 && r.lastMutation.attempt == A1 && r.port == PORT
            && r.lifecycle.Configured? && r.generations.configuration == 1 && !r.capability.present
    ensures w.state.devices == map[DEVICE := DeviceBinding(DEVICE, 3, [])] && w.state.generation == 2
    ensures w.loads == map[] && w.saves == start.saves && w.disk == start.disk
    ensures w.tokens == map[0 := Finished(Ask(1, Operation.Configure(WANTED), A1), OutcomeCode.Ok)]
    ensures w.spent == {(PORT, A0), (PORT, A1)} && w.state.config == CONFIG && w.state.topology == 1
  {
    hide Reachable, Step, ValidIdentifier, BoundRecord, PortRecord.Valid, ApplyToken, ValidText, CaptureExpected, WouldCommit;
    AsciiIsText([], MAX_DESCRIPTION_LENGTH);
    var u, plan := FirstApply(start, SILENT);
    var q, base := Ask(1, Operation.Configure(WANTED), A1), BoundRecord(Bind(3, A0), NoReading);
    BoundIsFresh(3, A0);
    var next := SilentSettles(u.state, q, base, plan);
    StillCommits(u, 0);
    w := Commits(u, 0);
  }

  /** A claim that is ready on it. */
  lemma ReadyClaim() returns (w: World, next: PortRecord)
    ensures Reachable(CONFIG, w) && PORT in w.state.records && w.state.config == CONFIG && w.state.generation == 2
    ensures var r := w.state.records[PORT];
            && r.configuration.Some? && r.ownership.None? && !r.lifecycle.Retired? && r.parentDevice == DEVICE
            && r.generations.device == 3 && r.lastMutation.attempt == A1
            && TokenAt(w, 1) == Some(Ready(Ask(1, ClaimOwnership(CLAIM), A2), r, CaptureExpected(r), next))
    ensures w.state.devices == map[DEVICE := DeviceBinding(DEVICE, 3, [])] && w.spent == {(PORT, A0), (PORT, A1)}
    ensures next.ownership.Some? && next.lastMutation.attempt == A2
  {
    hide Reachable, Step, ValidIdentifier, Consistent, PlannedToken, PortRecord.Valid, GateState, CaptureExpected, Lawful;
    StartIsBlank();
    w := ConfiguredPort(Start(CONFIG));
    var base := w.state.records[PORT];
    var q := Ask(1, ClaimOwnership(CLAIM), A2);
    AgentIsGated(w.state, 1, q.operation, A2);
    var plan := ClaimPlans(GateState(w.state, q), base, 1, A2);
    w := Readies(w, 1, 1, q.operation, A2, plan);
    next := plan.next;
  }

  /** The parent of a configured, unowned port is replaced while a claim is past the device gate.
      The port is orphaned, and the claim still gives it an owner. */
  lemma ClaimRevivesOrphan() returns (w: World, v: World)
    ensures Reachable(CONFIG, w) && Reachable(CONFIG, v) && Orphaned(w.state, PORT)
    ensures v == Step(w, Committing(1)) && PORT in v.state.records && v.state.records[PORT].ownership.Some?
  {
    hide Reachable, Step, ValidIdentifier, Consistent, WouldCommit, CaptureExpected, Lawful;
    var ready, next := ReadyClaim();
    w := Registers(ready, 9);
    StillCommits(w, 1);
    v := Commits(w, 1);
  }

  // -------------------------------------------------------------------------
  // A profile is saved and cannot be loaded
  // -------------------------------------------------------------------------

  /** It does not specify an MTU, and carries one. */
  const HIDDEN := PortProfile(
    AGENT, 1, "n", [],
    ProfileConfiguration(
      false, SpeedSetting(SpeedSelection.Auto, 0), false, 1500, false, DuplexMode.Unknown, false, AutonegPolicy.Unknown,
      false, FecMode.Unknown, false, PauseMode.Unknown, false, BreakoutMode.NoBreakout, false, PortMode.Physical,
      false, ProtocolFamily.Unknown, false, false, false, []),
    Provenance(ProvenanceKind.Operator, [], [], [], 1, A0))

  const SAVED := PersistedState([], [], 1, 0, 1, [], [HIDDEN], [], [])

  lemma HiddenIsValid()
    ensures HIDDEN.Valid()
  {
    hide ValidText;
    AsciiIsText("n", MAX_NAME_LENGTH);
    AsciiIsText([], MAX_DESCRIPTION_LENGTH);
    AsciiIsText([], MAX_NAME_LENGTH);
  }

  /** Defining the profile succeeds, and it is gathered. */
  lemma HiddenIsSaved() returns (w: World)
    ensures Reachable(CONFIG, w) && w.state.profiles == map[AGENT := [HIDDEN]] && Gathers(w.state, w.state, w.state, SAVED)
  {
    hide Reachable, Step, ValidIdentifier, PortProfile.Valid, Gathers, Lawful, DefineProfile;
    HiddenIsValid();
    StartIsReachable(CONFIG);
    PlainIsLawful(Start(CONFIG), DefiningProfile(HIDDEN));
    ReachOn(CONFIG, Start(CONFIG), DefiningProfile(HIDDEN));
    w := Step(Start(CONFIG), DefiningProfile(HIDDEN));
    StepOfDefine(Start(CONFIG), HIDDEN);
    HiddenIsDefined(FreshEngine(CONFIG));
    HiddenIsGathered(w.state);
  }

  /** Saving it succeeds, and what was saved is refused. */
  lemma HiddenMtuIsLost()
    ensures Container.Encode(SAVED).Encoded?
    ensures Container.Decode(Container.Encode(SAVED).bytes) == Container.Refused(PersistenceCorruption)
  {
    hide Reachable, ValidIdentifier, Container.Encode, Container.Decode, PortProfile.Valid, Gathers;
    var w := HiddenIsSaved();
    HiddenIsEncoded();
    SavedStateReadsBack(CONFIG, w, w, w, SAVED, Container.Encode(SAVED).bytes);
    assert Wire.HidesMtu(SAVED.profiles[0].configuration);
  }

  lemma StepOfDefine(w: World, profile: PortProfile)
    ensures Step(w, DefiningProfile(profile)) == w.(state := DefineProfile(w.state, profile).0)
  {
    hide MutationStep, BindingStep, SaveStep, LoadStep, RestartStep, DefineProfile;
  }

  lemma HiddenIsDefined(s: State)
    requires s == FreshEngine(CONFIG) && HIDDEN.Valid()
    ensures DefineProfile(s, HIDDEN).0 == s.(profiles := map[AGENT := [HIDDEN]])
  {
    hide ValidIdentifier, PortProfile.Valid;
  }

  lemma HiddenIsGathered(s: State)
    requires s.profiles == map[AGENT := [HIDDEN]] && s == FreshEngine(CONFIG).(profiles := s.profiles)
    ensures Gathers(s, s, s, SAVED)
  {
    hide ValidIdentifier;
    assert forall p :: p in SAVED.profiles <==> Profiles.Holds(s.profiles, p);
  }

  lemma HiddenIsEncoded()
    ensures Container.Encode(SAVED).Encoded?
  {
    hide Container.Framed, Container.Payload, PortProfile.Valid, ValidIdentifier;
    HiddenIsValid();
    HiddenIsSmall();
  }

  lemma HiddenIsSmall()
    ensures |Container.Payload(SAVED)| <= 1000
  {
    hide Codec.PutU64, Codec.PutU32, Codec.PutText, Codec.PutList, Wire.PutRecord, Wire.PutDevice, Wire.PutPublisher;
    hide Wire.PutProfile, ValidIdentifier;
    forall rest
      ensures |Codec.PutList(SAVED.records, Wire.PutRecord, rest)| == |rest| + 4
      ensures |Codec.PutList(SAVED.devices, Wire.PutDevice, rest)| == |rest| + 4
      ensures |Codec.PutList(SAVED.publishers, Wire.PutPublisher, rest)| == |rest| + 4
      ensures |Codec.PutList(SAVED.profiles, Wire.PutProfile, rest)| <= |rest| + 400
    {
      EmptyIsSmall(Wire.PutRecord, rest);
      EmptyIsSmall(Wire.PutDevice, rest);
      EmptyIsSmall(Wire.PutPublisher, rest);
      OneIsSmall(rest);
    }
  }

  lemma EmptyIsSmall<T>(put: (T, Text) -> Text, rest: Text)
    ensures |Codec.PutList([], put, rest)| == |rest| + 4
  {
    hide Codec.PutU32;
  }

  lemma OneIsSmall(rest: Text)
    ensures |Codec.PutList([HIDDEN], Wire.PutProfile, rest)| <= |rest| + 400
  {
    hide Codec.PutU32, Codec.PutText, Codec.PutU64, Wire.PutDimensions, Wire.PutProvenance, ValidIdentifier;
    HiddenPartsAreSmall();
    assert [HIDDEN][1..] == [];
    assert Codec.PutEach([HIDDEN], Wire.PutProfile, rest) == Wire.PutProfile(HIDDEN, Codec.PutEach([], Wire.PutProfile, rest));
  }

  lemma HiddenPartsAreSmall()
    ensures forall rest :: |Wire.PutDimensions(HIDDEN.configuration, rest)| <= |rest| + 100
    ensures forall rest :: |Wire.PutProvenance(HIDDEN.provenance, rest)| <= |rest| + 100
  {
    hide Codec.PutU64, Codec.PutU32, Codec.PutText, Codec.PutBool, ValidIdentifier;
  }
}
