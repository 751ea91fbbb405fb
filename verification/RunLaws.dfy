/** The invariant of runs: it holds at the start and every lawful step keeps it. */
module RunLaws {
  import opened Basics
  import opened Records
  import opened Profiles
  import opened Planning
  import opened PlanningLaws
  import opened Engine
  import opened Recovery
  import opened Safety
  import opened Utf8
  import opened Wording
  import opened Runs
  import Lifecycle
  import Identifiers

  // -------------------------------------------------------------------------
  // The fingerprint moves whenever the record does
  // -------------------------------------------------------------------------

  /** The attempt a record carries is one that was committed to it. */
  predicate Spent(r: PortRecord, spent: set<(Id, Id)>) {
    !Named(r.lastMutation.attempt) || (r.port, r.lastMutation.attempt) in spent
  }

  /** Under one attempt, only releases and uncertain applies touch a record: the configuration and
      administrative counters stand still, the others never go back, and one of them advances. */
  predicate Ahead(a: GenerationVector, b: GenerationVector) {
    && a.configuration == b.configuration && a.administrative == b.administrative
    && a.lifecycle <= b.lifecycle && a.ownership <= b.ownership && a.evidence <= b.evidence
    && (a.ownership < b.ownership || a.evidence < b.evidence)
  }

  /** A record that was not there before comes under an attempt never committed to its port. */
  predicate Introduced(port: Id, next: PortRecord, spent: set<(Id, Id)>) {
    next.port == port && Named(next.lastMutation.attempt) && (port, next.lastMutation.attempt) !in spent
  }

  /** What one step may do to one record: nothing, replace it under an attempt never committed
      to it before, or advance its ownership or evidence counter under the same attempt. */
  predicate RecordStep(cur: PortRecord, next: PortRecord, spent: set<(Id, Id)>) {
    || next == cur
    || (next.port == cur.port && Named(next.lastMutation.attempt) && (next.port, next.lastMutation.attempt) !in spent)
    || (next.port == cur.port && next.lastMutation.attempt == cur.lastMutation.attempt
        && Ahead(cur.generations, next.generations))
  }

  /** A snapshot that has been overtaken stays overtaken, and any change overtakes it. */
  lemma MovedStays(base: PortRecord, cur: PortRecord, next: PortRecord, spent: set<(Id, Id)>)
    requires Spent(base, spent) && Tracks(cur, base) && base.port == cur.port
    requires RecordStep(cur, next, spent)
    ensures Tracks(next, base)
    ensures next != cur || Moved(cur, base) ==> Moved(next, base)
  {
    hide ValidIdentifier;
  }

  /** A port bound anew has overtaken every snapshot of its earlier binding. */
  lemma IntroducedIsMoved(base: PortRecord, next: PortRecord, spent: set<(Id, Id)>)
    requires Spent(base, spent) && Introduced(base.port, next, spent)
    ensures Moved(next, base)
  {
    hide ValidIdentifier;
  }

  /** An overtaken snapshot fails the compare-and-commit. */
  lemma MovedMismatches(cur: PortRecord, base: PortRecord)
    requires Moved(cur, base)
    ensures !CaptureExpected(base).Matches(cur)
  {
    hide ValidIdentifier;
  }

  // -------------------------------------------------------------------------
  // The invariant
  // -------------------------------------------------------------------------

  predicate GoodRequest(s: State, q: Request) {
    q.Authority().Valid() && Named(q.Port()) && q.Authority().epoch <= s.epoch
  }

  ghost predicate GoodBase(w: World, q: Request, base: PortRecord) {
    && SafeRecord(base, q.Port(), w.state.epoch)
    && Spent(base, w.spent)
    && (q.Port() in w.state.records ==> Tracks(w.state.records[q.Port()], base))
  }

  predicate Admitted(q: Request, base: PortRecord) { !base.lifecycle.Retired? && OwnershipGate(base, q).None? }

  predicate HeldWhereOwned(q: Request, base: PortRecord) {
    base.ownership.Some? && !q.operation.ClaimOwnership? ==> Planning.Holds(base, q.Authority())
  }

  /** What reaches commit: a sound record evolved from the snapshot by its holder. */
  ghost predicate Proposal(s: State, q: Request, base: PortRecord, next: PortRecord) {
    && Proposes(q, base, next)
    && SafeRecord(next, q.Port(), s.epoch)
    && HeldWhereOwned(q, base)
    && !base.lifecycle.Retired?
    && (Stranded(base) ==> q.operation.Supersede? || q.operation.Retire?)
  }

  ghost predicate GoodPhase(s: State, t: Token) {
    match t
    case Screened(q, base) => Admitted(q, base)
    case Resolved(q, base, topology, device) => Admitted(q, base)
    case Planned(q, base, plan) =>
      && plan.expected == CaptureExpected(base)
      && Proposal(s, q, base, plan.next)
      && (plan.apply.Some? ==> plan.next.configuration == plan.apply)
    case Ready(q, base, expected, next) => expected == CaptureExpected(base) && Proposal(s, q, base, next)
    case Doubting(q, base, generation, detail, code, source) => ValidText(detail, MAX_DESCRIPTION_LENGTH)
    case _ => true
  }

  ghost predicate GoodToken(w: World, t: Token) {
    && (!t.Finished? && !t.Crashed? ==> GoodRequest(w.state, t.q))
    && (t.HasBase() ==> GoodBase(w, t.q, t.base))
    && GoodPhase(w.state, t)
  }

  ghost predicate GoodTokens(w: World) { forall id :: id in w.tokens ==> GoodToken(w, w.tokens[id]) }

  ghost predicate AllSpent(records: map<Id, PortRecord>, spent: set<(Id, Id)>) {
    forall port :: port in records ==> Spent(records[port], spent)
  }

  /** What a save has gathered so far, each part at its own moment. */
  ghost predicate GoodGathered(image: PersistedState) {
    && DistinctPorts(image.records)
    && (forall r :: r in image.records ==> Sound(r))
    && (forall d :: d in image.devices ==> d.Valid())
    && (forall i, j :: 0 <= i < j < |image.devices| ==> image.devices[i].device != image.devices[j].device)
    && (forall p :: p in image.publishers ==> p.Valid() && p.epoch <= image.epoch)
  }

  /** A container a run has written. */
  ghost predicate GoodImage(image: PersistedState) { GoodGathered(image) && AllValid(image.records) }

  predicate GoodBind(t: BindToken) {
    !t.Concluded? ==> Named(t.b.port) && Named(t.b.parentDevice) && t.b.deviceGeneration != 0 && Named(t.b.attempt)
  }

  ghost predicate GoodBinds(binds: map<nat, BindToken>) { forall id :: id in binds ==> GoodBind(binds[id]) }

  ghost predicate GoodSaves(saves: map<nat, SaveToken>) {
    forall id :: id in saves && !saves[id].Ended? ==> GoodGathered(saves[id].image)
  }

  ghost predicate GoodLoads(loads: map<nat, LoadToken>) {
    forall id :: id in loads && !loads[id].Loaded? ==> GoodImage(loads[id].image)
  }

  ghost predicate Inv(w: World) {
    && SafeState(w.state)
    && AllSpent(w.state.records, w.spent)
    && GoodTokens(w) && GoodBinds(w.binds) && GoodSaves(w.saves) && GoodLoads(w.loads)
    && (w.disk.Some? ==> GoodImage(w.disk.value))
  }

  // -------------------------------------------------------------------------
  // Steps of the state carry every token along
  // -------------------------------------------------------------------------

  /** The records step by step: what is there afterwards has stepped or is introduced. */
  ghost predicate RecordsStep(records: map<Id, PortRecord>, next: map<Id, PortRecord>, spent: set<(Id, Id)>) {
    forall port :: port in next ==>
      if port in records then RecordStep(records[port], next[port], spent) else Introduced(port, next[port], spent)
  }

  ghost predicate Onward(w: World, v: World) {
    && Forward(w.state, v.state) && w.spent <= v.spent
    && RecordsStep(w.state.records, v.state.records, w.spent)
  }

  lemma RequestStays(s: State, t: State, q: Request)
    requires GoodRequest(s, q) && Forward(s, t)
    ensures GoodRequest(t, q)
  {
    hide ValidIdentifier;
  }

  lemma SafeRecordStays(r: PortRecord, port: Id, epoch: Generation, later: Generation)
    requires SafeRecord(r, port, epoch) && epoch <= later
    ensures SafeRecord(r, port, later)
  {
    hide Sound, ValidIdentifier;
  }

  lemma BaseStays(w: World, v: World, q: Request, base: PortRecord)
    requires SafeState(w.state) && GoodBase(w, q, base) && Onward(w, v)
    ensures GoodBase(v, q, base)
  {
    hide SafePublishers, SafeDevices, ValidIdentifier, Consistent, Sound, Tracks, RecordStep, AuthorityContext.Valid;
    var port := q.Port();
    SafeRecordStays(base, port, w.state.epoch, v.state.epoch);
    OvertakenStays(w, v, port, base);
  }

  /** A snapshot that was overtaken, or is overtaken by the step, stays so. */
  lemma OvertakenStays(w: World, v: World, port: Id, base: PortRecord)
    requires Onward(w, v) && Spent(base, w.spent) && base.port == port
    requires port in w.state.records ==> w.state.records[port].port == port && Tracks(w.state.records[port], base)
    ensures port in v.state.records ==> Tracks(v.state.records[port], base)
    ensures port in v.state.records
            && (port !in w.state.records || Moved(w.state.records[port], base) || v.state.records[port] != w.state.records[port]) ==>
              Moved(v.state.records[port], base)
  {
    hide ValidIdentifier, Consistent, Moved, RecordStep, Tracks, Spent, Forward, Introduced;
    if port in v.state.records {
      if port in w.state.records {
        MovedStays(base, w.state.records[port], v.state.records[port], w.spent);
      } else {
        IntroducedIsMoved(base, v.state.records[port], w.spent);
        OvertakenTracks(v.state.records[port], base);
      }
    }
  }

  lemma OvertakenTracks(cur: PortRecord, base: PortRecord)
    requires Moved(cur, base)
    ensures Tracks(cur, base)
  {
    hide Moved;
  }

  lemma PhaseStays(s: State, t: State, token: Token)
    requires GoodPhase(s, token) && Forward(s, t)
    ensures GoodPhase(t, token)
  {
    hide Sound, Proposes, ValidIdentifier, Consistent, HeldWhereOwned, Stranded, Admitted, CaptureExpected;
  }

  lemma TokenStays(w: World, v: World, t: Token)
    requires SafeState(w.state) && GoodToken(w, t) && Onward(w, v)
    ensures GoodToken(v, t)
  {
    hide SafeState, GoodBase, GoodRequest, GoodPhase, ValidIdentifier, Consistent, RecordsStep;
    if !t.Finished? && !t.Crashed? {
      RequestStays(w.state, v.state, t.q);
    }
    if t.HasBase() {
      BaseStays(w, v, t.q, t.base);
    }
    PhaseStays(w.state, v.state, t);
  }

  /** A step that only changes the state keeps every token good. */
  lemma TokensStay(w: World, v: World)
    requires SafeState(w.state) && GoodTokens(w) && Onward(w, v) && v.tokens == w.tokens
    ensures GoodTokens(v)
  {
    hide SafeState, Onward, GoodToken, ValidIdentifier, Consistent;
    forall id | id in v.tokens ensures GoodToken(v, v.tokens[id]) {
      TokenStays(w, v, w.tokens[id]);
    }
  }

  /** A step of one token besides: the others are carried along. */
  lemma TokensStayBut(w: World, v: World, id: nat, t: Token)
    requires SafeState(w.state) && GoodTokens(w) && Onward(w, v) && v.tokens == w.tokens[id := t]
    requires GoodToken(v, t)
    ensures GoodTokens(v)
  {
    hide SafeState, Onward, GoodToken, ValidIdentifier, Consistent;
    forall other | other in v.tokens ensures GoodToken(v, v.tokens[other]) {
      if other != id {
        TokenStays(w, v, w.tokens[other]);
      }
    }
  }

  lemma SameRecordsStep(records: map<Id, PortRecord>, spent: set<(Id, Id)>)
    ensures RecordsStep(records, records, spent)
  {
    hide ValidIdentifier;
  }

  // -------------------------------------------------------------------------
  // Steps of the state alone
  // -------------------------------------------------------------------------

  lemma ReleasedSteps(r: PortRecord, publisher: Id, boot: Id, epoch: Generation, spent: set<(Id, Id)>)
    ensures (HeldByIncarnation(r, publisher, boot) ==> r.generations.ownership < MAX_U64) ==>
              RecordStep(r, ReleasedByFence(r, publisher, boot), spent)
    ensures (HeldBefore(r, epoch) ==> r.generations.ownership < MAX_U64) ==>
              RecordStep(r, ReleasedByEpoch(r, epoch), spent)
    ensures Spent(r, spent) ==> Spent(ReleasedByFence(r, publisher, boot), spent) && Spent(ReleasedByEpoch(r, epoch), spent)
  {
    hide ValidIdentifier, FencedReason, FencedDetail, RestartReason, RestartDetail;
  }

  lemma FencesStep(s: State, publisher: Id, boot: Id, spent: set<(Id, Id)>)
    requires AllSpent(s.records, spent)
    requires forall port :: port in s.records && HeldByIncarnation(s.records[port], publisher, boot) ==>
               s.records[port].generations.ownership < MAX_U64
    ensures RecordsStep(s.records, ReleaseOwnershipOf(s, publisher, boot).records, spent)
    ensures AllSpent(ReleaseOwnershipOf(s, publisher, boot).records, spent)
  {
    hide ValidIdentifier, Consistent, ReleasedByFence, RecordStep, Spent;
    forall port | port in s.records
      ensures RecordStep(s.records[port], ReleasedByFence(s.records[port], publisher, boot), spent)
      ensures Spent(ReleasedByFence(s.records[port], publisher, boot), spent)
    {
      ReleasedSteps(s.records[port], publisher, boot, 0, spent);
    }
  }

  lemma EpochsStep(s: State, epoch: Generation, spent: set<(Id, Id)>)
    requires AllSpent(s.records, spent)
    requires forall port :: port in s.records && s.records[port].ownership.Some? ==>
               s.records[port].generations.ownership < MAX_U64
    ensures RecordsStep(s.records, ReleaseOwnershipBefore(s, epoch).records, spent)
    ensures AllSpent(ReleaseOwnershipBefore(s, epoch).records, spent)
  {
    hide ValidIdentifier, Consistent, ReleasedByEpoch, RecordStep, Spent;
    forall port | port in s.records
      ensures RecordStep(s.records[port], ReleasedByEpoch(s.records[port], epoch), spent)
      ensures Spent(ReleasedByEpoch(s.records[port], epoch), spent)
    {
      ReleasedSteps(s.records[port], [], [], epoch, spent);
    }
  }

  /** The effect of a state step, as far as the invariant is concerned. */
  ghost predicate StateStep(w: World, t: State) {
    && SafeState(t) && Forward(w.state, t)
    && RecordsStep(w.state.records, t.records, w.spent)
    && AllSpent(t.records, w.spent)
  }

  lemma StateStepKeepsInv(w: World, t: State)
    requires Inv(w) && StateStep(w, t)
    ensures Inv(w.(state := t)) && Onward(w, w.(state := t))
  {
    hide SafeState, GoodToken, ValidIdentifier, Consistent, RecordsStep, AllSpent, GoodImage, GoodTokens, Forward;
    TokensStay(w, w.(state := t));
  }

  lemma SameRecordsStateStep(w: World, t: State)
    requires Inv(w) && SafeState(t) && Forward(w.state, t) && t.records == w.state.records
    ensures StateStep(w, t)
  {
    hide SafeState, ValidIdentifier, Consistent, RecordsStep, AllSpent, GoodImage, GoodTokens, Forward;
    SameRecordsStep(w.state.records, w.spent);
  }

  lemma FencingSteps(w: World, publisher: Id, boot: Id)
    requires Inv(w) && Headroom(w, Fencing(publisher, boot))
    ensures StateStep(w, FencePublisher(w.state, publisher, boot).0)
  {
    hide SafeState, ValidIdentifier, Consistent, RecordsStep, AllSpent, GoodImage, GoodTokens, Forward, ReleaseOwnershipOf;
    hide GoodBinds, GoodSaves, GoodLoads;
    FencePublisherIsSafe(w.state, publisher, boot);
    if FencePublisher(w.state, publisher, boot).1 == Ok {
      var entry := w.state.publishers[publisher];
      KnownPublisher(w.state, publisher);
      var fenced := w.state.(publishers := w.state.publishers[publisher := entry.(fenced := true)]);
      FencesStep(fenced, entry.publisher, entry.boot, w.spent);
    } else {
      SameRecordsStateStep(w, w.state);
    }
  }

  lemma BeginningEpochSteps(w: World)
    requires Inv(w) && Headroom(w, BeginningEpoch)
    ensures StateStep(w, BeginEpoch(w.state).0)
  {
    hide SafeState, ValidIdentifier, Consistent, RecordsStep, AllSpent, GoodImage, GoodTokens, Forward, ReleaseOwnershipBefore;
    hide GoodBinds, GoodSaves, GoodLoads;
    BeginEpochIsSafe(w.state);
    if BeginEpoch(w.state).1 == Ok {
      var epoch := Next(w.state.epoch);
      var publishers := FencedAll(w.state.publishers, epoch);
      var raised := w.state.(epoch := epoch, publishers := publishers);
      EpochsStep(raised, epoch, w.spent);
    } else {
      SameRecordsStateStep(w, w.state);
    }
  }

  lemma InsertingSteps(w: World, id: nat, b: Binding, provider: Provider)
    requires Inv(w) && BindAt(w, id) == Some(Cleared(b))
    requires InsertPort(w.state, b, provider).1 == Ok ==> (b.port, b.attempt) !in w.spent
    ensures Inv(InsertStep(w, id, b, provider)) && Onward(w, InsertStep(w, id, b, provider))
  {
    hide SafeState, ValidIdentifier, Consistent, GoodImage, GoodTokens, InsertPort, BoundRecord, SafeRecord, GoodSaves, Forward;
    assert GoodBind(w.binds[id]);
    InsertPortIsSafe(w.state, b, provider);
    var v := InsertStep(w, id, b, provider);
    BoundIsSpent(b, provider);
    InsertedRecords(w, v.state.records, v.spent, b, provider);
    TokensStay(w, v);
  }

  lemma InsertedRecords(w: World, next: map<Id, PortRecord>, spent: set<(Id, Id)>, b: Binding, provider: Provider)
    requires AllSpent(w.state.records, w.spent) && w.spent <= spent
    requires BoundRecord(b, provider).port == b.port && BoundRecord(b, provider).lastMutation.attempt == b.attempt
    requires || next == w.state.records
             || (b.port !in w.state.records && next == w.state.records[b.port := BoundRecord(b, provider)]
                 && Named(b.attempt) && (b.port, b.attempt) in spent - w.spent)
    ensures RecordsStep(w.state.records, next, w.spent) && AllSpent(next, spent)
  {
    hide ValidIdentifier, BoundRecord;
  }

  lemma AttachingSteps(w: World, id: nat, b: Binding, record: PortRecord)
    requires Inv(w) && BindAt(w, id) == Some(Inserted(b, record))
    ensures Inv(AttachStep(w, id, b)) && Onward(w, AttachStep(w, id, b))
  {
    hide SafeState, ValidIdentifier, Consistent, GoodImage, GoodTokens, AttachDevice, SafeRecord, GoodSaves, Forward;
    assert GoodBind(w.binds[id]);
    AttachDeviceIsSafe(w.state, b);
    var v := AttachStep(w, id, b);
    SameRecordsStep(w.state.records, w.spent);
    TokensStay(w, v);
  }

  lemma BoundIsSpent(b: Binding, provider: Provider)
    ensures BoundRecord(b, provider).port == b.port
    ensures BoundRecord(b, provider).lastMutation.attempt == b.attempt
  {
    hide ValidIdentifier, BoundReason, PortCapabilities.Valid;
  }

  /** The three regions of a binding. */
  lemma BindingKeepsInv(w: World, e: Event)
    requires Inv(w) && Lawful(w, e) && e.OfBinding()
    ensures Inv(Step(w, e)) && Onward(w, Step(w, e))
  {
    hide MutationStep, SaveStep, LoadStep, RestartStep, EnvironmentStep;
    hide Inv, Onward, ValidIdentifier, Consistent, InsertStep, AttachStep, ClearToken, InsertPort, Headroom;
    WorldStays(w);
    match e
    case BindingPort(id, b) => if id !in w.binds { ClearingKeepsInv(w, id, b); }
    case InsertingPort(id, provider) =>
      if id in w.binds && w.binds[id].Cleared? { InsertingSteps(w, id, w.binds[id].b, provider); }
    case AttachingDevice(id) =>
      if id in w.binds && w.binds[id].Inserted? { AttachingSteps(w, id, w.binds[id].b, w.binds[id].record); }
  }

  lemma ClearingKeepsInv(w: World, id: nat, b: Binding)
    requires Inv(w)
    ensures var v := w.(binds := w.binds[id := ClearToken(w.state, b)]); Inv(v) && Onward(w, v)
  {
    hide SafeState, ValidIdentifier, Consistent, GoodImage, GoodTokens, RecordsStep, AllSpent, GoodSaves;
    SameRecordsStep(w.state.records, w.spent);
    TokensStay(w, w.(binds := w.binds[id := ClearToken(w.state, b)]));
  }

  /** The effect of a step of the tables beside the records. */
  function EnvironmentState(s: State, e: Event): State
    requires e.OfEnvironment()
  {
    match e
    case BeginningEpoch => BeginEpoch(s).0
    case Registering(publisher, boot, epoch) => RegisterPublisher(s, publisher, boot, epoch).0
    case Fencing(publisher, boot) => FencePublisher(s, publisher, boot).0
    case RecordingDevice(device, generation, source) => RegisterDevice(s, device, generation, source).0
    case SettingTopology(generation) => SetTopology(s, generation).0
    case DefiningProfile(profile) => DefineProfile(s, profile).0
  }

  lemma EnvironmentSteps(w: World, e: Event)
    requires Inv(w) && Headroom(w, e) && e.OfEnvironment()
    ensures StateStep(w, EnvironmentState(w.state, e))
  {
    hide Inv, StateStep, BeginEpoch, FencePublisher, RegisterDevice, RegisterPublisher, SetTopology, DefineProfile, Headroom;
    hide SafeState, Forward, SameRecords, ValidIdentifier, Consistent;
    InvIsSafe(w);
    match e
    case BeginningEpoch => BeginningEpochSteps(w);
    case Fencing(publisher, boot) => FencingSteps(w, publisher, boot);
    case _ => TablesStep(w, e);
  }

  lemma TablesStep(w: World, e: Event)
    requires Inv(w) && e.OfEnvironment() && !e.BeginningEpoch? && !e.Fencing?
    ensures StateStep(w, EnvironmentState(w.state, e))
  {
    hide Inv, StateStep, BeginEpoch, FencePublisher, RegisterDevice, RegisterPublisher, DefineIn;
    hide SafeState, Forward, ValidIdentifier, Consistent, SetTopology;
    InvIsSafe(w);
    match e {
      case Registering(publisher, boot, epoch) => RegisterPublisherIsSafe(w.state, publisher, boot, epoch);
      case RecordingDevice(device, generation, source) => RegisterDeviceIsSafe(w.state, device, generation, source);
      case SettingTopology(generation) => TopologyAndProfilesAreSafe(w.state, generation, w.state.profiles);
      case DefiningProfile(profile) => TopologyAndProfilesAreSafe(w.state, 0, DefineProfile(w.state, profile).0.profiles);
    }
    SameRecordsStateStep(w, EnvironmentState(w.state, e));
  }

  /** Everything but the steps of a mutation, a binding, a save or a load, and restarts. */
  lemma EnvironmentKeepsInv(w: World, e: Event)
    requires Inv(w) && Lawful(w, e)
    requires e.OfEnvironment()
    ensures Inv(Step(w, e)) && Onward(w, Step(w, e))
  {
    hide MutationStep, BindingStep, SaveStep, LoadStep, RestartStep, Inv, StateStep, LoadOvertakes, Headroom;
    hide BeginEpoch, FencePublisher, RegisterDevice, RegisterPublisher, SetTopology, DefineProfile, Onward;
    EnvironmentSteps(w, e);
    StateStepKeepsInv(w, EnvironmentState(w.state, e));
  }

  lemma TopologyAndProfilesAreSafe(s: State, topology: Generation, profiles: Registry)
    requires SafeState(s)
    ensures var t := SetTopology(s, topology).0; SafeState(t) && Forward(s, t) && t.records == s.records
    ensures SafeState(s.(profiles := profiles)) && Forward(s, s.(profiles := profiles))
  {
    hide SafeRecords, SafePublishers, SafeDevices, ValidIdentifier, Consistent;
  }

  // -------------------------------------------------------------------------
  // Steps of one mutation
  // -------------------------------------------------------------------------

  lemma SubmitKeepsInv(w: World, id: nat, q: Request)
    requires Inv(w) && id !in w.tokens
    ensures var v := With(w, id, GateToken(w.state, q)).(state := GateState(w.state, q)); Inv(v) && Onward(w, v)
  {
    hide SafeState, ValidIdentifier, Consistent, GoodImage, GoodTokens, CheckAuthority, RecordsStep, AllSpent;
    CheckAuthorityIsSafe(w.state, q.Authority());
    SameRecordsStep(w.state.records, w.spent);
    var v := With(w, id, GateToken(w.state, q)).(state := GateState(w.state, q));
    TokensStayBut(w, v, id, GateToken(w.state, q));
  }

  /** A step that only rewrites one token. */
  lemma TokenKeepsInv(w: World, id: nat, t: Token)
    requires Inv(w) && GoodToken(w, t)
    ensures Inv(With(w, id, t)) && Onward(w, With(w, id, t))
  {
    hide SafeState, ValidIdentifier, Consistent, GoodImage, GoodTokens, RecordsStep, AllSpent, GoodRequest, GoodBase, GoodPhase;
    SameRecordsStep(w.state.records, w.spent);
    var v := With(w, id, t);
    TokenStays(w, v, t);
    TokensStayBut(w, v, id, t);
  }

  lemma SnapshotIsGood(w: World, q: Request)
    requires Inv(w) && GoodToken(w, Gated(q))
    ensures GoodToken(w, SnapshotToken(w.state, q))
  {
    hide ValidIdentifier, Consistent, GoodImage, GoodTokens, SafePublishers, SafeDevices, SafeRecord, Spent;
  }

  lemma ScreenIsGood(w: World, q: Request, base: PortRecord)
    requires GoodToken(w, Snapped(q, base))
    ensures GoodToken(w, ScreenToken(w.state, q, base))
  {
    hide ValidIdentifier, Consistent, GoodBase, GoodRequest, OwnershipGate;
  }

  lemma ResolveIsGood(w: World, q: Request, base: PortRecord)
    requires GoodToken(w, Screened(q, base))
    ensures GoodToken(w, ResolveToken(w.state, q, base))
  {
    hide ValidIdentifier, Consistent, Sound, GoodRequest, Admitted, Tracks, Spent;
  }

  /** Ownership in a proposed record is the old one, or granted under the request's epoch. */
  lemma GrantedUnderEpoch(r: PortRecord, input: BuildInput, q: Request)
    requires Sound(r) && !r.lifecycle.Retired? && Build(r, input, q).Prepared?
    ensures var o := Build(r, input, q).plan.next.ownership;
            o.Some? && o != r.ownership ==> o.value.epoch == q.Authority().epoch
  {
    if MovesOwnership(q.operation) {
      MovedUnderEpoch(r, input, q);
    } else {
      hide Build, Sound, ValidIdentifier, ConfigurationAgrees, CapabilityAgrees, EvidenceIsTrue, LiveIsSupported;
      hide PortRecord.Valid, RetiredIsUnowned, CaptureExpected, CountersAdvance, EntersLive;
      BuildPromises(r, input, q);
    }
  }

  lemma MovedUnderEpoch(r: PortRecord, input: BuildInput, q: Request)
    requires MovesOwnership(q.operation) && Build(r, input, q).Prepared?
    ensures var o := Build(r, input, q).plan.next.ownership;
            o.Some? && o != r.ownership ==> o.value.epoch == q.Authority().epoch
  {
    hide PlanConfigure, PlanReconfigure, PlanAdministrative, PlanProfile, PlanBindCapabilities, PlanReconcile;
    hide PlanEvidence, PlanDrift, ValidIdentifier, Identifiers.OwnershipId, PortOwnership.HeldBy, CaptureExpected;
  }

  lemma PlanIsProposal(w: World, t: Token, input: BuildInput)
    requires t.Resolved? && GoodToken(w, t)
    requires input.device == t.device && Consults(t.base, t.q, input.capability)
    requires Prepare(Build(t.base, input, t.q), t.q).Prepared?
    ensures var plan := Prepare(Build(t.base, input, t.q), t.q).plan;
            GoodToken(w, Planned(t.q, t.base, plan))
  {
    hide Build, ValidIdentifier, Consistent, Tracks, Spent, AuthorityContext.Valid, Evolves, ConfigurationAgrees, CapabilityAgrees;
    hide EvidenceIsTrue, LiveIsSupported, RetiredIsUnowned, PortRecord.Valid, Stranded, Planning.Holds, Screen;
    PreparedProposes(t.base, input, t.q);
    GrantedUnderEpoch(t.base, input, t.q);
    OwnedMeansHeld(t.base, input, t.q);
    if Stranded(t.base) {
      StrandedOnlyFences(t.base, input, t.q);
    }
    var plan := Prepare(Build(t.base, input, t.q), t.q).plan;
    assert plan.next.ownership == Build(t.base, input, t.q).plan.next.ownership;
    EvolvesKeepsPlace(t.q.operation, t.base, plan.next);
  }

  lemma EvolvesKeepsPlace(op: Operation, r: PortRecord, next: PortRecord)
    requires Evolves(op, r, next)
    ensures next.port == r.port && next.parentDevice == r.parentDevice
  {
    hide ValidIdentifier;
  }

  lemma PlanIsGood(w: World, t: Token, provider: Provider, looksIdentical: bool, sameEvidence: bool, note: Text)
    requires t.Resolved? && GoodToken(w, t)
    ensures GoodToken(w, PlanToken(w.state, t, provider, looksIdentical, sameEvidence, note))
  {
    hide Build, Prepare, ValidIdentifier, Consistent, GoodBase, GoodRequest, Proposal, DeviceGate, CaptureExpected, Admitted;
    var (code, capability) :=
      if t.q.operation.AppliesToDevice() then ResolveCapabilities(t.base, provider) else (Ok, NO_BINDING);
    var input := BuildInput(t.topology, t.device, capability, w.state.profiles, looksIdentical, sameEvidence, note);
    if Prepare(Build(t.base, input, t.q), t.q).Prepared? && code == Ok {
      PlanIsProposal(w, t, input);
    }
  }

  lemma PrepareKeepsDefined(planned: Planned, q: Request)
    requires planned != Undefined
    ensures Prepare(planned, q) != Undefined
  {
    hide PortRecord.Valid, Supports, CapabilityVerdict, Stamp;
  }

  lemma ApplyIsGood(w: World, t: Token, reply: AdapterReply)
    requires t.Planned? && GoodToken(w, t) && ValidText(reply.detail, MAX_DESCRIPTION_LENGTH)
    ensures GoodToken(w, ApplyToken(w.state, t, reply))
  {
    hide ValidIdentifier, Consistent, GoodBase, GoodRequest, Sound, PortRecord.Valid, Evolves, HeldWhereOwned, Stranded;
    hide ValidText, CaptureExpected, LostApply, LostReadback, Mismatched;
    WordingIsText();
    SettledProposes(t.q, t.base, t.plan, w.state.config.policy, reply);
    SettledKeepsOwner(t.plan, w.state.config.policy, reply);
  }

  lemma SettledKeepsOwner(plan: MutationPlan, policy: AdapterPolicy, reply: AdapterReply)
    ensures Settle(plan, policy, reply).Settled? ==>
              && Settle(plan, policy, reply).next.ownership == plan.next.ownership
              && Settle(plan, policy, reply).next.parentDevice == plan.next.parentDevice
              && Settle(plan, policy, reply).next.port == plan.next.port
              && Settle(plan, policy, reply).next.lifecycle == plan.next.lifecycle
  {
    hide ValidIdentifier, LostApply, LostReadback, Mismatched;
  }

  lemma PutKeepsSpent(records: map<Id, PortRecord>, spent: set<(Id, Id)>, more: set<(Id, Id)>, port: Id, r: PortRecord)
    requires AllSpent(records, spent) && spent <= more && Spent(r, more)
    ensures AllSpent(records[port := r], more)
  {
    hide ValidIdentifier;
  }

  lemma PutSteps(records: map<Id, PortRecord>, spent: set<(Id, Id)>, port: Id, r: PortRecord)
    requires port in records && RecordStep(records[port], r, spent)
    ensures RecordsStep(records, records[port := r], spent)
  {
    hide ValidIdentifier;
  }

  lemma CommitKeepsInv(w: World, id: nat, t: Token)
    requires Inv(w) && TokenAt(w, id) == Some(t) && t.Ready?
    requires WouldCommit(w, id) ==> (t.q.Port(), t.q.Attempt()) !in w.spent
    ensures Inv(CommitStep(w, id, t)) && Onward(w, CommitStep(w, id, t))
  {
    hide SafeState, ValidIdentifier, Consistent, GoodImage, GoodTokens, RecordsStep, AllSpent, Sound, Commit, CaptureExpected;
    hide PortRecord.Valid, Evolves, HeldWhereOwned, Stranded;
    var port := t.q.Port();
    GoodTokenAt(w, id);
    CommitIsSafe(w.state, port, t.expected, t.next);
    CommitRefused(w.state, port, t.expected, t.next);
    var v := CommitStep(w, id, t);
    if Commit(w.state, port, t.expected, t.next).1 == Ok {
      CommittedIsThere(w.state, port, t.expected, t.next);
      PortOfRecord(w, port);
      PutKeepsSpent(w.state.records, w.spent, v.spent, port, t.next);
      PutSteps(w.state.records, w.spent, port, t.next);
    } else {
      SameRecordsStep(w.state.records, w.spent);
    }
    TokensStayBut(w, v, id, v.tokens[id]);
  }

  lemma CommittedIsThere(s: State, port: Id, expected: ExpectedState, next: PortRecord)
    requires Commit(s, port, expected, next).1 == Ok
    ensures port in s.records && expected.Matches(s.records[port])
  {
    hide ValidIdentifier, Consistent, CaptureExpected;
  }

  lemma CommitRefused(s: State, port: Id, expected: ExpectedState, next: PortRecord)
    ensures Commit(s, port, expected, next).1 != Ok ==> Commit(s, port, expected, next).0 == s
  {
    hide ValidIdentifier, Consistent, CaptureExpected;
  }

  lemma GoodTokenAt(w: World, id: nat)
    requires Inv(w) && id in w.tokens
    ensures GoodToken(w, w.tokens[id])
  {
    hide SafeState, ValidIdentifier, Consistent, GoodImage, AllSpent, GoodToken;
  }

  lemma PortOfRecord(w: World, port: Id)
    requires Inv(w) && port in w.state.records
    ensures SafeRecord(w.state.records[port], port, w.state.epoch)
    ensures w.state.records[port].port == port && Spent(w.state.records[port], w.spent)
  {
    hide ValidIdentifier, Consistent, GoodImage, GoodTokens, Sound, SafePublishers, SafeDevices;
  }

  lemma UncertainSteps(r: PortRecord, a: AuthorityContext, g: Generation, detail: Text, source: Text, spent: set<(Id, Id)>)
    requires r.generations.evidence < MAX_U64
    ensures RecordStep(r, Uncertain(r, a, g, detail, source), spent)
    ensures Uncertain(r, a, g, detail, source) != r
    ensures Spent(r, spent) ==> Spent(Uncertain(r, a, g, detail, source), spent)
  {
    hide ValidIdentifier, UnknownReason;
  }

  lemma DoubtKeepsInv(w: World, id: nat, t: Token)
    requires Inv(w) && TokenAt(w, id) == Some(t) && t.Doubting? && Headroom(w, RecordingDoubt(id))
    ensures Inv(DoubtStep(w, id, t)) && Onward(w, DoubtStep(w, id, t))
  {
    hide SafeState, ValidIdentifier, Consistent, GoodImage, GoodTokens, RecordsStep, AllSpent, Sound, Uncertain, SafeRecord;
    hide ValidText, RecordStep, Spent;
    var port := t.q.Port();
    GoodTokenAt(w, id);
    RecordUncertaintyIsSafe(w.state, port, t.q.Authority(), t.generation, t.detail, t.source);
    var v := DoubtStep(w, id, t);
    if port in w.state.records {
      PortOfRecord(w, port);
      var after := Uncertain(w.state.records[port], t.q.Authority(), t.generation, t.detail, t.source);
      UncertainSteps(w.state.records[port], t.q.Authority(), t.generation, t.detail, t.source, w.spent);
      PutKeepsSpent(w.state.records, w.spent, w.spent, port, after);
      PutSteps(w.state.records, w.spent, port, after);
    } else {
      SameRecordsStep(w.state.records, w.spent);
    }
    TokensStayBut(w, v, id, v.tokens[id]);
  }

  // -------------------------------------------------------------------------
  // Saving and restarting
  // -------------------------------------------------------------------------

  lemma AuthorityIsGood(s: State, devices: seq<DeviceBinding>, publishers: seq<PublisherRecord>)
    requires SafeState(s) && WalksDevices(s.devices, devices) && WalksPublishers(s.publishers, publishers)
    ensures GoodGathered(AuthorityImage(s, devices, publishers))
  {
    hide ValidIdentifier, Consistent, Sound, PublisherRecord.Valid, DeviceBinding.Valid, SafeRecords;
  }

  lemma RecordsAreGood(s: State, image: PersistedState, records: seq<PortRecord>)
    requires SafeState(s) && GoodGathered(image) && WalksRecords(s.records, records)
    ensures GoodGathered(image.(records := records, engineGeneration := s.generation))
  {
    hide ValidIdentifier, Consistent, Sound, SafePublishers, SafeDevices;
  }

  lemma SaveStepKeepsInv(w: World, id: nat, t: SaveToken)
    requires Inv(w) && (t.Ended? || GoodGathered(t.image))
    ensures var v := w.(saves := w.saves[id := t]); Inv(v) && Onward(w, v)
  {
    hide SafeState, ValidIdentifier, Consistent, GoodGathered, GoodTokens, RecordsStep, AllSpent, GoodBinds;
    SameRecordsStep(w.state.records, w.spent);
    TokensStay(w, w.(saves := w.saves[id := t]));
  }

  lemma DiskKeepsInv(w: World, image: PersistedState)
    requires Inv(w) && GoodImage(image)
    ensures Inv(w.(disk := Some(image))) && Onward(w, w.(disk := Some(image)))
  {
    hide SafeState, ValidIdentifier, Consistent, GoodImage, GoodTokens, RecordsStep, AllSpent, GoodBinds, GoodSaves, GoodLoads;
    SameRecordsStep(w.state.records, w.spent);
    TokensStay(w, w.(disk := Some(image)));
  }

  lemma GoodSaveAt(w: World, id: nat)
    requires Inv(w) && id in w.saves && !w.saves[id].Ended?
    ensures GoodGathered(w.saves[id].image)
  {
    hide SafeState, GoodTokens, AllSpent, GoodImage, GoodGathered, GoodBinds;
  }

  /** The regions of a save. */
  lemma SavingKeepsInv(w: World, e: Event)
    requires Inv(w) && e.OfSave()
    ensures Inv(Step(w, e)) && Onward(w, Step(w, e))
  {
    hide MutationStep, BindingStep, LoadStep, RestartStep, EnvironmentStep;
    hide Inv, Onward, ValidIdentifier, Consistent, SafeState, WalksDevices, WalksPublishers, WalksRecords, Lists, Sound;
    WorldStays(w);
    InvIsSafe(w);
    if e.id in w.saves && !w.saves[e.id].Ended? {
      GoodSaveAt(w, e.id);
    }
    match e
    case ReadingAuthority(id, devices, publishers) =>
      if id !in w.saves && WalksDevices(w.state.devices, devices) && WalksPublishers(w.state.publishers, publishers) {
        AuthorityIsGood(w.state, devices, publishers);
        SaveStepKeepsInv(w, id, AuthorityRead(AuthorityImage(w.state, devices, publishers)));
      }
    case ReadingProfiles(id, profiles) =>
      if id in w.saves && w.saves[id].AuthorityRead? {
        SaveStepKeepsInv(w, id, ProfilesRead(w.saves[id].image.(profiles := profiles)));
      }
    case ReadingRecords(id, records) =>
      if id in w.saves && w.saves[id].ProfilesRead? && WalksRecords(w.state.records, records) {
        var image := w.saves[id].image;
        RecordsAreGood(w.state, image, records);
        SaveStepKeepsInv(w, id, Gathered(image.(records := records, engineGeneration := w.state.generation)));
      }
    case Writing(id, succeeds) =>
      if id in w.saves && w.saves[id].Gathered? {
        WritingKeepsInv(w, id, w.saves[id].image, succeeds);
      }
  }

  lemma WritingKeepsInv(w: World, id: nat, image: PersistedState, succeeds: bool)
    requires Inv(w) && GoodGathered(image)
    ensures Inv(WriteStep(w, id, image, succeeds)) && Onward(w, WriteStep(w, id, image, succeeds))
  {
    hide Inv, Onward, GoodGathered, AllValid;
    SaveStepKeepsInv(w, id, SaveToken.Ended);
    if succeeds && AllValid(image.records) {
      var v := w.(saves := w.saves[id := SaveToken.Ended]);
      DiskKeepsInv(v, image);
      SameStateOnward(w, v, v.(disk := Some(image)));
    }
  }

  lemma SameStateOnward(w: World, v: World, u: World)
    requires Onward(w, v) && u.state == v.state && u.spent == v.spent
    ensures Onward(w, u)
  {
  }

  lemma InvIsSafe(w: World)
    requires Inv(w)
    ensures SafeState(w.state)
  {
    hide SafeState, GoodTokens, AllSpent, GoodImage, GoodBinds, GoodSaves, GoodLoads;
  }

  lemma RewrittenIsSafe(r: PortRecord, port: Id, epoch: Generation)
    requires Sound(r) && r.Valid() && r.port == port
    ensures SafeRecord(Rewritten(r), port, epoch)
    ensures forall spent :: Spent(Rewritten(r), spent)
  {
    hide Sound, PortRecord.Valid, ValidIdentifier, RecoveryReason, RecoveredReason, RecoveryDetail, RecoveredDetail;
    RewriteKeepsSound(r);
    RewriteStripsAuthority(r);
    RewriteKeepsPort(r);
  }

  lemma RewrittenIsNotLive(r: PortRecord)
    requires Sound(r)
    ensures !IsLive(Rewritten(r).lifecycle)
  {
    hide PortRecord.Valid, ValidIdentifier, RecoveryReason, RecoveredReason, RecoveryDetail, RecoveredDetail;
    hide CapabilityAgrees, EvidenceIsTrue, LiveIsSupported, Stranded;
  }

  lemma RefilledIsSafe(image: PersistedState, epoch: Generation, spent: set<(Id, Id)>)
    requires GoodImage(image)
    ensures SafeRecords(Refill(image.records).0, epoch) && AllSpent(Refill(image.records).0, spent)
  {
    hide Sound, PortRecord.Valid, Rewritten, ValidIdentifier, SafeRecord, Spent, Refill, DistinctPorts;
    RefillIsTotal(image.records);
    var records := Refill(image.records).0;
    forall port | port in records
      ensures SafeRecord(records[port], port, epoch) && Spent(records[port], spent)
    {
      var r :| r in image.records && r.port == port && Restores(records, r);
      RewrittenIsSafe(r, port, epoch);
    }
  }

  /** What recovery brings back is not live, owned or marked by an attempt, and stems from a saved
      record. */
  lemma RefilledIsDead(image: PersistedState, port: Id)
    requires GoodImage(image) && port in Refill(image.records).0
    ensures var r := Refill(image.records).0[port]; !IsLive(r.lifecycle) && r.ownership.None? && r.lastMutation == NO_MUTATION
    ensures exists saved :: saved in image.records && saved.port == port && Refill(image.records).0[port] == Rewritten(saved)
  {
    hide ValidIdentifier, Sound, PortRecord.Valid, Rewritten, Refill, DistinctPorts, DeviceBinding.Valid, PublisherRecord.Valid;
    RefillIsTotal(image.records);
    var saved :| saved in image.records && saved.port == port && Restores(Refill(image.records).0, saved);
    RewriteStripsAuthority(saved);
    RewrittenIsNotLive(saved);
  }

  lemma TablesAreSafe(image: PersistedState, epoch: Generation)
    requires GoodImage(image) && image.epoch <= epoch
    ensures SafePublishers(RefillPublishers(image.publishers), epoch)
    ensures SafeDevices(RefillDevices(image.devices))
  {
    hide Sound, PortRecord.Valid, ValidIdentifier, RefillPublishers, RefillDevices, DistinctPorts;
    PublishersAreFenced(image.publishers);
    DevicesAreFromImage(image.devices);
  }

  lemma RecoverTablesIsSafe(s: State, image: PersistedState)
    requires SafeState(s) && GoodImage(image)
    ensures var t := RecoverTables(s, image).0; SafeState(t) && Forward(s, t) && SameRecords(s, t)
  {
    hide GoodImage, ValidIdentifier, Consistent, RefillPublishers, RefillDevices, SafeRecords, SafePublisher, SafeDevice;
    var epoch := if image.epoch >= s.epoch then Next(image.epoch) else s.epoch;
    TablesAreSafe(image, epoch);
    LaterEpoch(s.records, s.epoch, epoch);
  }

  lemma RecoverRecordsIsSafe(s: State, image: PersistedState, spent: set<(Id, Id)>)
    requires SafeState(s) && GoodImage(image)
    ensures var t := RecoverRecords(s, image).0;
            && SafeState(t) && AllSpent(t.records, spent) && t.records == Refill(image.records).0
            && t.epoch == s.epoch && t.config == s.config && t.devices == s.devices && t.publishers == s.publishers
  {
    hide GoodImage, ValidIdentifier, Consistent, Refill, SafePublishers, SafeDevices, SafeRecords, AllSpent;
    RefilledIsSafe(image, s.epoch, spent);
  }

  /** Recovery of anything a run wrote, complete or stopped at any point, into a new engine or
      into a running one, is safe. */
  lemma RecoverIsSafe(s: State, image: PersistedState, spent: set<(Id, Id)>)
    requires SafeState(s) && AllSpent(s.records, spent) && GoodImage(image)
    ensures var t := Recover(s, image).0;
            SafeState(t) && AllSpent(t.records, spent) && s.epoch <= t.epoch && s.config == t.config
  {
    hide GoodImage, ValidIdentifier, Consistent, RecoveryRefusal, RecoverTables, RecoverRecords, DefineAll, Sort, AllSpent;
    hide SafeRecords, SafePublishers, SafeDevices;
    var profiled := RecoverProfiles(s, image).0;
    RecoverTablesIsSafe(profiled, image);
    RecoverRecordsIsSafe(RecoverTables(profiled, image).0, image, spent);
  }

  lemma RestartKeepsInv(w: World, config: EngineConfig, loads: bool)
    requires Inv(w)
    ensures Inv(RestartStep(w, config, loads))
  {
    hide ValidIdentifier, Consistent, GoodImage, Recover;
    if w.disk.Some? {
      hide SafeState, AllSpent;
      FreshIsSafe(config);
      RecoverIsSafe(FreshEngine(config), w.disk.value, {});
    }
  }

  lemma FreshIsSafe(config: EngineConfig)
    ensures SafeState(FreshEngine(config)) && AllSpent(FreshEngine(config).records, {})
  {
    hide ValidIdentifier;
  }

  // -------------------------------------------------------------------------
  // The regions of a load
  // -------------------------------------------------------------------------

  lemma GoodLoadAt(w: World, id: nat)
    requires Inv(w) && id in w.loads && !w.loads[id].Loaded?
    ensures GoodImage(w.loads[id].image)
  {
    hide SafeState, GoodTokens, AllSpent, GoodImage, GoodBinds, GoodSaves;
  }

  /** A region that touches only the tables beside the records. */
  lemma TablesKeepInv(w: World, s: State, id: nat, t: LoadToken)
    requires Inv(w) && SafeState(s) && Forward(w.state, s) && s.records == w.state.records
    requires t.Loaded? || GoodImage(t.image)
    ensures var v := w.(state := s, loads := w.loads[id := t]); Inv(v) && Onward(w, v)
  {
    hide SafeState, ValidIdentifier, Consistent, GoodImage, GoodTokens, RecordsStep, AllSpent, GoodBinds, GoodSaves, Forward;
    SameRecordsStep(w.state.records, w.spent);
    TokensStay(w, w.(state := s, loads := w.loads[id := t]));
  }

  lemma ProfilesAreSafe(s: State, image: PersistedState)
    requires SafeState(s)
    ensures var t := RecoverProfiles(s, image).0; SafeState(t) && Forward(s, t) && t.records == s.records
  {
    hide SafeRecords, SafePublishers, SafeDevices, DefineAll, Sort, ValidIdentifier, Consistent;
  }

  lemma ForwardToItself(s: State)
    ensures Forward(s, s)
  {
  }

  /** The records region: the snapshots in flight are overtaken or still stand. */
  lemma RecordsRegionKeepsInv(w: World, id: nat, image: PersistedState)
    requires Inv(w) && LoadAt(w, id) == Some(AuthorityRestored(image)) && LoadOvertakes(w, RestoringRecords(id))
    ensures Inv(RestoreRecordsStep(w, id, image))
  {
    hide SafeState, ValidIdentifier, Consistent, GoodImage, GoodTokens, AllSpent, GoodBinds, GoodSaves, RecoverRecords, Tracks;
    GoodLoadAt(w, id);
    RecoverRecordsIsSafe(w.state, image, w.spent);
    var v := RestoreRecordsStep(w, id, image);
    forall i | i in v.tokens ensures GoodToken(v, v.tokens[i]) {
      GoodTokenAt(w, i);
      TokenOutlasts(w, v, w.tokens[i]);
    }
    AllGood(v);
  }

  lemma AllGood(v: World)
    requires forall i :: i in v.tokens ==> GoodToken(v, v.tokens[i])
    ensures GoodTokens(v)
  {
    hide GoodToken;
  }

  lemma TokenOutlasts(w: World, v: World, t: Token)
    requires GoodToken(w, t) && v.state.epoch == w.state.epoch && v.spent == w.spent
    requires t.HasBase() && t.q.Port() in v.state.records ==> Tracks(v.state.records[t.q.Port()], t.base)
    ensures GoodToken(v, t)
  {
    hide ValidIdentifier, Consistent, Sound, Proposes, HeldWhereOwned, Stranded, Admitted, CaptureExpected, Tracks, Spent;
    hide AuthorityContext.Valid;
  }

  lemma OpeningKeepsInv(w: World, id: nat)
    requires Inv(w)
    ensures var v := w.(loads := w.loads[id := OpenToken(w.state, w.disk)]); Inv(v) && Onward(w, v)
  {
    hide Inv, Onward, SafeState, GoodImage, RecoveryRefusal, Forward;
    InvIsSafe(w);
    DiskIsGood(w);
    ForwardToItself(w.state);
    TablesKeepInv(w, w.state, id, OpenToken(w.state, w.disk));
    assert w.(state := w.state, loads := w.loads[id := OpenToken(w.state, w.disk)])
           == w.(loads := w.loads[id := OpenToken(w.state, w.disk)]);
  }

  lemma ProfilesRegionKeepsInv(w: World, id: nat, image: PersistedState)
    requires Inv(w) && GoodImage(image)
    ensures var v := RestoreProfilesStep(w, id, image); Inv(v) && Onward(w, v)
  {
    hide Inv, Onward, SafeState, GoodImage, Forward, RecoverProfiles;
    InvIsSafe(w);
    ProfilesAreSafe(w.state, image);
    var (s, code) := RecoverProfiles(w.state, image);
    TablesKeepInv(w, s, id, if code == Ok then ProfilesRestored(image) else Loaded(code));
  }

  lemma AuthorityRegionKeepsInv(w: World, id: nat, image: PersistedState)
    requires Inv(w) && GoodImage(image)
    ensures var v := RestoreAuthorityStep(w, id, image); Inv(v) && Onward(w, v)
  {
    hide Inv, Onward, SafeState, GoodImage, Forward, RecoverTables;
    InvIsSafe(w);
    RecoverTablesIsSafe(w.state, image);
    var (s, code) := RecoverTables(w.state, image);
    TablesKeepInv(w, s, id, if code == Ok then AuthorityRestored(image) else Loaded(code));
  }

  /** The regions of a load. All but the last carry every snapshot along. */
  lemma LoadKeepsInv(w: World, e: Event)
    requires Inv(w) && Lawful(w, e) && e.OfLoad()
    ensures Inv(Step(w, e))
    ensures !e.RestoringRecords? ==> Onward(w, Step(w, e))
  {
    hide MutationStep, BindingStep, SaveStep, EnvironmentStep, RestartStep, RestoreProfilesStep, RestoreAuthorityStep;
    hide Inv, Onward, GoodImage, RestoreRecordsStep, OpenToken, Headroom, LoadOvertakes;
    WorldStays(w);
    if e.id in w.loads && !w.loads[e.id].Loaded? {
      GoodLoadAt(w, e.id);
    }
    match e
    case OpeningContainer(id) => if id !in w.loads { OpeningKeepsInv(w, id); }
    case RestoringProfiles(id) =>
      if id in w.loads && w.loads[id].Opened? { ProfilesRegionKeepsInv(w, id, w.loads[id].image); }
    case RestoringAuthority(id) =>
      if id in w.loads && w.loads[id].ProfilesRestored? { AuthorityRegionKeepsInv(w, id, w.loads[id].image); }
    case RestoringRecords(id) =>
      if id in w.loads && w.loads[id].AuthorityRestored? { RecordsRegionKeepsInv(w, id, w.loads[id].image); }
  }

  lemma DiskIsGood(w: World)
    requires Inv(w)
    ensures w.disk.Some? ==> GoodImage(w.disk.value)
  {
    hide SafeState, GoodTokens, AllSpent, GoodImage, GoodBinds, GoodSaves, GoodLoads;
  }

  lemma StartIsGood(config: EngineConfig)
    ensures Inv(Start(config))
  {
    hide ValidIdentifier;
  }

  // -------------------------------------------------------------------------
  // Every step, every run
  // -------------------------------------------------------------------------

  lemma MutationKeepsInv(w: World, e: Event)
    requires Inv(w) && Lawful(w, e)
    requires e.OfMutation()
    ensures Inv(Step(w, e)) && Onward(w, Step(w, e))
  {
    hide BindingStep, SaveStep, LoadStep, RestartStep, EnvironmentStep;
    hide Inv, Onward, GoodToken, ValidIdentifier, Consistent, GateToken, GateState, SnapshotToken, ScreenToken, ResolveToken;
    hide PlanToken, ApplyToken, CommitStep, DoubtStep, Headroom, With, ValidText;
    if e.id in w.tokens {
      GoodTokenAt(w, e.id);
    }
    WorldStays(w);
    match e
    case Submit(id, q) => if id !in w.tokens { SubmitKeepsInv(w, id, q); }
    case Snapshot(id) =>
      if id in w.tokens && w.tokens[id].Gated? {
        SnapshotIsGood(w, w.tokens[id].q);
        TokenKeepsInv(w, id, SnapshotToken(w.state, w.tokens[id].q));
      }
    case Screening(id) =>
      if id in w.tokens && w.tokens[id].Snapped? {
        ScreenIsGood(w, w.tokens[id].q, w.tokens[id].base);
        TokenKeepsInv(w, id, ScreenToken(w.state, w.tokens[id].q, w.tokens[id].base));
      }
    case Resolving(id) =>
      if id in w.tokens && w.tokens[id].Screened? {
        ResolveIsGood(w, w.tokens[id].q, w.tokens[id].base);
        TokenKeepsInv(w, id, ResolveToken(w.state, w.tokens[id].q, w.tokens[id].base));
      }
    case Planning(id, provider, looksIdentical, sameEvidence, note) =>
      if id in w.tokens && w.tokens[id].Resolved? {
        PlanIsGood(w, w.tokens[id], provider, looksIdentical, sameEvidence, note);
        TokenKeepsInv(w, id, PlanToken(w.state, w.tokens[id], provider, looksIdentical, sameEvidence, note));
      }
    case Applying(id, reply) =>
      if id in w.tokens && w.tokens[id].Planned? {
        ApplyIsGood(w, w.tokens[id], reply);
        TokenKeepsInv(w, id, ApplyToken(w.state, w.tokens[id], reply));
      }
    case Committing(id) => if id in w.tokens && w.tokens[id].Ready? { CommitKeepsInv(w, id, w.tokens[id]); }
    case RecordingDoubt(id) => if id in w.tokens && w.tokens[id].Doubting? { DoubtKeepsInv(w, id, w.tokens[id]); }
  }

  lemma WorldStays(w: World)
    ensures Onward(w, w)
  {
    hide ValidIdentifier, Consistent, RecordsStep;
    SameRecordsStep(w.state.records, w.spent);
  }

  /** Every lawful step keeps the invariant, and all but recovery carry every snapshot along. */
  lemma StepKeepsInv(w: World, e: Event)
    requires Inv(w) && Lawful(w, e)
    ensures Inv(Step(w, e))
    ensures !e.Recovers() ==> Onward(w, Step(w, e))
  {
    hide Inv, Onward, Step;
    if e.Restarting? {
      RestartingKeepsInv(w, e.config, e.loads);
    } else if e.OfLoad() {
      LoadKeepsInv(w, e);
    } else if e.OfBinding() {
      BindingKeepsInv(w, e);
    } else if e.OfSave() {
      SavingKeepsInv(w, e);
    } else if e.OfEnvironment() {
      EnvironmentKeepsInv(w, e);
    } else {
      MutationKeepsInv(w, e);
    }
  }

  lemma RestartingKeepsInv(w: World, config: EngineConfig, loads: bool)
    requires Inv(w)
    ensures Inv(Step(w, Restarting(config, loads)))
  {
    hide MutationStep, BindingStep, SaveStep, EnvironmentStep, LoadStep, RestartStep, Inv;
    RestartKeepsInv(w, config, loads);
  }

  /** The invariant holds after every lawful run. */
  lemma {:induction false} RunKeepsInv(w: World, events: seq<Event>)
    requires Inv(w) && LawfulRun(w, events)
    ensures Inv(Exec(w, events))
    decreases |events|
  {
    hide Inv, Step, Lawful;
    if events != [] {
      StepKeepsInv(w, events[0]);
      RunKeepsInv(Step(w, events[0]), events[1..]);
    }
  }
}
