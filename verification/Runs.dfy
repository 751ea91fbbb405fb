/** Whole runs: any number of mutations in flight, interleaved with everything else. */
module Runs {
  import opened Basics
  import opened Records
  import opened Profiles
  import opened Planning
  import opened Engine
  import opened Recovery
  import opened Utf8
  import opened Wording

  // -------------------------------------------------------------------------
  // Mutations in flight
  // -------------------------------------------------------------------------

  /** Where one mutation stands between the regions it passes through. `base` is the record it
      read; `Crashed` is a use of a device generation that is not there. */
  datatype Token =
    | Gated(q: Request)
    | Snapped(q: Request, base: PortRecord)
    | Screened(q: Request, base: PortRecord)
    | Resolved(q: Request, base: PortRecord, topology: Generation, device: Option<Generation>)
    | Planned(q: Request, base: PortRecord, plan: MutationPlan)
    | Ready(q: Request, base: PortRecord, expected: ExpectedState, next: PortRecord)
    | Doubting(q: Request, base: PortRecord, generation: Generation, detail: Text, code: OutcomeCode, source: Text)
    | Finished(q: Request, code: OutcomeCode)
    | Crashed(q: Request)
  {
    predicate HasBase() { !Gated? && !Finished? && !Crashed? }
  }

  /** A binding between its regions: past the epoch check, then inserted and still to be attached
      to its device. `record` is what was inserted. */
  datatype BindToken =
    | Cleared(b: Binding)
    | Inserted(b: Binding, record: PortRecord)
    | Concluded(b: Binding, code: OutcomeCode)

  /** A save between its three locked reads and the write. */
  datatype SaveToken =
    | AuthorityRead(image: PersistedState)
    | ProfilesRead(image: PersistedState)
    | Gathered(image: PersistedState)
    | Ended

  /** A load into the running engine between its regions, with the container it has read. */
  datatype LoadToken =
    | Opened(image: PersistedState)
    | ProfilesRestored(image: PersistedState)
    | AuthorityRestored(image: PersistedState)
    | Loaded(code: OutcomeCode)

  datatype Event =
    | Submit(id: nat, request: Request)
    | Snapshot(id: nat)
    | Screening(id: nat)
    | Resolving(id: nat)
    | Planning(id: nat, provider: Provider, looksIdentical: bool, sameEvidence: bool, note: Text)
    | Applying(id: nat, reply: AdapterReply)
    | Committing(id: nat)
    | RecordingDoubt(id: nat)
    | BeginningEpoch
    | Registering(publisher: Id, boot: Id, epoch: Generation)
    | Fencing(publisher: Id, boot: Id)
    | RecordingDevice(device: Id, generation: Generation, source: Text)
    | SettingTopology(generation: Generation)
    | DefiningProfile(profile: PortProfile)
    | BindingPort(id: nat, binding: Binding)
    | InsertingPort(id: nat, provider: Provider)
    | AttachingDevice(id: nat)
    | ReadingAuthority(id: nat, devices: seq<DeviceBinding>, publishers: seq<PublisherRecord>)
    | ReadingProfiles(id: nat, profiles: seq<PortProfile>)
    | ReadingRecords(id: nat, records: seq<PortRecord>)
    | Writing(id: nat, succeeds: bool)
    | OpeningContainer(id: nat)
    | RestoringProfiles(id: nat)
    | RestoringAuthority(id: nat)
    | RestoringRecords(id: nat)
    | Restarting(config: EngineConfig, loads: bool)
  {
    /** The regions of one mutation. */
    predicate OfMutation() {
      Submit? || Snapshot? || Screening? || Resolving? || Planning? || Applying? || Committing? || RecordingDoubt?
    }

    predicate OfBinding() { BindingPort? || InsertingPort? || AttachingDevice? }

    predicate OfSave() { ReadingAuthority? || ReadingProfiles? || ReadingRecords? || Writing? }

    predicate OfLoad() { OpeningContainer? || RestoringProfiles? || RestoringAuthority? || RestoringRecords? }

    /** Steps that replace the authority tables by those of a container, or end the process. */
    predicate RestoresTables() { RestoringAuthority? || Restarting? }

    /** Steps that replace the records by those of a container, or end the process. */
    predicate Recovers() { RestoringRecords? || Restarting? }

    /** Steps of the authority, device, topology and profile tables. */
    predicate OfEnvironment() {
      BeginningEpoch? || Registering? || Fencing? || RecordingDevice? || SettingTopology? || DefiningProfile?
    }
  }

  /** The runtime, the mutations, bindings, saves and loads in flight, the attempts committed so far
      in this process life (per port), and the last container written. */
  datatype World = World(
    state: State, tokens: map<nat, Token>, binds: map<nat, BindToken>, saves: map<nat, SaveToken>,
    loads: map<nat, LoadToken>, spent: set<(Id, Id)>, disk: Option<PersistedState>)

  function Start(config: EngineConfig): World { World(FreshEngine(config), map[], map[], map[], map[], {}, None) }

  // -------------------------------------------------------------------------
  // The steps of one mutation
  // -------------------------------------------------------------------------

  function GateToken(s: State, q: Request): Token {
    if !Named(q.Port()) then Finished(q, MalformedRequest)
    else
      var code := CheckAuthority(s, q.Authority()).1;
      if code == Ok then Gated(q) else Finished(q, code)
  }

  function GateState(s: State, q: Request): State {
    if !Named(q.Port()) then s else CheckAuthority(s, q.Authority()).0
  }

  function SnapshotToken(s: State, q: Request): Token {
    if q.Port() in s.records then Snapped(q, s.records[q.Port()]) else Finished(q, UnknownPort)
  }

  function ScreenToken(s: State, q: Request, base: PortRecord): Token {
    match Screen(base, q, s.topology)
    case Some(code) => Finished(q, code)
    case None => Screened(q, base)
  }

  function ResolveToken(s: State, q: Request, base: PortRecord): Token {
    Resolved(q, base, s.topology,
             if base.parentDevice in s.devices then Some(s.devices[base.parentDevice].generation) else None)
  }

  function PlanToken(s: State, t: Token, provider: Provider, looksIdentical: bool, sameEvidence: bool, note: Text): Token
    requires t.Resolved?
  {
    var (code, capability) :=
      if t.q.operation.AppliesToDevice() then ResolveCapabilities(t.base, provider) else (Ok, NO_BINDING);
    var gate := DeviceGate(t.base, t.q, t.device);
    if gate.Some? then Finished(t.q, gate.value)
    else if code != Ok then Finished(t.q, code)
    else
      var input := BuildInput(t.topology, t.device, capability, s.profiles, looksIdentical, sameEvidence, note);
      match Prepare(Build(t.base, input, t.q), t.q)
      case Rejected(refusal) => Finished(t.q, refusal)
      case Prepared(plan) => Planned(t.q, t.base, plan)
      case Undefined => Crashed(t.q)
  }

  function ApplyToken(s: State, t: Token, reply: AdapterReply): Token
    requires t.Planned?
  {
    match Settle(t.plan, s.config.policy, reply)
    case Settled(next) => Ready(t.q, t.base, t.plan.expected, next)
    case Doubtful(generation, detail, code) => Doubting(t.q, t.base, generation, detail, code, reply.source)
    case Abandoned(code) => Finished(t.q, code)
  }

  // -------------------------------------------------------------------------
  // The step relation
  // -------------------------------------------------------------------------

  function With(w: World, id: nat, t: Token): World { w.(tokens := w.tokens[id := t]) }

  function CommitStep(w: World, id: nat, t: Token): World
    requires t.Ready?
  {
    var (state, code) := Commit(w.state, t.q.Port(), t.expected, t.next);
    w.(state := state, tokens := w.tokens[id := Finished(t.q, code)],
       spent := if code == Ok then w.spent + {(t.q.Port(), t.q.Attempt())} else w.spent)
  }

  function DoubtStep(w: World, id: nat, t: Token): World
    requires t.Doubting?
  {
    w.(state := RecordUncertainty(w.state, t.q.Port(), t.q.Authority(), t.generation, t.detail, t.source),
       tokens := w.tokens[id := Finished(t.q, t.code)])
  }

  // -------------------------------------------------------------------------
  // The steps of one binding
  // -------------------------------------------------------------------------

  function ClearToken(s: State, b: Binding): BindToken {
    if !Named(b.port) || !Named(b.parentDevice) || b.deviceGeneration == 0 || !Named(b.attempt) then
      Concluded(b, MalformedRequest)
    else if b.epoch != s.epoch then Concluded(b, StaleCoordinatorEpoch)
    else Cleared(b)
  }

  function InsertStep(w: World, id: nat, b: Binding, provider: Provider): World {
    var (state, code) := InsertPort(w.state, b, provider);
    if code == Ok then
      w.(state := state, binds := w.binds[id := Inserted(b, BoundRecord(b, provider))],
         spent := w.spent + {(b.port, b.attempt)})
    else w.(binds := w.binds[id := Concluded(b, code)])
  }

  function AttachStep(w: World, id: nat, b: Binding): World {
    var (state, code) := AttachDevice(w.state, b);
    w.(state := state, binds := w.binds[id := Concluded(b, code)])
  }

  // -------------------------------------------------------------------------
  // Saving, loading, restarting
  // -------------------------------------------------------------------------

  function AuthorityImage(s: State, devices: seq<DeviceBinding>, publishers: seq<PublisherRecord>): PersistedState {
    PersistedState(s.config.fabric, s.config.site, s.epoch, 0, s.topology, [], [], devices, publishers)
  }

  /** The write: refused if a record does not validate, and it may fail besides. */
  function WriteStep(w: World, id: nat, image: PersistedState, succeeds: bool): World {
    w.(saves := w.saves[id := Ended],
       disk := if succeeds && AllValid(image.records) then Some(image) else w.disk)
  }

  /** What opening the container finds. */
  function OpenToken(s: State, disk: Option<PersistedState>): LoadToken {
    match disk
    case None => Loaded(PersistenceCorruption)
    case Some(image) =>
      if RecoveryRefusal(s.config, image) == Ok then Opened(image) else Loaded(RecoveryRefusal(s.config, image))
  }

  function RestoreProfilesStep(w: World, id: nat, image: PersistedState): World {
    var (state, code) := RecoverProfiles(w.state, image);
    w.(state := state, loads := w.loads[id := if code == Ok then ProfilesRestored(image) else Loaded(code)])
  }

  function RestoreAuthorityStep(w: World, id: nat, image: PersistedState): World {
    var (state, code) := RecoverTables(w.state, image);
    w.(state := state, loads := w.loads[id := if code == Ok then AuthorityRestored(image) else Loaded(code)])
  }

  function RestoreRecordsStep(w: World, id: nat, image: PersistedState): World {
    var (state, code) := RecoverRecords(w.state, image);
    w.(state := state, loads := w.loads[id := Loaded(code)])
  }

  /** A new process: what was in flight is gone, and so is the memory of spent attempts. It may
      or may not find the container readable. */
  function RestartStep(w: World, config: EngineConfig, loads: bool): World {
    var state := FreshEngine(config);
    World(if loads && w.disk.Some? then Recover(state, w.disk.value).0 else state, map[], map[], map[], map[], {}, w.disk)
  }

  function BindAt(w: World, id: nat): Option<BindToken> { if id in w.binds then Some(w.binds[id]) else None }

  function LoadAt(w: World, id: nat): Option<LoadToken> { if id in w.loads then Some(w.loads[id]) else None }

  function SaveAt(w: World, id: nat): Option<SaveToken> { if id in w.saves then Some(w.saves[id]) else None }

  function TokenAt(w: World, id: nat): Option<Token> { if id in w.tokens then Some(w.tokens[id]) else None }

  function MutationStep(w: World, e: Event): World
    requires e.OfMutation()
  {
    match e
    case Submit(id, q) =>
      if id in w.tokens then w
      else With(w, id, GateToken(w.state, q)).(state := GateState(w.state, q))
    case Snapshot(id) =>
      (match TokenAt(w, id)
       case Some(Gated(q)) => With(w, id, SnapshotToken(w.state, q))
       case _ => w)
    case Screening(id) =>
      (match TokenAt(w, id)
       case Some(Snapped(q, base)) => With(w, id, ScreenToken(w.state, q, base))
       case _ => w)
    case Resolving(id) =>
      (match TokenAt(w, id)
       case Some(Screened(q, base)) => With(w, id, ResolveToken(w.state, q, base))
       case _ => w)
    case Planning(id, provider, looksIdentical, sameEvidence, note) =>
      (match TokenAt(w, id)
       case Some(Resolved(q, base, topology, device)) =>
         With(w, id, PlanToken(w.state, w.tokens[id], provider, looksIdentical, sameEvidence, note))
       case _ => w)
    case Applying(id, reply) =>
      (match TokenAt(w, id)
       case Some(Planned(q, base, plan)) => With(w, id, ApplyToken(w.state, w.tokens[id], reply))
       case _ => w)
    case Committing(id) =>
      (match TokenAt(w, id)
       case Some(Ready(q, base, expected, next)) => CommitStep(w, id, w.tokens[id])
       case _ => w)
    case RecordingDoubt(id) =>
      (match TokenAt(w, id)
       case Some(Doubting(q, base, generation, detail, code, source)) => DoubtStep(w, id, w.tokens[id])
       case _ => w)
  }

  function BindingStep(w: World, e: Event): World
    requires e.OfBinding()
  {
    match e
    case BindingPort(id, b) => if id in w.binds then w else w.(binds := w.binds[id := ClearToken(w.state, b)])
    case InsertingPort(id, provider) =>
      (match BindAt(w, id)
       case Some(Cleared(b)) => InsertStep(w, id, b, provider)
       case _ => w)
    case AttachingDevice(id) =>
      (match BindAt(w, id)
       case Some(Inserted(b, record)) => AttachStep(w, id, b)
       case _ => w)
  }

  ghost function SaveStep(w: World, e: Event): World
    requires e.OfSave()
  {
    match e
    case ReadingAuthority(id, devices, publishers) =>
      if id in w.saves || !WalksDevices(w.state.devices, devices) || !WalksPublishers(w.state.publishers, publishers) then w
      else w.(saves := w.saves[id := AuthorityRead(AuthorityImage(w.state, devices, publishers))])
    case ReadingProfiles(id, profiles) =>
      (match SaveAt(w, id)
       case Some(AuthorityRead(image)) =>
         if Lists(w.state.profiles, profiles) then
           w.(saves := w.saves[id := ProfilesRead(image.(profiles := profiles))])
         else w
       case _ => w)
    case ReadingRecords(id, records) =>
      (match SaveAt(w, id)
       case Some(ProfilesRead(image)) =>
         if WalksRecords(w.state.records, records) then
           w.(saves := w.saves[id := Gathered(image.(records := records, engineGeneration := w.state.generation))])
         else w
       case _ => w)
    case Writing(id, succeeds) =>
      (match SaveAt(w, id)
       case Some(Gathered(image)) => WriteStep(w, id, image, succeeds)
       case _ => w)
  }

  function LoadStep(w: World, e: Event): World
    requires e.OfLoad()
  {
    match e
    case OpeningContainer(id) => if id in w.loads then w else w.(loads := w.loads[id := OpenToken(w.state, w.disk)])
    case RestoringProfiles(id) =>
      (match LoadAt(w, id)
       case Some(Opened(image)) => RestoreProfilesStep(w, id, image)
       case _ => w)
    case RestoringAuthority(id) =>
      (match LoadAt(w, id)
       case Some(ProfilesRestored(image)) => RestoreAuthorityStep(w, id, image)
       case _ => w)
    case RestoringRecords(id) =>
      (match LoadAt(w, id)
       case Some(AuthorityRestored(image)) => RestoreRecordsStep(w, id, image)
       case _ => w)
  }

  function EnvironmentStep(w: World, e: Event): World
    requires e.OfEnvironment()
  {
    match e
    case BeginningEpoch => w.(state := BeginEpoch(w.state).0)
    case Registering(publisher, boot, epoch) => w.(state := RegisterPublisher(w.state, publisher, boot, epoch).0)
    case Fencing(publisher, boot) => w.(state := FencePublisher(w.state, publisher, boot).0)
    case RecordingDevice(device, generation, source) => w.(state := RegisterDevice(w.state, device, generation, source).0)
    case SettingTopology(generation) => w.(state := SetTopology(w.state, generation).0)
    case DefiningProfile(profile) => w.(state := DefineProfile(w.state, profile).0)
  }

  /** One step. An event that does not apply changes nothing. */
  ghost function Step(w: World, e: Event): World {
    hide MutationStep, BindingStep, SaveStep, LoadStep, RestartStep, EnvironmentStep;
    if e.OfMutation() then MutationStep(w, e)
    else if e.OfBinding() then BindingStep(w, e)
    else if e.OfSave() then SaveStep(w, e)
    else if e.OfLoad() then LoadStep(w, e)
    else if e.Restarting? then RestartStep(w, e.config, e.loads)
    else EnvironmentStep(w, e)
  }

  // -------------------------------------------------------------------------
  // What is assumed of a run
  // -------------------------------------------------------------------------

  /** A fence or an epoch advance that takes effect. */
  predicate Revokes(s: State, e: Event) {
    || (e.Fencing? && FencePublisher(s, e.publisher, e.boot).1 == Ok)
    || (e.BeginningEpoch? && BeginEpoch(s).1 == Ok)
  }

  /** The records a revocation takes from their owner. */
  predicate Takes(s: State, e: Event, r: PortRecord) {
    if e.Fencing? then
      e.publisher in s.publishers && HeldByIncarnation(r, e.publisher, s.publishers[e.publisher].boot)
    else r.ownership.Some?
  }

  /** The counter a release or an uncertain apply must advance can advance. */
  ghost predicate Headroom(w: World, e: Event) {
    var records := w.state.records;
    && (Revokes(w.state, e) ==>
          forall port :: port in records && Takes(w.state, e, records[port]) ==> records[port].generations.ownership < MAX_U64)
    && (e.RecordingDoubt? && e.id in w.tokens && w.tokens[e.id].Doubting? && w.tokens[e.id].q.Port() in records ==>
          records[w.tokens[e.id].q.Port()].generations.evidence < MAX_U64)
  }

  /** An attempt identity is committed to a port at most once, as a mutation or as a binding.
      Replays that the engine refuses are not restricted. */
  predicate FreshAttempt(w: World, e: Event) {
    match e
    case Committing(id) =>
      WouldCommit(w, id) ==> (w.tokens[id].q.Port(), w.tokens[id].q.Attempt()) !in w.spent
    case InsertingPort(id, provider) =>
      WouldInsert(w, id, provider) ==> (w.binds[id].b.port, w.binds[id].b.attempt) !in w.spent
    case _ => true
  }

  /** The commit of this token would be accepted now. */
  predicate WouldCommit(w: World, id: nat) {
    && id in w.tokens && w.tokens[id].Ready?
    && Commit(w.state, w.tokens[id].q.Port(), w.tokens[id].expected, w.tokens[id].next).1 == Ok
  }

  /** The binding of this token would be accepted now. */
  predicate WouldInsert(w: World, id: nat, provider: Provider) {
    id in w.binds && w.binds[id].Cleared? && InsertPort(w.state, w.binds[id].b, provider).1 == Ok
  }

  /** `cur` can no longer pass for `base`, now or after any further step. */
  predicate Moved(cur: PortRecord, base: PortRecord) {
    var c, b := cur.generations, base.generations;
    || cur.lastMutation.attempt != base.lastMutation.attempt
    || c.configuration != b.configuration || c.administrative != b.administrative
    || c.lifecycle > b.lifecycle || c.ownership > b.ownership || c.evidence > b.evidence
  }

  /** A record against a snapshot of its port: the very same, or past it for good. */
  predicate Tracks(cur: PortRecord, base: PortRecord) { cur == base || Moved(cur, base) }

  /** The records a live load brings back overtake the snapshots in flight, or are the very records
      those were taken of. A snapshot that carries an attempt is always overtaken, as recovery
      forgets attempts. */
  predicate LoadOvertakes(w: World, e: Event) {
    e.RestoringRecords? && e.id in w.loads && w.loads[e.id].AuthorityRestored? ==>
      var loaded := Refill(w.loads[e.id].image.records).0;
      forall id :: id in w.tokens && w.tokens[id].HasBase() && w.tokens[id].q.Port() in loaded ==>
        Tracks(loaded[w.tokens[id].q.Port()], w.tokens[id].base)
  }

  /** The adapter keeps its promise: a bounded single line of detail. */
  predicate PlainReply(e: Event) { e.Applying? ==> ValidText(e.reply.detail, MAX_DESCRIPTION_LENGTH) }

  ghost predicate Lawful(w: World, e: Event) {
    Headroom(w, e) && FreshAttempt(w, e) && PlainReply(e) && LoadOvertakes(w, e)
  }

  ghost function Exec(w: World, events: seq<Event>): World
    decreases |events|
  {
    hide Step;
    if events == [] then w else Exec(Step(w, events[0]), events[1..])
  }

  ghost predicate LawfulRun(w: World, events: seq<Event>)
    decreases |events|
  {
    hide Step, Lawful;
    events != [] ==> Lawful(w, events[0]) && LawfulRun(Step(w, events[0]), events[1..])
  }
}
