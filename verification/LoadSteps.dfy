/** Whole saves and whole loads as stretches of a run. */
module LoadSteps {
  import opened Basics
  import opened Records
  import opened Profiles
  import opened Planning
  import opened Engine
  import opened Recovery
  import opened Safety
  import opened Runs
  import opened RunLaws
  import opened RunTheorems
  import opened Witnesses
  import opened Wording
  import Pipeline

  /** What a save gathers when there are no profiles. */
  function ImageOf(s: State, records: seq<PortRecord>, devices: seq<DeviceBinding>, publishers: seq<PublisherRecord>)
    : PersistedState
  {
    PersistedState(s.config.fabric, s.config.site, s.epoch, s.generation, s.topology, records, [], devices, publishers)
  }

  // -------------------------------------------------------------------------
  // Saving
  // -------------------------------------------------------------------------

  lemma StepOfFirstRead(w: World, id: nat, devices: seq<DeviceBinding>, publishers: seq<PublisherRecord>)
    requires id !in w.saves && WalksDevices(w.state.devices, devices) && WalksPublishers(w.state.publishers, publishers)
    ensures var e := ReadingAuthority(id, devices, publishers);
            && Step(w, e) == w.(saves := w.saves[id := AuthorityRead(AuthorityImage(w.state, devices, publishers))])
            && Lawful(w, e)
  {
    hide MutationStep, BindingStep, LoadStep, RestartStep, EnvironmentStep, WalksDevices, WalksPublishers, Lawful;
    PlainIsLawful(w, ReadingAuthority(id, devices, publishers));
  }

  lemma StepOfSecondRead(w: World, id: nat, image: PersistedState)
    requires SaveAt(w, id) == Some(AuthorityRead(image)) && Lists(w.state.profiles, []) && image.profiles == []
    ensures Step(w, ReadingProfiles(id, [])) == w.(saves := w.saves[id := ProfilesRead(image)])
    ensures Lawful(w, ReadingProfiles(id, []))
  {
    hide MutationStep, BindingStep, LoadStep, RestartStep, EnvironmentStep, Lists, Lawful;
    PlainIsLawful(w, ReadingProfiles(id, []));
  }

  lemma StepOfThirdRead(w: World, id: nat, image: PersistedState, records: seq<PortRecord>)
    requires SaveAt(w, id) == Some(ProfilesRead(image)) && WalksRecords(w.state.records, records)
    ensures Step(w, ReadingRecords(id, records))
            == w.(saves := w.saves[id := Gathered(image.(records := records, engineGeneration := w.state.generation))])
    ensures Lawful(w, ReadingRecords(id, records))
  {
    hide MutationStep, BindingStep, LoadStep, RestartStep, EnvironmentStep, WalksRecords, Lawful;
    PlainIsLawful(w, ReadingRecords(id, records));
  }

  lemma StepOfWrite(w: World, id: nat, image: PersistedState)
    requires SaveAt(w, id) == Some(Gathered(image)) && AllValid(image.records)
    ensures Step(w, Writing(id, true)) == w.(saves := w.saves[id := SaveToken.Ended], disk := Some(image))
    ensures Lawful(w, Writing(id, true))
  {
    hide MutationStep, BindingStep, LoadStep, RestartStep, EnvironmentStep, AllValid, Lawful;
    PlainIsLawful(w, Writing(id, true));
  }

  /** The three reads of a save, back to back. */
  lemma Reads(w: World, id: nat, records: seq<PortRecord>, devices: seq<DeviceBinding>, publishers: seq<PublisherRecord>)
    returns (v: World)
    requires Reachable(CONFIG, w) && id !in w.saves && w.state.profiles == map[]
    requires WalksRecords(w.state.records, records) && WalksDevices(w.state.devices, devices)
    requires WalksPublishers(w.state.publishers, publishers)
    ensures Reachable(CONFIG, v)
    ensures v == w.(saves := w.saves[id := Gathered(ImageOf(w.state, records, devices, publishers))])
  {
    hide Reachable, Step, ValidIdentifier, Consistent, WalksPublishers, WalksDevices, WalksRecords, Lists, Lawful;
    var a := Step(w, ReadingAuthority(id, devices, publishers));
    StepOfFirstRead(w, id, devices, publishers);
    ReachOn(CONFIG, w, ReadingAuthority(id, devices, publishers));
    v := ReadsOn(a, id, AuthorityImage(w.state, devices, publishers), records);
    assert v.saves == w.saves[id := v.saves[id]];
  }

  /** The last two reads of a save. */
  lemma ReadsOn(w: World, id: nat, image: PersistedState, records: seq<PortRecord>) returns (v: World)
    requires Reachable(CONFIG, w) && SaveAt(w, id) == Some(AuthorityRead(image)) && w.state.profiles == map[]
    requires WalksRecords(w.state.records, records) && image.profiles == []
    ensures Reachable(CONFIG, v)
    ensures v == w.(saves := w.saves[id := Gathered(image.(records := records, engineGeneration := w.state.generation))])
  {
    hide Reachable, Step, ValidIdentifier, Consistent, WalksRecords, Lists, Lawful;
    NothingListed(w.state.profiles);
    var b := Step(w, ReadingProfiles(id, []));
    StepOfSecondRead(w, id, image);
    ReachOn(CONFIG, w, ReadingProfiles(id, []));
    v := Step(b, ReadingRecords(id, records));
    StepOfThirdRead(b, id, image, records);
    ReachOn(CONFIG, b, ReadingRecords(id, records));
    assert v.saves == w.saves[id := v.saves[id]];
  }

  lemma NothingListed(profiles: Registry)
    requires profiles == map[]
    ensures Lists(profiles, [])
  {
    hide ValidIdentifier;
  }

  lemma Writes(w: World, id: nat, image: PersistedState) returns (v: World)
    requires Reachable(CONFIG, w) && SaveAt(w, id) == Some(Gathered(image)) && AllValid(image.records)
    ensures Reachable(CONFIG, v) && v == w.(saves := w.saves[id := SaveToken.Ended], disk := Some(image))
    ensures v == Step(w, Writing(id, true))
  {
    hide Reachable, Step, AllValid, Lawful;
    StepOfWrite(w, id, image);
    ReachOn(CONFIG, w, Writing(id, true));
    v := Step(w, Writing(id, true));
  }

  /** A whole save. */
  lemma Saves(w: World, id: nat, records: seq<PortRecord>, devices: seq<DeviceBinding>, publishers: seq<PublisherRecord>)
    returns (v: World)
    requires Reachable(CONFIG, w) && id !in w.saves && w.state.profiles == map[] && AllValid(records)
    requires WalksRecords(w.state.records, records) && WalksDevices(w.state.devices, devices)
    requires WalksPublishers(w.state.publishers, publishers)
    ensures Reachable(CONFIG, v)
    ensures v == w.(saves := w.saves[id := SaveToken.Ended], disk := Some(ImageOf(w.state, records, devices, publishers)))
  {
    hide Reachable, Step, AllValid, WalksPublishers, WalksDevices, WalksRecords, ValidIdentifier, Consistent;
    var u := Reads(w, id, records, devices, publishers);
    v := Writes(u, id, ImageOf(w.state, records, devices, publishers));
    assert v.saves == w.saves[id := SaveToken.Ended];
  }

  /** Tables of at most one entry, walked. */
  lemma WalksOne(s: State)
    ensures s.records == map[] ==> WalksRecords(s.records, [])
    ensures s.devices == map[] ==> WalksDevices(s.devices, [])
    ensures s.publishers == map[] ==> WalksPublishers(s.publishers, [])
    ensures forall r: PortRecord :: s.records == map[r.port := r] ==> WalksRecords(s.records, [r])
    ensures forall d: DeviceBinding :: s.devices == map[d.device := d] ==> WalksDevices(s.devices, [d])
    ensures forall p: PublisherRecord :: s.publishers == map[p.publisher := p] ==> WalksPublishers(s.publishers, [p])
  {
    hide ValidIdentifier;
  }

  // -------------------------------------------------------------------------
  // Loading
  // -------------------------------------------------------------------------

  /** The first three regions of a load. */
  lemma LoadsTables(w: World, lid: nat, image: PersistedState) returns (v: World)
    requires Reachable(CONFIG, w) && lid !in w.loads && w.disk == Some(image) && image.profiles == []
    requires RecoveryRefusal(w.state.config, image) == Ok && !Exhaustible(image.epoch)
    ensures Reachable(CONFIG, v)
    ensures v == w.(state := RecoverAuthority(w.state.(profiles := map[]), image),
                    loads := w.loads[lid := AuthorityRestored(image)])
  {
    hide Reachable, Step, Lawful, ValidIdentifier, Consistent, RecoveryRefusal, RecoverAuthority, RecoverProfiles;
    var a := Step(w, OpeningContainer(lid));
    StepOfOpening(w, lid, image);
    ReachOn(CONFIG, w, OpeningContainer(lid));
    var b := Step(a, RestoringProfiles(lid));
    StepOfProfiles(a, lid, image);
    ReachOn(CONFIG, a, RestoringProfiles(lid));
    v := Step(b, RestoringAuthority(lid));
    StepOfTables(b, lid, image);
    ReachOn(CONFIG, b, RestoringAuthority(lid));
    assert v.loads == w.loads[lid := AuthorityRestored(image)];
  }

  lemma StepOfOpening(w: World, lid: nat, image: PersistedState)
    requires lid !in w.loads && w.disk == Some(image) && RecoveryRefusal(w.state.config, image) == Ok
    ensures Step(w, OpeningContainer(lid)) == w.(loads := w.loads[lid := Opened(image)]) && Lawful(w, OpeningContainer(lid))
  {
    hide Step, Lawful, RecoveryRefusal, ValidIdentifier, Consistent;
    PlainIsLawful(w, OpeningContainer(lid));
    Pipeline.OpeningOf(w, lid);
  }

  lemma StepOfProfiles(w: World, lid: nat, image: PersistedState)
    requires LoadAt(w, lid) == Some(Opened(image)) && image.profiles == []
    ensures Step(w, RestoringProfiles(lid))
            == w.(state := w.state.(profiles := map[]), loads := w.loads[lid := ProfilesRestored(image)])
    ensures Lawful(w, RestoringProfiles(lid))
  {
    hide Step, Lawful, RecoverProfiles, ValidIdentifier;
    PlainIsLawful(w, RestoringProfiles(lid));
    Pipeline.RestoringOf(w, lid);
    NoProfiles(w.state, image);
  }

  lemma StepOfTables(w: World, lid: nat, image: PersistedState)
    requires LoadAt(w, lid) == Some(ProfilesRestored(image)) && !Exhaustible(image.epoch)
    ensures Step(w, RestoringAuthority(lid))
            == w.(state := RecoverAuthority(w.state, image), loads := w.loads[lid := AuthorityRestored(image)])
    ensures Lawful(w, RestoringAuthority(lid))
  {
    hide Step, Lawful, RecoverAuthority, ValidIdentifier, Consistent;
    PlainIsLawful(w, RestoringAuthority(lid));
    Pipeline.RestoringOf(w, lid);
  }

  lemma NoProfiles(s: State, image: PersistedState)
    requires image.profiles == []
    ensures RecoverProfiles(s, image) == (s.(profiles := map[]), Ok)
  {
    hide ValidIdentifier;
  }

  /** The engine after the last region, for a container of the port `r`. */
  function Reloaded(s: State, image: PersistedState, r: PortRecord): State {
    s.(records := map[r.port := Rewritten(r)], generation := Next(image.engineGeneration))
  }

  /** The last region, for a container of one port. */
  lemma LoadsRecords(w: World, lid: nat, image: PersistedState, r: PortRecord) returns (v: World)
    requires Reachable(CONFIG, w) && LoadAt(w, lid) == Some(AuthorityRestored(image)) && image.records == [r] && r.Valid()
    requires forall id :: id in w.tokens && w.tokens[id].HasBase() && w.tokens[id].q.Port() == r.port ==>
               Tracks(Rewritten(r), w.tokens[id].base)
    requires !Exhaustible(image.engineGeneration)
    ensures Reachable(CONFIG, v) && v == Step(w, RestoringRecords(lid))
    ensures v == w.(state := Reloaded(w.state, image, r), loads := w.loads[lid := Loaded(Ok)])
  {
    hide Reachable, Step, ValidIdentifier, Consistent, Rewritten, PortRecord.Valid, Tracks, Refill;
    RefillsOne(r);
    RecordsAreLawful(w, lid, image, r);
    ReachOn(CONFIG, w, RestoringRecords(lid));
    Pipeline.RestoringOf(w, lid);
    v := Step(w, RestoringRecords(lid));
  }

  /** The engine after a whole load of a container of the port `r` and no profiles. */
  function Reopened(s: State, image: PersistedState, r: PortRecord): State {
    Reloaded(RecoverAuthority(s.(profiles := map[]), image), image, r)
  }

  lemma ReopenedFacts(s: State, image: PersistedState, r: PortRecord)
    ensures var t := Reopened(s, image, r);
            && t.records == map[r.port := Rewritten(r)] && t.generation == Next(image.engineGeneration)
            && t.config == s.config && t.profiles == map[]
            && t.devices == RefillDevices(image.devices) && t.publishers == RefillPublishers(image.publishers)
            && t.epoch == (if image.epoch >= s.epoch then Next(image.epoch) else s.epoch)
            && t.topology == (if image.topology > s.topology then image.topology else s.topology)
  {
    hide Rewritten, RefillDevices, RefillPublishers, ValidIdentifier;
  }

  /** A whole load. */
  lemma Loads(w: World, lid: nat, image: PersistedState, r: PortRecord) returns (v: World)
    requires Reachable(CONFIG, w) && lid !in w.loads && w.disk == Some(image) && image.profiles == [] && image.records == [r]
    requires RecoveryRefusal(w.state.config, image) == Ok && !Exhaustible(image.epoch) && !Exhaustible(image.engineGeneration)
    requires r.Valid() && forall id :: id in w.tokens && w.tokens[id].HasBase() && w.tokens[id].q.Port() == r.port ==>
               Tracks(Rewritten(r), w.tokens[id].base)
    ensures Reachable(CONFIG, v)
    ensures v == w.(state := Reopened(w.state, image, r), loads := w.loads[lid := Loaded(Ok)])
  {
    hide Reachable, Step, ValidIdentifier, Consistent, Rewritten, PortRecord.Valid, Tracks, RecoverAuthority, RecoveryRefusal;
    hide Reloaded;
    var u := LoadsTables(w, lid, image);
    v := LoadsRecords(u, lid, image, r);
    assert v.loads == w.loads[lid := Loaded(Ok)];
  }

  lemma RefillsOne(r: PortRecord)
    requires r.Valid()
    ensures Refill([r]) == (map[r.port := Rewritten(r)], true)
  {
    hide ValidIdentifier, PortRecord.Valid, Rewritten;
    RewriteKeepsValid(r);
    RewriteKeepsPort(r);
    assert [r][..0] == [] && Refill([]) == (map[], true);
  }

  lemma RecordsAreLawful(w: World, lid: nat, image: PersistedState, r: PortRecord)
    requires LoadAt(w, lid) == Some(AuthorityRestored(image)) && Refill(image.records).0 == map[r.port := Rewritten(r)]
    requires forall id :: id in w.tokens && w.tokens[id].HasBase() && w.tokens[id].q.Port() == r.port ==>
               Tracks(Rewritten(r), w.tokens[id].base)
    ensures Lawful(w, RestoringRecords(lid))
  {
    hide FencePublisher, BeginEpoch, InsertPort, Commit, ValidIdentifier, Consistent, Refill, Rewritten, Tracks;
  }

  /** What a rewrite makes of a port that was never configured: it forgets the attempt, no more. */
  lemma UnconfiguredRewrite(r: PortRecord)
    requires r.configuration.None? && r.ownership.None? && r.applied == NO_EVIDENCE
    ensures Rewritten(r) == r.(lastMutation := NO_MUTATION, provenance := r.provenance.(kind := ProvenanceKind.Recovery))
  {
    hide RecoveryReason, RecoveredReason, RecoveryDetail, RecoveredDetail, ValidIdentifier;
  }
}
