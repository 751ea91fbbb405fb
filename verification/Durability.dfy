/** Save, crash, load: what a run writes down, what can be read back, and what survives. */
module Durability {
  import opened Basics
  import opened Records
  import opened Ordering
  import opened Profiles
  import opened Planning
  import opened PlanningLaws
  import opened Engine
  import opened Recovery
  import opened Safety
  import opened Runs
  import opened RunLaws
  import opened RunTheorems
  import opened Codec
  import opened Wire
  import Container
  import Utf8

  /** No profile carries an MTU it does not specify. */
  predicate NoHiddenMtu(profiles: seq<PortProfile>) {
    forall i :: 0 <= i < |profiles| ==> !HidesMtu(profiles[i].configuration)
  }

  // -------------------------------------------------------------------------
  // Can it be written
  // -------------------------------------------------------------------------

  /** Within the record bound, what a run gathers is refused for its records exactly when one
      port is stranded: a single uncertain first apply stops every later save until that port
      is superseded or retired. */
  lemma StrandedPortBlocksSaving(config: EngineConfig, events: seq<Event>, w: World, image: PersistedState)
    requires Reached(config, events, w) && GathersRecords(w.state, image)
    requires |image.records| <= MAX_PERSISTED_RECORDS
    ensures Container.Encode(image) == Container.Failed(InvalidConfiguration)
            <==> exists port :: port in w.state.records && Stranded(w.state.records[port])
  {
    hide Inv, Reached, Stranded, PortRecord.Valid, ValidIdentifier, Consistent, Container.Payload, Container.StateFits;
    hide Container.Framed, Container.ProfilesValid, Lists;
    ReachedIsGood(config, events, w);
    InvIsSafe(w);
    forall i | 0 <= i < |image.records|
      ensures image.records[i].port in w.state.records && w.state.records[image.records[i].port] == image.records[i]
      ensures image.records[i].Valid() <==> !Stranded(image.records[i])
    {
      assert image.records[i] in image.records;
      SoundIsValidOrStranded(w.state, image.records[i].port);
    }
    forall port | port in w.state.records
      ensures exists i :: 0 <= i < |image.records| && image.records[i] == w.state.records[port]
    {
      SoundIsValidOrStranded(w.state, port);
      assert w.state.records[port] in image.records;
    }
  }

  lemma SoundIsValidOrStranded(s: State, port: Id)
    requires SafeState(s) && port in s.records
    ensures s.records[port].port == port
    ensures s.records[port].Valid() <==> !Stranded(s.records[port])
  {
    hide PortConfiguration.Valid, PortOwnership.Valid, ValidIdentifier, Consistent, SafePublishers, SafeDevices;
    hide Utf8.WellFormed;
    assert SafeRecord(s.records[port], port, s.epoch);
  }

  // -------------------------------------------------------------------------
  // Can it be read back
  // -------------------------------------------------------------------------

  lemma EncodedRecordIsLegal(r: PortRecord)
    requires r.Valid() && r.capability.capabilities.Valid() && Container.RecordFits(r)
    ensures LegalRecord(r)
  {
    hide ValidIdentifier, Utf8.WellFormed, PortCapabilities.Valid, PortOwnership.Valid;
  }

  lemma RecordsAreLegal(s: State, image: PersistedState)
    requires SafeState(s) && GathersRecords(s, image) && Container.Encode(image).Encoded?
    ensures AllLegal(image.records, LegalRecord) && Container.Distinct(image.records, Container.SamePort)
  {
    hide LegalRecord, PortRecord.Valid, ValidIdentifier, Consistent, Lists, Container.RecordFits, Container.Payload;
    hide Container.Framed, Container.ProfilesValid, SafePublishers, SafeDevices, PortCapabilities.Valid;
    forall i | 0 <= i < |image.records| ensures LegalRecord(image.records[i]) {
      var r := image.records[i];
      assert r in image.records;
      assert SafeRecord(s.records[r.port], r.port, s.epoch);
      EncodedRecordIsLegal(r);
    }
  }

  lemma TablesAreLegal(s: State, image: PersistedState)
    requires SafeState(s) && GathersAuthority(s, image) && Container.Encode(image).Encoded?
    ensures AllLegal(image.devices, LegalDevice) && Container.Distinct(image.devices, Container.SameDevice)
    ensures AllLegal(image.publishers, LegalPublisher) && Container.Distinct(image.publishers, Container.SamePublisher)
  {
    hide ValidIdentifier, Consistent, Lists, Container.RecordFits, Container.Payload, SafeRecords;
    hide Container.Framed, Container.ProfilesValid, Container.RecordsValid, PublisherRecord.Valid, DeviceBinding.Valid;
    forall i | 0 <= i < |image.devices| ensures LegalDevice(image.devices[i]) {
      var d := image.devices[i];
      assert d in image.devices;
      assert SafeDevice(s.devices[d.device], d.device);
      assert Container.DeviceFits(d);
    }
    forall i | 0 <= i < |image.publishers| ensures LegalPublisher(image.publishers[i]) {
      var p := image.publishers[i];
      assert p in image.publishers;
      assert SafePublisher(s.publishers[p.publisher], p.publisher, s.epoch);
    }
  }

  lemma ProfilesAreLegal(image: PersistedState)
    requires Sorted(image.profiles) && Container.Encode(image).Encoded?
    ensures Container.Distinct(image.profiles, Container.SameProfile)
    ensures forall i :: 0 <= i < |image.profiles| ==>
              (LegalProfile(image.profiles[i]) <==> !HidesMtu(image.profiles[i].configuration))
  {
    hide ValidIdentifier, Container.Payload, Container.Framed, Container.RecordsValid, Utf8.WellFormed;
    hide Container.RecordFits, SpeedValid;
    forall i, j | 0 <= i < j < |image.profiles|
      ensures !Container.SameProfile(image.profiles[i], image.profiles[j])
    {
      assert Earlier(image.profiles[i], image.profiles[j]);
      BeforeIsIrreflexive(image.profiles[i].id);
    }
    forall i | 0 <= i < |image.profiles|
      ensures LegalProfile(image.profiles[i]) <==> !HidesMtu(image.profiles[i].configuration)
    {
      assert image.profiles[i].Valid() && Container.ProfileFits(image.profiles[i]);
    }
  }

  /** The first profile that hides one. */
  lemma {:induction false} FirstHidden(profiles: seq<PortProfile>, n: nat) returns (k: nat)
    requires n <= |profiles| && exists i :: 0 <= i < n && HidesMtu(profiles[i].configuration)
    ensures k < n && HidesMtu(profiles[k].configuration)
    ensures forall i :: 0 <= i < k ==> !HidesMtu(profiles[i].configuration)
  {
    hide HidesMtu;
    if exists i :: 0 <= i < n - 1 && HidesMtu(profiles[i].configuration) {
      k := FirstHidden(profiles, n - 1);
    } else {
      k := n - 1;
    }
  }

  predicate SpeedValid(p: PortProfile) { p.configuration.specifiesSpeed ==> p.configuration.speed.Valid() }

  lemma ReachableIsSafe(config: EngineConfig, w: World)
    requires Reachable(config, w)
    ensures SafeState(w.state)
  {
    hide Inv, Reached, SafeState;
    var events :| Reached(config, events, w);
    ReachedIsGood(config, events, w);
    InvIsSafe(w);
  }

  /** What is saved, its three parts read at different moments with anything in between, is read
      back as it was if no profile carries an MTU it does not specify, and refused as corrupt if one
      does. Defining such a profile and saving it are both accepted; only the load that follows the
      crash is not. */
  lemma SavedStateReadsBack(config: EngineConfig, authority: World, profiles: World, records: World, image: PersistedState,
                            bytes: Text)
    requires Reachable(config, authority) && Reachable(config, records)
    requires Gathers(authority.state, profiles.state, records.state, image) && Container.Encode(image) == Container.Encoded(bytes)
    ensures Container.Decode(bytes)
            == if NoHiddenMtu(image.profiles) then Container.Accepted(image, []) else Container.Refused(PersistenceCorruption)
  {
    hide Reachable, ValidIdentifier, Consistent, SafeState, LegalRecord, LegalProfile, LegalDevice, LegalPublisher;
    hide Container.Payload, Container.Framed, Container.StateFits, Container.Decode, Container.Distinct;
    hide Container.RecordsValid, Container.ProfilesValid, GathersRecords, GathersAuthority, HidesMtu;
    ReachableIsSafe(config, authority);
    ReachableIsSafe(config, records);
    RecordsAreLegal(records.state, image);
    TablesAreLegal(authority.state, image);
    ProfilesAreLegal(image);
    if NoHiddenMtu(image.profiles) {
      Container.EncodeThenDecode(image);
    } else {
      var k := FirstHidden(image.profiles, |image.profiles|);
      Container.HiddenMtuStopsDecoding(image, k);
    }
  }

  // -------------------------------------------------------------------------
  // Saves among other steps
  // -------------------------------------------------------------------------

  /** Steps that leave a save in flight alone. */
  predicate SparesSave(e: Event, id: nat) { !e.Restarting? && (e.OfSave() ==> e.id != id) }

  lemma {:induction false} SaveStays(w: World, events: seq<Event>, id: nat)
    requires id in w.saves && forall i :: 0 <= i < |events| ==> SparesSave(events[i], id)
    ensures SaveAt(Exec(w, events), id) == SaveAt(w, id)
    decreases |events|
  {
    hide Step;
    if events != [] {
      SaveUntouched(w, events[0], id);
      SaveStays(Step(w, events[0]), events[1..], id);
    }
  }

  lemma SaveUntouched(w: World, e: Event, id: nat)
    requires id in w.saves && SparesSave(e, id)
    ensures SaveAt(Step(w, e), id) == SaveAt(w, id)
  {
    hide Step;
    if e.OfSave() {
      OtherSaveSpares(w, e, id);
    } else {
      OtherStepsSpareSaves(w, e);
    }
  }

  lemma OtherSaveSpares(w: World, e: Event, id: nat)
    requires e.OfSave() && e.id != id
    ensures SaveAt(Step(w, e), id) == SaveAt(w, id)
  {
    hide MutationStep, BindingStep, LoadStep, RestartStep, EnvironmentStep, WalksRecords, WalksDevices, WalksPublishers, Lists;
    hide ValidIdentifier, Consistent;
  }

  lemma OtherStepsSpareSaves(w: World, e: Event)
    requires !e.OfSave() && !e.Restarting?
    ensures Step(w, e).saves == w.saves && Step(w, e).disk == w.disk
  {
    hide RestartStep, SaveStep, PlanToken, ApplyToken, ScreenToken, ResolveToken, SnapshotToken, GateToken, GateState, Commit;
    hide RecordUncertainty, BeginEpoch, RegisterPublisher, FencePublisher, RegisterDevice, DefineProfile, SetTopology;
    hide InsertPort, AttachDevice, RecoverProfiles, RecoverTables, RecoverRecords, OpenToken, ClearToken;
    hide ValidIdentifier, Consistent;
  }

  lemma FirstRead(w: World, id: nat, devices: seq<DeviceBinding>, publishers: seq<PublisherRecord>)
    requires id !in w.saves && WalksDevices(w.state.devices, devices) && WalksPublishers(w.state.publishers, publishers)
    ensures SaveAt(Step(w, ReadingAuthority(id, devices, publishers)), id)
            == Some(AuthorityRead(AuthorityImage(w.state, devices, publishers)))
  {
    hide MutationStep, BindingStep, LoadStep, RestartStep, EnvironmentStep, WalksDevices, WalksPublishers;
  }

  lemma SecondRead(w: World, id: nat, image: PersistedState, profiles: seq<PortProfile>)
    requires SaveAt(w, id) == Some(AuthorityRead(image)) && Lists(w.state.profiles, profiles)
    ensures SaveAt(Step(w, ReadingProfiles(id, profiles)), id) == Some(ProfilesRead(image.(profiles := profiles)))
  {
    hide MutationStep, BindingStep, LoadStep, RestartStep, EnvironmentStep, Lists;
  }

  lemma ThirdRead(w: World, id: nat, image: PersistedState, records: seq<PortRecord>)
    requires SaveAt(w, id) == Some(ProfilesRead(image)) && WalksRecords(w.state.records, records)
    ensures SaveAt(Step(w, ReadingRecords(id, records)), id)
            == Some(Gathered(image.(records := records, engineGeneration := w.state.generation)))
  {
    hide MutationStep, BindingStep, LoadStep, RestartStep, EnvironmentStep, WalksRecords;
  }

  /** A save with anything between its reads gathers what each read found. */
  lemma SaveGathers(w: World, id: nat, devices: seq<DeviceBinding>, publishers: seq<PublisherRecord>, first: seq<Event>,
                    profiles: seq<PortProfile>, second: seq<Event>, records: seq<PortRecord>)
    requires id !in w.saves && WalksDevices(w.state.devices, devices) && WalksPublishers(w.state.publishers, publishers)
    requires forall i :: 0 <= i < |first| ==> SparesSave(first[i], id)
    requires forall i :: 0 <= i < |second| ==> SparesSave(second[i], id)
    requires Lists(Exec(Step(w, ReadingAuthority(id, devices, publishers)), first).state.profiles, profiles)
    ensures var u := Exec(Step(w, ReadingAuthority(id, devices, publishers)), first);
            var v := Exec(Step(u, ReadingProfiles(id, profiles)), second);
            WalksRecords(v.state.records, records) ==>
              exists image :: SaveAt(Step(v, ReadingRecords(id, records)), id) == Some(Gathered(image))
                              && Gathers(w.state, u.state, v.state, image)
  {
    hide Exec, Step, WalksRecords, WalksDevices, WalksPublishers, Lists, SparesSave;
    var begun := Step(w, ReadingAuthority(id, devices, publishers));
    FirstRead(w, id, devices, publishers);
    SaveStays(begun, first, id);
    var u := Exec(begun, first);
    var partial := AuthorityImage(w.state, devices, publishers);
    SecondRead(u, id, partial, profiles);
    SaveStays(Step(u, ReadingProfiles(id, profiles)), second, id);
    var v := Exec(Step(u, ReadingProfiles(id, profiles)), second);
    if WalksRecords(v.state.records, records) {
      ThirdRead(v, id, partial.(profiles := profiles), records);
      assert Gathers(w.state, u.state, v.state,
                     partial.(profiles := profiles, records := records, engineGeneration := v.state.generation));
    }
  }

  // -------------------------------------------------------------------------
  // What survives
  // -------------------------------------------------------------------------

  /** Recovered from what these states were when they were read: every profile, device and desired
      configuration is back, and no authority, freshness or trust is. */
  ghost predicate RecoveredFrom(authority: State, profiles: State, records: State, t: State) {
    && t.profiles == profiles.profiles && t.devices == authority.devices
    && t.epoch > authority.epoch && t.generation > records.generation && t.topology >= authority.topology
    && t.records.Keys == records.records.Keys
    && (forall port :: port in records.records ==> t.records[port] == Rewritten(records.records[port]))
    && t.publishers.Keys == authority.publishers.Keys
    && forall id :: id in authority.publishers ==> t.publishers[id] == authority.publishers[id].(fenced := true)
  }

  lemma TablesReturn(s: State, image: PersistedState)
    requires SafeState(s) && GathersAuthority(s, image)
    ensures RefillDevices(image.devices) == s.devices
    ensures RefillPublishers(image.publishers).Keys == s.publishers.Keys
    ensures forall id :: id in s.publishers ==> RefillPublishers(image.publishers)[id] == s.publishers[id].(fenced := true)
  {
    hide ValidIdentifier, Consistent, Lists, RefillDevices, RefillPublishers, SafeRecords, DistinctPorts;
    DevicesAreFromImage(image.devices);
    PublishersAreFenced(image.publishers);
    forall id | id in s.devices ensures id in RefillDevices(image.devices) {
      assert SafeDevice(s.devices[id], id);
      assert s.devices[id] in image.devices;
    }
    forall id | id in s.publishers ensures id in RefillPublishers(image.publishers) {
      assert SafePublisher(s.publishers[id], id, s.epoch);
      assert s.publishers[id] in image.publishers;
    }
    forall id | id in RefillPublishers(image.publishers)
      ensures id in s.publishers && RefillPublishers(image.publishers)[id] == s.publishers[id].(fenced := true)
    {
      var i :| 0 <= i < |image.publishers| && RefillPublishers(image.publishers)[id] == image.publishers[i].(fenced := true);
      assert image.publishers[i] in image.publishers && image.publishers[i].publisher == id;
    }
  }

  lemma RecordsReturn(s: State, image: PersistedState)
    requires SafeState(s) && GathersRecords(s, image) && AllValid(image.records)
    ensures Refill(image.records).1
    ensures Refill(image.records).0.Keys == s.records.Keys
    ensures forall port :: port in s.records ==> Refill(image.records).0[port] == Rewritten(s.records[port])
  {
    hide ValidIdentifier, Consistent, Lists, Refill, Rewritten, SafePublishers, SafeDevices, PortRecord.Valid, Sound;
    RefillIsTotal(image.records);
    RefillIsComplete(image.records);
    forall port | port in s.records
      ensures port in Refill(image.records).0 && Refill(image.records).0[port] == Rewritten(s.records[port])
    {
      assert SafeRecord(s.records[port], port, s.epoch);
      assert s.records[port] in image.records;
      assert Restores(Refill(image.records).0, s.records[port]);
    }
    forall port | port in Refill(image.records).0 ensures port in s.records {
      var r :| r in image.records && r.port == port && Restores(Refill(image.records).0, r);
    }
  }

  /** The new process admits the container: its bounds hold it and its domain is the same. */
  predicate Admits(restarted: EngineConfig, authority: State, records: State, image: PersistedState) {
    && |image.records| <= restarted.portBound
    && restarted.fabric == authority.config.fabric && restarted.site == authority.config.site
    && !Exhaustible(authority.epoch) && !Exhaustible(records.generation)
  }

  lemma GatheredRecovers(authority: State, profiles: State, records: State, image: PersistedState, restarted: EngineConfig)
    requires SafeState(authority) && SafeState(records) && Gathers(authority, profiles, records, image)
    requires AllValid(image.records) && Admits(restarted, authority, records, image)
    ensures Recover(FreshEngine(restarted), image).1 == Ok
    ensures RecoveredFrom(authority, profiles, records, Recover(FreshEngine(restarted), image).0)
  {
    hide ValidIdentifier, Consistent, SafeState, DefineAll, Sort, Refill, RefillDevices, RefillPublishers, Rewritten;
    hide PortRecord.Valid, WalksRecords, WalksDevices, WalksPublishers, Sorted;
    RecordsReturn(records, image);
    TablesReturn(authority, image);
    ListingRebuilds(profiles.profiles, image.profiles);
    SortKeepsSorted(image.profiles);
  }

  lemma EncodedMeansValid(image: PersistedState)
    requires Container.Encode(image).Encoded?
    ensures AllValid(image.records)
  {
    hide PortRecord.Valid, Container.Payload, Container.Framed, Container.StateFits, Container.ProfilesValid;
  }

  /** Save, crash, load: whatever was gathered, each part at its own moment of a run, and can be
      written and read back, is recovered by a new process that admits it, without loss and without
      authority. */
  lemma SaveCrashLoad(config: EngineConfig, authority: World, profiles: World, records: World, image: PersistedState,
                      bytes: Text, restarted: EngineConfig)
    requires Reachable(config, authority) && Reachable(config, records)
    requires Gathers(authority.state, profiles.state, records.state, image)
    requires Admits(restarted, authority.state, records.state, image)
    requires Container.Encode(image) == Container.Encoded(bytes) && NoHiddenMtu(image.profiles)
    ensures Container.Decode(bytes) == Container.Accepted(image, [])
    ensures Recover(FreshEngine(restarted), image).1 == Ok
    ensures RecoveredFrom(authority.state, profiles.state, records.state, Recover(FreshEngine(restarted), image).0)
  {
    hide Reachable, ValidIdentifier, Consistent, SafeState, Container.Encode, Container.Decode, Recover, RecoveredFrom;
    hide NoHiddenMtu, Gathers, Admits, AllValid;
    SavedStateReadsBack(config, authority, profiles, records, image, bytes);
    ReachableIsSafe(config, authority);
    ReachableIsSafe(config, records);
    EncodedMeansValid(image);
    GatheredRecovers(authority.state, profiles.state, records.state, image, restarted);
  }
}
