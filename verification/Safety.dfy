/** The invariant of the runtime's state, kept by every region under its locks. */
module Safety {
  import opened Basics
  import opened Records
  import opened Profiles
  import opened Planning
  import opened PlanningLaws
  import opened Engine
  import opened Recovery
  import opened Utf8
  import opened Wording

  // -------------------------------------------------------------------------
  // The invariant
  // -------------------------------------------------------------------------

  /** A record in its place: sound, and its owner no newer than the epoch. */
  ghost predicate SafeRecord(r: PortRecord, port: Id, epoch: Generation) {
    && Sound(r) && r.port == port
    && (r.ownership.Some? ==> r.ownership.value.epoch <= epoch)
  }

  ghost predicate SafeRecords(records: map<Id, PortRecord>, epoch: Generation) {
    forall port :: port in records ==> SafeRecord(records[port], port, epoch)
  }

  /** An unfenced incarnation is one of the current epoch. */
  predicate SafePublisher(p: PublisherRecord, id: Id, epoch: Generation) {
    p.publisher == id && p.Valid() && p.epoch <= epoch && (!p.fenced ==> p.epoch == epoch)
  }

  ghost predicate SafePublishers(publishers: map<Id, PublisherRecord>, epoch: Generation) {
    forall id :: id in publishers ==> SafePublisher(publishers[id], id, epoch)
  }

  predicate SafeDevice(d: DeviceBinding, id: Id) { d.device == id && d.Valid() }

  ghost predicate SafeDevices(devices: map<Id, DeviceBinding>) {
    forall id :: id in devices ==> SafeDevice(devices[id], id)
  }

  ghost predicate SafeState(s: State) {
    && SafeRecords(s.records, s.epoch)
    && SafePublishers(s.publishers, s.epoch)
    && SafeDevices(s.devices)
  }

  /** No device is forgotten, and none goes back to an older generation. */
  predicate DevicesAdvance(a: map<Id, DeviceBinding>, b: map<Id, DeviceBinding>) {
    forall id :: id in a ==> id in b && a[id].generation <= b[id].generation
  }

  /** A step forward within one process life. */
  predicate Forward(s: State, t: State) {
    s.epoch <= t.epoch && s.config == t.config && s.generation <= t.generation
  }

  /** The parent device of every live port is recorded. */
  predicate LiveHaveParents(s: State) {
    forall port :: port in s.records && IsLive(s.records[port].lifecycle) ==> s.records[port].parentDevice in s.devices
  }

  ghost predicate SameRecords(s: State, t: State) { s.records == t.records && s.generation == t.generation }

  // -------------------------------------------------------------------------
  // One entry at a time
  // -------------------------------------------------------------------------

  lemma PutRecord(records: map<Id, PortRecord>, epoch: Generation, port: Id, r: PortRecord)
    requires SafeRecords(records, epoch) && SafeRecord(r, port, epoch)
    ensures SafeRecords(records[port := r], epoch)
  {
    hide SafeRecord, ValidIdentifier;
  }

  lemma LaterEpoch(records: map<Id, PortRecord>, epoch: Generation, later: Generation)
    requires SafeRecords(records, epoch) && epoch <= later
    ensures SafeRecords(records, later)
  {
    hide Sound, ValidIdentifier;
  }

  lemma PutPublisher(publishers: map<Id, PublisherRecord>, epoch: Generation, id: Id, p: PublisherRecord)
    requires SafePublishers(publishers, epoch) && SafePublisher(p, id, epoch)
    ensures SafePublishers(publishers[id := p], epoch)
  {
    hide SafePublisher, ValidIdentifier;
  }

  lemma SameDevices(devices: map<Id, DeviceBinding>)
    ensures DevicesAdvance(devices, devices)
  {
    hide ValidIdentifier;
  }

  lemma PutDevice(devices: map<Id, DeviceBinding>, id: Id, d: DeviceBinding)
    requires SafeDevices(devices) && SafeDevice(d, id)
    ensures SafeDevices(devices[id := d])
  {
    hide SafeDevice, ValidIdentifier;
  }

  // -------------------------------------------------------------------------
  // Authority, devices, topology, profiles
  // -------------------------------------------------------------------------

  lemma CheckAuthorityIsSafe(s: State, a: AuthorityContext)
    requires SafeState(s)
    ensures var t := CheckAuthority(s, a).0; SafeState(t) && Forward(s, t) && SameRecords(s, t)
    ensures CheckAuthority(s, a).1 == Ok ==> a.Valid() && a.epoch == s.epoch
  {
    hide SafeRecords, SafePublishers, SafeDevices, ValidIdentifier, Consistent;
    if CheckAuthority(s, a).1 == Ok && a.publisher !in s.publishers {
      PutPublisher(s.publishers, s.epoch, a.publisher, PublisherRecord(a.publisher, a.boot, a.epoch, false));
    }
  }

  /** Registration never leaves an old unfenced incarnation to be replaced: the last branch of
      the source is only ever taken for a publisher that is new. */
  lemma RegisterPublisherIsSafe(s: State, publisher: Id, boot: Id, epoch: Generation)
    requires SafeState(s)
    ensures var t := RegisterPublisher(s, publisher, boot, epoch).0; SafeState(t) && Forward(s, t) && SameRecords(s, t)
    ensures RegisterPublisher(s, publisher, boot, epoch).1 == Ok ==>
              && RegisterPublisher(s, publisher, boot, epoch).0.publishers
                   == s.publishers[publisher := PublisherRecord(publisher, boot, epoch, false)]
              && (publisher in s.publishers ==> s.publishers[publisher].boot != boot)
  {
    hide SafeRecords, SafePublishers, SafeDevices, ValidIdentifier, Consistent;
    if RegisterPublisher(s, publisher, boot, epoch).1 == Ok {
      PutPublisher(s.publishers, s.epoch, publisher, PublisherRecord(publisher, boot, epoch, false));
      if publisher in s.publishers {
        KnownPublisher(s, publisher);
      }
    }
  }

  lemma KnownPublisher(s: State, id: Id)
    requires SafeState(s) && id in s.publishers
    ensures SafePublisher(s.publishers[id], id, s.epoch)
  {
    hide SafeRecords, SafePublisher, ValidIdentifier;
  }

  lemma RegisterDeviceIsSafe(s: State, device: Id, generation: Generation, source: Text)
    requires SafeState(s)
    ensures var t := RegisterDevice(s, device, generation, source).0; SafeState(t) && Forward(s, t) && SameRecords(s, t)
    ensures DevicesAdvance(s.devices, RegisterDevice(s, device, generation, source).0.devices)
  {
    hide SafeRecords, SafePublishers, SafeDevices, ValidIdentifier, ValidText, DevicesAdvance;
    SameDevices(s.devices);
    if RegisterDevice(s, device, generation, source).1 == Ok {
      AddDevice(s, device, generation, source);
    }
  }

  /** Recording a device, new or known, under any generation. */
  lemma AddDevice(s: State, device: Id, generation: Generation, source: Text)
    requires SafeState(s) && Named(device) && generation != 0
    ensures var devices := s.devices[device := DeviceBinding(device, generation, source)];
            && SafeDevices(devices)
            && ((device in s.devices ==> s.devices[device].generation <= generation) ==> DevicesAdvance(s.devices, devices))
    ensures device in s.devices ==>
              s.devices[device].(generation := generation, source := source) == DeviceBinding(device, generation, source)
  {
    hide SafeRecords, SafePublishers, ValidIdentifier;
    var d := DeviceBinding(device, generation, source);
    PutDevice(s.devices, device, d);
  }

  // -------------------------------------------------------------------------
  // Releases
  // -------------------------------------------------------------------------

  lemma ReleasedKeepsSound(r: PortRecord, reason: Text, detail: Text)
    requires Sound(r) && ValidText(reason, MAX_NAME_LENGTH) && ValidText(detail, MAX_DESCRIPTION_LENGTH)
    ensures Sound(Released(r, reason, detail))
  {
    hide PortConfiguration.Valid, ValidText, ValidIdentifier, Supports, PortCapabilities.Valid;
  }

  lemma ReleasedIsSafe(r: PortRecord, port: Id, epoch: Generation, publisher: Id, boot: Id, before: Generation)
    requires SafeRecord(r, port, epoch)
    ensures SafeRecord(ReleasedByFence(r, publisher, boot), port, epoch)
    ensures SafeRecord(ReleasedByEpoch(r, before), port, epoch)
  {
    hide Sound, ValidText, FencedReason, FencedDetail, RestartReason, RestartDetail;
    WordingIsText();
    ReleasedKeepsSound(r, FencedReason(), FencedDetail());
    ReleasedKeepsSound(r, RestartReason(), RestartDetail());
  }

  lemma ReleaseOwnershipOfIsSafe(s: State, publisher: Id, boot: Id)
    requires SafeState(s)
    ensures var t := ReleaseOwnershipOf(s, publisher, boot); SafeState(t) && Forward(s, t)
    ensures ReleaseOwnershipOf(s, publisher, boot).epoch == s.epoch
  {
    hide SafeRecord, SafePublishers, SafeDevices, ReleasedByFence, ValidIdentifier;
    forall port | port in s.records
      ensures SafeRecord(ReleasedByFence(s.records[port], publisher, boot), port, s.epoch)
    {
      ReleasedIsSafe(s.records[port], port, s.epoch, publisher, boot, 0);
    }
  }

  lemma ReleaseOwnershipBeforeIsSafe(s: State, epoch: Generation)
    requires SafeState(s)
    ensures var t := ReleaseOwnershipBefore(s, epoch); SafeState(t) && Forward(s, t)
    ensures ReleaseOwnershipBefore(s, epoch).epoch == s.epoch
  {
    hide SafeRecord, SafePublishers, SafeDevices, ReleasedByEpoch, ValidIdentifier;
    forall port | port in s.records
      ensures SafeRecord(ReleasedByEpoch(s.records[port], epoch), port, s.epoch)
    {
      ReleasedIsSafe(s.records[port], port, s.epoch, [], [], epoch);
    }
  }

  lemma FencePublisherIsSafe(s: State, publisher: Id, boot: Id)
    requires SafeState(s)
    ensures var t := FencePublisher(s, publisher, boot).0; SafeState(t) && Forward(s, t)
  {
    hide SafeRecords, SafePublishers, SafeDevices, ReleaseOwnershipOf, ValidIdentifier;
    if FencePublisher(s, publisher, boot).1 == Ok {
      KnownPublisher(s, publisher);
      var entry := s.publishers[publisher];
      PutPublisher(s.publishers, s.epoch, publisher, entry.(fenced := true));
      ReleaseOwnershipOfIsSafe(s.(publishers := s.publishers[publisher := entry.(fenced := true)]), entry.publisher, entry.boot);
    }
  }

  lemma BeginEpochIsSafe(s: State)
    requires SafeState(s)
    ensures var t := BeginEpoch(s).0; SafeState(t) && Forward(s, t)
    ensures BeginEpoch(s).1 == Ok ==> BeginEpoch(s).0.epoch > s.epoch
  {
    hide SafeRecords, SafeDevices, ReleaseOwnershipBefore, ValidIdentifier;
    if BeginEpoch(s).1 == Ok {
      var epoch := Next(s.epoch);
      var publishers := FencedAll(s.publishers, epoch);
      assert SafePublishers(publishers, epoch);
      LaterEpoch(s.records, s.epoch, epoch);
      ReleaseOwnershipBeforeIsSafe(s.(epoch := epoch, publishers := publishers), epoch);
    }
  }

  /** An epoch advance fences everyone and leaves no port owned. */
  lemma BeginEpochFencesAll(s: State)
    requires SafeState(s) && BeginEpoch(s).1 == Ok
    ensures var t := BeginEpoch(s).0;
            && (forall id :: id in t.publishers ==> t.publishers[id].fenced)
            && (forall port :: port in t.records ==> t.records[port].ownership.None?)
            && t.publishers.Keys == s.publishers.Keys
            && forall id :: id in s.publishers ==> t.publishers[id].boot == s.publishers[id].boot
  {
    hide Sound, ValidIdentifier, RestartDetail, RestartReason;
  }

  // -------------------------------------------------------------------------
  // Commit, uncertainty, binding
  // -------------------------------------------------------------------------

  lemma CommitIsSafe(s: State, port: Id, expected: ExpectedState, next: PortRecord)
    requires SafeState(s) && SafeRecord(next, port, s.epoch)
    ensures var t := Commit(s, port, expected, next).0; SafeState(t) && Forward(s, t)
    ensures Commit(s, port, expected, next).1 == Ok ==>
              && Commit(s, port, expected, next).0.generation > s.generation
              && Commit(s, port, expected, next).0.records == s.records[port := next]
  {
    hide SafeRecord, SafeRecords, SafePublishers, SafeDevices, ValidIdentifier, CaptureExpected, Consistent;
    if Commit(s, port, expected, next).1 == Ok {
      PutRecord(s.records, s.epoch, port, next);
    }
  }

  lemma UncertainIsSafe(r: PortRecord, port: Id, epoch: Generation, a: AuthorityContext, g: Generation,
                        detail: Text, source: Text)
    requires SafeRecord(r, port, epoch) && ValidText(detail, MAX_DESCRIPTION_LENGTH)
    ensures SafeRecord(Uncertain(r, a, g, detail, source), port, epoch)
  {
    hide PortConfiguration.Valid, ValidText, ValidIdentifier, Supports, PortCapabilities.Valid, UnknownReason;
    WordingIsText();
  }

  /** An uncertain apply strands exactly the ports that have no configuration and are neither
      retired nor superseded: an uncertain first apply is one that does. */
  lemma UncertaintyStrandsExactly(r: PortRecord, a: AuthorityContext, g: Generation, detail: Text, source: Text)
    requires r.Valid() && ValidText(detail, MAX_DESCRIPTION_LENGTH)
    ensures Stranded(Uncertain(r, a, g, detail, source))
            <==> r.configuration.None? && !r.lifecycle.Retired? && !r.lifecycle.Superseded?
  {
    hide PortConfiguration.Valid, ValidText, ValidIdentifier, PortOwnership.Valid, UnknownReason;
    WordingIsText();
  }

  /** An unknown outcome never changes what was committed, and leaves the port out of service. */
  lemma UncertaintyFencesOnly(r: PortRecord, a: AuthorityContext, g: Generation, detail: Text, source: Text)
    ensures var after := Uncertain(r, a, g, detail, source);
            && after.configuration == r.configuration && after.ownership == r.ownership
            && after.generations.configuration == r.generations.configuration
            && !IsLive(after.lifecycle)
            && (r.lifecycle.Retired? ==> after.lifecycle.Retired?)
            && !after.applied.outcome.Applied? && !after.applied.outcome.Verified?
  {
    hide UnknownReason;
  }

  lemma RecordUncertaintyIsSafe(s: State, port: Id, a: AuthorityContext, g: Generation, detail: Text, source: Text)
    requires SafeState(s) && ValidText(detail, MAX_DESCRIPTION_LENGTH)
    ensures var t := RecordUncertainty(s, port, a, g, detail, source); SafeState(t) && Forward(s, t)
  {
    hide SafeRecord, SafePublishers, SafeDevices, ValidIdentifier, Uncertain;
    if port in s.records {
      UncertainIsSafe(s.records[port], port, s.epoch, a, g, detail, source);
      PutRecord(s.records, s.epoch, port, Uncertain(s.records[port], a, g, detail, source));
    }
  }

  lemma BlankIsLegal()
    ensures NO_CAPABILITIES.Valid()
  {
    AsciiIsText([], MAX_NAME_LENGTH);
  }

  lemma BoundIsSafe(b: Binding, provider: Provider, epoch: Generation)
    requires BoundRecord(b, provider).Valid()
    ensures SafeRecord(BoundRecord(b, provider), b.port, epoch)
  {
    hide PortConfiguration.Valid, ValidText, ValidIdentifier, Supports, PortCapabilities.Valid, BoundReason;
    BlankIsLegal();
  }

  lemma InsertPortIsSafe(s: State, b: Binding, provider: Provider)
    requires SafeState(s)
    ensures var t := InsertPort(s, b, provider).0; SafeState(t) && Forward(s, t) && t.devices == s.devices
    ensures InsertPort(s, b, provider).1 != Ok ==> InsertPort(s, b, provider).0 == s
    ensures InsertPort(s, b, provider).1 == Ok ==>
              b.port !in s.records && InsertPort(s, b, provider).0.records == s.records[b.port := BoundRecord(b, provider)]
  {
    hide SafeRecord, SafeRecords, SafePublishers, SafeDevices, ValidIdentifier, BoundRecord, PortRecord.Valid;
    if InsertPort(s, b, provider).1 == Ok {
      BoundIsSafe(b, provider, s.epoch);
      PutRecord(s.records, s.epoch, b.port, BoundRecord(b, provider));
    }
  }

  /** The device bookkeeping touches no record but the new one, and takes that one back exactly
      when the parent has been replaced. */
  lemma AttachDeviceIsSafe(s: State, b: Binding)
    requires SafeState(s) && Named(b.parentDevice) && b.deviceGeneration != 0
    ensures SafeState(AttachDevice(s, b).0) && Forward(s, AttachDevice(s, b).0)
    ensures DevicesAdvance(s.devices, AttachDevice(s, b).0.devices)
    ensures AttachDevice(s, b).0.records == if TakesBack(s, b) then s.records - {b.port} else s.records
  {
    hide SafeRecords, SafePublishers, ValidIdentifier, Consistent, SafeDevices, DevicesAdvance, AttachDevice;
    AttachedTables(s, b);
    AttachedDevices(s, b);
    DropRecord(s.records, s.epoch, b.port);
  }

  lemma AttachedTables(s: State, b: Binding)
    ensures var t := AttachDevice(s, b).0;
            t == s.(records := if TakesBack(s, b) then s.records - {b.port} else s.records, devices := t.devices)
  {
    hide ValidIdentifier, Consistent;
  }

  lemma AttachedDevices(s: State, b: Binding)
    requires SafeState(s) && Named(b.parentDevice) && b.deviceGeneration != 0
    ensures var devices := AttachDevice(s, b).0.devices; SafeDevices(devices) && DevicesAdvance(s.devices, devices)
  {
    hide SafeRecords, SafePublishers, ValidIdentifier, Consistent, SafeDevices, DevicesAdvance;
    SameDevices(s.devices);
    AddDevice(s, b.parentDevice, b.deviceGeneration, b.provenanceSource);
  }

  lemma DropRecord(records: map<Id, PortRecord>, epoch: Generation, port: Id)
    requires SafeRecords(records, epoch)
    ensures SafeRecords(records - {port}, epoch)
  {
    hide SafeRecord, ValidIdentifier;
  }

  lemma PutThenDrop(records: map<Id, PortRecord>, port: Id, r: PortRecord)
    requires port !in records
    ensures records[port := r] - {port} == records
  {
    hide ValidIdentifier;
  }

  /** Binding touches no record but the new one, and a binding taken back leaves the records
      as they were. */
  lemma BindPortIsSafe(s: State, b: Binding, provider: Provider)
    requires SafeState(s)
    ensures var t := BindPort(s, b, provider).0; SafeState(t) && Forward(s, t)
    ensures var t := BindPort(s, b, provider).0;
            || t.records == s.records
            || (b.port !in s.records && t.records == s.records[b.port := BoundRecord(b, provider)] && Named(b.attempt))
  {
    hide SafeState, InsertPort, AttachDevice, ValidIdentifier, BoundRecord, Consistent;
    InsertPortIsSafe(s, b, provider);
    if Named(b.port) && Named(b.parentDevice) && b.deviceGeneration != 0 {
      var inserted := InsertPort(s, b, provider).0;
      AttachDeviceIsSafe(inserted, b);
      if InsertPort(s, b, provider).1 == Ok {
        PutThenDrop(s.records, b.port, BoundRecord(b, provider));
      }
    }
  }
}
