/** The runtime as an object: its tables, its indexes, and the regions that change them. */
module EngineObject {
  import opened Basics
  import opened Records
  import opened Ordering
  import opened Profiles
  import opened Planning
  import opened PlanningLaws
  import opened Engine
  import opened Indexes
  import opened Recovery
  import opened Utf8
  import opened Wording

  lemma EmptyIndexesAgree()
    ensures Agrees(map[], map[], DeviceKey) && Agrees(map[], map[], LifecycleKey)
    ensures Agrees(map[], map[], AdministrativeKey) && Agrees(map[], map[], OwnerKey)
    ensures Agrees(map[], map[], ProfileKey) && Agrees(map[], map[], AggregateKey) && Agrees(map[], map[], DerivedKey)
  {
    hide Agrees;
    NothingAgrees(DeviceKey);
    NothingAgrees(LifecycleKey);
    NothingAgrees(AdministrativeKey);
    NothingAgrees(OwnerKey);
    NothingAgrees(ProfileKey);
    NothingAgrees(AggregateKey);
    NothingAgrees(DerivedKey);
  }

  /** Every record is filed under the identity it carries. */
  ghost predicate Keyed(records: map<Id, PortRecord>) {
    forall port :: port in records ==> records[port].port == port
  }

  class EngineImpl {
    const config: EngineConfig
    const profiles: ProfileRegistry
    var records: map<Id, PortRecord>
    var generation: Generation
    var byDevice: Index<Id>
    var byLifecycle: Index<PortLifecycle>
    var byAdministrative: Index<AdministrativeState>
    var byOwner: Index<Id>
    var byProfile: Index<Id>
    var byAggregate: Index<Id>
    var derivedFrom: Index<Id>
    var revalidationRequired: set<Id>
    var epoch: Generation
    var topology: Generation
    var publishers: map<Id, PublisherRecord>
    var devices: map<Id, DeviceBinding>

    /** The abstract state the object stands for. */
    ghost function View(): State
      reads this, profiles
      requires profiles.Valid()
    {
      State(config, records, generation, profiles.View(), epoch, topology, publishers, devices)
    }

    /** All eight indexes equal a recomputation from `m`. */
    ghost predicate Indexed(m: map<Id, PortRecord>)
      reads this`byDevice, this`byLifecycle, this`byAdministrative, this`byOwner, this`byProfile, this`byAggregate
      reads this`derivedFrom, this`revalidationRequired
    {
      && Agrees(byDevice, m, DeviceKey)
      && Agrees(byLifecycle, m, LifecycleKey)
      && Agrees(byAdministrative, m, AdministrativeKey)
      && Agrees(byOwner, m, OwnerKey)
      && Agrees(byProfile, m, ProfileKey)
      && Agrees(byAggregate, m, AggregateKey)
      && Agrees(derivedFrom, m, DerivedKey)
      && revalidationRequired == Awaiting(m)
    }

    static ghost function Awaiting(m: map<Id, PortRecord>): set<Id> {
      set port | port in m && m[port].lifecycle.RevalidationRequired?
    }

    ghost predicate Valid()
      reads this`records, this`byDevice, this`byLifecycle, this`byAdministrative, this`byOwner, this`byProfile
      reads this`byAggregate, this`derivedFrom, this`revalidationRequired, profiles
    {
      profiles.Valid() && Keyed(records) && Indexed(records)
    }

    constructor (config: EngineConfig)
      ensures Valid() && View() == FreshEngine(config) && fresh(profiles)
    {
      this.config := config;
      profiles := new ProfileRegistry();
      records, generation := map[], 0;
      byDevice, byLifecycle, byAdministrative, byOwner := map[], map[], map[], map[];
      byProfile, byAggregate, derivedFrom, revalidationRequired := map[], map[], map[], {};
      epoch, topology := config.epoch, 1;
      publishers, devices := map[], map[];
      hide Agrees, ValidIdentifier, Consistent;
      EmptyIndexesAgree();
    }

    // -----------------------------------------------------------------------
    // Index maintenance
    // -----------------------------------------------------------------------

    method IndexAdd(record: PortRecord, ghost m: map<Id, PortRecord>)
      requires Indexed(m) && record.port !in m
      modifies this`byDevice, this`byLifecycle, this`byAdministrative, this`byOwner, this`byProfile, this`byAggregate
      modifies this`derivedFrom, this`revalidationRequired
      ensures Indexed(m[record.port := record])
    {
      hide Agrees, ValidIdentifier, DeviceKey, LifecycleKey, OwnerKey, AdministrativeKey, ProfileKey, AggregateKey;
      hide DerivedKey;
      ghost var port := record.port;
      ghost var next := m[port := record];
      InsertKeepsAgreement(byDevice, m, DeviceKey, port, record);
      byDevice := InsertKey(byDevice, DeviceKey(record), record.port);
      assert Agrees(byDevice, next, DeviceKey);
      InsertKeepsAgreement(byLifecycle, m, LifecycleKey, port, record);
      byLifecycle := InsertKey(byLifecycle, LifecycleKey(record), record.port);
      assert Agrees(byLifecycle, next, LifecycleKey);
      InsertKeepsAgreement(byAdministrative, m, AdministrativeKey, port, record);
      byAdministrative := InsertKey(byAdministrative, AdministrativeKey(record), record.port);
      InsertKeepsAgreement(byProfile, m, ProfileKey, port, record);
      byProfile := InsertKey(byProfile, ProfileKey(record), record.port);
      InsertKeepsAgreement(byAggregate, m, AggregateKey, port, record);
      byAggregate := InsertKey(byAggregate, AggregateKey(record), record.port);
      InsertKeepsAgreement(derivedFrom, m, DerivedKey, port, record);
      derivedFrom := InsertKey(derivedFrom, DerivedKey(record), record.port);
      InsertKeepsAgreement(byOwner, m, OwnerKey, port, record);
      byOwner := InsertKey(byOwner, OwnerKey(record), record.port);
      if record.lifecycle.RevalidationRequired? {
        revalidationRequired := revalidationRequired + {record.port};
      }
    }

    /** Every key under which the record of this port is filed is one `record` has. */
    static ghost predicate FiledAs(m: map<Id, PortRecord>, record: PortRecord) {
      record.port in m ==>
        && (DeviceKey(m[record.port]).Some? ==> DeviceKey(m[record.port]) == DeviceKey(record))
        && (LifecycleKey(m[record.port]).Some? ==> LifecycleKey(m[record.port]) == LifecycleKey(record))
        && (AdministrativeKey(m[record.port]).Some? ==> AdministrativeKey(m[record.port]) == AdministrativeKey(record))
        && (OwnerKey(m[record.port]).Some? ==> OwnerKey(m[record.port]) == OwnerKey(record))
        && (ProfileKey(m[record.port]).Some? ==> ProfileKey(m[record.port]) == ProfileKey(record))
        && (AggregateKey(m[record.port]).Some? ==> AggregateKey(m[record.port]) == AggregateKey(record))
        && (DerivedKey(m[record.port]).Some? ==> DerivedKey(m[record.port]) == DerivedKey(record))
    }

    /** Removes a port under the keys of `record`. When that is not the record filed, the indexes
        still agree exactly when no key has changed since. */
    method IndexRemove(record: PortRecord, ghost m: map<Id, PortRecord>)
      requires Indexed(m)
      modifies this`byDevice, this`byLifecycle, this`byAdministrative, this`byOwner, this`byProfile, this`byAggregate
      modifies this`derivedFrom, this`revalidationRequired
      ensures Indexed(m - {record.port}) <==> FiledAs(m, record)
    {
      hide Agrees, ValidIdentifier, DeviceKey, LifecycleKey, OwnerKey, AdministrativeKey, ProfileKey, AggregateKey, DerivedKey;
      ghost var port := record.port;
      StaleEraseAgrees(byDevice, m, DeviceKey, port, DeviceKey(record));
      StaleEraseAgrees(byLifecycle, m, LifecycleKey, port, LifecycleKey(record));
      StaleEraseAgrees(byAdministrative, m, AdministrativeKey, port, AdministrativeKey(record));
      StaleEraseAgrees(byOwner, m, OwnerKey, port, OwnerKey(record));
      StaleEraseAgrees(byProfile, m, ProfileKey, port, ProfileKey(record));
      StaleEraseAgrees(byAggregate, m, AggregateKey, port, AggregateKey(record));
      StaleEraseAgrees(derivedFrom, m, DerivedKey, port, DerivedKey(record));
      byDevice := EraseKey(byDevice, DeviceKey(record), record.port);
      byLifecycle := EraseKey(byLifecycle, LifecycleKey(record), record.port);
      byAdministrative := EraseKey(byAdministrative, AdministrativeKey(record), record.port);
      byProfile := EraseKey(byProfile, ProfileKey(record), record.port);
      byAggregate := EraseKey(byAggregate, AggregateKey(record), record.port);
      derivedFrom := EraseKey(derivedFrom, DerivedKey(record), record.port);
      byOwner := EraseKey(byOwner, OwnerKey(record), record.port);
      revalidationRequired := revalidationRequired - {record.port};
    }

    /** The record `before` gives way to `after` under the same identity. */
    method IndexUpdate(before: PortRecord, after: PortRecord, ghost m: map<Id, PortRecord>)
      requires Indexed(m) && before.port in m && m[before.port] == before && after.port == before.port
      modifies this`byDevice, this`byLifecycle, this`byAdministrative, this`byOwner, this`byProfile, this`byAggregate
      modifies this`derivedFrom, this`revalidationRequired
      ensures Indexed(m[before.port := after])
    {
      hide Indexed, ValidIdentifier;
      IndexRemove(before, m);
      IndexAdd(after, m - {before.port});
      assert (m - {before.port})[after.port := after] == m[before.port := after];
    }

    method ClearIndexes()
      modifies this`byDevice, this`byLifecycle, this`byAdministrative, this`byOwner, this`byProfile, this`byAggregate
      modifies this`derivedFrom, this`revalidationRequired
      ensures Indexed(map[])
    {
      hide Agrees, ValidIdentifier;
      EmptyIndexesAgree();
      byDevice, byLifecycle, byAdministrative, byOwner := map[], map[], map[], map[];
      byProfile, byAggregate, derivedFrom, revalidationRequired := map[], map[], map[], {};
    }

    method ReindexAll()
      requires Keyed(records)
      modifies this`byDevice, this`byLifecycle, this`byAdministrative, this`byOwner, this`byProfile, this`byAggregate
      modifies this`derivedFrom, this`revalidationRequired
      ensures Indexed(records)
    {
      hide Indexed, ValidIdentifier, Keyed;
      ClearIndexes();
      var remaining := records.Keys;
      NoneDone(records);
      while remaining != {}
        invariant remaining <= records.Keys
        invariant Indexed(records - remaining)
        decreases |remaining|
      {
        var port: Id :| port in remaining;
        OneLess(records, remaining, port);
        IndexAdd(records[port], records - remaining);
        remaining := remaining - {port};
      }
      NoneDone(records);
    }

    // -----------------------------------------------------------------------
    // Replacing one record
    // -----------------------------------------------------------------------

    /** Files `after` in place of the record under `port`, indexes included. */
    method Replace(port: Id, after: PortRecord)
      requires Valid() && port in records && after.port == port
      modifies this`records, this`byDevice, this`byLifecycle, this`byAdministrative, this`byOwner, this`byProfile
      modifies this`byAggregate, this`derivedFrom, this`revalidationRequired
      ensures Valid() && records == old(records)[port := after]
    {
      hide Indexed, ValidIdentifier, Consistent;
      var before := records[port];
      FiledAnew(records, after);
      IndexUpdate(before, after, records);
      hide Keyed;
      records := records[port := after];
    }

    lemma FiledUnderItself(port: Id)
      requires Valid() && port in records
      ensures records[port].port == port
    {
    }

    method AdvanceGeneration()
      modifies this`generation
      ensures generation == Advance(old(generation))
    {
      generation := if generation != 0 then Next(generation) else 1;
    }

    // -----------------------------------------------------------------------
    // Releases
    // -----------------------------------------------------------------------

    /** The walk over the records both releases take: every record that applies gives up its owner. */
    method Sweep(applies: PortRecord -> bool, reason: Text, detail: Text) returns (changed: bool)
      requires Valid()
      requires forall r :: applies(r) ==> r.ownership.Some?
      modifies this`records, this`byDevice, this`byLifecycle, this`byAdministrative, this`byOwner
      modifies this`byProfile, this`byAggregate, this`derivedFrom, this`revalidationRequired
      ensures Valid() && records == Stepped(old(records), r => if applies(r) then Released(r, reason, detail) else r)
      ensures changed <==> records != old(records)
    {
      hide Valid, Swept, ValidIdentifier, Released;
      changed := false;
      var remaining := records.Keys;
      ghost var before := records;
      ghost var step := (r: PortRecord) => if applies(r) then Released(r, reason, detail) else r;
      SweepNone(records, step);
      while remaining != {}
        invariant Valid() && Swept(before, records, remaining, step)
        invariant changed <==> records != before
        decreases |remaining|
      {
        var port: Id :| port in remaining;
        SweepOne(before, records, remaining, port, step);
        if applies(records[port]) {
          ReleasedChanges(records[port], reason, detail);
          FiledUnderItself(port);
          Replace(port, Released(records[port], reason, detail));
          changed := true;
        }
        remaining := remaining - {port};
      }
      SweepAll(before, records, step);
    }

    method ReleaseOwnershipOf(publisher: Id, boot: Id)
      requires Valid()
      modifies this`generation
      modifies this`records, this`byDevice, this`byLifecycle, this`byAdministrative, this`byOwner
      modifies this`byProfile, this`byAggregate, this`derivedFrom, this`revalidationRequired
      ensures Valid() && View() == Engine.ReleaseOwnershipOf(old(View()), publisher, boot)
    {
      hide Indexed, ValidIdentifier, Consistent, Released, Keyed;
      var changed := Sweep(r => HeldByIncarnation(r, publisher, boot), FencedReason(), FencedDetail());
      assert records == map port | port in old(records) :: ReleasedByFence(old(records)[port], publisher, boot);
      if changed {
        AdvanceGeneration();
      }
    }

    method ReleaseOwnershipBefore(current: Generation)
      requires Valid()
      modifies this`generation
      modifies this`records, this`byDevice, this`byLifecycle, this`byAdministrative, this`byOwner
      modifies this`byProfile, this`byAggregate, this`derivedFrom, this`revalidationRequired
      ensures Valid() && View() == Engine.ReleaseOwnershipBefore(old(View()), current)
    {
      hide Indexed, ValidIdentifier, Consistent, Released, Keyed;
      var changed := Sweep(r => HeldBefore(r, current), RestartReason(), RestartDetail());
      assert records == map port | port in old(records) :: ReleasedByEpoch(old(records)[port], current);
      if changed {
        AdvanceGeneration();
      }
    }

    // -----------------------------------------------------------------------
    // Authority
    // -----------------------------------------------------------------------

    method CheckAuthority(a: AuthorityContext) returns (code: OutcomeCode)
      requires Valid()
      modifies this`publishers
      ensures Valid() && (View(), code) == Engine.CheckAuthority(old(View()), a)
    {
      hide Valid, ValidIdentifier, Consistent;
      if !a.Valid() {
        return MalformedRequest;
      }
      if a.epoch != epoch {
        return StaleCoordinatorEpoch;
      }
      if a.publisher !in publishers {
        if config.registration.Explicit? {
          return UnknownPublisher;
        }
        if |publishers| >= MAX_PUBLISHERS {
          return ResourceBoundExceeded;
        }
        publishers := publishers[a.publisher := PublisherRecord(a.publisher, a.boot, a.epoch, false)];
        return Ok;
      }
      var entry := publishers[a.publisher];
      if entry.boot != a.boot {
        return StaleWorkerBoot;
      }
      if entry.fenced {
        return PublisherFenced;
      }
      return Ok;
    }

    method BeginEpoch() returns (code: OutcomeCode)
      requires Valid()
      modifies this`generation, this`epoch, this`publishers
      modifies this`records, this`byDevice, this`byLifecycle, this`byAdministrative, this`byOwner
      modifies this`byProfile, this`byAggregate, this`derivedFrom, this`revalidationRequired
      ensures Valid() && (View(), code) == Engine.BeginEpoch(old(View()))
    {
      hide Valid, ValidIdentifier, Consistent, Engine.ReleaseOwnershipBefore, FencedAll;
      if epoch == 0 {
        return InternalError;
      }
      if Exhaustible(epoch) {
        return ResourceBoundExceeded;
      }
      epoch := Next(epoch);
      FenceOlder();
      ReleaseOwnershipBefore(epoch);
      return Ok;
    }

    /** Marks every incarnation of an earlier epoch as fenced. */
    method FenceOlder()
      modifies this`publishers
      ensures publishers == FencedAll(old(publishers), epoch)
    {
      hide ValidIdentifier;
      ghost var before := publishers;
      var remaining := publishers.Keys;
      while remaining != {}
        invariant publishers.Keys == before.Keys && remaining <= publishers.Keys
        invariant forall id :: id in before ==>
                    publishers[id] == if id in remaining then before[id] else FencedBefore(before[id], epoch)
        decreases |remaining|
      {
        var id: Id :| id in remaining;
        if publishers[id].epoch < epoch {
          publishers := publishers[id := publishers[id].(fenced := true)];
        }
        remaining := remaining - {id};
      }
    }

    method RegisterPublisher(publisher: Id, boot: Id, current: Generation) returns (code: OutcomeCode)
      requires Valid()
      modifies this`publishers
      ensures Valid() && (View(), code) == Engine.RegisterPublisher(old(View()), publisher, boot, current)
    {
      hide Valid, ValidIdentifier, Consistent;
      if !Named(publisher) || !Named(boot) || current == 0 {
        return MalformedRequest;
      }
      if current != epoch {
        return StaleCoordinatorEpoch;
      }
      if publisher in publishers {
        var existing := publishers[publisher];
        if existing.boot == boot {
          return if existing.fenced then PublisherFenced else AlreadyCurrent;
        }
        if existing.epoch == current || existing.fenced {
          publishers := publishers[publisher := existing.(boot := boot, epoch := current, fenced := false)];
          return Ok;
        }
      }
      if |publishers| >= MAX_PUBLISHERS {
        return ResourceBoundExceeded;
      }
      publishers := publishers[publisher := PublisherRecord(publisher, boot, current, false)];
      return Ok;
    }

    method FencePublisher(publisher: Id, boot: Id) returns (code: OutcomeCode)
      requires Valid()
      modifies this`generation, this`publishers
      modifies this`records, this`byDevice, this`byLifecycle, this`byAdministrative, this`byOwner
      modifies this`byProfile, this`byAggregate, this`derivedFrom, this`revalidationRequired
      ensures Valid() && (View(), code) == Engine.FencePublisher(old(View()), publisher, boot)
    {
      hide Valid, ValidIdentifier, Consistent, Engine.ReleaseOwnershipOf;
      if !Named(publisher) {
        return MalformedRequest;
      }
      if publisher !in publishers {
        return UnknownPublisher;
      }
      var existing := publishers[publisher];
      if Named(boot) && existing.boot != boot {
        return StaleWorkerBoot;
      }
      if existing.fenced {
        return AlreadyCurrent;
      }
      publishers := publishers[publisher := existing.(fenced := true)];
      ReleaseOwnershipOf(existing.publisher, existing.boot);
      return Ok;
    }

    // -----------------------------------------------------------------------
    // Devices, topology, profiles
    // -----------------------------------------------------------------------

    method RegisterDevice(device: Id, current: Generation, source: Text) returns (code: OutcomeCode)
      requires Valid()
      modifies this`devices
      ensures Valid() && (View(), code) == Engine.RegisterDevice(old(View()), device, current, source)
    {
      hide Valid, ValidIdentifier, Consistent, ValidText;
      if !Named(device) || current == 0 {
        return MalformedRequest;
      }
      var plain := ValidateText(source, MAX_NAME_LENGTH);
      if !plain {
        return InvalidText;
      }
      if device in devices {
        var existing := devices[device];
        if current < existing.generation {
          return StaleDeviceGeneration;
        }
        if current == existing.generation {
          return AlreadyCurrent;
        }
        if |devices| > config.deviceBound {
          return ResourceBoundExceeded;
        }
        devices := devices[device := existing.(generation := current, source := source)];
        return Ok;
      }
      if |devices| >= config.deviceBound {
        return ResourceBoundExceeded;
      }
      devices := devices[device := DeviceBinding(device, current, source)];
      return Ok;
    }

    method SetTopology(current: Generation) returns (code: OutcomeCode)
      requires Valid()
      modifies this`topology
      ensures Valid() && (View(), code) == Engine.SetTopology(old(View()), current)
    {
      hide Valid, ValidIdentifier, Consistent;
      if current == 0 {
        return MalformedRequest;
      }
      if current < topology {
        return StaleTopologyGeneration;
      }
      if current == topology {
        return AlreadyCurrent;
      }
      topology := current;
      return Ok;
    }

    // -----------------------------------------------------------------------
    // Commit and uncertainty
    // -----------------------------------------------------------------------

    method Commit(port: Id, expected: ExpectedState, next: PortRecord) returns (code: OutcomeCode)
      requires Valid() && next.port == port
      modifies this`generation
      modifies this`records, this`byDevice, this`byLifecycle, this`byAdministrative, this`byOwner
      modifies this`byProfile, this`byAggregate, this`derivedFrom, this`revalidationRequired
      ensures Valid() && (View(), code) == Engine.Commit(old(View()), port, expected, next)
    {
      hide Valid, ValidIdentifier, Consistent, CaptureExpected;
      if port !in records {
        return UnknownPort;
      }
      var current := records[port];
      if Named(current.lastMutation.attempt) && current.lastMutation.attempt == next.lastMutation.attempt {
        return Idempotent;
      }
      if !expected.Matches(current) {
        return StaleConfigurationGeneration;
      }
      if current.lifecycle.Retired? && !next.lifecycle.Retired? {
        return PortRetired;
      }
      if Exhaustible(generation) {
        return ResourceBoundExceeded;
      }
      Replace(port, next);
      generation := Next(generation);
      return Ok;
    }

    method RecordUncertainty(port: Id, a: AuthorityContext, current: Generation, detail: Text, source: Text)
      requires Valid()
      modifies this`generation
      modifies this`records, this`byDevice, this`byLifecycle, this`byAdministrative, this`byOwner
      modifies this`byProfile, this`byAggregate, this`derivedFrom, this`revalidationRequired
      ensures Valid() && View() == Engine.RecordUncertainty(old(View()), port, a, current, detail, source)
    {
      hide Valid, ValidIdentifier, Consistent;
      if port in records {
        FiledUnderItself(port);
        var after := Uncertain(records[port], a, current, detail, source);
        hide Uncertain;
        Replace(port, after);
        generation := Next(generation);
      }
    }

    // -----------------------------------------------------------------------
    // Binding a port
    // -----------------------------------------------------------------------

    method InsertPort(b: Binding, provider: Provider) returns (code: OutcomeCode)
      requires Valid()
      modifies this`generation
      modifies this`records, this`byDevice, this`byLifecycle, this`byAdministrative, this`byOwner
      modifies this`byProfile, this`byAggregate, this`derivedFrom, this`revalidationRequired
      ensures Valid() && (View(), code) == Engine.InsertPort(old(View()), b, provider)
      ensures code == Ok ==> b.port in records && records[b.port] == BoundRecord(b, provider)
    {
      hide Indexed, Keyed, ValidIdentifier, Consistent, PortRecord.Valid, BoundReason, PortCapabilities.Valid;
      if b.port in records {
        var existing := records[b.port];
        if existing.parentDevice != b.parentDevice {
          return ConflictDetected;
        }
        if existing.lastMutation.Valid() && existing.lastMutation.attempt == b.attempt {
          return Idempotent;
        }
        return AlreadyCurrent;
      }
      if |records| >= config.portBound {
        return ResourceBoundExceeded;
      }
      var record := BoundRecord(b, provider);
      if !record.Valid() {
        return InvalidConfiguration;
      }
      PlaceNew(record);
      AdvanceGeneration();
      return Ok;
    }

    method PlaceNew(record: PortRecord)
      requires Valid() && record.port !in records
      modifies this`records, this`byDevice, this`byLifecycle, this`byAdministrative, this`byOwner
      modifies this`byProfile, this`byAggregate, this`derivedFrom, this`revalidationRequired
      ensures Valid() && records == old(records)[record.port := record]
    {
      hide Indexed, ValidIdentifier, Consistent;
      FiledAnew(records, record);
      IndexAdd(record, records);
      hide Keyed;
      records := records[record.port := record];
    }

    /** Takes a port back out, its index entries under the keys of the record once inserted. */
    method TakeBack(record: PortRecord)
      requires Valid()
      modifies this`records, this`byDevice, this`byLifecycle, this`byAdministrative, this`byOwner
      modifies this`byProfile, this`byAggregate, this`derivedFrom, this`revalidationRequired
      ensures records == old(records) - {record.port} && profiles.Valid()
      ensures Valid() <==> FiledAs(old(records), record)
    {
      hide Indexed, ValidIdentifier, FiledAs;
      ghost var before := records;
      records := records - {record.port};
      IndexRemove(record, before);
    }

    /** The last region of a binding. When other regions ran since the insertion, a port taken back
        leaves the indexes in agreement exactly when it is still filed as it was inserted. */
    method AttachDevice(b: Binding, record: PortRecord) returns (code: OutcomeCode)
      requires Valid() && record.port == b.port
      modifies this`devices
      modifies this`records, this`byDevice, this`byLifecycle, this`byAdministrative, this`byOwner
      modifies this`byProfile, this`byAggregate, this`derivedFrom, this`revalidationRequired
      ensures profiles.Valid() && (View(), code) == Engine.AttachDevice(old(View()), b)
      ensures Valid() <==> (TakesBack(old(View()), b) ==> FiledAs(old(records), record))
    {
      hide Valid, ValidIdentifier, Consistent, FiledAs;
      ValidProfiles();
      if b.parentDevice !in devices {
        if |devices| >= config.deviceBound {
          return ResourceBoundExceeded;
        }
        devices := devices[b.parentDevice := DeviceBinding(b.parentDevice, b.deviceGeneration, b.provenanceSource)];
        return Ok;
      }
      var existing := devices[b.parentDevice];
      if existing.generation < b.deviceGeneration {
        devices := devices[b.parentDevice := existing.(generation := b.deviceGeneration, source := b.provenanceSource)];
        return Ok;
      }
      if existing.generation > b.deviceGeneration {
        TakeBack(record);
        return StaleDeviceGeneration;
      }
      return Ok;
    }

    lemma ValidProfiles()
      requires Valid()
      ensures profiles.Valid()
    {
    }

    method BindPort(b: Binding, provider: Provider) returns (code: OutcomeCode)
      requires Valid()
      modifies this`generation, this`devices
      modifies this`records, this`byDevice, this`byLifecycle, this`byAdministrative, this`byOwner
      modifies this`byProfile, this`byAggregate, this`derivedFrom, this`revalidationRequired
      ensures Valid() && (View(), code) == Engine.BindPort(old(View()), b, provider)
    {
      hide Valid, ValidIdentifier, Consistent, Engine.InsertPort, Engine.AttachDevice, BoundRecord;
      if !Named(b.port) || !Named(b.parentDevice) || b.deviceGeneration == 0 || !Named(b.attempt) {
        return MalformedRequest;
      }
      if b.epoch != epoch {
        return StaleCoordinatorEpoch;
      }
      code := InsertPort(b, provider);
      if code != Ok {
        return code;
      }
      FiledUnderItself(b.port);
      code := AttachDevice(b, BoundRecord(b, provider));
    }

    // -----------------------------------------------------------------------
    // Recovery
    // -----------------------------------------------------------------------

    method RestoreDevices(bindings: seq<DeviceBinding>)
      modifies this`devices
      ensures devices == RefillDevices(bindings)
    {
      hide ValidIdentifier;
      devices := map[];
      for i := 0 to |bindings|
        invariant devices == RefillDevices(bindings[..i])
      {
        assert bindings[..i + 1][..i] == bindings[..i];
        devices := devices[bindings[i].device := bindings[i]];
      }
      assert bindings[..|bindings|] == bindings;
    }

    method RestorePublishers(incarnations: seq<PublisherRecord>)
      modifies this`publishers
      ensures publishers == RefillPublishers(incarnations)
    {
      hide ValidIdentifier;
      publishers := map[];
      for i := 0 to |incarnations|
        invariant publishers == RefillPublishers(incarnations[..i])
      {
        assert incarnations[..i + 1][..i] == incarnations[..i];
        publishers := publishers[incarnations[i].publisher := incarnations[i].(fenced := true)];
      }
      assert incarnations[..|incarnations|] == incarnations;
    }

    method RestoreAuthority(image: PersistedState)
      requires profiles.Valid()
      modifies this`epoch, this`topology, this`devices, this`publishers
      ensures View() == RecoverAuthority(old(View()), image)
    {
      hide ValidIdentifier, Consistent, RefillDevices, RefillPublishers;
      if image.epoch >= epoch {
        epoch := Next(image.epoch);
      }
      if image.topology > topology {
        topology := image.topology;
      }
      RestoreDevices(image.devices);
      RestorePublishers(image.publishers);
    }

    method RefillRecords(image: PersistedState) returns (ok: bool)
      modifies this`records
      ensures (records, ok) == Refill(image.records)
      ensures Keyed(records)
    {
      hide ValidIdentifier, Rewritten, PortRecord.Valid;
      records := map[];
      for i := 0 to |image.records|
        invariant (records, true) == Refill(image.records[..i])
        invariant Keyed(records)
      {
        assert image.records[..i + 1][..i] == image.records[..i];
        var record := Rewritten(image.records[i]);
        if !record.Valid() {
          RefillStopped(image.records, i + 1);
          return false;
        }
        if record.port !in records {
          records := records[record.port := record];
        }
      }
      assert image.records[..|image.records|] == image.records;
      return true;
    }

    method RestoreRecords(image: PersistedState) returns (code: OutcomeCode)
      requires profiles.Valid()
      modifies this`generation
      modifies this`records, this`byDevice, this`byLifecycle, this`byAdministrative, this`byOwner
      modifies this`byProfile, this`byAggregate, this`derivedFrom, this`revalidationRequired
      ensures (View(), code) == RecoverRecords(old(View()), image)
      ensures code != PersistenceCorruption ==> Valid()
    {
      hide ValidIdentifier, Consistent, Refill, Indexed, Keyed;
      var ok := RefillRecords(image);
      if !ok {
        return PersistenceCorruption;
      }
      ReindexAll();
      if Exhaustible(image.engineGeneration) {
        return ResourceBoundExceeded;
      }
      generation := Next(image.engineGeneration);
      return Ok;
    }

    /** Conservative recovery. The indexes are rebuilt unless a record stops it halfway, which
        records that validate never do. */
    method Load(image: PersistedState) returns (code: OutcomeCode)
      requires Valid()
      modifies this`generation, this`epoch, this`topology, this`devices, this`publishers, profiles
      modifies this`records, this`byDevice, this`byLifecycle, this`byAdministrative, this`byOwner
      modifies this`byProfile, this`byAggregate, this`derivedFrom, this`revalidationRequired
      ensures profiles.Valid() && (View(), code) == Recover(old(View()), image)
      ensures AllValid(image.records) || code != PersistenceCorruption ==> Valid()
    {
      hide ValidIdentifier, Consistent, Refill, Indexed, Keyed, RecoverAuthority, RecoverRecords, DefineAll, Sort, AllValid;
      if |image.records| > config.portBound {
        return PersistenceBoundsExceeded;
      }
      if Named(config.fabric) && Named(image.fabric) && config.fabric != image.fabric {
        return ConflictDetected;
      }
      if Named(config.site) && Named(image.site) && config.site != image.site {
        return ConflictDetected;
      }
      var restored := profiles.Restore(Sort(image.profiles));
      if !restored {
        return PersistenceCorruption;
      }
      if image.epoch >= epoch && Exhaustible(image.epoch) {
        return ResourceBoundExceeded;
      }
      RestoreAuthority(image);
      ghost var s := View();
      code := RestoreRecords(image);
      ValidRecordsNeverStop(s, image);
    }

    // -----------------------------------------------------------------------
    // Queries
    // -----------------------------------------------------------------------

    /** The ports filed under a key, in order; what every indexed query returns. */
    static method Collect<K(==, !new)>(index: Index<K>, k: K, ghost records: map<Id, PortRecord>,
                                       ghost key: PortRecord -> Option<K>)
      returns (out: seq<Id>)
      requires Agrees(index, records, key)
      ensures InOrder(out) && forall port :: port in out <==> port in records && key(records[port]) == Some(k)
    {
      hide Agrees, ValidIdentifier;
      LookupIsScan(index, records, key, k);
      assert forall port :: port in Scan(records, key, k) <==> port in records && key(records[port]) == Some(k);
      hide Scan;
      if k !in index {
        return [];
      }
      out := Ordered(index[k]);
    }

    method PortsOfDevice(device: Id) returns (out: seq<Id>)
      requires Valid()
      ensures InOrder(out) && forall port :: port in out <==> port in records && records[port].parentDevice == device
    {
      hide Agrees, Keyed, ValidIdentifier;
      out := Collect(byDevice, device, records, DeviceKey);
      assert forall port :: port in records ==> DeviceKey(records[port]) == Some(records[port].parentDevice);
    }

    method PortsWithLifecycle(state: PortLifecycle) returns (out: seq<Id>)
      requires Valid()
      ensures InOrder(out) && forall port :: port in out <==> port in records && records[port].lifecycle == state
    {
      hide Agrees, Keyed, ValidIdentifier;
      out := Collect(byLifecycle, state, records, LifecycleKey);
      assert forall port :: port in records ==> LifecycleKey(records[port]) == Some(records[port].lifecycle);
    }

    method PortsOfOwner(owner: Id) returns (out: seq<Id>)
      requires Valid()
      ensures InOrder(out) && forall port :: port in out <==> port in records && OwnerKey(records[port]) == Some(owner)
    {
      hide Agrees, Keyed, ValidIdentifier, OwnerKey;
      out := Collect(byOwner, owner, records, OwnerKey);
    }

    method PortsWithAdministrativeState(state: AdministrativeState) returns (out: seq<Id>)
      requires Valid()
      ensures InOrder(out)
      ensures forall port :: port in out <==> port in records && AdministrativeKey(records[port]) == Some(state)
    {
      hide Agrees, Keyed, ValidIdentifier, AdministrativeKey;
      out := Collect(byAdministrative, state, records, AdministrativeKey);
    }

    method PortsByProfile(profile: Id) returns (out: seq<Id>)
      requires Valid()
      ensures InOrder(out) && forall port :: port in out <==> port in records && ProfileKey(records[port]) == Some(profile)
    {
      hide Agrees, Keyed, ValidIdentifier, ProfileKey;
      out := Collect(byProfile, profile, records, ProfileKey);
    }

    method PortsOfAggregate(aggregate: Id) returns (out: seq<Id>)
      requires Valid()
      ensures InOrder(out)
      ensures forall port :: port in out <==> port in records && AggregateKey(records[port]) == Some(aggregate)
    {
      hide Agrees, Keyed, ValidIdentifier, AggregateKey;
      out := Collect(byAggregate, aggregate, records, AggregateKey);
    }

    method DerivedPorts(parent: Id) returns (out: seq<Id>)
      requires Valid()
      ensures InOrder(out) && forall port :: port in out <==> port in records && DerivedKey(records[port]) == Some(parent)
    {
      hide Agrees, Keyed, ValidIdentifier, DerivedKey;
      out := Collect(derivedFrom, parent, records, DerivedKey);
    }

    /** The index of fenced ports merged with a walk for those whose drift asks for it. */
    method PortsRequiringRevalidation() returns (out: seq<Id>)
      requires Valid()
      ensures InOrder(out)
      ensures forall port :: port in out <==>
                port in records
                && (records[port].lifecycle.RevalidationRequired? || records[port].drift.RevalidationRequired?)
    {
      hide Agrees, ValidIdentifier;
      var found := revalidationRequired;
      var remaining := records.Keys;
      while remaining != {}
        invariant remaining <= records.Keys
        invariant forall port :: port in found <==>
                    port in records
                    && (records[port].lifecycle.RevalidationRequired?
                        || (port !in remaining && records[port].drift.RevalidationRequired?))
        decreases |remaining|
      {
        var port: Id :| port in remaining;
        if records[port].drift.RevalidationRequired? && records[port].port !in revalidationRequired {
          found := found + {records[port].port};
        }
        remaining := remaining - {port};
      }
      out := Ordered(found);
    }
  }

  /** Strictly ascending, hence without repetition. */
  predicate InOrder(ids: seq<Id>) { forall i, j :: 0 <= i < j < |ids| ==> Before(ids[i], ids[j]) }

  /** Walking an ordered set. */
  method Ordered(ids: set<Id>) returns (out: seq<Id>)
    ensures InOrder(out) && forall id :: id in out <==> id in ids
  {
    hide ValidIdentifier;
    out := [];
    var remaining := ids;
    while remaining != {}
      invariant remaining <= ids
      invariant InOrder(out)
      invariant forall id :: id in out <==> id in ids && id !in remaining
      invariant forall a, b :: a in out && b in remaining ==> Before(a, b)
      decreases |remaining|
    {
      LeastExists(remaining);
      var id: Id :| Least(id, remaining);
      out := out + [id];
      remaining := remaining - {id};
    }
  }

  ghost function Stepped(records: map<Id, PortRecord>, step: PortRecord -> PortRecord): map<Id, PortRecord> {
    map port | port in records :: step(records[port])
  }

  /** A table walked so far: what remains is as it was, the rest has been stepped. */
  ghost predicate Swept(before: map<Id, PortRecord>, records: map<Id, PortRecord>, remaining: set<Id>,
                        step: PortRecord -> PortRecord)
  {
    && records.Keys == before.Keys && remaining <= records.Keys
    && forall port :: port in before ==>
         records[port] == if port in remaining then before[port] else step(before[port])
  }

  /** A port that is sound is still filed as it was bound exactly when it is unconfigured and
      unowned: any other port taken back leaves phantoms. */
  lemma PhantomsExactly(m: map<Id, PortRecord>, b: Binding, provider: Provider)
    requires b.port in m && m[b.port].parentDevice == b.parentDevice && Sound(m[b.port])
    ensures EngineImpl.FiledAs(m, BoundRecord(b, provider))
            <==> m[b.port].lifecycle.Unconfigured? && m[b.port].ownership.None?
  {
    hide ValidIdentifier, PortRecord.Valid, Stranded, CapabilityAgrees, EvidenceIsTrue, LiveIsSupported, BoundReason;
    hide PortCapabilities.Valid;
  }

  lemma FiledAnew(records: map<Id, PortRecord>, record: PortRecord)
    requires Keyed(records)
    ensures Keyed(records[record.port := record])
  {
    hide ValidIdentifier;
  }

  lemma SweepNone(records: map<Id, PortRecord>, step: PortRecord -> PortRecord)
    ensures Swept(records, records, records.Keys, step)
  {
  }

  lemma SweepAll(before: map<Id, PortRecord>, records: map<Id, PortRecord>, step: PortRecord -> PortRecord)
    requires Swept(before, records, {}, step)
    ensures records == Stepped(before, step)
  {
    hide ValidIdentifier;
  }

  lemma SweepOne(before: map<Id, PortRecord>, records: map<Id, PortRecord>, remaining: set<Id>, port: Id,
                 step: PortRecord -> PortRecord)
    requires Swept(before, records, remaining, step) && port in remaining
    ensures port in records && port in before && records[port] == before[port]
    ensures Swept(before, records[port := step(records[port])], remaining - {port}, step)
    ensures step(records[port]) == records[port] ==> Swept(before, records, remaining - {port}, step)
    ensures step(records[port]) != records[port] ==> records[port := step(records[port])] != before
    ensures records != before ==> records[port := step(records[port])] != before
  {
    hide ValidIdentifier;
    if records != before {
      var p :| p in before && records[p] != before[p];
      assert records[port := step(records[port])][p] != before[p];
    }
  }

  /** A release changes the record and keeps its identity. */
  lemma ReleasedChanges(r: PortRecord, reason: Text, detail: Text)
    requires r.ownership.Some?
    ensures Released(r, reason, detail).port == r.port && Released(r, reason, detail) != r
  {
    hide ValidIdentifier;
  }

  lemma NoneDone(records: map<Id, PortRecord>)
    ensures records - records.Keys == map[] && records - {} == records
  {
    hide ValidIdentifier;
  }

  lemma OneLess(records: map<Id, PortRecord>, remaining: set<Id>, port: Id)
    requires Keyed(records) && port in remaining && port in records
    ensures records[port].port == port && port !in records - remaining
    ensures (records - remaining)[port := records[port]] == records - (remaining - {port})
  {
    hide ValidIdentifier;
  }

  /** A refill that stopped stays stopped where it was. */
  lemma {:induction false} RefillStopped(records: seq<PortRecord>, n: nat)
    requires n <= |records| && !Refill(records[..n]).1
    ensures Refill(records) == Refill(records[..n])
    decreases |records|
  {
    hide ValidIdentifier, Rewritten, PortRecord.Valid;
    if n == |records| {
      assert records[..n] == records;
    } else {
      var front := records[..|records| - 1];
      assert front[..n] == records[..n];
      RefillStopped(front, n);
    }
  }

  lemma ValidRecordsNeverStop(s: State, image: PersistedState)
    ensures AllValid(image.records) ==> RecoverRecords(s, image).1 != PersistenceCorruption
  {
    hide ValidIdentifier, Rewritten, PortRecord.Valid, Consistent;
    if AllValid(image.records) {
      RefillIsTotal(image.records);
    }
  }
}
