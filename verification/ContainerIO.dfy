/** Encoding and decoding the container, step by step. */
module ContainerIO {
  import opened Basics
  import opened Records
  import opened Codec
  import opened Wire
  import opened WireIO
  import opened Container
  import Crc32

  // -------------------------------------------------------------------------
  // Tables
  // -------------------------------------------------------------------------

  /** Writes the entries in order, stopping at the first that does not validate. */
  method WriteRecords(w: ByteWriter, items: seq<PortRecord>) returns (valid: bool)
    requires w.Valid() && |items| < 0x1_0000_0000
    modifies w
    ensures w.Valid()
    ensures valid <==> RecordsValid(items)
    ensures valid ==> w.fits == (old(w.fits) && (forall k :: 0 <= k < |items| ==> RecordFits(items[k])))
    ensures valid && (forall k :: 0 <= k < |items| ==> RecordFits(items[k])) ==>
              forall rest :: w.full + rest == old(w.full) + PutList(items, PutRecord, rest)
  {
    hide PutU32, PutList, Written, ByteWriter.Valid, PutRecord, Narrow32, RecordFits, PortRecord.Valid;
    w.U32(Narrow32(|items|));
    ghost var start := w.full;
    WrittenNone(start, items, PutRecord);
    for i := 0 to |items|
      invariant w.Valid()
      invariant forall k :: 0 <= k < i ==> items[k].Valid()
      invariant w.fits == (old(w.fits) && forall k :: 0 <= k < i ==> RecordFits(items[k]))
      invariant (forall k :: 0 <= k < i ==> RecordFits(items[k])) ==> Written(start, w.full, items, i, PutRecord)
    {
      if !items[i].Valid() {
        return false;
      }
      ghost var full := w.full;
      WriteRecord(w, items[i]);
      if forall k :: 0 <= k < i + 1 ==> RecordFits(items[k]) {
        assert RecordFits(items[i]);
        WrittenOne(start, full, w.full, items, i, PutRecord);
      }
    }
    if (forall k :: 0 <= k < |items| ==> RecordFits(items[k])) {
      WrittenAll(old(w.full), start, w.full, items, PutRecord);
    }
    return true;
  }

  /** Writes the entries in order, stopping at the first that does not validate. */
  method WriteProfiles(w: ByteWriter, items: seq<PortProfile>) returns (valid: bool)
    requires w.Valid() && |items| < 0x1_0000_0000
    modifies w
    ensures w.Valid()
    ensures valid <==> ProfilesValid(items)
    ensures valid ==> w.fits == (old(w.fits) && (forall k :: 0 <= k < |items| ==> ProfileFits(items[k])))
    ensures valid && (forall k :: 0 <= k < |items| ==> ProfileFits(items[k])) ==>
              forall rest :: w.full + rest == old(w.full) + PutList(items, PutProfile, rest)
  {
    hide PutU32, PutList, Written, ByteWriter.Valid, PutProfile, Narrow32, ProfileFits, PortProfile.Valid;
    w.U32(Narrow32(|items|));
    ghost var start := w.full;
    WrittenNone(start, items, PutProfile);
    for i := 0 to |items|
      invariant w.Valid()
      invariant forall k :: 0 <= k < i ==> items[k].Valid()
      invariant w.fits == (old(w.fits) && forall k :: 0 <= k < i ==> ProfileFits(items[k]))
      invariant (forall k :: 0 <= k < i ==> ProfileFits(items[k])) ==> Written(start, w.full, items, i, PutProfile)
    {
      if !items[i].Valid() {
        return false;
      }
      ghost var full := w.full;
      WriteProfile(w, items[i]);
      if forall k :: 0 <= k < i + 1 ==> ProfileFits(items[k]) {
        assert ProfileFits(items[i]);
        WrittenOne(start, full, w.full, items, i, PutProfile);
      }
    }
    if (forall k :: 0 <= k < |items| ==> ProfileFits(items[k])) {
      WrittenAll(old(w.full), start, w.full, items, PutProfile);
    }
    return true;
  }

  /** Writes the entries in order. */
  method WriteDevices(w: ByteWriter, items: seq<DeviceBinding>)
    requires w.Valid() && |items| < 0x1_0000_0000
    modifies w
    ensures w.Valid()
    ensures w.fits == (old(w.fits) && (forall k :: 0 <= k < |items| ==> DeviceFits(items[k])))
    ensures (forall k :: 0 <= k < |items| ==> DeviceFits(items[k])) ==>
              forall rest :: w.full + rest == old(w.full) + PutList(items, PutDevice, rest)
  {
    hide PutU32, PutList, Written, ByteWriter.Valid, PutDevice, Narrow32, DeviceFits;
    w.U32(Narrow32(|items|));
    ghost var start := w.full;
    WrittenNone(start, items, PutDevice);
    for i := 0 to |items|
      invariant w.Valid()
      invariant w.fits == (old(w.fits) && forall k :: 0 <= k < i ==> DeviceFits(items[k]))
      invariant (forall k :: 0 <= k < i ==> DeviceFits(items[k])) ==> Written(start, w.full, items, i, PutDevice)
    {
      ghost var full := w.full;
      WriteDevice(w, items[i]);
      if forall k :: 0 <= k < i + 1 ==> DeviceFits(items[k]) {
        assert DeviceFits(items[i]);
        WrittenOne(start, full, w.full, items, i, PutDevice);
      }
    }
    if (forall k :: 0 <= k < |items| ==> DeviceFits(items[k])) {
      WrittenAll(old(w.full), start, w.full, items, PutDevice);
    }
  }

  /** Writes the entries in order. */
  method WritePublishers(w: ByteWriter, items: seq<PublisherRecord>)
    requires w.Valid() && |items| < 0x1_0000_0000
    modifies w
    ensures w.Valid()
    ensures w.fits == old(w.fits)
    ensures forall rest :: w.full + rest == old(w.full) + PutList(items, PutPublisher, rest)
  {
    hide PutU32, PutList, Written, ByteWriter.Valid, PutPublisher, Narrow32;
    w.U32(Narrow32(|items|));
    ghost var start := w.full;
    WrittenNone(start, items, PutPublisher);
    for i := 0 to |items|
      invariant w.Valid()
      invariant w.fits == old(w.fits) && Written(start, w.full, items, i, PutPublisher)
    {
      ghost var full := w.full;
      WritePublisher(w, items[i]);
      WrittenOne(start, full, w.full, items, i, PutPublisher);
    }
    WrittenAll(old(w.full), start, w.full, items, PutPublisher);
  }

  lemma TakeNone<T(!new)>(get: Text -> Parsed<T>, same: (T, T) -> bool, taken: seq<T>, s: Text)
    ensures Take(0, get, same, taken, s) == Accepted(taken, s)
  {
  }

  /** One entry of a table: malformed, repeated, or taken. */
  lemma TakeOne<T(!new)>(n: nat, get: Text -> Parsed<T>, same: (T, T) -> bool, taken: seq<T>, s: Text)
    requires n > 0
    ensures get(s).None? ==> Take(n, get, same, taken, s) == Refused(PersistenceCorruption)
    ensures get(s).Some? ==>
              var (item, rest) := get(s).value;
              Take(n, get, same, taken, s) ==
                if Repeats(taken, same, item) then Refused(DuplicateRecord)
                else Take(n - 1, get, same, taken + [item], rest)
  {
  }

  /** The table taken and the bytes left are what `spec` says. */
  predicate TookTable<T(==)>(items: seq<T>, code: OutcomeCode, rest: Text, spec: Decoded<seq<T>>) {
    match spec
    case Refused(refusal) => code == refusal && code != Ok
    case Accepted(all, after) => code == Ok && items == all && rest == after
  }

  method ReadRecords(r: ByteReader) returns (items: seq<PortRecord>, code: OutcomeCode)
    requires r.Valid() && r.ok
    modifies r
    ensures r.Valid() && (code == Ok ==> r.ok)
    ensures TookTable(items, code, r.Rest(), GetTable(MAX_PERSISTED_RECORDS, GetRecord, SamePort, old(r.Rest())))
  {
    hide GetCount, GetRecord, SamePort, ByteReader.Rest, ValidIdentifier, Take;
    items := [];
    var count := r.Count(MAX_PERSISTED_RECORDS);
    if count.None? {
      return items, PersistenceBoundsExceeded;
    }
    ghost var start := r.Rest();
    for i := 0 to count.value
      invariant r.Valid() && r.ok
      invariant Take(count.value - i, GetRecord, SamePort, items, r.Rest()) == Take(count.value, GetRecord, SamePort, [], start)
    {
      TakeOne(count.value - i, GetRecord, SamePort, items, r.Rest());
      var item := ReadRecord(r);
      if item.None? {
        return items, PersistenceCorruption;
      }
      if Repeats(items, SamePort, item.value) {
        return items, DuplicateRecord;
      }
      items := items + [item.value];
    }
    TakeNone(GetRecord, SamePort, items, r.Rest());
    return items, Ok;
  }

  method ReadProfiles(r: ByteReader) returns (items: seq<PortProfile>, code: OutcomeCode)
    requires r.Valid() && r.ok
    modifies r
    ensures r.Valid() && (code == Ok ==> r.ok)
    ensures TookTable(items, code, r.Rest(), GetTable(MAX_PROFILES, GetProfile, SameProfile, old(r.Rest())))
  {
    hide GetCount, GetProfile, SameProfile, ByteReader.Rest, ValidIdentifier, Take;
    items := [];
    var count := r.Count(MAX_PROFILES);
    if count.None? {
      return items, PersistenceBoundsExceeded;
    }
    ghost var start := r.Rest();
    for i := 0 to count.value
      invariant r.Valid() && r.ok
      invariant Take(count.value - i, GetProfile, SameProfile, items, r.Rest()) == Take(count.value, GetProfile, SameProfile, [], start)
    {
      TakeOne(count.value - i, GetProfile, SameProfile, items, r.Rest());
      var item := ReadProfile(r);
      if item.None? {
        return items, PersistenceCorruption;
      }
      if Repeats(items, SameProfile, item.value) {
        return items, DuplicateRecord;
      }
      items := items + [item.value];
    }
    TakeNone(GetProfile, SameProfile, items, r.Rest());
    return items, Ok;
  }

  method ReadDevices(r: ByteReader) returns (items: seq<DeviceBinding>, code: OutcomeCode)
    requires r.Valid() && r.ok
    modifies r
    ensures r.Valid() && (code == Ok ==> r.ok)
    ensures TookTable(items, code, r.Rest(), GetTable(MAX_DEVICES, GetDevice, SameDevice, old(r.Rest())))
  {
    hide GetCount, GetDevice, SameDevice, ByteReader.Rest, ValidIdentifier, Take;
    items := [];
    var count := r.Count(MAX_DEVICES);
    if count.None? {
      return items, PersistenceBoundsExceeded;
    }
    ghost var start := r.Rest();
    for i := 0 to count.value
      invariant r.Valid() && r.ok
      invariant Take(count.value - i, GetDevice, SameDevice, items, r.Rest()) == Take(count.value, GetDevice, SameDevice, [], start)
    {
      TakeOne(count.value - i, GetDevice, SameDevice, items, r.Rest());
      var item := ReadDevice(r);
      if item.None? {
        return items, PersistenceCorruption;
      }
      if Repeats(items, SameDevice, item.value) {
        return items, DuplicateRecord;
      }
      items := items + [item.value];
    }
    TakeNone(GetDevice, SameDevice, items, r.Rest());
    return items, Ok;
  }

  method ReadPublishers(r: ByteReader) returns (items: seq<PublisherRecord>, code: OutcomeCode)
    requires r.Valid() && r.ok
    modifies r
    ensures r.Valid() && (code == Ok ==> r.ok)
    ensures TookTable(items, code, r.Rest(), GetTable(MAX_PUBLISHERS, GetPublisher, SamePublisher, old(r.Rest())))
  {
    hide GetCount, GetPublisher, SamePublisher, ByteReader.Rest, ValidIdentifier, Take;
    items := [];
    var count := r.Count(MAX_PUBLISHERS);
    if count.None? {
      return items, PersistenceBoundsExceeded;
    }
    ghost var start := r.Rest();
    for i := 0 to count.value
      invariant r.Valid() && r.ok
      invariant Take(count.value - i, GetPublisher, SamePublisher, items, r.Rest()) == Take(count.value, GetPublisher, SamePublisher, [], start)
    {
      TakeOne(count.value - i, GetPublisher, SamePublisher, items, r.Rest());
      var item := ReadPublisher(r);
      if item.None? {
        return items, PersistenceCorruption;
      }
      if Repeats(items, SamePublisher, item.value) {
        return items, DuplicateRecord;
      }
      items := items + [item.value];
    }
    TakeNone(GetPublisher, SamePublisher, items, r.Rest());
    return items, Ok;
  }

  // -------------------------------------------------------------------------
  // Encoding
  // -------------------------------------------------------------------------

  method WritePreamble(w: ByteWriter, s: PersistedState)
    requires w.Valid()
    modifies w
    ensures w.Valid() && w.fits == old(w.fits)
    ensures forall rest :: w.full + rest == old(w.full)
              + PutId(s.fabric, PutId(s.site, PutU64(s.epoch, PutU64(s.engineGeneration, PutU64(s.topology, rest)))))
  {
    hide PutId, PutU64, ValidIdentifier;
    w.Identifier(s.fabric);
    w.Identifier(s.site);
    w.U64(s.epoch);
    w.U64(s.engineGeneration);
    w.U64(s.topology);
  }

  method WriteTables(w: ByteWriter, s: PersistedState) returns (code: OutcomeCode)
    requires w.Valid()
    modifies w
    ensures w.Valid() && code == Refusal(s)
    ensures code == Ok ==> w.fits == (old(w.fits) && StateFits(s))
    ensures code == Ok && StateFits(s) ==> forall rest :: w.full + rest == old(w.full) + PutTables(s, rest)
  {
    hide PutList, RecordFits, ProfileFits, DeviceFits, ValidIdentifier, RecordsValid, ProfilesValid;
    hide PutRecord, PutProfile, PutDevice, PutPublisher;
    if |s.records| > MAX_PERSISTED_RECORDS {
      return PersistenceBoundsExceeded;
    }
    var valid := WriteRecords(w, s.records);
    if !valid {
      return InvalidConfiguration;
    }
    if |s.profiles| > MAX_PROFILES {
      return PersistenceBoundsExceeded;
    }
    valid := WriteProfiles(w, s.profiles);
    if !valid {
      return InvalidProfile;
    }
    if |s.devices| > MAX_DEVICES {
      return PersistenceBoundsExceeded;
    }
    WriteDevices(w, s.devices);
    if |s.publishers| > MAX_PUBLISHERS {
      return PersistenceBoundsExceeded;
    }
    WritePublishers(w, s.publishers);
    return Ok;
  }

  /** The payload, or the code of the first bound or entry that fails. */
  method EncodePayload(s: PersistedState) returns (code: OutcomeCode, payload: Text)
    ensures code != Ok ==> Encode(s) == Failed(code)
    ensures code == Ok ==> payload == Payload(s) && |payload| <= PAYLOAD_LIMIT
    ensures code == Ok ==> Encode(s) == Encoded(Framed(payload))
  {
    hide PutId, PutU64, PutTables, Refusal, StateFits, ValidIdentifier, Framed;
    payload := [];
    var w := new ByteWriter(PAYLOAD_LIMIT);
    WritePreamble(w, s);
    code := WriteTables(w, s);
    if code != Ok {
      return code, payload;
    }
    if StateFits(s) {
      assert w.full + [] == Payload(s);
    }
    if !w.ok {
      return PersistenceBoundsExceeded, payload;
    }
    return Ok, w.out;
  }

  method EncodeHeader(payload: Text) returns (header: Text)
    requires |payload| <= MAX_PERSISTENCE_BYTES
    ensures header + payload == Framed(payload)
  {
    hide PutU32, PutU64, Crc32.Value, Crc32.Checksum;
    var w := new ByteWriter(HEADER_SIZE);
    w.Raw(Magic());
    w.U32(FORMAT_VERSION);
    w.U32(HEADER_SIZE);
    w.U64(|payload|);
    var crc := ChecksumOf(payload);
    w.U32(crc);
    assert w.full + [] == Prologue(payload);
    assert w.out == Prologue(payload);
    var headerCrc := ChecksumOf(w.out);
    ghost var prologue := w.full;
    w.U32(headerCrc);
    assert w.full + payload == prologue + PutU32(headerCrc, payload);
    assert |w.full + []| == 32;
    header := w.out;
  }

  method ChecksumOf(bytes: Text) returns (crc: u32)
    ensures crc == Crc32.Value(bytes)
  {
    hide Crc32.Checksum;
    var checksum := Crc32.Crc(bytes);
    crc := checksum as int;
  }

  method EncodePersistedState(s: PersistedState) returns (r: Encoding)
    ensures r == Encode(s)
  {
    hide Payload, Framed, Refusal, StateFits;
    var code, payload := EncodePayload(s);
    if code != Ok {
      return Failed(code);
    }
    var header := EncodeHeader(payload);
    return Encoded(header + payload);
  }

  // -------------------------------------------------------------------------
  // Decoding
  // -------------------------------------------------------------------------

  method ReadPreamble(r: ByteReader) returns (v: Option<Preamble>)
    requires r.Valid() && r.ok
    modifies r
    ensures r.Valid() && (v.Some? ==> r.ok)
    ensures Took(v, r.Rest(), GetPreamble(old(r.Rest())))
  {
    hide GetId, PutId, GetU64, PutU64, ValidIdentifier, ByteReader.Rest;
    var fabric := r.Identifier();
    if fabric.None? {
      return None;
    }
    var site := r.Identifier();
    if site.None? {
      return None;
    }
    var epoch := r.U64();
    if epoch.None? {
      return None;
    }
    var engineGeneration := r.U64();
    if engineGeneration.None? {
      return None;
    }
    var topology := r.U64();
    if topology.None? {
      return None;
    }
    return Some(Preamble(fabric.value, site.value, epoch.value, engineGeneration.value, topology.value));
  }

  method ReadTables(r: ByteReader) returns (t: Tables, code: OutcomeCode)
    requires r.Valid() && r.ok
    modifies r
    ensures r.Valid() && (code == Ok ==> r.ok)
    ensures match GetTables(old(r.Rest()))
            case Refused(refusal) => code == refusal && code != Ok
            case Accepted(all, after) => code == Ok && t == all && r.Rest() == after
  {
    hide GetTable, GetRecord, GetProfile, GetDevice, GetPublisher, ByteReader.Rest, SamePort, SameProfile, SameDevice;
    hide SamePublisher, ValidIdentifier;
    t := Tables([], [], [], []);
    var records, recordsCode := ReadRecords(r);
    if recordsCode != Ok {
      return t, recordsCode;
    }
    var profiles, profilesCode := ReadProfiles(r);
    if profilesCode != Ok {
      return t, profilesCode;
    }
    var devices, devicesCode := ReadDevices(r);
    if devicesCode != Ok {
      return t, devicesCode;
    }
    var publishers, publishersCode := ReadPublishers(r);
    if publishersCode != Ok {
      return t, publishersCode;
    }
    return Tables(records, profiles, devices, publishers), Ok;
  }

  method DecodePayloadBytes(payload: Text) returns (r: Decoded<PersistedState>)
    ensures r == DecodePayload(payload)
  {
    hide GetPreamble, GetTables, ValidIdentifier;
    var reader := new ByteReader(payload);
    var p := ReadPreamble(reader);
    if p.None? {
      return Refused(PersistenceCorruption);
    }
    var t, code := ReadTables(reader);
    if code != Ok {
      return Refused(code);
    }
    if reader.offset != |payload| {
      return Refused(PersistenceCorruption);
    }
    return Accepted(PersistedState(p.value.fabric, p.value.site, p.value.epoch, p.value.engineGeneration, p.value.topology,
                                   t.records, t.profiles, t.devices, t.publishers), []);
  }

  method ReadHeader(bytes: Text) returns (v: Option<Header>)
    requires |bytes| >= HEADER_SIZE
    ensures GetHeader(bytes[8..]).Some? && v == Some(GetHeader(bytes[8..]).value.0)
    ensures GetHeader(bytes[8..]).value.1 == bytes[HEADER_SIZE..]
  {
    hide GetU32, PutU32, GetU64, PutU64, GetHeader;
    HeaderReads(bytes[8..HEADER_SIZE], bytes[HEADER_SIZE..]);
    assert bytes[8..] == bytes[8..HEADER_SIZE] + bytes[HEADER_SIZE..];
    var r := new ByteReader(bytes[..HEADER_SIZE]);
    var magic := r.Raw(8);
    assert bytes[..HEADER_SIZE][8..] == bytes[8..HEADER_SIZE];
    v := ReadHeaderFields(r);
  }

  method ReadHeaderFields(r: ByteReader) returns (v: Option<Header>)
    requires r.Valid() && r.ok
    modifies r
    ensures r.Valid() && (v.Some? ==> r.ok)
    ensures Took(v, r.Rest(), GetHeader(old(r.Rest())))
  {
    hide GetU32, PutU32, GetU64, PutU64, ByteReader.Rest;
    var version := r.U32();
    if version.None? {
      return None;
    }
    var size := r.U32();
    if size.None? {
      return None;
    }
    var length := r.U64();
    if length.None? {
      return None;
    }
    var payloadCrc := r.U32();
    if payloadCrc.None? {
      return None;
    }
    var headerCrc := r.U32();
    if headerCrc.None? {
      return None;
    }
    return Some(Header(version.value, size.value, length.value, payloadCrc.value, headerCrc.value));
  }

  /** Twenty-four bytes always hold the header fields, and what follows them does not matter. */
  lemma HeaderReads(fields: Text, payload: Text)
    requires |fields| == 24
    ensures GetHeader(fields).Some? && GetHeader(fields).value.1 == []
    ensures GetHeader(fields + payload) == Some((GetHeader(fields).value.0, payload))
  {
    hide GetU32, PutU32, GetU64, PutU64;
    U32Law();
    U64Law();
    var (h, none) := GetHeader(fields).value;
    assert none == [];
    U32Appends(h.headerCrc, payload);
    U32Prepends(h.payloadCrc, PutU32(h.headerCrc, []), payload);
    U64Appends(h.length, PutU32(h.payloadCrc, PutU32(h.headerCrc, [])), payload);
    U32Prepends(h.size, PutU64(h.length, PutU32(h.payloadCrc, PutU32(h.headerCrc, []))), payload);
    U32Prepends(h.version, PutU32(h.size, PutU64(h.length, PutU32(h.payloadCrc, PutU32(h.headerCrc, [])))), payload);
  }

  method DecodePersistedState(bytes: Text) returns (r: Decoded<PersistedState>)
    ensures r == Decode(bytes)
  {
    hide GetHeader, DecodePayload, Crc32.Value;
    if |bytes| < HEADER_SIZE {
      return Refused(PersistenceCorruption);
    }
    if bytes[..8] != Magic() {
      return Refused(PersistenceCorruption);
    }
    var h := ReadHeader(bytes);
    if h.None? || h.value.size != HEADER_SIZE {
      return Refused(PersistenceCorruption);
    }
    var headerCrc := ChecksumOf(bytes[..28]);
    if headerCrc != h.value.headerCrc {
      return Refused(PersistenceCorruption);
    }
    if h.value.version != FORMAT_VERSION {
      return Refused(PersistenceVersionUnsupported);
    }
    if h.value.length > MAX_PERSISTENCE_BYTES {
      return Refused(PersistenceBoundsExceeded);
    }
    if h.value.length != |bytes| - HEADER_SIZE {
      return Refused(PersistenceCorruption);
    }
    var payloadCrc := ChecksumOf(bytes[HEADER_SIZE..]);
    if payloadCrc != h.value.payloadCrc {
      return Refused(PersistenceCorruption);
    }
    r := DecodePayloadBytes(bytes[HEADER_SIZE..]);
  }
}
