/** The durable container: a checksummed header and a canonical payload. */
module Container {
  import opened Basics
  import opened Records
  import opened Codec
  import opened Wire
  import Crc32
  import Utf8

  const HEADER_SIZE := 32
  const FORMAT_VERSION := 1
  const PAYLOAD_LIMIT := 268435456

  function Magic(): (m: Text)
    ensures |m| == 8
  {
    ['P', 'O', 'R', 'T', 'F', 'A', 'B', 'C']
  }

  /** A decoded value and what follows it, or the code it is refused with. */
  datatype Decoded<T> = Accepted(value: T, rest: Text) | Refused(code: OutcomeCode)

  // -------------------------------------------------------------------------
  // Tables without duplicates
  // -------------------------------------------------------------------------

  predicate SamePort(a: PortRecord, b: PortRecord) { a.port == b.port }

  predicate SameProfile(a: PortProfile, b: PortProfile) { a.id == b.id && a.generation == b.generation }

  predicate SameDevice(a: DeviceBinding, b: DeviceBinding) { a.device == b.device }

  predicate SamePublisher(a: PublisherRecord, b: PublisherRecord) { a.publisher == b.publisher && a.boot == b.boot }

  predicate Distinct<T>(items: seq<T>, same: (T, T) -> bool) {
    forall i, j :: 0 <= i < j < |items| ==> !same(items[i], items[j])
  }

  /** The scan for an entry that is already there. */
  predicate Repeats<T>(taken: seq<T>, same: (T, T) -> bool, item: T) {
    exists i :: 0 <= i < |taken| && same(taken[i], item)
  }

  /** Reads `n` entries after those already taken; the first malformed or repeated one decides. */
  function Take<T>(n: nat, get: Text -> Parsed<T>, same: (T, T) -> bool, taken: seq<T>, s: Text): Decoded<seq<T>> {
    if n == 0 then Accepted(taken, s)
    else
      match get(s)
      case None => Refused(PersistenceCorruption)
      case Some((item, rest)) =>
        if Repeats(taken, same, item) then Refused(DuplicateRecord)
        else Take(n - 1, get, same, taken + [item], rest)
  }

  function GetTable<T>(limit: nat, get: Text -> Parsed<T>, same: (T, T) -> bool, s: Text): Decoded<seq<T>> {
    match GetCount(limit, s)
    case None => Refused(PersistenceBoundsExceeded)
    case Some((count, rest)) => Take(count, get, same, [], rest)
  }

  lemma {:induction false} TakeThere<T(!new)>(items: seq<T>, put: (T, Text) -> Text, get: Text -> Parsed<T>, legal: T -> bool,
                                              same: (T, T) -> bool, taken: seq<T>, rest: Text)
    requires Inverse(put, get, legal) && AllLegal(items, legal) && Distinct(taken + items, same)
    ensures Take(|items|, get, same, taken, PutEach(items, put, rest)) == Accepted(taken + items, rest)
    decreases |items|
  {
    if items == [] {
      assert taken + items == taken;
    } else {
      var more := taken + [items[0]];
      assert more + items[1..] == taken + items;
      assert (taken + items)[|taken|] == items[0];
      assert forall i :: 0 <= i < |taken| ==> (taken + items)[i] == taken[i];
      TakeThere(items[1..], put, get, legal, same, more, rest);
    }
  }

  /** The first entry that does not read back decides, wherever it stands. */
  lemma {:induction false} TakeStops<T(!new)>(items: seq<T>, put: (T, Text) -> Text, get: Text -> Parsed<T>, legal: T -> bool,
                                              same: (T, T) -> bool, taken: seq<T>, k: nat, rest: Text)
    requires Inverse(put, get, legal) && Distinct(taken + items, same) && k < |items|
    requires AllLegal(items[..k], legal) && forall more :: get(put(items[k], more)).None?
    ensures Take(|items|, get, same, taken, PutEach(items, put, rest)) == Refused(PersistenceCorruption)
    decreases |items|
  {
    if k > 0 {
      var more := taken + [items[0]];
      assert items[..k][0] == items[0] && items[..k][1..] == items[1..][..k - 1];
      assert more + items[1..] == taken + items;
      assert (taken + items)[|taken|] == items[0];
      assert forall i :: 0 <= i < |taken| ==> (taken + items)[i] == taken[i];
      TakeStops(items[1..], put, get, legal, same, more, k - 1, rest);
    }
  }

  lemma {:induction false} TakeBack<T(!new)>(n: nat, put: (T, Text) -> Text, get: Text -> Parsed<T>, legal: T -> bool,
                                             same: (T, T) -> bool, taken: seq<T>, s: Text)
    requires Inverse(put, get, legal) && Take(n, get, same, taken, s).Accepted? && Distinct(taken, same)
    ensures var r := Take(n, get, same, taken, s);
            && |r.value| == |taken| + n && r.value[..|taken|] == taken
            && AllLegal(r.value[|taken|..], legal) && Distinct(r.value, same)
            && s == PutEach(r.value[|taken|..], put, r.rest)
  {
    if n > 0 {
      var (item, rest) := get(s).value;
      TakeBack(n - 1, put, get, legal, same, taken + [item], rest);
      var all := Take(n, get, same, taken, s).value;
      assert all[..|taken|] == all[..|taken| + 1][..|taken|];
      assert all[|taken|] == all[..|taken| + 1][|taken|];
      assert all[|taken|..][1..] == all[|taken| + 1..];
      assert all[|taken|..] == [item] + all[|taken| + 1..];
    }
  }

  /** A table reads back what was written exactly when its entries are legal and distinct, and
      any table accepted is the encoding of what was read. */
  lemma TableLaw<T(!new)>(limit: u32, put: (T, Text) -> Text, get: Text -> Parsed<T>, legal: T -> bool, same: (T, T) -> bool)
    requires Inverse(put, get, legal)
    ensures forall items, rest :: AllLegal(items, legal) && Distinct(items, same) && |items| <= limit ==>
              GetTable(limit, get, same, PutList(items, put, rest)) == Accepted(items, rest)
    ensures forall s :: GetTable(limit, get, same, s).Accepted? ==>
              var r := GetTable(limit, get, same, s);
              && AllLegal(r.value, legal) && Distinct(r.value, same) && |r.value| <= limit
              && s == PutList(r.value, put, r.rest)
  {
    hide Inverse, AllLegal, GetU32, PutU32, PutEach, Take, Distinct;
    U32Law();
    forall items, rest | AllLegal(items, legal) && Distinct(items, same) && |items| <= limit
      ensures GetTable(limit, get, same, PutList(items, put, rest)) == Accepted(items, rest)
    {
      EachLaw(items, put, get, legal, rest);
      assert [] + items == items;
      TakeThere(items, put, get, legal, same, [], rest);
    }
    forall s | GetTable(limit, get, same, s).Accepted?
      ensures var r := GetTable(limit, get, same, s);
              && AllLegal(r.value, legal) && Distinct(r.value, same) && |r.value| <= limit
              && s == PutList(r.value, put, r.rest)
    {
      var (count, rest) := GetCount(limit, s).value;
      NothingIsDistinct(same);
      TakeBack(count, put, get, legal, same, [], rest);
      var r := GetTable(limit, get, same, s);
      assert r.value[0..] == r.value;
    }
  }

  lemma NothingIsDistinct<T(!new)>(same: (T, T) -> bool)
    ensures Distinct([], same)
  {
  }

  lemma TablesInvert()
    ensures Inverse(PutRecord, GetRecord, LegalRecord)
    ensures Inverse(PutProfile, GetProfile, LegalProfile)
    ensures Inverse(PutDevice, GetDevice, LegalDevice)
    ensures Inverse(PutPublisher, GetPublisher, LegalPublisher)
  {
    hide PutRecord, GetRecord, LegalRecord, PutProfile, GetProfile, LegalProfile, PutDevice, GetDevice, LegalDevice;
    hide PutPublisher, GetPublisher, LegalPublisher;
    RecordLaw();
    ProfileLaw();
    TableLaws();
  }

  // -------------------------------------------------------------------------
  // The payload
  // -------------------------------------------------------------------------

  function PutTables(s: PersistedState, rest: Text): Text {
    PutList(s.records, PutRecord, PutList(s.profiles, PutProfile, PutList(s.devices, PutDevice,
    PutList(s.publishers, PutPublisher, rest))))
  }

  function Payload(s: PersistedState): Text {
    PutId(s.fabric, PutId(s.site, PutU64(s.epoch, PutU64(s.engineGeneration, PutU64(s.topology, PutTables(s, []))))))
  }

  datatype Tables = Tables(
    records: seq<PortRecord>, profiles: seq<PortProfile>, devices: seq<DeviceBinding>, publishers: seq<PublisherRecord>)

  function GetTables(s: Text): Decoded<Tables> {
    match GetTable(MAX_PERSISTED_RECORDS, GetRecord, SamePort, s)
    case Refused(code) => Refused(code)
    case Accepted(records, s1) =>
      match GetTable(MAX_PROFILES, GetProfile, SameProfile, s1)
      case Refused(code) => Refused(code)
      case Accepted(profiles, s2) =>
        match GetTable(MAX_DEVICES, GetDevice, SameDevice, s2)
        case Refused(code) => Refused(code)
        case Accepted(devices, s3) =>
          match GetTable(MAX_PUBLISHERS, GetPublisher, SamePublisher, s3)
          case Refused(code) => Refused(code)
          case Accepted(publishers, s4) => Accepted(Tables(records, profiles, devices, publishers), s4)
  }

  datatype Preamble = Preamble(fabric: Id, site: Id, epoch: Generation, engineGeneration: Generation, topology: Generation)

  function GetPreamble(s: Text): Parsed<Preamble> {
    hide GetId, PutId, GetU64, PutU64, ValidIdentifier;
    var (fabric, s) :- GetId(s);
    var (site, s) :- GetId(s);
    var (epoch, s) :- GetU64(s);
    var (engineGeneration, s) :- GetU64(s);
    var (topology, s) :- GetU64(s);
    Some((Preamble(fabric, site, epoch, engineGeneration, topology), s))
  }

  function DecodePayload(payload: Text): Decoded<PersistedState> {
    match GetPreamble(payload)
    case None => Refused(PersistenceCorruption)
    case Some((p, s)) =>
      match GetTables(s)
      case Refused(code) => Refused(code)
      case Accepted(t, rest) =>
        if rest != [] then Refused(PersistenceCorruption)
        else
          Accepted(PersistedState(p.fabric, p.site, p.epoch, p.engineGeneration, p.topology,
                                  t.records, t.profiles, t.devices, t.publishers), rest)
  }

  /** States decoding gives back: unique keys, and entries the codec carries faithfully. */
  ghost predicate WellFormed(s: PersistedState) {
    && AllLegal(s.records, LegalRecord) && Distinct(s.records, SamePort) && |s.records| <= MAX_PERSISTED_RECORDS
    && AllLegal(s.profiles, LegalProfile) && Distinct(s.profiles, SameProfile) && |s.profiles| <= MAX_PROFILES
    && AllLegal(s.devices, LegalDevice) && Distinct(s.devices, SameDevice) && |s.devices| <= MAX_DEVICES
    && AllLegal(s.publishers, LegalPublisher) && Distinct(s.publishers, SamePublisher) && |s.publishers| <= MAX_PUBLISHERS
  }

  ghost predicate WellFormedTables(t: Tables) {
    && AllLegal(t.records, LegalRecord) && Distinct(t.records, SamePort) && |t.records| <= MAX_PERSISTED_RECORDS
    && AllLegal(t.profiles, LegalProfile) && Distinct(t.profiles, SameProfile) && |t.profiles| <= MAX_PROFILES
    && AllLegal(t.devices, LegalDevice) && Distinct(t.devices, SameDevice) && |t.devices| <= MAX_DEVICES
    && AllLegal(t.publishers, LegalPublisher) && Distinct(t.publishers, SamePublisher) && |t.publishers| <= MAX_PUBLISHERS
  }

  function TablesOf(s: PersistedState): Tables { Tables(s.records, s.profiles, s.devices, s.publishers) }

  lemma TablesThere(s: PersistedState)
    requires WellFormedTables(TablesOf(s))
    ensures GetTables(PutTables(s, [])) == Accepted(TablesOf(s), [])
  {
    hide PutRecord, GetRecord, LegalRecord, PutProfile, GetProfile, LegalProfile, PutDevice, GetDevice, LegalDevice;
    hide PutPublisher, GetPublisher, LegalPublisher, PutList, GetTable, Inverse, AllLegal, Distinct;
    TablesInvert();
    TableLaw(MAX_PERSISTED_RECORDS, PutRecord, GetRecord, LegalRecord, SamePort);
    TableLaw(MAX_PROFILES, PutProfile, GetProfile, LegalProfile, SameProfile);
    TableLaw(MAX_DEVICES, PutDevice, GetDevice, LegalDevice, SameDevice);
    TableLaw(MAX_PUBLISHERS, PutPublisher, GetPublisher, LegalPublisher, SamePublisher);
  }

  lemma TablesBack(bytes: Text, s: PersistedState)
    requires GetTables(bytes).Accepted? && TablesOf(s) == GetTables(bytes).value
    ensures WellFormedTables(TablesOf(s)) && (GetTables(bytes).rest == [] ==> bytes == PutTables(s, []))
  {
    hide PutRecord, GetRecord, LegalRecord, PutProfile, GetProfile, LegalProfile, PutDevice, GetDevice, LegalDevice;
    hide PutPublisher, GetPublisher, LegalPublisher, PutList, GetTable, Inverse, AllLegal, Distinct;
    TablesInvert();
    TableLaw(MAX_PERSISTED_RECORDS, PutRecord, GetRecord, LegalRecord, SamePort);
    TableLaw(MAX_PROFILES, PutProfile, GetProfile, LegalProfile, SameProfile);
    TableLaw(MAX_DEVICES, PutDevice, GetDevice, LegalDevice, SameDevice);
    TableLaw(MAX_PUBLISHERS, PutPublisher, GetPublisher, LegalPublisher, SamePublisher);
  }

  lemma PayloadThere(s: PersistedState)
    requires WellFormed(s)
    ensures DecodePayload(Payload(s)) == Accepted(s, [])
  {
    hide GetId, PutId, GetU64, PutU64, ValidIdentifier, GetTables, PutTables, AllLegal, Distinct;
    IdLaw();
    U64Law();
    TablesThere(s);
  }

  lemma PayloadBack(bytes: Text)
    requires DecodePayload(bytes).Accepted?
    ensures WellFormed(DecodePayload(bytes).value) && bytes == Payload(DecodePayload(bytes).value)
  {
    hide GetId, PutId, GetU64, PutU64, ValidIdentifier, GetTables, PutTables, AllLegal, Distinct;
    IdLaw();
    U64Law();
    TablesBack(GetPreamble(bytes).value.1, DecodePayload(bytes).value);
  }

  // -------------------------------------------------------------------------
  // Encoding
  // -------------------------------------------------------------------------

  /** The texts of a record that the writer bounds. */
  predicate RecordFits(r: PortRecord) {
    && (r.configuration.Some? ==>
          |r.configuration.value.role| <= MAX_NAME_LENGTH && LegalProvenance(r.configuration.value.provenance))
    && |r.capability.source| <= MAX_NAME_LENGTH && |r.capability.capabilities.transceiverClass| <= MAX_NAME_LENGTH
    && LegalApplied(r.applied) && LegalProvenance(r.provenance)
    && |r.statusReason| <= MAX_NAME_LENGTH && |r.statusDetail| <= MAX_DESCRIPTION_LENGTH
  }

  predicate ProfileFits(p: PortProfile) {
    && |p.name| <= MAX_NAME_LENGTH && |p.description| <= MAX_DESCRIPTION_LENGTH
    && |p.configuration.role| <= MAX_NAME_LENGTH && LegalProvenance(p.provenance)
  }

  predicate DeviceFits(d: DeviceBinding) { |d.source| <= MAX_NAME_LENGTH }

  predicate StateFits(s: PersistedState) {
    && (forall i :: 0 <= i < |s.records| ==> RecordFits(s.records[i]))
    && (forall i :: 0 <= i < |s.profiles| ==> ProfileFits(s.profiles[i]))
    && (forall i :: 0 <= i < |s.devices| ==> DeviceFits(s.devices[i]))
  }

  predicate RecordsValid(records: seq<PortRecord>) { forall i :: 0 <= i < |records| ==> records[i].Valid() }

  predicate ProfilesValid(profiles: seq<PortProfile>) { forall i :: 0 <= i < |profiles| ==> profiles[i].Valid() }

  datatype Encoding = Encoded(bytes: Text) | Failed(code: OutcomeCode)

  /** The first twenty-eight bytes of the header: everything its own checksum covers. */
  function Prologue(payload: Text): (h: Text)
    requires |payload| <= MAX_PERSISTENCE_BYTES
    ensures |h| == 28
  {
    Magic() + PutU32(FORMAT_VERSION, PutU32(HEADER_SIZE, PutU64(|payload|, PutU32(Crc32.Value(payload), []))))
  }

  function Framed(payload: Text): Text
    requires |payload| <= MAX_PERSISTENCE_BYTES
  {
    Prologue(payload) + PutU32(Crc32.Value(Prologue(payload)), payload)
  }

  /** The first table bound or entry that is refused before the size is known. */
  function Refusal(s: PersistedState): OutcomeCode {
    if |s.records| > MAX_PERSISTED_RECORDS then PersistenceBoundsExceeded
    else if !RecordsValid(s.records) then InvalidConfiguration
    else if |s.profiles| > MAX_PROFILES then PersistenceBoundsExceeded
    else if !ProfilesValid(s.profiles) then InvalidProfile
    else if |s.devices| > MAX_DEVICES then PersistenceBoundsExceeded
    else if |s.publishers| > MAX_PUBLISHERS then PersistenceBoundsExceeded
    else Ok
  }

  function Encode(s: PersistedState): Encoding {
    if Refusal(s) != Ok then Failed(Refusal(s))
    else if !StateFits(s) || |Payload(s)| > PAYLOAD_LIMIT then Failed(PersistenceBoundsExceeded)
    else Encoded(Framed(Payload(s)))
  }

  // -------------------------------------------------------------------------
  // Decoding
  // -------------------------------------------------------------------------

  datatype Header = Header(version: u32, size: u32, length: u64, payloadCrc: u32, headerCrc: u32)

  /** The fields after the magic, and the payload after them. */
  function GetHeader(s: Text): Parsed<Header> {
    hide GetU32, PutU32, GetU64, PutU64;
    var (version, s) :- GetU32(s);
    var (size, s) :- GetU32(s);
    var (length, s) :- GetU64(s);
    var (payloadCrc, s) :- GetU32(s);
    var (headerCrc, s) :- GetU32(s);
    Some((Header(version, size, length, payloadCrc, headerCrc), s))
  }

  function Decode(bytes: Text): Decoded<PersistedState> {
    if |bytes| < HEADER_SIZE then Refused(PersistenceCorruption)
    else if bytes[..8] != Magic() then Refused(PersistenceCorruption)
    else
      match GetHeader(bytes[8..])
      case None => Refused(PersistenceCorruption)
      case Some((h, payload)) =>
        if h.size != HEADER_SIZE then Refused(PersistenceCorruption)
        else if Crc32.Value(bytes[..28]) != h.headerCrc then Refused(PersistenceCorruption)
        else if h.version != FORMAT_VERSION then Refused(PersistenceVersionUnsupported)
        else if h.length > MAX_PERSISTENCE_BYTES then Refused(PersistenceBoundsExceeded)
        else if h.length != |bytes| - HEADER_SIZE then Refused(PersistenceCorruption)
        else if Crc32.Value(payload) != h.payloadCrc then Refused(PersistenceCorruption)
        else DecodePayload(payload)
  }

  lemma FrameOpens(payload: Text)
    requires |payload| <= MAX_PERSISTENCE_BYTES
    ensures Decode(Framed(payload)) == DecodePayload(payload)
  {
    hide GetU32, PutU32, GetU64, PutU64, Crc32.Value, DecodePayload;
    U32Law();
    U64Law();
    var crc, headerCrc := Crc32.Value(payload), Crc32.Value(Prologue(payload));
    var bytes := Framed(payload);
    assert bytes[..8] == Magic();
    assert bytes[..28] == Prologue(payload);
    PrologueThen(payload, headerCrc);
    assert bytes[8..] == PutU32(FORMAT_VERSION, PutU32(HEADER_SIZE, PutU64(|payload|, PutU32(crc, PutU32(headerCrc, payload)))));
  }

  /** The header fields run on into what follows them. */
  lemma PrologueThen(payload: Text, headerCrc: u32)
    requires |payload| <= MAX_PERSISTENCE_BYTES
    ensures Prologue(payload)[8..] + PutU32(headerCrc, payload)
            == PutU32(FORMAT_VERSION, PutU32(HEADER_SIZE, PutU64(|payload|, PutU32(Crc32.Value(payload), PutU32(headerCrc, payload)))))
  {
    hide GetU32, PutU32, GetU64, PutU64, Crc32.Value;
    var crc, rest := Crc32.Value(payload), PutU32(headerCrc, payload);
    var fields := PutU32(FORMAT_VERSION, PutU32(HEADER_SIZE, PutU64(|payload|, PutU32(crc, []))));
    assert Prologue(payload)[8..] == fields;
    U32Appends(crc, rest);
    U64Appends(|payload|, PutU32(crc, []), rest);
    U32Prepends(HEADER_SIZE, PutU64(|payload|, PutU32(crc, [])), rest);
    U32Prepends(FORMAT_VERSION, PutU32(HEADER_SIZE, PutU64(|payload|, PutU32(crc, []))), rest);
  }

  lemma FrameCloses(bytes: Text)
    requires Decode(bytes).Accepted?
    ensures |bytes| >= HEADER_SIZE && |bytes| - HEADER_SIZE <= MAX_PERSISTENCE_BYTES
    ensures bytes == Framed(bytes[HEADER_SIZE..]) && Decode(bytes) == DecodePayload(bytes[HEADER_SIZE..])
  {
    hide GetU32, PutU32, GetU64, PutU64, Crc32.Value, DecodePayload;
    var (h, payload) := GetHeader(bytes[8..]).value;
    var fields := PutU32(h.version, PutU32(h.size, PutU64(h.length, PutU32(h.payloadCrc, PutU32(h.headerCrc, payload)))));
    assert bytes[8..] == fields;
    assert bytes == Magic() + fields;
    assert payload == bytes[HEADER_SIZE..] by {
      HeaderLength(h, payload);
      assert bytes[8..][24..] == bytes[32..];
    }
    PrologueThen(payload, h.headerCrc);
    assert bytes == Prologue(payload) + PutU32(h.headerCrc, payload);
    assert bytes[..28] == Prologue(payload);
  }

  lemma HeaderLength(h: Header, payload: Text)
    ensures PutU32(h.version, PutU32(h.size, PutU64(h.length, PutU32(h.payloadCrc, PutU32(h.headerCrc, payload)))))[24..] == payload
  {
    hide GetU32, PutU32, GetU64, PutU64, LowWord, HighWord;
    U32Skips(h.version, PutU32(h.size, PutU64(h.length, PutU32(h.payloadCrc, PutU32(h.headerCrc, payload)))));
    U32Skips(h.size, PutU64(h.length, PutU32(h.payloadCrc, PutU32(h.headerCrc, payload))));
    U64Skips(h.length, PutU32(h.payloadCrc, PutU32(h.headerCrc, payload)));
    U32Skips(h.payloadCrc, PutU32(h.headerCrc, payload));
    U32Skips(h.headerCrc, payload);
  }

  // -------------------------------------------------------------------------
  // Round trips
  // -------------------------------------------------------------------------

  /** A state that encodes decodes to itself exactly when its keys are unique, its capability
      evidence, devices and publishers are legal, and no profile carries an MTU it does not
      specify. */
  lemma EncodeThenDecode(s: PersistedState)
    requires Encode(s).Encoded?
    ensures Decode(Encode(s).bytes) == Accepted(s, []) <==> WellFormed(s)
  {
    hide Payload, DecodePayload, WellFormed, Framed, Decode, RecordsValid, ProfilesValid, StateFits;
    FrameOpens(Payload(s));
    if WellFormed(s) {
      PayloadThere(s);
    }
    if Decode(Encode(s).bytes) == Accepted(s, []) {
      PayloadBack(Payload(s));
    }
  }

  /** A profile table with an MTU that is not specified is refused, whatever stands around it. */
  lemma HiddenMtuStopsTable(profiles: seq<PortProfile>, k: nat, rest: Text)
    requires k < |profiles| <= MAX_PROFILES && Distinct(profiles, SameProfile) && ProfilesValid(profiles)
    requires AllLegal(profiles[..k], LegalProfile) && HidesMtu(profiles[k].configuration)
    ensures GetTable(MAX_PROFILES, GetProfile, SameProfile, PutList(profiles, PutProfile, rest)) == Refused(PersistenceCorruption)
  {
    hide PutProfile, GetProfile, LegalProfile, Inverse, AllLegal, Distinct, Take, PutEach, GetU32, PutU32, PortProfile.Valid;
    ProfileLaw();
    U32Law();
    ProfilesInvert();
    forall more ensures GetProfile(PutProfile(profiles[k], more)).None? {
      HiddenMtuIsRefused(profiles[k], more);
    }
    assert [] + profiles == profiles;
    EntriesTakeRoom(profiles, rest);
    TakeStops(profiles, PutProfile, GetProfile, LegalProfile, SameProfile, [], k, rest);
  }

  lemma {:induction false} EntriesTakeRoom(profiles: seq<PortProfile>, rest: Text)
    ensures |PutEach(profiles, PutProfile, rest)| >= |rest| + |profiles|
    decreases |profiles|
  {
    hide PutProfile;
    if profiles != [] {
      EntriesTakeRoom(profiles[1..], rest);
    }
  }

  lemma ProfilesInvert()
    ensures Inverse(PutProfile, GetProfile, LegalProfile)
  {
    hide PutProfile, GetProfile, LegalProfile;
    ProfileLaw();
  }

  /** And with it the whole container is. */
  lemma HiddenMtuStopsDecoding(s: PersistedState, k: nat)
    requires Encode(s).Encoded? && AllLegal(s.records, LegalRecord) && Distinct(s.records, SamePort)
    requires k < |s.profiles| && Distinct(s.profiles, SameProfile)
    requires AllLegal(s.profiles[..k], LegalProfile) && HidesMtu(s.profiles[k].configuration)
    ensures Decode(Encode(s).bytes) == Refused(PersistenceCorruption)
  {
    hide Framed, Decode, RecordsValid, ProfilesValid, StateFits, GetTable, PutList, GetId, PutId, GetU64, PutU64;
    hide ValidIdentifier, AllLegal, Distinct, LegalRecord, LegalProfile, HidesMtu, PutRecord, GetRecord, PutProfile, GetProfile;
    hide PutDevice, GetDevice, PutPublisher, GetPublisher, Inverse;
    FrameOpens(Payload(s));
    IdLaw();
    U64Law();
    TablesInvert();
    TableLaw(MAX_PERSISTED_RECORDS, PutRecord, GetRecord, LegalRecord, SamePort);
    HiddenMtuStopsTable(s.profiles, k, PutList(s.devices, PutDevice, PutList(s.publishers, PutPublisher, [])));
  }

  /** Decoding admits one encoding per state: what it accepts encodes again, byte for byte,
      exactly when it is no larger than the writer allows. */
  lemma DecodeThenEncode(bytes: Text)
    requires Decode(bytes).Accepted?
    ensures Encode(Decode(bytes).value) == Encoded(bytes) <==> |bytes| <= HEADER_SIZE + PAYLOAD_LIMIT
    ensures WellFormed(Decode(bytes).value)
  {
    hide Payload, DecodePayload, WellFormed, Framed, Decode, RecordsValid, ProfilesValid, StateFits;
    FrameCloses(bytes);
    PayloadBack(bytes[HEADER_SIZE..]);
    WellFormedEncodes(Decode(bytes).value);
  }

  lemma WellFormedEncodes(s: PersistedState)
    requires WellFormed(s)
    ensures RecordsValid(s.records) && ProfilesValid(s.profiles) && StateFits(s)
    ensures |s.records| <= MAX_PERSISTED_RECORDS && |s.profiles| <= MAX_PROFILES
    ensures |s.devices| <= MAX_DEVICES && |s.publishers| <= MAX_PUBLISHERS
  {
    hide Distinct, PortRecord.Valid, PortProfile.Valid, PortCapabilities.Valid;
    forall i | 0 <= i < |s.records| ensures s.records[i].Valid() && RecordFits(s.records[i]) {
      assert LegalRecord(s.records[i]);
      LegalRecordFits(s.records[i]);
    }
    forall i | 0 <= i < |s.profiles| ensures s.profiles[i].Valid() && ProfileFits(s.profiles[i]) {
      assert LegalProfile(s.profiles[i]);
      LegalProfileFits(s.profiles[i]);
    }
    forall i | 0 <= i < |s.devices| ensures DeviceFits(s.devices[i]) {
      assert LegalDevice(s.devices[i]);
    }
  }

  lemma LegalRecordFits(r: PortRecord)
    requires LegalRecord(r)
    ensures RecordFits(r)
  {
    hide PortConfiguration.Valid, ValidIdentifier, Utf8.WellFormed, CapabilityBinding.Valid;
  }

  lemma LegalProfileFits(p: PortProfile)
    requires LegalProfile(p)
    ensures ProfileFits(p)
  {
    hide ValidIdentifier, Utf8.WellFormed;
  }
}
