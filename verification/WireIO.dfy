/** The writers and readers of the wire format, each against its encoding function. */
module WireIO {
  import opened Basics
  import opened Rates
  import opened Characteristics
  import opened Records
  import opened Codec
  import opened Codes
  import opened Wire
  import opened Container
  import Utf8

  predicate BindingFits(b: CapabilityBinding) {
    |b.source| <= MAX_NAME_LENGTH && LimitsOf(b.capabilities).Bounded()
  }

  // -------------------------------------------------------------------------
  // Enumerations and provenance
  // -------------------------------------------------------------------------

  method WriteEnum<E(!new)>(w: ByteWriter, code: E -> u8, e: E)
    requires w.Valid()
    modifies w
    ensures w.Valid() && w.fits == old(w.fits)
    ensures forall rest :: w.full + rest == old(w.full) + PutEnum(code, e, rest)
  {
    hide PutU8;
    w.U8(code(e));
  }

  method ReadEnum<E(==, !new)>(r: ByteReader, of: u8 -> Option<E>) returns (v: Option<E>)
    requires r.Valid() && r.ok
    modifies r
    ensures r.Valid() && (v.Some? ==> r.ok)
    ensures Took(v, r.Rest(), GetEnum(of, old(r.Rest())))
  {
    hide GetU8, PutU8;
    var raw := r.U8();
    if raw.None? {
      return None;
    }
    return of(raw.value);
  }

  method WriteProvenance(w: ByteWriter, p: Provenance)
    requires w.Valid()
    modifies w
    ensures w.Valid() && w.fits == (old(w.fits) && LegalProvenance(p))
    ensures LegalProvenance(p) ==> forall rest :: w.full + rest == old(w.full) + PutProvenance(p, rest)
  {
    hide PutEnum, PutText, PutId, PutU64, ValidIdentifier;
    WriteEnum(w, ProvenanceKindCode, p.kind);
    w.TextField(p.source, MAX_NAME_LENGTH);
    w.Identifier(p.publisher);
    w.Identifier(p.boot);
    w.U64(p.epoch);
    w.Identifier(p.attempt);
  }

  method ReadProvenance(r: ByteReader) returns (v: Option<Provenance>)
    requires r.Valid() && r.ok
    modifies r
    ensures r.Valid() && (v.Some? ==> r.ok)
    ensures Took(v, r.Rest(), GetProvenance(old(r.Rest())))
  {
    hide GetEnum, PutEnum, GetText, PutText, GetId, PutId, GetU64, PutU64, ValidIdentifier, ByteReader.Rest;
    var kind := ReadEnum(r, ProvenanceKindOf);
    if kind.None? {
      return None;
    }
    var source := r.TextField(MAX_NAME_LENGTH);
    if source.None? {
      return None;
    }
    var publisher := r.Identifier();
    if publisher.None? {
      return None;
    }
    var boot := r.Identifier();
    if boot.None? {
      return None;
    }
    var epoch := r.U64();
    if epoch.None? {
      return None;
    }
    var attempt := r.Identifier();
    if attempt.None? {
      return None;
    }
    return Some(Provenance(kind.value, source.value, publisher.value, boot.value, epoch.value, attempt.value));
  }

  // -------------------------------------------------------------------------
  // Rates, MTU, lanes
  // -------------------------------------------------------------------------

  method WriteRate(w: ByteWriter, v: PortSpeed)
    requires w.Valid()
    modifies w
    ensures w.Valid() && w.fits == old(w.fits)
    ensures forall rest :: w.full + rest == old(w.full) + PutRate(v, rest)
  {
    hide PutU64;
    w.U64(v);
  }

  method ReadRate(r: ByteReader) returns (v: Option<PortSpeed>)
    requires r.Valid() && r.ok
    modifies r
    ensures r.Valid() && (v.Some? ==> r.ok)
    ensures Took(v, r.Rest(), GetRate(old(r.Rest())))
  {
    hide GetU64, PutU64, ByteReader.Rest;
    var bits := r.U64();
    if bits.None? {
      return None;
    }
    if bits.value == 0 {
      return Some(0);
    }
    return FromBits(bits.value);
  }

  method ReadSpeed(r: ByteReader) returns (v: Option<PortSpeed>)
    requires r.Valid() && r.ok
    modifies r
    ensures r.Valid() && (v.Some? ==> r.ok)
    ensures Took(v, r.Rest(), GetSpeed(old(r.Rest())))
  {
    hide GetU64, PutU64, ByteReader.Rest;
    var bits := r.U64();
    if bits.None? {
      return None;
    }
    return FromBits(bits.value);
  }

  method WriteLanes(w: ByteWriter, v: Lanes)
    requires w.Valid()
    modifies w
    ensures w.Valid() && w.fits == old(w.fits)
    ensures forall rest :: w.full + rest == old(w.full) + PutLanes(v, rest)
  {
    hide PutU32, PutRate;
    w.U32(v.lanes);
    WriteRate(w, v.perLane);
  }

  method ReadLanes(r: ByteReader) returns (v: Option<Lanes>)
    requires r.Valid() && r.ok
    modifies r
    ensures r.Valid() && (v.Some? ==> r.ok)
    ensures Took(v, r.Rest(), GetLanes(old(r.Rest())))
  {
    hide GetU32, PutU32, GetSpeed, PutRate, ByteReader.Rest;
    var lanes := r.U32();
    if lanes.None? {
      return None;
    }
    var perLane := ReadSpeed(r);
    if perLane.None? {
      return None;
    }
    return CreateLanes(lanes.value, perLane.value);
  }

  method WriteMtu(w: ByteWriter, v: Mtu)
    requires w.Valid()
    modifies w
    ensures w.Valid() && w.fits == old(w.fits)
    ensures forall rest :: w.full + rest == old(w.full) + PutMtu(v, rest)
  {
    hide PutU32;
    w.U32(v);
  }

  method ReadMtu(r: ByteReader) returns (v: Option<Mtu>)
    requires r.Valid() && r.ok
    modifies r
    ensures r.Valid() && (v.Some? ==> r.ok)
    ensures Took(v, r.Rest(), GetMtu(old(r.Rest())))
  {
    hide GetU32, PutU32, ByteReader.Rest;
    var value := r.U32();
    if value.None? {
      return None;
    }
    return CreateMtu(value.value);
  }

  // -------------------------------------------------------------------------
  // Lists
  // -------------------------------------------------------------------------

  /** What a loop over a list has written so far. */
  ghost predicate Written<T(!new)>(before: Text, full: Text, items: seq<T>, done: nat, put: (T, Text) -> Text) {
    done <= |items| && forall rest :: full + PutEach(items[done..], put, rest) == before + PutEach(items, put, rest)
  }

  lemma WrittenNone<T(!new)>(full: Text, items: seq<T>, put: (T, Text) -> Text)
    ensures Written(full, full, items, 0, put)
  {
    assert items[0..] == items;
  }

  lemma WrittenOne<T(!new)>(before: Text, full: Text, next: Text, items: seq<T>, done: nat, put: (T, Text) -> Text)
    requires Written(before, full, items, done, put) && done < |items|
    requires forall rest :: next + rest == full + put(items[done], rest)
    ensures Written(before, next, items, done + 1, put)
  {
    assert items[done..][0] == items[done] && items[done..][1..] == items[done + 1..];
  }

  lemma WrittenAll<T(!new)>(before: Text, start: Text, full: Text, items: seq<T>, put: (T, Text) -> Text)
    requires Written(start, full, items, |items|, put)
    requires forall rest :: start + rest == before + PutU32(Narrow32(|items|), rest)
    ensures forall rest :: full + rest == before + PutList(items, put, rest)
  {
    hide PutU32;
    forall rest ensures full + rest == before + PutList(items, put, rest) {
      assert items[|items|..] == [];
      assert full + PutEach(items[|items|..], put, rest) == start + PutEach(items, put, rest);
    }
  }

  /** What a loop over a list has read so far, of `count` entries from `start`. */
  ghost predicate ReadSoFar<T(!new)>(start: Text, rest: Text, count: nat, items: seq<T>, get: Text -> Parsed<T>) {
    && |items| <= count
    && GetEach(count, get, start) ==
         match GetEach(count - |items|, get, rest)
         case None => None
         case Some((more, after)) => Some((items + more, after))
  }

  lemma ReadNone<T(!new)>(start: Text, count: nat, get: Text -> Parsed<T>)
    ensures ReadSoFar(start, start, count, [], get)
  {
    if GetEach(count, get, start).Some? {
      assert [] + GetEach(count, get, start).value.0 == GetEach(count, get, start).value.0;
    }
  }

  lemma ReadOne<T(!new)>(start: Text, rest: Text, count: nat, items: seq<T>, get: Text -> Parsed<T>)
    requires ReadSoFar(start, rest, count, items, get) && |items| < count
    ensures get(rest).None? ==> GetEach(count, get, start).None?
    ensures get(rest).Some? ==> ReadSoFar(start, get(rest).value.1, count, items + [get(rest).value.0], get)
  {
    if get(rest).Some? {
      var (item, after) := get(rest).value;
      if GetEach(count - |items| - 1, get, after).Some? {
        var (more, last) := GetEach(count - |items| - 1, get, after).value;
        assert items + ([item] + more) == items + [item] + more;
      }
    }
  }

  lemma ReadAll<T(!new)>(start: Text, rest: Text, count: nat, items: seq<T>, get: Text -> Parsed<T>)
    requires ReadSoFar(start, rest, count, items, get) && |items| == count
    ensures GetEach(count, get, start) == Some((items, rest))
  {
    assert items + [] == items;
  }

  method WriteEnums<E(!new)>(w: ByteWriter, code: E -> u8, items: seq<E>, ghost put: (E, Text) -> Text)
    requires w.Valid() && forall e, rest :: put(e, rest) == PutEnum(code, e, rest)
    modifies w
    ensures w.Valid() && w.fits == old(w.fits)
    ensures forall rest :: w.full + rest == old(w.full) + PutList(items, put, rest)
  {
    hide PutU32, PutList, PutEnum, Narrow32, Written, ByteWriter.Valid;
    w.U32(Narrow32(|items|));
    ghost var start := w.full;
    WrittenNone(start, items, put);
    for i := 0 to |items|
      invariant w.Valid() && w.fits == old(w.fits) && Written(start, w.full, items, i, put)
    {
      ghost var full := w.full;
      WriteEnum(w, code, items[i]);
      WrittenOne(start, full, w.full, items, i, put);
    }
    WrittenAll(old(w.full), start, w.full, items, put);
  }

  method ReadEnums<E(==, !new)>(r: ByteReader, limit: nat, of: u8 -> Option<E>, ghost get: Text -> Parsed<E>)
    returns (v: Option<seq<E>>)
    requires r.Valid() && r.ok && forall s :: get(s) == GetEnum(of, s)
    modifies r
    ensures r.Valid() && (v.Some? ==> r.ok)
    ensures Took(v, r.Rest(), GetList(limit, get, old(r.Rest())))
  {
    hide GetCount, GetEnum, ReadSoFar, ByteReader.Rest, GetEach;
    var count := r.Count(limit);
    if count.None? {
      return None;
    }
    ghost var start := r.Rest();
    var items := [];
    ReadNone(start, count.value, get);
    for i := 0 to count.value
      invariant r.Valid() && r.ok && |items| == i && ReadSoFar(start, r.Rest(), count.value, items, get)
    {
      ReadOne(start, r.Rest(), count.value, items, get);
      var item := ReadEnum(r, of);
      if item.None? {
        return None;
      }
      items := items + [item.value];
    }
    ReadAll(start, r.Rest(), count.value, items, get);
    return Some(items);
  }

  method WriteSpeeds(w: ByteWriter, items: seq<PortSpeed>)
    requires w.Valid()
    modifies w
    ensures w.Valid() && w.fits == old(w.fits)
    ensures forall rest :: w.full + rest == old(w.full) + PutList(items, PutRate, rest)
  {
    hide PutU32, PutU64, PutRate, PutList, Narrow32, Written, ByteWriter.Valid;
    w.U32(Narrow32(|items|));
    ghost var start := w.full;
    WrittenNone(start, items, PutRate);
    for i := 0 to |items|
      invariant w.Valid() && w.fits == old(w.fits) && Written(start, w.full, items, i, PutRate)
    {
      ghost var full := w.full;
      WriteRate(w, items[i]);
      WrittenOne(start, full, w.full, items, i, PutRate);
    }
    WrittenAll(old(w.full), start, w.full, items, PutRate);
  }

  method ReadSpeeds(r: ByteReader) returns (v: Option<seq<PortSpeed>>)
    requires r.Valid() && r.ok
    modifies r
    ensures r.Valid() && (v.Some? ==> r.ok)
    ensures Took(v, r.Rest(), GetList(MAX_CAPABILITY_ENTRIES, GetSpeed, old(r.Rest())))
  {
    hide GetCount, GetU32, GetU64, GetSpeed, ReadSoFar, ByteReader.Rest, GetEach;
    var count := r.Count(MAX_CAPABILITY_ENTRIES);
    if count.None? {
      return None;
    }
    ghost var start := r.Rest();
    var items := [];
    ReadNone(start, count.value, GetSpeed);
    for i := 0 to count.value
      invariant r.Valid() && r.ok && |items| == i && ReadSoFar(start, r.Rest(), count.value, items, GetSpeed)
    {
      ReadOne(start, r.Rest(), count.value, items, GetSpeed);
      var item := ReadSpeed(r);
      if item.None? {
        return None;
      }
      items := items + [item.value];
    }
    ReadAll(start, r.Rest(), count.value, items, GetSpeed);
    return Some(items);
  }

  method WriteLaneModes(w: ByteWriter, items: seq<u32>)
    requires w.Valid()
    modifies w
    ensures w.Valid() && w.fits == old(w.fits)
    ensures forall rest :: w.full + rest == old(w.full) + PutList(items, PutU32, rest)
  {
    hide PutU32, PutU64, PutRate, PutList, Narrow32, Written, ByteWriter.Valid;
    w.U32(Narrow32(|items|));
    ghost var start := w.full;
    WrittenNone(start, items, PutU32);
    for i := 0 to |items|
      invariant w.Valid() && w.fits == old(w.fits) && Written(start, w.full, items, i, PutU32)
    {
      ghost var full := w.full;
      w.U32(items[i]);
      WrittenOne(start, full, w.full, items, i, PutU32);
    }
    WrittenAll(old(w.full), start, w.full, items, PutU32);
  }

  method ReadLaneModes(r: ByteReader) returns (v: Option<seq<u32>>)
    requires r.Valid() && r.ok
    modifies r
    ensures r.Valid() && (v.Some? ==> r.ok)
    ensures Took(v, r.Rest(), GetList(MAX_MODE_ENTRIES, GetU32, old(r.Rest())))
  {
    hide GetCount, GetU32, GetU64, GetSpeed, ReadSoFar, ByteReader.Rest, GetEach;
    var count := r.Count(MAX_MODE_ENTRIES);
    if count.None? {
      return None;
    }
    ghost var start := r.Rest();
    var items := [];
    ReadNone(start, count.value, GetU32);
    for i := 0 to count.value
      invariant r.Valid() && r.ok && |items| == i && ReadSoFar(start, r.Rest(), count.value, items, GetU32)
    {
      ReadOne(start, r.Rest(), count.value, items, GetU32);
      var item := r.U32();
      if item.None? {
        return None;
      }
      items := items + [item.value];
    }
    ReadAll(start, r.Rest(), count.value, items, GetU32);
    return Some(items);
  }

  // -------------------------------------------------------------------------
  // Capabilities
  // -------------------------------------------------------------------------

  method WriteReach(w: ByteWriter, v: Reach)
    requires w.Valid()
    modifies w
    ensures w.Valid() && w.fits == old(w.fits)
    ensures forall rest :: w.full + rest == old(w.full) + PutReach(v, rest)
  {
    hide GetEnum, PutEnum, GetText, PutText, GetId, PutId, GetU64, PutU64, GetU32, PutU32, GetBool, PutBool;
    hide ValidIdentifier, ByteReader.Rest, PutList, GetList;
    WriteEnum(w, CapabilityCertaintyCode, v.certainty);
    WriteSpeeds(w, v.speeds);
    WriteLaneModes(w, v.laneModes);
    w.U32(v.maxLanes);
    w.Boolean(v.breakoutSupported);
    w.U32(v.maxBreakoutChildren);
  }

  method ReadReach(r: ByteReader) returns (v: Option<Reach>)
    requires r.Valid() && r.ok
    modifies r
    ensures r.Valid() && (v.Some? ==> r.ok)
    ensures Took(v, r.Rest(), GetReach(old(r.Rest())))
  {
    hide GetEnum, PutEnum, GetText, PutText, GetId, PutId, GetU64, PutU64, GetU32, PutU32, GetBool, PutBool;
    hide ValidIdentifier, ByteReader.Rest, PutList, GetList;
    var certainty := ReadEnum(r, CapabilityCertaintyOf);
    if certainty.None? {
      return None;
    }
    var speeds := ReadSpeeds(r);
    if speeds.None? {
      return None;
    }
    var laneModes := ReadLaneModes(r);
    if laneModes.None? {
      return None;
    }
    var maxLanes := r.U32();
    if maxLanes.None? {
      return None;
    }
    var breakoutSupported := r.Boolean();
    if breakoutSupported.None? {
      return None;
    }
    var maxBreakoutChildren := r.U32();
    if maxBreakoutChildren.None? {
      return None;
    }
    return Some(Reach(certainty.value, speeds.value, laneModes.value, maxLanes.value, breakoutSupported.value, maxBreakoutChildren.value));
  }

  method WriteModes(w: ByteWriter, v: Modes)
    requires w.Valid()
    modifies w
    ensures w.Valid() && w.fits == old(w.fits)
    ensures forall rest :: w.full + rest == old(w.full) + PutModes(v, rest)
  {
    hide PutList, PutEnum;
    WriteEnums(w, FecModeCode, v.fec, PutFec);
    WriteEnums(w, AutonegPolicyCode, v.autoneg, PutAutoneg);
    WriteEnums(w, PauseModeCode, v.pause, PutPause);
    WriteEnums(w, ProtocolFamilyCode, v.protocols, PutProtocol);
  }

  method ReadModes(r: ByteReader) returns (v: Option<Modes>)
    requires r.Valid() && r.ok
    modifies r
    ensures r.Valid() && (v.Some? ==> r.ok)
    ensures Took(v, r.Rest(), GetModes(old(r.Rest())))
  {
    hide GetList, GetEnum, ByteReader.Rest;
    var fec := ReadEnums(r, MAX_MODE_ENTRIES, FecModeOf, GetFec);
    if fec.None? {
      return None;
    }
    var autoneg := ReadEnums(r, MAX_MODE_ENTRIES, AutonegPolicyOf, GetAutoneg);
    if autoneg.None? {
      return None;
    }
    var pause := ReadEnums(r, MAX_MODE_ENTRIES, PauseModeOf, GetPause);
    if pause.None? {
      return None;
    }
    var protocols := ReadEnums(r, MAX_MODE_ENTRIES, ProtocolFamilyOf, GetProtocol);
    if protocols.None? {
      return None;
    }
    return Some(Modes(fec.value, autoneg.value, pause.value, protocols.value));
  }

  method WriteLimits(w: ByteWriter, v: Limits)
    requires w.Valid()
    modifies w
    ensures w.Valid() && w.fits == (old(w.fits) && v.Bounded())
    ensures v.Bounded() ==> forall rest :: w.full + rest == old(w.full) + PutLimits(v, rest)
  {
    hide GetEnum, PutEnum, GetText, PutText, GetId, PutId, GetU64, PutU64, GetU32, PutU32, GetBool, PutBool;
    hide ValidIdentifier, ByteReader.Rest;
    w.U32(v.mtuMin);
    w.U32(v.mtuMax);
    WriteEnum(w, DuplexModeCode, v.duplex);
    w.Boolean(v.logicalInterface);
    w.U32(v.maxQueueCount);
    w.Boolean(v.transceiverRequired);
    w.TextField(v.transceiverClass, MAX_NAME_LENGTH);
  }

  method ReadLimits(r: ByteReader) returns (v: Option<Limits>)
    requires r.Valid() && r.ok
    modifies r
    ensures r.Valid() && (v.Some? ==> r.ok)
    ensures Took(v, r.Rest(), GetLimits(old(r.Rest())))
  {
    hide GetEnum, PutEnum, GetText, PutText, GetId, PutId, GetU64, PutU64, GetU32, PutU32, GetBool, PutBool;
    hide ValidIdentifier, ByteReader.Rest;
    var mtuMin := r.U32();
    if mtuMin.None? {
      return None;
    }
    var mtuMax := r.U32();
    if mtuMax.None? {
      return None;
    }
    var duplex := ReadEnum(r, DuplexModeOf);
    if duplex.None? {
      return None;
    }
    var logicalInterface := r.Boolean();
    if logicalInterface.None? {
      return None;
    }
    var maxQueueCount := r.U32();
    if maxQueueCount.None? {
      return None;
    }
    var transceiverRequired := r.Boolean();
    if transceiverRequired.None? {
      return None;
    }
    var transceiverClass := r.TextField(MAX_NAME_LENGTH);
    if transceiverClass.None? {
      return None;
    }
    return Some(Limits(mtuMin.value, mtuMax.value, duplex.value, logicalInterface.value, maxQueueCount.value, transceiverRequired.value, transceiverClass.value));
  }

  method WriteCapabilities(w: ByteWriter, v: PortCapabilities)
    requires w.Valid()
    modifies w
    ensures w.Valid() && w.fits == (old(w.fits) && LimitsOf(v).Bounded())
    ensures LimitsOf(v).Bounded() ==> forall rest :: w.full + rest == old(w.full) + PutCapabilities(v, rest)
  {
    hide GetEnum, PutEnum, GetText, PutText, GetId, PutId, GetU64, PutU64, GetU32, PutU32, GetBool, PutBool;
    hide ValidIdentifier, ByteReader.Rest, GetReach, PutReach, GetModes, PutModes, GetLimits, PutLimits, PortCapabilities.Valid;
    WriteReach(w, ReachOf(v));
    WriteModes(w, ModesOf(v));
    WriteLimits(w, LimitsOf(v));
  }

  method ReadCapabilities(r: ByteReader) returns (v: Option<PortCapabilities>)
    requires r.Valid() && r.ok
    modifies r
    ensures r.Valid() && (v.Some? ==> r.ok)
    ensures Took(v, r.Rest(), GetCapabilities(old(r.Rest())))
  {
    hide GetEnum, PutEnum, GetText, PutText, GetId, PutId, GetU64, PutU64, GetU32, PutU32, GetBool, PutBool;
    hide ValidIdentifier, ByteReader.Rest, GetReach, PutReach, GetModes, PutModes, GetLimits, PutLimits, PortCapabilities.Valid;
    var reach := ReadReach(r);
    if reach.None? {
      return None;
    }
    var modes := ReadModes(r);
    if modes.None? {
      return None;
    }
    var limits := ReadLimits(r);
    if limits.None? {
      return None;
    }
    var whole := Capabilities(reach.value, modes.value, limits.value);
    if !whole.Valid() {
      return None;
    }
    return Some(whole);
  }

  // -------------------------------------------------------------------------
  // Capability bindings, ownership, counters
  // -------------------------------------------------------------------------

  method WriteBinding(w: ByteWriter, v: CapabilityBinding)
    requires w.Valid()
    modifies w
    ensures w.Valid() && w.fits == (old(w.fits) && BindingFits(v))
    ensures BindingFits(v) ==> forall rest :: w.full + rest == old(w.full) + PutBinding(v, rest)
  {
    hide GetEnum, PutEnum, GetText, PutText, GetId, PutId, GetU64, PutU64, GetU32, PutU32, GetBool, PutBool;
    hide ValidIdentifier, ByteReader.Rest, GetCapabilities, PutCapabilities, PortCapabilities.Valid;
    w.Boolean(v.present);
    w.U64(v.generation);
    w.U64(v.evidenceGeneration);
    w.Identifier(v.evidence);
    w.TextField(v.source, MAX_NAME_LENGTH);
    WriteCapabilities(w, v.capabilities);
  }

  method ReadBinding(r: ByteReader) returns (v: Option<CapabilityBinding>)
    requires r.Valid() && r.ok
    modifies r
    ensures r.Valid() && (v.Some? ==> r.ok)
    ensures Took(v, r.Rest(), GetBinding(old(r.Rest())))
  {
    hide GetEnum, PutEnum, GetText, PutText, GetId, PutId, GetU64, PutU64, GetU32, PutU32, GetBool, PutBool;
    hide ValidIdentifier, ByteReader.Rest, GetCapabilities, PutCapabilities, PortCapabilities.Valid;
    var present := r.Boolean();
    if present.None? {
      return None;
    }
    var generation := r.U64();
    if generation.None? {
      return None;
    }
    var evidenceGeneration := r.U64();
    if evidenceGeneration.None? {
      return None;
    }
    var evidence := r.Identifier();
    if evidence.None? {
      return None;
    }
    var source := r.TextField(MAX_NAME_LENGTH);
    if source.None? {
      return None;
    }
    var capabilities := ReadCapabilities(r);
    if capabilities.None? {
      return None;
    }
    var whole := CapabilityBinding(capabilities.value, generation.value, evidenceGeneration.value, evidence.value, source.value, present.value);
    if !whole.Valid() {
      return None;
    }
    return Some(whole);
  }

  method WriteOwnership(w: ByteWriter, v: PortOwnership)
    requires w.Valid()
    modifies w
    ensures w.Valid() && w.fits == old(w.fits)
    ensures forall rest :: w.full + rest == old(w.full) + PutOwnership(v, rest)
  {
    hide GetEnum, PutEnum, GetText, PutText, GetId, PutId, GetU64, PutU64, GetU32, PutU32, GetBool, PutBool;
    hide ValidIdentifier, ByteReader.Rest;
    w.Identifier(v.id);
    WriteEnum(w, PortOwnerKindCode, v.kind);
    w.Identifier(v.owner);
    w.U64(v.generation);
    w.Identifier(v.publisher);
    w.Identifier(v.boot);
    w.U64(v.epoch);
    w.Boolean(v.exclusive);
  }

  method ReadOwnership(r: ByteReader) returns (v: Option<PortOwnership>)
    requires r.Valid() && r.ok
    modifies r
    ensures r.Valid() && (v.Some? ==> r.ok)
    ensures Took(v, r.Rest(), GetOwnership(old(r.Rest())))
  {
    hide GetEnum, PutEnum, GetText, PutText, GetId, PutId, GetU64, PutU64, GetU32, PutU32, GetBool, PutBool;
    hide ValidIdentifier, ByteReader.Rest;
    var id := r.Identifier();
    if id.None? {
      return None;
    }
    var kind := ReadEnum(r, PortOwnerKindOf);
    if kind.None? {
      return None;
    }
    var owner := r.Identifier();
    if owner.None? {
      return None;
    }
    var generation := r.U64();
    if generation.None? {
      return None;
    }
    var publisher := r.Identifier();
    if publisher.None? {
      return None;
    }
    var boot := r.Identifier();
    if boot.None? {
      return None;
    }
    var epoch := r.U64();
    if epoch.None? {
      return None;
    }
    var exclusive := r.Boolean();
    if exclusive.None? {
      return None;
    }
    var whole := PortOwnership(id.value, kind.value, owner.value, generation.value, publisher.value, boot.value, epoch.value, exclusive.value);
    if !whole.Valid() {
      return None;
    }
    return Some(whole);
  }

  method WriteGenerations(w: ByteWriter, v: GenerationVector)
    requires w.Valid()
    modifies w
    ensures w.Valid() && w.fits == old(w.fits)
    ensures forall rest :: w.full + rest == old(w.full) + PutGenerations(v, rest)
  {
    hide GetEnum, PutEnum, GetText, PutText, GetId, PutId, GetU64, PutU64, GetU32, PutU32, GetBool, PutBool;
    hide ValidIdentifier, ByteReader.Rest;
    w.U64(v.configuration);
    w.U64(v.administrative);
    w.U64(v.ownership);
    w.U64(v.capability);
    w.U64(v.topology);
    w.U64(v.device);
    w.U64(v.lifecycle);
    w.U64(v.evidence);
  }

  method ReadGenerations(r: ByteReader) returns (v: Option<GenerationVector>)
    requires r.Valid() && r.ok
    modifies r
    ensures r.Valid() && (v.Some? ==> r.ok)
    ensures Took(v, r.Rest(), GetGenerations(old(r.Rest())))
  {
    hide GetEnum, PutEnum, GetText, PutText, GetId, PutId, GetU64, PutU64, GetU32, PutU32, GetBool, PutBool;
    hide ValidIdentifier, ByteReader.Rest;
    var configuration := r.U64();
    if configuration.None? {
      return None;
    }
    var administrative := r.U64();
    if administrative.None? {
      return None;
    }
    var ownership := r.U64();
    if ownership.None? {
      return None;
    }
    var capability := r.U64();
    if capability.None? {
      return None;
    }
    var topology := r.U64();
    if topology.None? {
      return None;
    }
    var device := r.U64();
    if device.None? {
      return None;
    }
    var lifecycle := r.U64();
    if lifecycle.None? {
      return None;
    }
    var evidence := r.U64();
    if evidence.None? {
      return None;
    }
    return Some(GenerationVector(configuration.value, administrative.value, ownership.value, capability.value, topology.value, device.value, lifecycle.value, evidence.value));
  }

  // -------------------------------------------------------------------------
  // Configurations
  // -------------------------------------------------------------------------

  method WriteIdentity(w: ByteWriter, v: Identity)
    requires w.Valid()
    modifies w
    ensures w.Valid() && w.fits == old(w.fits)
    ensures forall rest :: w.full + rest == old(w.full) + PutIdentity(v, rest)
  {
    hide GetEnum, PutEnum, GetText, PutText, GetId, PutId, GetU64, PutU64, GetU32, PutU32, GetBool, PutBool;
    hide ValidIdentifier, ByteReader.Rest;
    w.Identifier(v.record);
    w.Identifier(v.port);
    w.Identifier(v.parentDevice);
    w.U64(v.deviceGeneration);
    w.U64(v.topologyGeneration);
    w.U64(v.generation);
  }

  method ReadIdentity(r: ByteReader) returns (v: Option<Identity>)
    requires r.Valid() && r.ok
    modifies r
    ensures r.Valid() && (v.Some? ==> r.ok)
    ensures Took(v, r.Rest(), GetIdentity(old(r.Rest())))
  {
    hide GetEnum, PutEnum, GetText, PutText, GetId, PutId, GetU64, PutU64, GetU32, PutU32, GetBool, PutBool;
    hide ValidIdentifier, ByteReader.Rest;
    var record := r.Identifier();
    if record.None? {
      return None;
    }
    var port := r.Identifier();
    if port.None? {
      return None;
    }
    var parentDevice := r.Identifier();
    if parentDevice.None? {
      return None;
    }
    var deviceGeneration := r.U64();
    if deviceGeneration.None? {
      return None;
    }
    var topologyGeneration := r.U64();
    if topologyGeneration.None? {
      return None;
    }
    var generation := r.U64();
    if generation.None? {
      return None;
    }
    return Some(Identity(record.value, port.value, parentDevice.value, deviceGeneration.value, topologyGeneration.value, generation.value));
  }

  method WriteSetting(w: ByteWriter, v: SpeedSetting)
    requires w.Valid()
    modifies w
    ensures w.Valid() && w.fits == old(w.fits)
    ensures forall rest :: w.full + rest == old(w.full) + PutSetting(v, rest)
  {
    hide GetEnum, PutEnum, GetText, PutText, GetId, PutId, GetU64, PutU64, GetU32, PutU32, GetBool, PutBool;
    hide ValidIdentifier, ByteReader.Rest, GetRate, PutRate;
    WriteEnum(w, SpeedSelectionCode, v.selection);
    WriteRate(w, v.rate);
  }

  method ReadSetting(r: ByteReader) returns (v: Option<SpeedSetting>)
    requires r.Valid() && r.ok
    modifies r
    ensures r.Valid() && (v.Some? ==> r.ok)
    ensures Took(v, r.Rest(), GetSetting(old(r.Rest())))
  {
    hide GetEnum, PutEnum, GetText, PutText, GetId, PutId, GetU64, PutU64, GetU32, PutU32, GetBool, PutBool;
    hide ValidIdentifier, ByteReader.Rest, GetRate, PutRate;
    var selection := ReadEnum(r, SpeedSelectionOf);
    if selection.None? {
      return None;
    }
    var rate := ReadRate(r);
    if rate.None? {
      return None;
    }
    return Some(SpeedSetting(selection.value, rate.value));
  }

  method WriteShape(w: ByteWriter, v: Shape)
    requires w.Valid()
    modifies w
    ensures w.Valid() && w.fits == old(w.fits)
    ensures forall rest :: w.full + rest == old(w.full) + PutShape(v, rest)
  {
    hide GetEnum, PutEnum, GetText, PutText, GetId, PutId, GetU64, PutU64, GetU32, PutU32, GetBool, PutBool;
    hide ValidIdentifier, ByteReader.Rest, GetSetting, PutSetting, GetMtu, PutMtu, GetLanes, PutLanes;
    WriteEnum(w, AdministrativeStateCode, v.administrative);
    WriteEnum(w, PortModeCode, v.mode);
    WriteEnum(w, ProtocolFamilyCode, v.protocol);
    WriteSetting(w, v.speed);
    WriteEnum(w, DuplexModeCode, v.duplex);
    WriteMtu(w, v.mtu);
    WriteLanes(w, v.lanes);
  }

  method ReadShape(r: ByteReader) returns (v: Option<Shape>)
    requires r.Valid() && r.ok
    modifies r
    ensures r.Valid() && (v.Some? ==> r.ok)
    ensures Took(v, r.Rest(), GetShape(old(r.Rest())))
  {
    hide GetEnum, PutEnum, GetText, PutText, GetId, PutId, GetU64, PutU64, GetU32, PutU32, GetBool, PutBool;
    hide ValidIdentifier, ByteReader.Rest, GetSetting, PutSetting, GetMtu, PutMtu, GetLanes, PutLanes;
    var administrative := ReadEnum(r, AdministrativeStateOf);
    if administrative.None? {
      return None;
    }
    var mode := ReadEnum(r, PortModeOf);
    if mode.None? {
      return None;
    }
    var protocol := ReadEnum(r, ProtocolFamilyOf);
    if protocol.None? {
      return None;
    }
    var speed := ReadSetting(r);
    if speed.None? {
      return None;
    }
    var duplex := ReadEnum(r, DuplexModeOf);
    if duplex.None? {
      return None;
    }
    var mtu := ReadMtu(r);
    if mtu.None? {
      return None;
    }
    var lanes := ReadLanes(r);
    if lanes.None? {
      return None;
    }
    return Some(Shape(administrative.value, mode.value, protocol.value, speed.value, duplex.value, mtu.value, lanes.value));
  }

  method WriteAggregation(w: ByteWriter, v: Aggregation)
    requires w.Valid()
    modifies w
    ensures w.Valid() && w.fits == old(w.fits)
    ensures forall rest :: w.full + rest == old(w.full) + PutAggregation(v, rest)
  {
    hide GetEnum, PutEnum, GetText, PutText, GetId, PutId, GetU64, PutU64, GetU32, PutU32, GetBool, PutBool;
    hide ValidIdentifier, ByteReader.Rest;
    w.Boolean(v.member);
    w.Identifier(v.aggregate);
    w.U64(v.generation);
    w.Boolean(v.participates);
  }

  method ReadAggregation(r: ByteReader) returns (v: Option<Aggregation>)
    requires r.Valid() && r.ok
    modifies r
    ensures r.Valid() && (v.Some? ==> r.ok)
    ensures Took(v, r.Rest(), GetAggregation(old(r.Rest())))
  {
    hide GetEnum, PutEnum, GetText, PutText, GetId, PutId, GetU64, PutU64, GetU32, PutU32, GetBool, PutBool;
    hide ValidIdentifier, ByteReader.Rest;
    var member := r.Boolean();
    if member.None? {
      return None;
    }
    var aggregate := r.Identifier();
    if aggregate.None? {
      return None;
    }
    var generation := r.U64();
    if generation.None? {
      return None;
    }
    var participates := r.Boolean();
    if participates.None? {
      return None;
    }
    return Some(Aggregation(member.value, aggregate.value, generation.value, participates.value));
  }

  method WriteProfileBinding(w: ByteWriter, v: ProfileBinding)
    requires w.Valid()
    modifies w
    ensures w.Valid() && w.fits == old(w.fits)
    ensures forall rest :: w.full + rest == old(w.full) + PutProfileBinding(v, rest)
  {
    hide GetEnum, PutEnum, GetText, PutText, GetId, PutId, GetU64, PutU64, GetU32, PutU32, GetBool, PutBool;
    hide ValidIdentifier, ByteReader.Rest;
    w.Boolean(v.bound);
    w.Identifier(v.id);
    w.U64(v.generation);
  }

  method ReadProfileBinding(r: ByteReader) returns (v: Option<ProfileBinding>)
    requires r.Valid() && r.ok
    modifies r
    ensures r.Valid() && (v.Some? ==> r.ok)
    ensures Took(v, r.Rest(), GetProfileBinding(old(r.Rest())))
  {
    hide GetEnum, PutEnum, GetText, PutText, GetId, PutId, GetU64, PutU64, GetU32, PutU32, GetBool, PutBool;
    hide ValidIdentifier, ByteReader.Rest;
    var bound := r.Boolean();
    if bound.None? {
      return None;
    }
    var id := r.Identifier();
    if id.None? {
      return None;
    }
    var generation := r.U64();
    if generation.None? {
      return None;
    }
    return Some(ProfileBinding(bound.value, id.value, generation.value));
  }

  method WritePolicy(w: ByteWriter, v: Policy)
    requires w.Valid()
    modifies w
    ensures w.Valid() && w.fits == old(w.fits)
    ensures forall rest :: w.full + rest == old(w.full) + PutPolicy(v, rest)
  {
    hide GetEnum, PutEnum, GetText, PutText, GetId, PutId, GetU64, PutU64, GetU32, PutU32, GetBool, PutBool;
    hide ValidIdentifier, ByteReader.Rest, GetAggregation, PutAggregation, GetProfileBinding, PutProfileBinding;
    WriteEnum(w, BreakoutModeCode, v.breakout);
    WriteEnum(w, AutonegPolicyCode, v.autoneg);
    WriteEnum(w, FecModeCode, v.fec);
    WriteEnum(w, PauseModeCode, v.pause);
    WriteAggregation(w, v.aggregation);
    WriteProfileBinding(w, v.profile);
  }

  method ReadPolicy(r: ByteReader) returns (v: Option<Policy>)
    requires r.Valid() && r.ok
    modifies r
    ensures r.Valid() && (v.Some? ==> r.ok)
    ensures Took(v, r.Rest(), GetPolicy(old(r.Rest())))
  {
    hide GetEnum, PutEnum, GetText, PutText, GetId, PutId, GetU64, PutU64, GetU32, PutU32, GetBool, PutBool;
    hide ValidIdentifier, ByteReader.Rest, GetAggregation, PutAggregation, GetProfileBinding, PutProfileBinding;
    var breakout := ReadEnum(r, BreakoutModeOf);
    if breakout.None? {
      return None;
    }
    var autoneg := ReadEnum(r, AutonegPolicyOf);
    if autoneg.None? {
      return None;
    }
    var fec := ReadEnum(r, FecModeOf);
    if fec.None? {
      return None;
    }
    var pause := ReadEnum(r, PauseModeOf);
    if pause.None? {
      return None;
    }
    var aggregation := ReadAggregation(r);
    if aggregation.None? {
      return None;
    }
    var profile := ReadProfileBinding(r);
    if profile.None? {
      return None;
    }
    return Some(Policy(breakout.value, autoneg.value, fec.value, pause.value, aggregation.value, profile.value));
  }

  method WriteOrigin(w: ByteWriter, v: Origin)
    requires w.Valid()
    modifies w
    ensures w.Valid() && w.fits == (old(w.fits) && v.Bounded())
    ensures v.Bounded() ==> forall rest :: w.full + rest == old(w.full) + PutOrigin(v, rest)
  {
    hide GetEnum, PutEnum, GetText, PutText, GetId, PutId, GetU64, PutU64, GetU32, PutU32, GetBool, PutBool;
    hide ValidIdentifier, ByteReader.Rest, GetProvenance, PutProvenance, LegalProvenance;
    w.TextField(v.role, MAX_NAME_LENGTH);
    w.Identifier(v.logicalIdentity);
    w.Identifier(v.derivedFrom);
    w.U32(v.childIndex);
    WriteProvenance(w, v.provenance);
    w.U64(v.capabilityGeneration);
    w.U64(v.evidenceGeneration);
  }

  method ReadOrigin(r: ByteReader) returns (v: Option<Origin>)
    requires r.Valid() && r.ok
    modifies r
    ensures r.Valid() && (v.Some? ==> r.ok)
    ensures Took(v, r.Rest(), GetOrigin(old(r.Rest())))
  {
    hide GetEnum, PutEnum, GetText, PutText, GetId, PutId, GetU64, PutU64, GetU32, PutU32, GetBool, PutBool;
    hide ValidIdentifier, ByteReader.Rest, GetProvenance, PutProvenance, LegalProvenance;
    var role := r.TextField(MAX_NAME_LENGTH);
    if role.None? {
      return None;
    }
    var logicalIdentity := r.Identifier();
    if logicalIdentity.None? {
      return None;
    }
    var derivedFrom := r.Identifier();
    if derivedFrom.None? {
      return None;
    }
    var childIndex := r.U32();
    if childIndex.None? {
      return None;
    }
    var provenance := ReadProvenance(r);
    if provenance.None? {
      return None;
    }
    var capabilityGeneration := r.U64();
    if capabilityGeneration.None? {
      return None;
    }
    var evidenceGeneration := r.U64();
    if evidenceGeneration.None? {
      return None;
    }
    return Some(Origin(role.value, logicalIdentity.value, derivedFrom.value, childIndex.value, provenance.value, capabilityGeneration.value, evidenceGeneration.value));
  }

  method WriteConfiguration(w: ByteWriter, v: PortConfiguration)
    requires w.Valid()
    modifies w
    ensures w.Valid() && w.fits == (old(w.fits) && OriginOf(v).Bounded())
    ensures OriginOf(v).Bounded() ==> forall rest :: w.full + rest == old(w.full) + PutConfiguration(v, rest)
  {
    hide GetEnum, PutEnum, GetText, PutText, GetId, PutId, GetU64, PutU64, GetU32, PutU32, GetBool, PutBool;
    hide ValidIdentifier, ByteReader.Rest, GetIdentity, PutIdentity, GetShape, PutShape, GetPolicy, PutPolicy, GetOrigin, PutOrigin, Origin.Bounded;
    WriteIdentity(w, IdentityOf(v));
    WriteShape(w, ShapeOf(v));
    WritePolicy(w, PolicyOf(v));
    WriteOrigin(w, OriginOf(v));
  }

  method ReadConfiguration(r: ByteReader) returns (v: Option<PortConfiguration>)
    requires r.Valid() && r.ok
    modifies r
    ensures r.Valid() && (v.Some? ==> r.ok)
    ensures Took(v, r.Rest(), GetConfiguration(old(r.Rest())))
  {
    hide GetEnum, PutEnum, GetText, PutText, GetId, PutId, GetU64, PutU64, GetU32, PutU32, GetBool, PutBool;
    hide ValidIdentifier, ByteReader.Rest, GetIdentity, PutIdentity, GetShape, PutShape, GetPolicy, PutPolicy, GetOrigin, PutOrigin, Origin.Bounded;
    var identity := ReadIdentity(r);
    if identity.None? {
      return None;
    }
    var shape := ReadShape(r);
    if shape.None? {
      return None;
    }
    var policy := ReadPolicy(r);
    if policy.None? {
      return None;
    }
    var origin := ReadOrigin(r);
    if origin.None? {
      return None;
    }
    return Some(Configuration(identity.value, shape.value, policy.value, origin.value));
  }

  // -------------------------------------------------------------------------
  // Records
  // -------------------------------------------------------------------------

  method WriteMaybeConfiguration(w: ByteWriter, v: Option<PortConfiguration>)
    requires w.Valid()
    modifies w
    ensures w.Valid() && w.fits == (old(w.fits) && (v.Some? ==> OriginOf(v.value).Bounded()))
    ensures (v.Some? ==> OriginOf(v.value).Bounded()) ==> forall rest :: w.full + rest == old(w.full) + PutMaybeConfiguration(v, rest)
  {
    hide PutBool, PutConfiguration, Origin.Bounded;
    w.Boolean(v.Some?);
    if v.Some? {
      WriteConfiguration(w, v.value);
    }
  }

  method ReadMaybeConfiguration(r: ByteReader) returns (v: Option<Option<PortConfiguration>>)
    requires r.Valid() && r.ok
    modifies r
    ensures r.Valid() && (v.Some? ==> r.ok)
    ensures Took(v, r.Rest(), GetMaybeConfiguration(old(r.Rest())))
  {
    hide GetBool, PutBool, GetConfiguration, PutConfiguration, ByteReader.Rest;
    var present := r.Boolean();
    if present.None? {
      return None;
    }
    if !present.value {
      return Some(None);
    }
    var value := ReadConfiguration(r);
    if value.None? {
      return None;
    }
    return Some(Some(value.value));
  }

  method WriteMaybeOwnership(w: ByteWriter, v: Option<PortOwnership>)
    requires w.Valid()
    modifies w
    ensures w.Valid() && w.fits == old(w.fits)
    ensures forall rest :: w.full + rest == old(w.full) + PutMaybeOwnership(v, rest)
  {
    hide PutBool, PutOwnership, Origin.Bounded;
    w.Boolean(v.Some?);
    if v.Some? {
      WriteOwnership(w, v.value);
    }
  }

  method ReadMaybeOwnership(r: ByteReader) returns (v: Option<Option<PortOwnership>>)
    requires r.Valid() && r.ok
    modifies r
    ensures r.Valid() && (v.Some? ==> r.ok)
    ensures Took(v, r.Rest(), GetMaybeOwnership(old(r.Rest())))
  {
    hide GetBool, PutBool, GetOwnership, PutOwnership, ByteReader.Rest;
    var present := r.Boolean();
    if present.None? {
      return None;
    }
    if !present.value {
      return Some(None);
    }
    var value := ReadOwnership(r);
    if value.None? {
      return None;
    }
    return Some(Some(value.value));
  }

  method WriteApplied(w: ByteWriter, v: AppliedEvidence)
    requires w.Valid()
    modifies w
    ensures w.Valid() && w.fits == (old(w.fits) && LegalApplied(v))
    ensures LegalApplied(v) ==> forall rest :: w.full + rest == old(w.full) + PutApplied(v, rest)
  {
    hide GetEnum, PutEnum, GetText, PutText, GetId, PutId, GetU64, PutU64, GetU32, PutU32, GetBool, PutBool;
    hide ValidIdentifier, ByteReader.Rest;
    WriteEnum(w, AppliedOutcomeCode, v.outcome);
    w.U64(v.generation);
    w.U64(v.evidenceGeneration);
    w.TextField(v.source, MAX_NAME_LENGTH);
    w.Boolean(v.verified);
  }

  method ReadApplied(r: ByteReader) returns (v: Option<AppliedEvidence>)
    requires r.Valid() && r.ok
    modifies r
    ensures r.Valid() && (v.Some? ==> r.ok)
    ensures Took(v, r.Rest(), GetApplied(old(r.Rest())))
  {
    hide GetEnum, PutEnum, GetText, PutText, GetId, PutId, GetU64, PutU64, GetU32, PutU32, GetBool, PutBool;
    hide ValidIdentifier, ByteReader.Rest;
    var outcome := ReadEnum(r, AppliedOutcomeOf);
    if outcome.None? {
      return None;
    }
    var generation := r.U64();
    if generation.None? {
      return None;
    }
    var evidenceGeneration := r.U64();
    if evidenceGeneration.None? {
      return None;
    }
    var source := r.TextField(MAX_NAME_LENGTH);
    if source.None? {
      return None;
    }
    var verified := r.Boolean();
    if verified.None? {
      return None;
    }
    return Some(AppliedEvidence(outcome.value, generation.value, evidenceGeneration.value, source.value, verified.value));
  }

  method WriteStanding(w: ByteWriter, v: Standing)
    requires w.Valid()
    modifies w
    ensures w.Valid() && w.fits == (old(w.fits) && v.Bounded())
    ensures v.Bounded() ==> forall rest :: w.full + rest == old(w.full) + PutStanding(v, rest)
  {
    hide GetEnum, PutEnum, GetText, PutText, GetId, PutId, GetU64, PutU64, GetU32, PutU32, GetBool, PutBool;
    hide ValidIdentifier, ByteReader.Rest;
    w.Identifier(v.last.attempt);
    w.U64(v.last.payloadDigest);
    w.U64(v.last.resultGeneration);
    w.TextField(v.reason, MAX_NAME_LENGTH);
    w.TextField(v.detail, MAX_DESCRIPTION_LENGTH);
  }

  method ReadStanding(r: ByteReader) returns (v: Option<Standing>)
    requires r.Valid() && r.ok
    modifies r
    ensures r.Valid() && (v.Some? ==> r.ok)
    ensures Took(v, r.Rest(), GetStanding(old(r.Rest())))
  {
    hide GetEnum, PutEnum, GetText, PutText, GetId, PutId, GetU64, PutU64, GetU32, PutU32, GetBool, PutBool;
    hide ValidIdentifier, ByteReader.Rest;
    var attempt := r.Identifier();
    if attempt.None? {
      return None;
    }
    var digest := r.U64();
    if digest.None? {
      return None;
    }
    var result := r.U64();
    if result.None? {
      return None;
    }
    var reason := r.TextField(MAX_NAME_LENGTH);
    if reason.None? {
      return None;
    }
    var detail := r.TextField(MAX_DESCRIPTION_LENGTH);
    if detail.None? {
      return None;
    }
    return Some(Standing(LastMutation(attempt.value, digest.value, result.value), reason.value, detail.value));
  }

  method WriteRecordTail(w: ByteWriter, v: PortRecord)
    requires w.Valid()
    modifies w
    ensures w.Valid() && w.fits == (old(w.fits) && LegalTail(TailOf(v)))
    ensures LegalTail(TailOf(v)) ==> forall rest :: w.full + rest == old(w.full) + PutRecordTail(v, rest)
  {
    hide PutApplied, PutEnum, PutGenerations, PutProvenance, PutStanding, LegalApplied, LegalProvenance, Standing.Bounded;
    WriteApplied(w, v.applied);
    WriteEnum(w, DriftStateCode, v.drift);
    WriteGenerations(w, v.generations);
    WriteProvenance(w, v.provenance);
    WriteStanding(w, StandingOf(v));
  }

  method ReadRecordTail(r: ByteReader) returns (v: Option<Tail>)
    requires r.Valid() && r.ok
    modifies r
    ensures r.Valid() && (v.Some? ==> r.ok)
    ensures Took(v, r.Rest(), GetRecordTail(old(r.Rest())))
  {
    hide GetApplied, GetEnum, GetGenerations, GetProvenance, GetStanding, ByteReader.Rest;
    var applied := ReadApplied(r);
    if applied.None? {
      return None;
    }
    var drift := ReadEnum(r, DriftStateOf);
    if drift.None? {
      return None;
    }
    var generations := ReadGenerations(r);
    if generations.None? {
      return None;
    }
    var provenance := ReadProvenance(r);
    if provenance.None? {
      return None;
    }
    var standing := ReadStanding(r);
    if standing.None? {
      return None;
    }
    return Some(Tail(applied.value, drift.value, generations.value, provenance.value, standing.value));
  }

  /** The bound of a record is the bounds of its parts. */
  lemma RecordFitsParts(v: PortRecord)
    ensures RecordFits(v) <==>
              (v.configuration.Some? ==> OriginOf(v.configuration.value).Bounded())
              && BindingFits(v.capability) && LegalTail(TailOf(v))
  {
    hide ValidIdentifier;
  }

  method WriteRecord(w: ByteWriter, v: PortRecord)
    requires w.Valid()
    modifies w
    ensures w.Valid() && w.fits == (old(w.fits) && RecordFits(v))
    ensures RecordFits(v) ==> forall rest :: w.full + rest == old(w.full) + PutRecord(v, rest)
  {
    hide GetEnum, PutEnum, GetText, PutText, GetId, PutId, GetU64, PutU64, GetU32, PutU32, GetBool, PutBool;
    hide ValidIdentifier, ByteReader.Rest, GetMaybeConfiguration, PutMaybeConfiguration,
    GetMaybeOwnership, PutMaybeOwnership, GetBinding, PutBinding, GetRecordTail, PutRecordTail, PortRecord.Valid,
    RecordFits, BindingFits, LegalTail, Origin.Bounded;
    RecordFitsParts(v);
    w.Identifier(v.port);
    w.Identifier(v.parentDevice);
    WriteEnum(w, PortLifecycleCode, v.lifecycle);
    WriteMaybeConfiguration(w, v.configuration);
    WriteMaybeOwnership(w, v.ownership);
    WriteBinding(w, v.capability);
    WriteRecordTail(w, v);
  }

  method ReadRecord(r: ByteReader) returns (v: Option<PortRecord>)
    requires r.Valid() && r.ok
    modifies r
    ensures r.Valid() && (v.Some? ==> r.ok)
    ensures Took(v, r.Rest(), GetRecord(old(r.Rest())))
  {
    hide GetEnum, PutEnum, GetText, PutText, GetId, PutId, GetU64, PutU64, GetU32, PutU32, GetBool, PutBool;
    hide ValidIdentifier, ByteReader.Rest, GetMaybeConfiguration, PutMaybeConfiguration,
    GetMaybeOwnership, PutMaybeOwnership, GetBinding, PutBinding, GetRecordTail, PutRecordTail, PortRecord.Valid,
    RecordFits, BindingFits, LegalTail, Origin.Bounded;
    var port := r.Identifier();
    if port.None? {
      return None;
    }
    var parentDevice := r.Identifier();
    if parentDevice.None? {
      return None;
    }
    var lifecycle := ReadEnum(r, PortLifecycleOf);
    if lifecycle.None? {
      return None;
    }
    var configuration := ReadMaybeConfiguration(r);
    if configuration.None? {
      return None;
    }
    var ownership := ReadMaybeOwnership(r);
    if ownership.None? {
      return None;
    }
    var capability := ReadBinding(r);
    if capability.None? {
      return None;
    }
    var tail := ReadRecordTail(r);
    if tail.None? {
      return None;
    }
    var whole := PortRecord(
      port.value, parentDevice.value, lifecycle.value, configuration.value, ownership.value, capability.value,
      tail.value.applied, tail.value.drift, tail.value.generations, tail.value.provenance, tail.value.standing.last,
      tail.value.standing.reason, tail.value.standing.detail);
    if !whole.Valid() {
      return None;
    }
    return Some(whole);
  }

  // -------------------------------------------------------------------------
  // Profiles
  // -------------------------------------------------------------------------

  method WriteChoice<E(!new)>(w: ByteWriter, code: E -> u8, v: Choice<E>)
    requires w.Valid()
    modifies w
    ensures w.Valid() && w.fits == old(w.fits)
    ensures forall rest :: w.full + rest == old(w.full) + PutChoice(code, v, rest)
  {
    hide PutBool, PutEnum;
    w.Boolean(v.specified);
    WriteEnum(w, code, v.value);
  }

  method ReadChoice<E(==, !new)>(r: ByteReader, of: u8 -> Option<E>) returns (v: Option<Choice<E>>)
    requires r.Valid() && r.ok
    modifies r
    ensures r.Valid() && (v.Some? ==> r.ok)
    ensures Took(v, r.Rest(), GetChoice(of, old(r.Rest())))
  {
    hide GetBool, PutBool, GetEnum, ByteReader.Rest;
    var specified := r.Boolean();
    if specified.None? {
      return None;
    }
    var value := ReadEnum(r, of);
    if value.None? {
      return None;
    }
    return Some(Choice(specified.value, value.value));
  }

  method WriteMtuChoice(w: ByteWriter, v: MtuChoice)
    requires w.Valid()
    modifies w
    ensures w.Valid() && w.fits == old(w.fits)
    ensures forall rest :: w.full + rest == old(w.full) + PutMtuChoice(v, rest)
  {
    hide PutBool, PutMtu;
    w.Boolean(v.specified);
    WriteMtu(w, v.mtu);
  }

  method ReadMtuChoice(r: ByteReader) returns (v: Option<MtuChoice>)
    requires r.Valid() && r.ok
    modifies r
    ensures r.Valid() && (v.Some? ==> r.ok)
    ensures Took(v, r.Rest(), GetMtuChoice(old(r.Rest())))
  {
    hide GetBool, PutBool, GetU32, PutU32, ByteReader.Rest;
    var specified := r.Boolean();
    if specified.None? {
      return None;
    }
    var value := r.U32();
    if value.None? {
      return None;
    }
    if specified.value {
      var mtu := CreateMtu(value.value);
      if mtu.None? {
        return None;
      }
      return Some(MtuChoice(true, mtu.value));
    }
    if value.value != 0 {
      return None;
    }
    return Some(MtuChoice(false, 0));
  }

  method WriteTechnical(w: ByteWriter, v: Technical)
    requires w.Valid()
    modifies w
    ensures w.Valid() && w.fits == old(w.fits)
    ensures forall rest :: w.full + rest == old(w.full) + PutTechnical(v, rest)
  {
    hide GetEnum, PutEnum, GetText, PutText, GetId, PutId, GetU64, PutU64, GetU32, PutU32, GetBool, PutBool;
    hide ValidIdentifier, ByteReader.Rest, GetSetting, PutSetting, GetMtuChoice, PutMtuChoice, GetChoice, PutChoice;
    w.Boolean(v.specifiesSpeed);
    WriteSetting(w, v.speed);
    WriteMtuChoice(w, v.mtu);
    WriteChoice(w, DuplexModeCode, v.duplex);
    WriteChoice(w, AutonegPolicyCode, v.autoneg);
    WriteChoice(w, FecModeCode, v.fec);
  }

  method ReadTechnical(r: ByteReader) returns (v: Option<Technical>)
    requires r.Valid() && r.ok
    modifies r
    ensures r.Valid() && (v.Some? ==> r.ok)
    ensures Took(v, r.Rest(), GetTechnical(old(r.Rest())))
  {
    hide GetEnum, PutEnum, GetText, PutText, GetId, PutId, GetU64, PutU64, GetU32, PutU32, GetBool, PutBool;
    hide ValidIdentifier, ByteReader.Rest, GetSetting, PutSetting, GetMtuChoice, PutMtuChoice, GetChoice, PutChoice;
    var specifiesSpeed := r.Boolean();
    if specifiesSpeed.None? {
      return None;
    }
    var speed := ReadSetting(r);
    if speed.None? {
      return None;
    }
    var mtu := ReadMtuChoice(r);
    if mtu.None? {
      return None;
    }
    var duplex := ReadChoice(r, DuplexModeOf);
    if duplex.None? {
      return None;
    }
    var autoneg := ReadChoice(r, AutonegPolicyOf);
    if autoneg.None? {
      return None;
    }
    var fec := ReadChoice(r, FecModeOf);
    if fec.None? {
      return None;
    }
    return Some(Technical(specifiesSpeed.value, speed.value, mtu.value, duplex.value, autoneg.value, fec.value));
  }

  method WriteStructural(w: ByteWriter, v: Structural)
    requires w.Valid()
    modifies w
    ensures w.Valid() && w.fits == (old(w.fits) && v.Bounded())
    ensures v.Bounded() ==> forall rest :: w.full + rest == old(w.full) + PutStructural(v, rest)
  {
    hide GetEnum, PutEnum, GetText, PutText, GetId, PutId, GetU64, PutU64, GetU32, PutU32, GetBool, PutBool;
    hide ValidIdentifier, ByteReader.Rest, GetChoice, PutChoice;
    WriteChoice(w, PauseModeCode, v.pause);
    WriteChoice(w, BreakoutModeCode, v.breakout);
    WriteChoice(w, PortModeCode, v.mode);
    WriteChoice(w, ProtocolFamilyCode, v.protocol);
    w.Boolean(v.specifiesAggregation);
    w.Boolean(v.participates);
    w.Boolean(v.specifiesRole);
    w.TextField(v.role, MAX_NAME_LENGTH);
  }

  method ReadStructural(r: ByteReader) returns (v: Option<Structural>)
    requires r.Valid() && r.ok
    modifies r
    ensures r.Valid() && (v.Some? ==> r.ok)
    ensures Took(v, r.Rest(), GetStructural(old(r.Rest())))
  {
    hide GetEnum, PutEnum, GetText, PutText, GetId, PutId, GetU64, PutU64, GetU32, PutU32, GetBool, PutBool;
    hide ValidIdentifier, ByteReader.Rest, GetChoice, PutChoice;
    var pause := ReadChoice(r, PauseModeOf);
    if pause.None? {
      return None;
    }
    var breakout := ReadChoice(r, BreakoutModeOf);
    if breakout.None? {
      return None;
    }
    var mode := ReadChoice(r, PortModeOf);
    if mode.None? {
      return None;
    }
    var protocol := ReadChoice(r, ProtocolFamilyOf);
    if protocol.None? {
      return None;
    }
    var specifiesAggregation := r.Boolean();
    if specifiesAggregation.None? {
      return None;
    }
    var participates := r.Boolean();
    if participates.None? {
      return None;
    }
    var specifiesRole := r.Boolean();
    if specifiesRole.None? {
      return None;
    }
    var role := r.TextField(MAX_NAME_LENGTH);
    if role.None? {
      return None;
    }
    return Some(Structural(pause.value, breakout.value, mode.value, protocol.value, specifiesAggregation.value, participates.value, specifiesRole.value, role.value));
  }

  method WriteDimensions(w: ByteWriter, v: ProfileConfiguration)
    requires w.Valid()
    modifies w
    ensures w.Valid() && w.fits == (old(w.fits) && StructuralOf(v).Bounded())
    ensures StructuralOf(v).Bounded() ==> forall rest :: w.full + rest == old(w.full) + PutDimensions(v, rest)
  {
    hide GetEnum, PutEnum, GetText, PutText, GetId, PutId, GetU64, PutU64, GetU32, PutU32, GetBool, PutBool;
    hide ValidIdentifier, ByteReader.Rest, GetTechnical, PutTechnical, GetStructural, PutStructural, ProfileConfiguration.Valid;
    WriteTechnical(w, TechnicalOf(v));
    WriteStructural(w, StructuralOf(v));
  }

  method ReadDimensions(r: ByteReader) returns (v: Option<ProfileConfiguration>)
    requires r.Valid() && r.ok
    modifies r
    ensures r.Valid() && (v.Some? ==> r.ok)
    ensures Took(v, r.Rest(), GetDimensions(old(r.Rest())))
  {
    hide GetEnum, PutEnum, GetText, PutText, GetId, PutId, GetU64, PutU64, GetU32, PutU32, GetBool, PutBool;
    hide ValidIdentifier, ByteReader.Rest, GetTechnical, PutTechnical, GetStructural, PutStructural, ProfileConfiguration.Valid;
    var technical := ReadTechnical(r);
    if technical.None? {
      return None;
    }
    var structural := ReadStructural(r);
    if structural.None? {
      return None;
    }
    var whole := ProfileDimensions(technical.value, structural.value);
    if !whole.Valid() {
      return None;
    }
    return Some(whole);
  }

  method WriteProfile(w: ByteWriter, v: PortProfile)
    requires w.Valid()
    modifies w
    ensures w.Valid() && w.fits == (old(w.fits) && ProfileFits(v))
    ensures ProfileFits(v) ==> forall rest :: w.full + rest == old(w.full) + PutProfile(v, rest)
  {
    hide GetEnum, PutEnum, GetText, PutText, GetId, PutId, GetU64, PutU64, GetU32, PutU32, GetBool, PutBool;
    hide ValidIdentifier, ByteReader.Rest, GetDimensions, PutDimensions, GetProvenance, PutProvenance,
    PortProfile.Valid, LegalProvenance;
    w.Identifier(v.id);
    w.U64(v.generation);
    w.TextField(v.name, MAX_NAME_LENGTH);
    w.TextField(v.description, MAX_DESCRIPTION_LENGTH);
    WriteDimensions(w, v.configuration);
    WriteProvenance(w, v.provenance);
  }

  method ReadProfile(r: ByteReader) returns (v: Option<PortProfile>)
    requires r.Valid() && r.ok
    modifies r
    ensures r.Valid() && (v.Some? ==> r.ok)
    ensures Took(v, r.Rest(), GetProfile(old(r.Rest())))
  {
    hide GetEnum, PutEnum, GetText, PutText, GetId, PutId, GetU64, PutU64, GetU32, PutU32, GetBool, PutBool;
    hide ValidIdentifier, ByteReader.Rest, GetDimensions, PutDimensions, GetProvenance, PutProvenance,
    PortProfile.Valid, LegalProvenance;
    var id := r.Identifier();
    if id.None? {
      return None;
    }
    var generation := r.U64();
    if generation.None? {
      return None;
    }
    var name := r.TextField(MAX_NAME_LENGTH);
    if name.None? {
      return None;
    }
    var description := r.TextField(MAX_DESCRIPTION_LENGTH);
    if description.None? {
      return None;
    }
    var configuration := ReadDimensions(r);
    if configuration.None? {
      return None;
    }
    var provenance := ReadProvenance(r);
    if provenance.None? {
      return None;
    }
    var whole := PortProfile(id.value, generation.value, name.value, description.value, configuration.value, provenance.value);
    if !whole.Valid() {
      return None;
    }
    return Some(whole);
  }

  // -------------------------------------------------------------------------
  // Devices and publishers
  // -------------------------------------------------------------------------

  method WriteDevice(w: ByteWriter, v: DeviceBinding)
    requires w.Valid()
    modifies w
    ensures w.Valid() && w.fits == (old(w.fits) && DeviceFits(v))
    ensures DeviceFits(v) ==> forall rest :: w.full + rest == old(w.full) + PutDevice(v, rest)
  {
    hide GetEnum, PutEnum, GetText, PutText, GetId, PutId, GetU64, PutU64, GetU32, PutU32, GetBool, PutBool;
    hide ValidIdentifier, ByteReader.Rest;
    w.Identifier(v.device);
    w.U64(v.generation);
    w.TextField(v.source, MAX_NAME_LENGTH);
  }

  method ReadDevice(r: ByteReader) returns (v: Option<DeviceBinding>)
    requires r.Valid() && r.ok
    modifies r
    ensures r.Valid() && (v.Some? ==> r.ok)
    ensures Took(v, r.Rest(), GetDevice(old(r.Rest())))
  {
    hide GetEnum, PutEnum, GetText, PutText, GetId, PutId, GetU64, PutU64, GetU32, PutU32, GetBool, PutBool;
    hide ValidIdentifier, ByteReader.Rest;
    var device := r.Identifier();
    if device.None? {
      return None;
    }
    var generation := r.U64();
    if generation.None? {
      return None;
    }
    var source := r.TextField(MAX_NAME_LENGTH);
    if source.None? {
      return None;
    }
    var whole := DeviceBinding(device.value, generation.value, source.value);
    if !whole.Valid() {
      return None;
    }
    return Some(whole);
  }

  method WritePublisher(w: ByteWriter, v: PublisherRecord)
    requires w.Valid()
    modifies w
    ensures w.Valid() && w.fits == old(w.fits)
    ensures forall rest :: w.full + rest == old(w.full) + PutPublisher(v, rest)
  {
    hide GetEnum, PutEnum, GetText, PutText, GetId, PutId, GetU64, PutU64, GetU32, PutU32, GetBool, PutBool;
    hide ValidIdentifier, ByteReader.Rest;
    w.Identifier(v.publisher);
    w.Identifier(v.boot);
    w.U64(v.epoch);
    w.Boolean(v.fenced);
  }

  method ReadPublisher(r: ByteReader) returns (v: Option<PublisherRecord>)
    requires r.Valid() && r.ok
    modifies r
    ensures r.Valid() && (v.Some? ==> r.ok)
    ensures Took(v, r.Rest(), GetPublisher(old(r.Rest())))
  {
    hide GetEnum, PutEnum, GetText, PutText, GetId, PutId, GetU64, PutU64, GetU32, PutU32, GetBool, PutBool;
    hide ValidIdentifier, ByteReader.Rest;
    var publisher := r.Identifier();
    if publisher.None? {
      return None;
    }
    var boot := r.Identifier();
    if boot.None? {
      return None;
    }
    var epoch := r.U64();
    if epoch.None? {
      return None;
    }
    var fenced := r.Boolean();
    if fenced.None? {
      return None;
    }
    var whole := PublisherRecord(publisher.value, boot.value, epoch.value, fenced.value);
    if !whole.Valid() {
      return None;
    }
    return Some(whole);
  }
}
