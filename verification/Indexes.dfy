/** Secondary indexes: a key to the set of ports that carry it, kept without empty buckets. */
module Indexes {
  import opened Basics
  import opened Records

  type Index<K> = map<K, set<Id>>

  // -------------------------------------------------------------------------
  // The keys
  // -------------------------------------------------------------------------

  function DeviceKey(r: PortRecord): Option<Id> { Some(r.parentDevice) }

  function LifecycleKey(r: PortRecord): Option<PortLifecycle> { Some(r.lifecycle) }

  function AdministrativeKey(r: PortRecord): Option<AdministrativeState> {
    if r.configuration.Some? then Some(r.configuration.value.administrative) else None
  }

  function ProfileKey(r: PortRecord): Option<Id> {
    if r.configuration.Some? && r.configuration.value.profile.bound then Some(r.configuration.value.profile.id) else None
  }

  function AggregateKey(r: PortRecord): Option<Id> {
    if r.configuration.Some? && r.configuration.value.aggregation.member then
      Some(r.configuration.value.aggregation.aggregate)
    else None
  }

  function DerivedKey(r: PortRecord): Option<Id> {
    if r.configuration.Some? && Named(r.configuration.value.derivedFrom) then Some(r.configuration.value.derivedFrom)
    else None
  }

  function OwnerKey(r: PortRecord): Option<Id> {
    if r.ownership.Some? then Some(r.ownership.value.owner) else None
  }

  // -------------------------------------------------------------------------
  // What an index must be
  // -------------------------------------------------------------------------

  /** The ports a full scan of the records would find under one key. */
  ghost function Scan<K(!new)>(records: map<Id, PortRecord>, key: PortRecord -> Option<K>, k: K): set<Id> {
    set port | port in records && key(records[port]) == Some(k)
  }

  /** The index equals a recomputation from the records, and holds no empty bucket. */
  ghost predicate Agrees<K(!new)>(index: Index<K>, records: map<Id, PortRecord>, key: PortRecord -> Option<K>) {
    && (forall k :: k in index ==> index[k] != {} && index[k] == Scan(records, key, k))
    && (forall k :: k !in index ==> Scan(records, key, k) == {})
  }

  /** An index that agrees with the records is determined by them. */
  lemma AgreementIsUnique<K(!new)>(a: Index<K>, b: Index<K>, records: map<Id, PortRecord>, key: PortRecord -> Option<K>)
    requires Agrees(a, records, key) && Agrees(b, records, key)
    ensures a == b
  {
    hide Scan, ValidIdentifier;
    forall k ensures k in a <==> k in b {
      assert k in a ==> a[k] == Scan(records, key, k);
      assert k in b ==> b[k] == Scan(records, key, k);
    }
  }

  // -------------------------------------------------------------------------
  // Maintenance
  // -------------------------------------------------------------------------

  function Insert<K>(index: Index<K>, k: K, port: Id): Index<K> {
    index[k := (if k in index then index[k] else {}) + {port}]
  }

  /** Erasing drops a bucket that becomes empty. */
  function Erase<K>(index: Index<K>, k: K, port: Id): Index<K> {
    if k !in index then index
    else if index[k] - {port} == {} then index - {k}
    else index[k := index[k] - {port}]
  }

  function InsertKey<K>(index: Index<K>, k: Option<K>, port: Id): Index<K> {
    if k.Some? then Insert(index, k.value, port) else index
  }

  function EraseKey<K>(index: Index<K>, k: Option<K>, port: Id): Index<K> {
    if k.Some? then Erase(index, k.value, port) else index
  }

  lemma NothingAgrees<K(!new)>(key: PortRecord -> Option<K>)
    ensures Agrees(map[], map[], key)
  {
    hide ValidIdentifier;
  }

  lemma InsertKeepsAgreement<K(!new)>(index: Index<K>, records: map<Id, PortRecord>, key: PortRecord -> Option<K>,
                                      port: Id, r: PortRecord)
    requires Agrees(index, records, key) && port !in records
    ensures Agrees(InsertKey(index, key(r), port), records[port := r], key)
  {
    hide ValidIdentifier;
    var after := InsertKey(index, key(r), port);
    forall k
      ensures Scan(records[port := r], key, k) == Scan(records, key, k) + (if key(r) == Some(k) then {port} else {})
    {
    }
    forall k ensures k in after <==> k in index || key(r) == Some(k) {
    }
  }

  lemma EraseKeepsAgreement<K(!new)>(index: Index<K>, records: map<Id, PortRecord>, key: PortRecord -> Option<K>, port: Id)
    requires Agrees(index, records, key) && port in records
    ensures Agrees(EraseKey(index, key(records[port]), port), records - {port}, key)
  {
    hide ValidIdentifier;
    forall k
      ensures Scan(records - {port}, key, k) == Scan(records, key, k) - {port}
      ensures key(records[port]) != Some(k) ==> port !in Scan(records, key, k)
    {
    }
  }

  /** Erasing a port under the key some other version of its record had keeps agreement exactly when
      the record that goes has no key, or that one: otherwise its own bucket keeps a phantom. */
  lemma StaleEraseAgrees<K(!new)>(index: Index<K>, records: map<Id, PortRecord>, key: PortRecord -> Option<K>, port: Id,
                                  k: Option<K>)
    requires Agrees(index, records, key)
    ensures Agrees(EraseKey(index, k, port), records - {port}, key)
            <==> (port in records && key(records[port]).Some? ==> key(records[port]) == k)
  {
    hide ValidIdentifier;
    if port !in records {
      assert records - {port} == records;
      NoPhantom(index, records, key, port, k);
    } else if key(records[port]) == k {
      EraseKeepsAgreement(index, records, key, port);
    } else if key(records[port]).None? {
      SameScans(records, key, port);
      NoPhantom(index, records, key, port, k);
    } else {
      var own := key(records[port]).value;
      assert port in Scan(records, key, own) && port !in Scan(records - {port}, key, own);
      assert own in index && port in index[own];
      assert own in EraseKey(index, k, port) && port in EraseKey(index, k, port)[own];
    }
  }

  lemma SameScans<K(!new)>(records: map<Id, PortRecord>, key: PortRecord -> Option<K>, port: Id)
    requires port in records && key(records[port]).None?
    ensures forall k :: Scan(records - {port}, key, k) == Scan(records, key, k)
  {
    hide ValidIdentifier;
  }

  /** Erasing a port that is in no bucket changes nothing. */
  lemma NoPhantom<K(!new)>(index: Index<K>, records: map<Id, PortRecord>, key: PortRecord -> Option<K>, port: Id, k: Option<K>)
    requires Agrees(index, records, key) && (port in records ==> key(records[port]).None?)
    ensures EraseKey(index, k, port) == index
  {
    hide ValidIdentifier;
    if k.Some? && k.value in index {
      assert port !in Scan(records, key, k.value);
      assert index[k.value] - {port} == index[k.value];
    }
  }

  /** A query through an agreeing index finds what a scan finds. */
  lemma LookupIsScan<K(!new)>(index: Index<K>, records: map<Id, PortRecord>, key: PortRecord -> Option<K>, k: K)
    requires Agrees(index, records, key)
    ensures (if k in index then index[k] else {}) == Scan(records, key, k)
  {
  }
}
