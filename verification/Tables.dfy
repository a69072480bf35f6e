/** The two durable tables, their queries and their writes, with the cascading foreign key. */
module Tables {
  import opened Types

  datatype Tables = Tables(caps: map<Name, Capability>, leases: map<Name, LeaseRecord>)

  const EMPTY := Tables(map[], map[])

  // ----- host ports and forwarders of rows

  function HostPorts(ports: seq<Port>): set<int> {
    set port | port in ports :: port.hostPort
  }

  predicate DistinctHosts(ports: seq<Port>) {
    forall i, j :: 0 <= i < j < |ports| ==> ports[i].hostPort != ports[j].hostPort
  }

  function Hosts(record: LeaseRecord): set<int> {
    HostPorts(record.lease.ports)
  }

  function UsedPorts(rows: map<Name, LeaseRecord>): set<int> {
    set id, p | id in rows && p in Hosts(rows[id]) :: p
  }

  /** The forwarders of a port list, entered in list order. */
  function Forwards(host: Name, ports: seq<Port>): (m: map<int, Endpoint>)
    ensures m.Keys == HostPorts(ports)
  {
    if ports == [] then map[] else
      var last := ports[|ports| - 1];
      var rest := ports[..|ports| - 1];
      assert ports == rest + [last];
      Forwards(host, rest)[last.hostPort := Endpoint(host, last.targetPort)]
  }

  function RowForwards(record: LeaseRecord): map<int, Endpoint> {
    Forwards(record.lease.targetHost, record.lease.ports)
  }

  /** Each host port of a list of distinct host ports forwards to the target it is paired with. */
  lemma {:induction false} ForwardsPairs(host: Name, ports: seq<Port>, i: nat)
    requires DistinctHosts(ports) && i < |ports|
    ensures ports[i].hostPort in Forwards(host, ports)
    ensures Forwards(host, ports)[ports[i].hostPort] == Endpoint(host, ports[i].targetPort)
  {
    var rest := ports[..|ports| - 1];
    if i < |rest| {
      ForwardsPairs(host, rest, i);
      assert rest[i] == ports[i];
    }
  }

  // ----- queries

  function ActiveLeases(t: Tables, now: Time): map<Name, LeaseRecord> {
    map id | id in t.leases && t.leases[id].lease.expiresAt > now :: t.leases[id]
  }

  function ExpiredLeases(t: Tables, now: Time): map<Name, LeaseRecord> {
    map id | id in t.leases && t.leases[id].lease.expiresAt <= now :: t.leases[id]
  }

  function LeasesForCapability(t: Tables, hash: Name, now: Time): map<Name, LeaseRecord> {
    map id | id in t.leases && t.leases[id].capabilityHash == hash && t.leases[id].lease.expiresAt > now :: t.leases[id]
  }

  function UnexpiredCapabilities(t: Tables, now: Time): map<Name, Capability> {
    map hash | hash in t.caps && t.caps[hash].expiresAt > now :: t.caps[hash]
  }

  /** The lookup by token hash succeeds. */
  predicate Live(t: Tables, hash: Name, now: Time) {
    hash in t.caps && t.caps[hash].expiresAt > now
  }

  /** The identifier is that of a stored capability. */
  predicate Known(t: Tables, id: Name) {
    exists hash :: hash in t.caps && t.caps[hash].id == id
  }

  /** Distinct rows of a table, in some order. */
  ghost predicate Picks(records: seq<LeaseRecord>, rows: map<Name, LeaseRecord>) {
    && (forall i :: 0 <= i < |records| ==> records[i].lease.id in rows && rows[records[i].lease.id] == records[i])
    && (forall i, j :: 0 <= i < j < |records| ==> records[i].lease.id != records[j].lease.id)
  }

  /** A listing of all rows in some order, each once. */
  ghost predicate Lists(records: seq<LeaseRecord>, rows: map<Name, LeaseRecord>) {
    Picks(records, rows) && forall id :: id in rows ==> rows[id] in records
  }

  // ----- writes

  function AddCapability(t: Tables, cap: Capability): Tables {
    t.(caps := t.caps[cap.hash := cap])
  }

  function PutLease(t: Tables, record: LeaseRecord): Tables {
    t.(leases := t.leases[record.lease.id := record])
  }

  function DropLease(t: Tables, id: Name): Tables {
    t.(leases := t.leases - {id})
  }

  function DropExpiredLeases(t: Tables, now: Time): Tables {
    t.(leases := ActiveLeases(t, now))
  }

  /** Deleting a capability deletes the leases that refer to it. */
  function DropCapability(t: Tables, hash: Name): Tables {
    Tables(
      t.caps - {hash},
      map id | id in t.leases && t.leases[id].capabilityHash != hash :: t.leases[id])
  }

  function DropExpiredCapabilities(t: Tables, now: Time): Tables {
    Tables(
      UnexpiredCapabilities(t, now),
      map id | id in t.leases
        && !(t.leases[id].capabilityHash in t.caps && t.caps[t.leases[id].capabilityHash].expiresAt <= now)
        :: t.leases[id])
  }

  // ----- keys

  /** Every lease refers to a stored capability. */
  ghost predicate ForeignKeysHold(t: Tables) {
    forall id :: id in t.leases ==> t.leases[id].capabilityHash in t.caps
  }

  /** Inserting a lease keeps the foreign keys exactly when its capability is stored. */
  lemma InsertNeedsCapability(t: Tables, record: LeaseRecord)
    requires ForeignKeysHold(t)
    ensures ForeignKeysHold(PutLease(t, record)) <==> record.capabilityHash in t.caps
  {
    var a := PutLease(t, record);
    assert a.leases[record.lease.id] == record;
  }

  /**
   A deletion undoes an insertion exactly when the identifier was new, and does nothing exactly when it is missing.
   */
  lemma EraseUndoesInsert(t: Tables, record: LeaseRecord)
    ensures DropLease(PutLease(t, record), record.lease.id) == t <==> record.lease.id !in t.leases
    ensures DropLease(t, record.lease.id) == t <==> record.lease.id !in t.leases
  {
    var id := record.lease.id;
    if id in t.leases {
      assert id !in DropLease(t, id).leases && id !in DropLease(PutLease(t, record), id).leases;
    } else {
      assert t.leases[id := record] - {id} == t.leases;
      assert t.leases - {id} == t.leases;
    }
  }

  /** Some rows of `t`, as they are there. */
  predicate PartOf(a: map<Name, LeaseRecord>, rows: map<Name, LeaseRecord>) {
    forall id :: id in a ==> id in rows && a[id] == rows[id]
  }

  /**
   Of all the ways to delete leases when only `caps` remain, `after` deletes the fewest that the foreign keys allow.
   */
  ghost predicate Cascaded(t: Tables, caps: map<Name, Capability>, after: Tables) {
    && after.caps == caps && PartOf(after.leases, t.leases) && ForeignKeysHold(after)
    && forall rows :: PartOf(rows, t.leases) && ForeignKeysHold(Tables(caps, rows)) ==> PartOf(rows, after.leases)
  }

  /**
   Purging the expired capabilities, or deleting one, deletes with them exactly the leases that would be left
   without their capability.
   */
  lemma DeletionsCascade(t: Tables, now: Time, hash: Name)
    requires ForeignKeysHold(t)
    ensures Cascaded(t, UnexpiredCapabilities(t, now), DropExpiredCapabilities(t, now))
    ensures Cascaded(t, t.caps - {hash}, DropCapability(t, hash))
  {
    PurgeCascades(t, now);
    var after := DropCapability(t, hash);
    forall rows | PartOf(rows, t.leases) && ForeignKeysHold(Tables(t.caps - {hash}, rows))
      ensures PartOf(rows, after.leases) {
      assert forall id :: id in rows ==> Tables(t.caps - {hash}, rows).leases[id].capabilityHash in t.caps - {hash};
    }
  }

  lemma PurgeCascades(t: Tables, now: Time)
    requires ForeignKeysHold(t)
    ensures Cascaded(t, UnexpiredCapabilities(t, now), DropExpiredCapabilities(t, now))
  {
    var caps, after := UnexpiredCapabilities(t, now), DropExpiredCapabilities(t, now);
    forall rows | PartOf(rows, t.leases) && ForeignKeysHold(Tables(caps, rows)) ensures PartOf(rows, after.leases) {
      assert forall id :: id in rows ==> Tables(caps, rows).leases[id].capabilityHash in caps;
    }
  }

  // ----- the durable invariant

  /** No host port belongs to two rows. */
  ghost predicate Exclusive(rows: map<Name, LeaseRecord>) {
    forall a, b, p :: a in rows && b in rows && p in Hosts(rows[a]) && p in Hosts(rows[b]) ==> a == b
  }

  /** The row belongs to its capability: same owner and target, and never outliving it. */
  predicate BelongsTo(record: LeaseRecord, cap: Capability) {
    && record.lease.userID == cap.userID
    && record.lease.runID == cap.runID
    && record.lease.workspaceID == cap.workspaceID
    && record.lease.targetHost == cap.targetHost
    && ZERO_TIME < record.lease.expiresAt <= cap.expiresAt
  }

  predicate GoodRow(t: Tables, id: Name)
    requires id in t.leases
  {
    var record := t.leases[id];
    && record.lease.id == id
    && record.capabilityHash in t.caps
    && BelongsTo(record, t.caps[record.capabilityHash])
    && record.lease.ports != []
    && DistinctHosts(record.lease.ports)
  }

  /** No two capabilities share an identifier. */
  ghost predicate UniqueIds(caps: map<Name, Capability>) {
    forall g, h :: g in caps && h in caps && caps[g].id == caps[h].id ==> g == h
  }

  ghost predicate Consistent(t: Tables) {
    && (forall hash :: hash in t.caps ==> t.caps[hash].hash == hash)
    && (forall id :: id in t.leases ==> GoodRow(t, id))
    && Exclusive(t.leases)
  }

  // ----- every write keeps the invariant

  lemma PurgesKeepConsistent(t: Tables, now: Time)
    requires Consistent(t)
    ensures Consistent(DropExpiredLeases(t, now))
    ensures Consistent(DropExpiredCapabilities(t, now))
  {
    var a, b := DropExpiredLeases(t, now), DropExpiredCapabilities(t, now);
    forall id | id in a.leases ensures GoodRow(a, id) { assert GoodRow(t, id); }
    forall id | id in b.leases ensures GoodRow(b, id) { assert GoodRow(t, id); }
  }

  lemma ErasuresKeepConsistent(t: Tables, id: Name, hash: Name)
    requires Consistent(t)
    ensures Consistent(DropLease(t, id))
    ensures Consistent(DropCapability(t, hash))
  {
    var a, b := DropLease(t, id), DropCapability(t, hash);
    forall k | k in a.leases ensures GoodRow(a, k) { assert GoodRow(t, k); }
    forall k | k in b.leases ensures GoodRow(b, k) { assert GoodRow(t, k); }
  }

  lemma AddCapabilityKeepsConsistent(t: Tables, cap: Capability)
    requires Consistent(t) && cap.hash !in t.caps && !Known(t, cap.id)
    ensures Consistent(AddCapability(t, cap))
  {
    var a := AddCapability(t, cap);
    forall k | k in a.leases ensures GoodRow(a, k) { assert GoodRow(t, k); }
  }

  /** A row may be replaced by one with the same ports, or added with ports no other row uses. */
  lemma PutLeaseKeepsConsistent(t: Tables, record: LeaseRecord)
    requires Consistent(t)
    requires record.capabilityHash in t.caps && BelongsTo(record, t.caps[record.capabilityHash])
    requires record.lease.ports != [] && DistinctHosts(record.lease.ports)
    requires
      if record.lease.id in t.leases then record.lease.ports == t.leases[record.lease.id].lease.ports
      else Hosts(record) !! UsedPorts(t.leases)
    ensures Consistent(PutLease(t, record))
  {
    var a := PutLease(t, record);
    forall k | k in a.leases ensures GoodRow(a, k) {
      if k != record.lease.id { assert GoodRow(t, k); }
    }
    forall x, y, p | x in a.leases && y in a.leases && p in Hosts(a.leases[x]) && p in Hosts(a.leases[y])
      ensures x == y
    {
      assert forall id :: id in t.leases && p in Hosts(t.leases[id]) ==> p in UsedPorts(t.leases);
    }
  }

  /** Once expired leases are gone the cascade of the capability purge finds nothing to delete. */
  lemma CascadeRemovesNothing(t: Tables, now: Time)
    requires Consistent(t)
    ensures DropExpiredCapabilities(DropExpiredLeases(t, now), now).leases == DropExpiredLeases(t, now).leases
  {
    var a := DropExpiredLeases(t, now);
    forall id | id in a.leases ensures id in DropExpiredCapabilities(a, now).leases {
      assert GoodRow(t, id);
    }
  }
}
