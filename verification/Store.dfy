/** The store object: the two tables, their queries and their writes. A failing call has no effect. */
module Store {
  import opened Pick
  import opened Types
  import opened Tables

  class Database {
    var capabilities: map<Name, Capability>
    var leases: map<Name, LeaseRecord>

    /** The durable states this store has passed through since it was opened, one per write. */
    ghost var history: seq<Tables>

    function Snapshot(): Tables
      reads this
    {
      Tables(capabilities, leases)
    }

    constructor (t: Tables)
      ensures Snapshot() == t && history == []
    {
      capabilities, leases := t.caps, t.leases;
      history := [];
    }

    /** Rows come back in an order the broker does not choose. */
    method List(rows: map<Name, LeaseRecord>) returns (records: seq<LeaseRecord>)
      requires forall id :: id in rows ==> rows[id].lease.id == id
      ensures Lists(records, rows)
    {
      records := [];
      var rest := rows.Keys;
      while rest != {}
        invariant forall i :: 0 <= i < |records| ==>
          records[i].lease.id in rows && rows[records[i].lease.id] == records[i] && records[i].lease.id !in rest
        invariant forall i, j :: 0 <= i < j < |records| ==> records[i].lease.id != records[j].lease.id
        invariant forall id :: id in rest ==> id in rows
        invariant forall id :: id in rows && id !in rest ==> rows[id] in records
        decreases rest
      {
        var id := AnyOf(rest);
        records := records + [rows[id]];
        rest := rest - {id};
      }
    }

    method InsertCapability(cap: Capability, fails: bool) returns (ok: bool)
      modifies this
      ensures ok == (!fails && cap.hash !in old(capabilities) && !Known(old(Snapshot()), cap.id))
      ensures ok ==> Snapshot() == AddCapability(old(Snapshot()), cap) && history == old(history) + [Snapshot()]
      ensures !ok ==> Snapshot() == old(Snapshot()) && history == old(history)
    {
      ok := !fails && cap.hash !in capabilities && !Known(Snapshot(), cap.id);
      if ok {
        capabilities := capabilities[cap.hash := cap];
        history := history + [Snapshot()];
      }
    }

    method InsertLease(record: LeaseRecord, fails: bool) returns (ok: bool)
      modifies this
      ensures ok == (!fails && record.lease.id !in old(leases) && record.capabilityHash in old(capabilities))
      ensures ok ==> Snapshot() == PutLease(old(Snapshot()), record) && history == old(history) + [Snapshot()]
      ensures !ok ==> Snapshot() == old(Snapshot()) && history == old(history)
    {
      ok := !fails && record.lease.id !in leases && record.capabilityHash in capabilities;
      if ok {
        leases := leases[record.lease.id := record];
        history := history + [Snapshot()];
      }
    }

    method UpdateLease(record: LeaseRecord, fails: bool) returns (ok: bool)
      requires record.lease.id in leases
      modifies this
      ensures ok == !fails
      ensures ok ==> Snapshot() == PutLease(old(Snapshot()), record) && history == old(history) + [Snapshot()]
      ensures !ok ==> Snapshot() == old(Snapshot()) && history == old(history)
    {
      ok := !fails;
      if ok {
        leases := leases[record.lease.id := record];
        history := history + [Snapshot()];
      }
    }

    /** Looks the lease up first, as the source does: a missing lease is an error and not a write. */
    method DeleteLease(id: Name, fails: bool) returns (ok: bool)
      modifies this
      ensures ok == (!fails && id in old(leases))
      ensures ok ==> Snapshot() == DropLease(old(Snapshot()), id) && history == old(history) + [Snapshot()]
      ensures !ok ==> Snapshot() == old(Snapshot()) && history == old(history)
    {
      ok := !fails && id in leases;
      if ok {
        leases := leases - {id};
        history := history + [Snapshot()];
      }
    }

    method DeleteCapability(hash: Name, fails: bool) returns (ok: bool)
      modifies this
      ensures ok == !fails
      ensures ok ==> Snapshot() == DropCapability(old(Snapshot()), hash) && history == old(history) + [Snapshot()]
      ensures !ok ==> Snapshot() == old(Snapshot()) && history == old(history)
    {
      ok := !fails;
      if ok {
        var t := DropCapability(Snapshot(), hash);
        capabilities, leases := t.caps, t.leases;
        history := history + [Snapshot()];
      }
    }

    method DeleteExpiredLeases(now: Time, fails: bool) returns (ok: bool)
      modifies this
      ensures ok == !fails
      ensures ok ==> Snapshot() == DropExpiredLeases(old(Snapshot()), now) && history == old(history) + [Snapshot()]
      ensures !ok ==> Snapshot() == old(Snapshot()) && history == old(history)
    {
      ok := !fails;
      if ok {
        leases := ActiveLeases(Snapshot(), now);
        history := history + [Snapshot()];
      }
    }

    method DeleteExpiredCapabilities(now: Time, fails: bool) returns (ok: bool)
      modifies this
      ensures ok == !fails
      ensures ok ==>
        Snapshot() == DropExpiredCapabilities(old(Snapshot()), now) && history == old(history) + [Snapshot()]
      ensures !ok ==> Snapshot() == old(Snapshot()) && history == old(history)
    {
      ok := !fails;
      if ok {
        var t := DropExpiredCapabilities(Snapshot(), now);
        capabilities, leases := t.caps, t.leases;
        history := history + [Snapshot()];
      }
    }
  }
}
