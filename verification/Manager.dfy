/** The broker object: the mutex-protected methods, step by step, each proved to carry out its plan. */
module Manager {
  import opened Pick
  import opened Types
  import opened Tables
  import opened Pool
  import opened Plans
  import opened Safety
  import opened Restart
  import opened Waiting
  import opened Store

  /** The host ports of a list of rows. */
  function ListedPorts(records: seq<LeaseRecord>): set<int> {
    set record, p | record in records && p in Hosts(record) :: p
  }

  lemma ListedPortsGrow(records: seq<LeaseRecord>, record: LeaseRecord)
    ensures ListedPorts(records + [record]) == ListedPorts(records) + Hosts(record)
  {
    var all := records + [record];
    forall p | p in ListedPorts(all) ensures p in ListedPorts(records) + Hosts(record) {
      var r :| r in all && p in Hosts(r);
      assert r in records || r == record;
    }
    forall p | p in ListedPorts(records) + Hosts(record) ensures p in ListedPorts(all) {
      if p in Hosts(record) {
        assert record in all;
      } else {
        var r :| r in records && p in Hosts(r);
        assert r in all;
      }
    }
  }

  lemma ListedPortsAreUsed(records: seq<LeaseRecord>, rows: map<Name, LeaseRecord>)
    requires Lists(records, rows)
    ensures ListedPorts(records) == UsedPorts(rows)
  {
    forall p | p in ListedPorts(records) ensures p in UsedPorts(rows) {
      var r :| r in records && p in Hosts(r);
      var i :| 0 <= i < |records| && records[i] == r;
      assert r.lease.id in rows && p in Hosts(rows[r.lease.id]);
    }
    forall p | p in UsedPorts(rows) ensures p in ListedPorts(records) {
      var id :| id in rows && p in Hosts(rows[id]);
      assert rows[id] in records;
    }
  }

  /** Whose ports a quota counts: a user's, or those of one run of a user. */
  predicate Owns(record: LeaseRecord, userID: Name, runID: Option<Name>) {
    record.lease.userID == userID && (runID.Some? ==> record.lease.runID == runID.value)
  }

  function OwnedPorts(records: seq<LeaseRecord>, userID: Name, runID: Option<Name>): set<int> {
    set record, p | record in records && Owns(record, userID, runID) && p in Hosts(record) :: p
  }

  function OwnerRows(rows: map<Name, LeaseRecord>, userID: Name, runID: Option<Name>): map<Name, LeaseRecord> {
    if runID.None? then UserRows(rows, userID) else RunRows(rows, userID, runID.value)
  }

  /** The rows are distinct, each with distinct ports, and share none. */
  ghost predicate Countable(records: seq<LeaseRecord>, rows: map<Name, LeaseRecord>) {
    && Lists(records, rows) && Exclusive(rows)
    && forall i :: 0 <= i < |records| ==> DistinctHosts(records[i].lease.ports)
  }

  lemma OwnedPortsCount(records: seq<LeaseRecord>, rows: map<Name, LeaseRecord>, i: nat, userID: Name,
                        runID: Option<Name>)
    requires Countable(records, rows) && i < |records|
    ensures |OwnedPorts(records[..i + 1], userID, runID)|
      == |OwnedPorts(records[..i], userID, runID)|
        + if Owns(records[i], userID, runID) then |records[i].lease.ports| else 0
  {
    var a, b, record := OwnedPorts(records[..i], userID, runID), OwnedPorts(records[..i + 1], userID, runID),
      records[i];
    assert records[..i + 1] == records[..i] + [record];
    OwnedPortsGrow(records[..i], record, userID, runID);
    assert a !! Hosts(record) by { ListedDisjoint(records, rows, i, userID, runID); }
    HostPortsSize(record.lease.ports);
  }

  lemma OwnedPortsGrow(records: seq<LeaseRecord>, record: LeaseRecord, userID: Name, runID: Option<Name>)
    ensures OwnedPorts(records + [record], userID, runID)
      == OwnedPorts(records, userID, runID) + if Owns(record, userID, runID) then Hosts(record) else {}
  {
    var all := records + [record];
    var a, b := OwnedPorts(records, userID, runID), OwnedPorts(all, userID, runID);
    var more := if Owns(record, userID, runID) then Hosts(record) else {};
    forall p | p in b ensures p in a + more {
      var r :| r in all && Owns(r, userID, runID) && p in Hosts(r);
      assert r in records || r == record;
    }
    forall p | p in a + more ensures p in b {
      if p in a {
        var r :| r in records && Owns(r, userID, runID) && p in Hosts(r);
        assert r in all;
      } else {
        assert record in all;
      }
    }
  }

  lemma ListedDisjoint(records: seq<LeaseRecord>, rows: map<Name, LeaseRecord>, i: nat, userID: Name,
                       runID: Option<Name>)
    requires Countable(records, rows) && i < |records|
    ensures OwnedPorts(records[..i], userID, runID) !! Hosts(records[i])
  {
    forall p | p in OwnedPorts(records[..i], userID, runID) ensures p !in Hosts(records[i]) {
      var r :| r in records[..i] && Owns(r, userID, runID) && p in Hosts(r);
      var k :| 0 <= k < i && records[k] == r;
      assert records[k].lease.id != records[i].lease.id;
      assert rows[r.lease.id] == r && rows[records[i].lease.id] == records[i];
    }
  }

  /** The lengths of the port lists of the rows a quota counts, added up. */
  function SumPorts(records: seq<LeaseRecord>, userID: Name, runID: Option<Name>): nat {
    if records == [] then 0
    else
      var last := records[|records| - 1];
      SumPorts(records[..|records| - 1], userID, runID) + if Owns(last, userID, runID) then |last.lease.ports| else 0
  }

  /** Distinct rows with distinct ports: the sum of the lengths is the number of ports. */
  lemma {:induction false} SumIsCount(records: seq<LeaseRecord>, rows: map<Name, LeaseRecord>, i: nat, userID: Name,
                                      runID: Option<Name>)
    requires Countable(records, rows) && i <= |records|
    ensures SumPorts(records[..i], userID, runID) == |OwnedPorts(records[..i], userID, runID)|
  {
    if i > 0 {
      SumIsCount(records, rows, i - 1, userID, runID);
      OwnedPortsCount(records, rows, i - 1, userID, runID);
      assert records[..i][..i - 1] == records[..i - 1];
    }
  }

  lemma OwnedPortsAreCounted(records: seq<LeaseRecord>, rows: map<Name, LeaseRecord>, userID: Name, runID: Option<Name>)
    requires Lists(records, rows)
    ensures OwnedPorts(records, userID, runID) == UsedPorts(OwnerRows(rows, userID, runID))
  {
    var owner := OwnerRows(rows, userID, runID);
    forall p | p in OwnedPorts(records, userID, runID) ensures p in UsedPorts(owner) {
      var r :| r in records && Owns(r, userID, runID) && p in Hosts(r);
      var i :| 0 <= i < |records| && records[i] == r;
      assert r.lease.id in owner && p in Hosts(owner[r.lease.id]);
    }
    forall p | p in UsedPorts(owner) ensures p in OwnedPorts(records, userID, runID) {
      var id :| id in owner && p in Hosts(owner[id]);
      assert rows[id] in records;
    }
  }

  lemma ListingSize(records: seq<LeaseRecord>, rows: map<Name, LeaseRecord>)
    requires Lists(records, rows)
    ensures |records| > 0 <==> |rows| > 0
  {
    if |rows| > 0 {
      var id := SomeMember(rows.Keys);
      assert rows[id] in records;
    }
    if |records| > 0 {
      assert records[0].lease.id in rows;
    }
  }

  lemma ReapKeepsUniqueIds(s: State, now: Time, faults: set<Fallible>)
    requires UniqueIds(s.tables.caps)
    ensures UniqueIds(ReapPlan(s, now, faults).end.tables.caps)
  {
  }

  /** A reap that does not fail leaves the unexpired rows. */
  lemma ReapIsDone(s: State, now: Time, faults: set<Fallible>)
    requires Safe(s) && !ReapPlan(s, now, faults).reply.Failed?
    ensures var reap := ReapPlan(s, now, faults);
      reap.reply == Done && ActiveLeases(reap.end.tables, now) == reap.end.tables.leases
  {
    ReapedLeases(s.tables, now);
  }

  lemma ExpiredAreKeyed(t: Tables, now: Time)
    requires Consistent(t)
    ensures forall id :: id in ExpiredLeases(t, now) ==> ExpiredLeases(t, now)[id].lease.id == id
  {
    assert forall id :: id in t.leases ==> GoodRow(t, id);
  }

  lemma ActiveAreKeyed(t: Tables, now: Time)
    requires Consistent(t)
    ensures forall id :: id in ActiveLeases(t, now) ==> ActiveLeases(t, now)[id].lease.id == id
  {
    assert forall id :: id in t.leases ==> GoodRow(t, id);
  }

  lemma ActiveAreCountable(t: Tables, now: Time, active: seq<LeaseRecord>)
    requires Consistent(t) && Lists(active, ActiveLeases(t, now))
    ensures Countable(active, ActiveLeases(t, now))
  {
    assert forall id :: id in t.leases ==> GoodRow(t, id);
  }

  lemma NoPorts()
    ensures HostPorts([]) == {} && forall targets :: PairPorts([], targets) == []
  {
    assert forall targets :: |PairPorts([], targets)| == 0;
  }

  lemma FreeIff(cfg: Config, used: set<int>, held: set<int>, bindable: set<int>, p: int)
    ensures p in FreePorts(cfg, used, held, bindable) <==>
      p in bindable && cfg.portStart <= p <= cfg.portEnd && p !in used && p !in held
  {
  }

  /** One step of the scan: the port is taken when it is free, and skipped otherwise. */
  lemma ScanStep(free: set<int>, lo: int, hi: int, n: nat, listeners: seq<int>)
    requires lo <= hi && |listeners| < n
    ensures listeners + Lowest(free, lo, hi, n - |listeners|) ==
      if lo in free then (listeners + [lo]) + Lowest(free, lo + 1, hi, n - |listeners| - 1)
      else listeners + Lowest(free, lo + 1, hi, n - |listeners|)
  {
  }

  lemma ScanEnds(free: set<int>, lo: int, hi: int, n: nat, listeners: seq<int>)
    requires |listeners| <= n && (lo > hi || |listeners| == n)
    ensures listeners + Lowest(free, lo, hi, n - |listeners|) == listeners
  {
  }

  lemma PairNext(listeners: seq<int>, targets: seq<int>, p: int)
    requires |listeners| < |targets|
    ensures PairPorts(listeners + [p], targets) == PairPorts(listeners, targets) + [Port(p, targets[|listeners|])]
    ensures HostPorts(PairPorts(listeners + [p], targets)) == HostPorts(PairPorts(listeners, targets)) + {p}
  {
    var ports := PairPorts(listeners, targets);
    assert PairPorts(listeners + [p], targets) == ports + [Port(p, targets[|listeners|])];
    PrefixHosts(ports + [Port(p, targets[|listeners|])], |ports|);
    assert (ports + [Port(p, targets[|listeners|])])[..|ports|] == ports;
    assert (ports + [Port(p, targets[|listeners|])])[..|ports| + 1] == ports + [Port(p, targets[|listeners|])];
  }

  /** What follows a reap does not depend on the writes before it. */
  lemma ChooseFrom(cfg: Config, reap: Plan, cap: Capability, targets: seq<int>, ttl: Duration, now: Time, id: Name,
                   env: Env)
    requires reap.reply.Done?
    ensures var a := ChoosePlan(cfg, reap, cap, targets, ttl, now, id, env);
      var b := ChoosePlan(cfg, Plan(reap.end, [], Done), cap, targets, ttl, now, id, env);
      a.end == b.end && a.reply == b.reply && a.writes == reap.writes + b.writes
  {
  }

  lemma PrefixPorts(ports: seq<Port>, i: nat)
    requires i <= |ports|
    ensures HostPorts(ports[..i]) <= HostPorts(ports)
  {
    forall p | p in HostPorts(ports[..i]) ensures p in HostPorts(ports) {
      var port :| port in ports[..i] && port.hostPort == p;
      assert port in ports;
    }
  }

  lemma PrefixHosts(ports: seq<Port>, i: nat)
    requires i < |ports|
    ensures HostPorts(ports[..i + 1]) == HostPorts(ports[..i]) + {ports[i].hostPort}
  {
    assert ports[..i + 1] == ports[..i] + [ports[i]];
  }

  /** Starting the next forwarder extends the forwarders started so far. */
  lemma PrefixForwards(proxies: map<int, Endpoint>, host: Name, ports: seq<Port>, i: nat)
    requires i < |ports|
    ensures (proxies + Forwards(host, ports[..i]))[ports[i].hostPort := Endpoint(host, ports[i].targetPort)]
      == proxies + Forwards(host, ports[..i + 1])
  {
    var all := ports[..i + 1];
    assert all[..|all| - 1] == ports[..i];
  }

  /** Closing a row's ports undoes the forwarders started for a part of it. */
  lemma CloseStarted(proxies: map<int, Endpoint>, host: Name, ports: seq<Port>, i: nat)
    requires i <= |ports|
    ensures (proxies + Forwards(host, ports[..i])) - HostPorts(ports) == proxies - HostPorts(ports)
  {
    PrefixPorts(ports, i);
  }

  /** The first `i` ports of the row can be bound in order. */
  ghost predicate BindableUpTo(ports: seq<Port>, i: nat, held: set<int>, bindable: set<int>)
    requires i <= |ports|
  {
    && (forall j, k :: 0 <= j < k < i ==> ports[j].hostPort != ports[k].hostPort)
    && (forall j :: 0 <= j < i ==> ports[j].hostPort in bindable && ports[j].hostPort !in held)
  }

  /** The next port is free to bind exactly when it extends the part bound so far. */
  lemma BindNext(ports: seq<Port>, i: nat, held: set<int>, bindable: set<int>)
    requires i < |ports| && BindableUpTo(ports, i, held, bindable)
    ensures BindableUpTo(ports, i + 1, held, bindable)
      <==> ports[i].hostPort in bindable && ports[i].hostPort !in held && ports[i].hostPort !in HostPorts(ports[..i])
  {
    if ports[i].hostPort in HostPorts(ports[..i]) {
      var port :| port in ports[..i] && port.hostPort == ports[i].hostPort;
      var j :| 0 <= j < i && ports[j] == port;
    } else {
      forall j | 0 <= j < i ensures ports[j].hostPort != ports[i].hostPort {
        assert ports[..i][j] == ports[j];
      }
    }
  }

  lemma BindStops(record: LeaseRecord, i: nat, held: set<int>, bindable: set<int>)
    requires i <= |record.lease.ports| && !BindableUpTo(record.lease.ports, i, held, bindable)
    ensures !Restorable(record, held, bindable)
  {
    BindableMeansRestorable(record, held, bindable);
  }

  lemma BindableMeansRestorable(record: LeaseRecord, held: set<int>, bindable: set<int>)
    ensures Restorable(record, held, bindable) <==>
      BindableUpTo(record.lease.ports, |record.lease.ports|, held, bindable)
  {
    var ports := record.lease.ports;
    if Restorable(record, held, bindable) {
      forall j | 0 <= j < |ports| ensures ports[j].hostPort in bindable && ports[j].hostPort !in held {
        assert ports[j] in ports;
        assert ports[j].hostPort in Hosts(record);
      }
    }
  }

  lemma OpenStopsEarly(t: Tables, t1: Time, records: seq<LeaseRecord>, env: Env)
    requires ReapPlan(Fresh(t), t1, env.faults).reply.Failed? || ReadActive in env.faults
    ensures !StoreOpens(env)
    ensures var reap := ReapPlan(Fresh(t), t1, env.faults);
      OpenPlan(t, t1, records, env) == if reap.reply.Failed? then reap else reap.(reply := Failed(StoreError))
  {
  }

  lemma OpenGoesOn(t: Tables, t1: Time, records: seq<LeaseRecord>, env: Env, history: seq<Tables>)
    requires !ReapPlan(Fresh(t), t1, env.faults).reply.Failed? && ReadActive !in env.faults
    ensures var reap := ReapPlan(Fresh(t), t1, env.faults);
      var restore := RestorePlan(reap.end, records, env);
      var plan := OpenPlan(t, t1, records, env);
      && plan.end == restore.end && plan.reply == restore.reply
      && history + reap.writes + restore.writes == history + plan.writes
  {
  }

  lemma ReapOpensNothing(t: Tables, now: Time, faults: set<Fallible>)
    ensures ReapPlan(Fresh(t), now, faults).end.proxies == map[]
  {
  }

  class Manager {
    const config: Config
    const store: Database
    var proxies: map<int, Endpoint>

    /** The listening sockets this process holds. */
    var sockets: set<int>

    /** How many times the `changed` channel has been closed and replaced. */
    var changed: nat

    function State(): State
      reads this, store
    {
      Plans.State(store.Snapshot(), proxies, changed)
    }

    /** When the mutex is free the state is safe and exactly the forwarded ports have a listening socket. */
    ghost predicate Valid()
      reads this, store
    {
      Safe(State()) && UniqueIds(store.capabilities) && sockets == proxies.Keys
    }

    /** A broker over an opened store, before it restores its forwarders. */
    constructor (config: Config, store: Database)
      ensures this.config == config && this.store == store && State() == Fresh(store.Snapshot()) && sockets == {}
    {
      this.config, this.store := config, store;
      proxies, sockets, changed := map[], {}, 0;
    }

    method CloseLeaseProxies(record: LeaseRecord)
      modifies this`proxies, this`sockets
      ensures proxies == old(proxies) - Hosts(record)
      ensures sockets == old(sockets) - (Hosts(record) * old(proxies.Keys))
    {
      var ports := record.lease.ports;
      for i := 0 to |ports|
        invariant proxies == old(proxies) - HostPorts(ports[..i])
        invariant sockets == old(sockets) - (HostPorts(ports[..i]) * old(proxies.Keys))
      {
        var p := ports[i].hostPort;
        PrefixHosts(ports, i);
        if p in proxies {
          sockets := sockets - {p};
          proxies := proxies - {p};
        }
      }
      assert ports[..|ports|] == ports;
    }

    method SignalChangedLocked()
      modifies this`changed
      ensures changed == old(changed) + 1
    {
      changed := changed + 1;
    }

    /** Closes the forwarders of every listed row. */
    method CloseAll(records: seq<LeaseRecord>)
      requires sockets == proxies.Keys
      modifies this`proxies, this`sockets
      ensures proxies == old(proxies) - ListedPorts(records) && sockets == proxies.Keys
    {
      for i := 0 to |records|
        invariant proxies == old(proxies) - ListedPorts(records[..i]) && sockets == proxies.Keys
      {
        assert records[..i + 1] == records[..i] + [records[i]];
        ListedPortsGrow(records[..i], records[i]);
        CloseLeaseProxies(records[i]);
      }
      assert records[..|records|] == records;
    }

    method RemoveExpiredLocked(now: Time, faults: set<Fallible>) returns (reply: Reply)
      requires Valid()
      modifies this, store
      ensures var plan := ReapPlan(old(State()), now, faults);
        State() == plan.end && reply == plan.reply && store.history == old(store.history) + plan.writes
      ensures Valid()
    {
      hide Safe, UniqueIds, UsedPorts, ListedPorts, Lists, ExpiredLeases, ActiveLeases, DropExpiredCapabilities;
      ghost var s := State();
      assert Safe(ReapPlan(s, now, faults).end) by { ReapKeepsSafe(s, now, faults); }
      if ReadExpired in faults { return Failed(StoreError); }
      var expired := ExpiredLeases(store.Snapshot(), now);
      ReapKeepsUniqueIds(s, now, faults);
      assert Consistent(s.tables) by { SafeIsConsistent(s); }
      ExpiredAreKeyed(s.tables, now);
      var records := store.List(expired);
      ListedPortsAreUsed(records, expired);
      ListingSize(records, expired);
      CloseAll(records);
      var ok := store.DeleteExpiredLeases(now, PurgeLeases in faults);
      if !ok { return Failed(StoreError); }
      ok := store.DeleteExpiredCapabilities(now, PurgeCapabilities in faults);
      if !ok { return Failed(StoreError); }
      if |records| > 0 { SignalChangedLocked(); }
      return Done;
    }

    /** Counts the ports of the listed rows and compares with the quotas. */
    method CheckLimits(cap: Capability, requested: nat, active: seq<LeaseRecord>, ghost rows: map<Name, LeaseRecord>)
      returns (err: Option<Error>)
      requires Countable(active, rows)
      ensures err == Some(RunLimit) <==>
        SumPorts(active, cap.userID, Some(cap.runID)) + requested > config.maximumRun
      ensures err == Some(UserLimit) <==>
        && SumPorts(active, cap.userID, Some(cap.runID)) + requested <= config.maximumRun
        && SumPorts(active, cap.userID, None) + requested > config.maximumUser
      ensures err == LimitError(config, cap, requested, rows)
    {
      var runCount, userCount := 0, 0;
      for i := 0 to |active|
        invariant userCount == SumPorts(active[..i], cap.userID, None)
        invariant runCount == SumPorts(active[..i], cap.userID, Some(cap.runID))
      {
        assert active[..i + 1][..i] == active[..i];
        if active[i].lease.userID == cap.userID {
          userCount := userCount + |active[i].lease.ports|;
          if active[i].lease.runID == cap.runID {
            runCount := runCount + |active[i].lease.ports|;
          }
        }
      }
      assert active[..|active|] == active;
      SumIsCount(active, rows, |active|, cap.userID, None);
      SumIsCount(active, rows, |active|, cap.userID, Some(cap.runID));
      OwnedPortsAreCounted(active, rows, cap.userID, None);
      OwnedPortsAreCounted(active, rows, cap.userID, Some(cap.runID));
      if runCount + requested > config.maximumRun {
        err := Some(RunLimit);
      } else if userCount + requested > config.maximumUser {
        err := Some(UserLimit);
      } else {
        err := None;
      }
    }

    method UsedBy(active: seq<LeaseRecord>) returns (used: set<int>)
      ensures used == ListedPorts(active)
    {
      used := {};
      for i := 0 to |active|
        invariant used == ListedPorts(active[..i])
      {
        ghost var before := used;
        var ports := active[i].lease.ports;
        for j := 0 to |ports|
          invariant used == before + HostPorts(ports[..j])
        {
          PrefixHosts(ports, j);
          used := used + {ports[j].hostPort};
        }
        assert ports[..|ports|] == ports;
        assert active[..i + 1] == active[..i] + [active[i]];
        ListedPortsGrow(active[..i], active[i]);
      }
      assert active[..|active|] == active;
    }

    method CloseListeners(ports: seq<Port>)
      modifies this`sockets
      ensures sockets == old(sockets) - HostPorts(ports)
    {
      for i := 0 to |ports|
        invariant sockets == old(sockets) - HostPorts(ports[..i])
      {
        PrefixHosts(ports, i);
        sockets := sockets - {ports[i].hostPort};
      }
      assert ports[..|ports|] == ports;
    }

    /**
     Scans the range upwards, skipping used ports and ports that cannot be bound. When too few are found every
     listener it opened is closed again.
     */
    method ReserveListeners(targets: seq<int>, active: seq<LeaseRecord>, bindable: set<int>, ghost rows: map<Name,
                            LeaseRecord>)
      returns (ok: bool, ports: seq<Port>)
      requires Lists(active, rows) && sockets == proxies.Keys
      modifies this`sockets
      ensures var hosts := Choice(config, State(), |targets|, rows, bindable);
        && ok == (|hosts| == |targets|)
        && (ok ==> ports == PairPorts(hosts, targets) && sockets == proxies.Keys + HostPorts(ports))
        && (!ok ==> ports == [] && sockets == proxies.Keys)
    {
      hide Lowest, PairPorts, UsedPorts, HostPorts, FreePorts, Lists;
      ListedPortsAreUsed(active, rows);
      NoPorts();
      var used := UsedBy(active);
      ghost var held := proxies.Keys;
      ghost var free := FreePorts(config, used, held, bindable);
      var listeners: seq<int> := [];
      ports := [];
      var hostPort := config.portStart;
      while hostPort <= config.portEnd && |ports| < |targets|
        invariant |ports| == |listeners| <= |targets| && ports == PairPorts(listeners, targets)
        invariant listeners + Lowest(free, hostPort, config.portEnd, |targets| - |listeners|)
          == Lowest(free, config.portStart, config.portEnd, |targets|)
        invariant HostPorts(ports) !! held && forall p :: p in HostPorts(ports) ==> p < hostPort
        invariant config.portStart <= hostPort
        invariant sockets == held + HostPorts(ports)
        decreases config.portEnd - hostPort
      {
        FreeIff(config, used, held, bindable, hostPort);
        ScanStep(free, hostPort, config.portEnd, |targets|, listeners);
        if hostPort !in used && hostPort in bindable && hostPort !in sockets {
          assert hostPort in free;
          PairNext(listeners, targets, hostPort);
          sockets := sockets + {hostPort};
          ports := ports + [Port(hostPort, targets[|ports|])];
          listeners := listeners + [hostPort];
        } else {
          assert hostPort !in free;
        }
        hostPort := hostPort + 1;
      }
      ScanEnds(free, hostPort, config.portEnd, |targets|, listeners);
      ok := |ports| == |targets|;
      if !ok {
        AddThenRemove(held, HostPorts(ports));
        CloseListeners(ports);
        ports := [];
      }
    }

    /** Starts a forwarder on each listener of a row. */
    method StartProxies(record: LeaseRecord)
      modifies this`proxies
      ensures proxies == old(proxies) + RowForwards(record)
    {
      var ports, host := record.lease.ports, record.lease.targetHost;
      for i := 0 to |ports|
        invariant proxies == old(proxies) + Forwards(host, ports[..i])
      {
        PrefixForwards(old(proxies), host, ports, i);
        proxies := proxies[ports[i].hostPort := Endpoint(host, ports[i].targetPort)];
      }
      assert ports[..|ports|] == ports;
    }

    /** The rest of an allocation, once its listeners are open: draw an identifier, write the row, start forwarding. */
    method Grant(cap: Capability, ports: seq<Port>, ttl: Duration, now: Time, id: Name, env: Env) returns (reply: Reply)
      requires sockets == proxies.Keys + HostPorts(ports) && HostPorts(ports) !! proxies.Keys
      modifies this, store
      ensures sockets == proxies.Keys && store.capabilities == old(store.capabilities)
      ensures var plan := GrantPlan(Plan(old(State()), [], Done), NewRecord(cap, ports, ttl, now, id), env);
        if DrawID in env.faults then
          State() == old(State()) && reply == Failed(RandomError) && store.history == old(store.history)
        else State() == plan.end && reply == plan.reply && store.history == old(store.history) + plan.writes
    {
      AddThenRemove(proxies.Keys, HostPorts(ports));
      if DrawID in env.faults {
        CloseListeners(ports);
        return Failed(RandomError);
      }
      var record := NewRecord(cap, ports, ttl, now, id);
      var ok := store.InsertLease(record, WriteLease in env.faults);
      if !ok {
        CloseListeners(ports);
        return Failed(StoreError);
      }
      StartProxies(record);
      return Granted(record.lease);
    }

    /** The part of an attempt after its reap: limits, ports, and the grant. */
    method Choose(cap: Capability, targets: seq<int>, ttl: Duration, now: Time, id: Name,
                  env: Env) returns (reply: Reply)
      requires Valid() && ActiveLeases(store.Snapshot(), now) == store.leases
      modifies this, store
      ensures sockets == proxies.Keys && store.capabilities == old(store.capabilities)
      ensures var plan := ChoosePlan(config, Plan(old(State()), [], Done), cap, targets, ttl, now, id, env);
        State() == plan.end && reply == plan.reply && store.history == old(store.history) + plan.writes
    {
      if ReadActive in env.faults { return Failed(StoreError); }
      var rows := ActiveLeases(store.Snapshot(), now);
      ActiveAreKeyed(store.Snapshot(), now);
      var active := store.List(rows);
      ActiveAreCountable(store.Snapshot(), now, active);
      var limit := CheckLimits(cap, |targets|, active, rows);
      if limit.Some? { return Failed(limit.value); }
      ghost var hosts := Choice(config, State(), |targets|, rows, env.bindable);
      ChoiceIsFree(config, State(), |targets|, rows, env.bindable);
      var ok, ports := ReserveListeners(targets, active, env.bindable, rows);
      if !ok { return Failed(Exhausted); }
      AscendingPairsAreDistinct(hosts, targets);
      reply := Grant(cap, ports, ttl, now, id, env);
    }

    /** The critical section of an allocation once its capability is known to be live. */
    method ReapThenChoose(cap: Capability, targets: seq<int>, ttl: Duration, now: Time, id: Name,
                          env: Env) returns (reply: Reply)
      requires Valid()
      modifies this, store
      ensures var reap := ReapPlan(old(State()), now, env.faults);
        var plan := if reap.reply.Failed? then reap else ChoosePlan(config, reap, cap, targets, ttl, now, id, env);
        State() == plan.end && reply == plan.reply && store.history == old(store.history) + plan.writes
      ensures sockets == proxies.Keys && UniqueIds(store.capabilities)
    {
      hide ChoosePlan, ReapPlan, Safe, ActiveLeases, UniqueIds;
      ghost var s, reap := State(), ReapPlan(State(), now, env.faults);
      reply := RemoveExpiredLocked(now, env.faults);
      if reply.Failed? { return; }
      ReapIsDone(s, now, env.faults);
      ChooseFrom(config, reap, cap, targets, ttl, now, id, env);
      reply := Choose(cap, targets, ttl, now, id, env);
    }

    /** One pass through the critical section of an allocation. */
    method AllocateOnce(cap: Capability, targets: seq<int>, ttl: Duration, now: Time, id: Name,
                        env: Env) returns (reply: Reply)
      requires Valid() && Genuine(store.Snapshot(), cap) && now >= ZERO_TIME && targets != [] && ttl > 0
      modifies this, store
      ensures var plan := AttemptPlan(config, old(State()), cap, targets, ttl, now, id, env);
        State() == plan.end && reply == plan.reply && store.history == old(store.history) + plan.writes
      ensures Valid()
    {
      ghost var s := State();
      assert Safe(AttemptPlan(config, s, cap, targets, ttl, now, id, env).end) by {
        AttemptKeepsSafe(config, s, cap, targets, ttl, now, id, env);
      }
      if ReadCapability in env.faults { return Failed(StoreError); }
      if !Live(store.Snapshot(), cap.hash, now) { return Failed(Forbidden); }
      reply := ReapThenChoose(cap, targets, ttl, now, id, env);
    }

    /** Reads the clock three times while it holds the mutex. */
    method Renew(cap: Capability, leaseID: Name, ttl: Duration, t1: Time, t2: Time, t3: Time,
                 faults: set<Fallible>) returns (reply: Reply)
      requires Valid() && Genuine(store.Snapshot(), cap) && t1 >= ZERO_TIME && t3 >= ZERO_TIME
      modifies store
      ensures var plan := RenewPlan(config, old(State()), cap, leaseID, ttl, t1, t2, t3, faults);
        State() == plan.end && reply == plan.reply && store.history == old(store.history) + plan.writes
      ensures Valid()
    {
      ghost var s := State();
      assert Safe(RenewPlan(config, s, cap, leaseID, ttl, t1, t2, t3, faults).end) by {
        RenewKeepsSafe(config, s, cap, leaseID, ttl, t1, t2, t3, faults);
      }
      if ttl <= 0 || ttl > config.maximumTTL { return Failed(InvalidRequest); }
      if ReadCapability in faults { return Failed(StoreError); }
      if !Live(store.Snapshot(), cap.hash, t1) { return Failed(Forbidden); }
      if ReadLease in faults { return Failed(StoreError); }
      if leaseID !in store.leases { return Failed(NotFound); }
      var record := store.leases[leaseID];
      if record.capabilityHash != cap.hash || record.lease.expiresAt <= t2 { return Failed(NotFound); }
      record := record.(lease := record.lease.(expiresAt := MinimumTime(t3 + ttl, cap.expiresAt)));
      assert GoodRow(s.tables, leaseID);
      var ok := store.UpdateLease(record, ExtendLease in faults);
      if !ok { return Failed(StoreError); }
      return Granted(record.lease);
    }

    method ReleaseWhere(leaseID: Name, hash: Name, faults: set<Fallible>) returns (reply: Reply)
      requires Valid()
      modifies this, store
      ensures var plan := ReleasePlan(old(State()), leaseID, hash, faults);
        State() == plan.end && reply == plan.reply && store.history == old(store.history) + plan.writes
      ensures Valid()
    {
      ghost var s := State();
      assert Safe(ReleasePlan(s, leaseID, hash, faults).end) by { ReleaseKeepsSafe(s, leaseID, hash, faults); }
      if ReadLease in faults { return Failed(StoreError); }
      if leaseID !in store.leases { return Failed(NotFound); }
      var record := store.leases[leaseID];
      if hash != NO_NAME && record.capabilityHash != hash { return Failed(NotFound); }
      var ok := store.DeleteLease(leaseID, EraseLease(leaseID) in faults);
      if !ok { return Failed(StoreError); }
      CloseLeaseProxies(record);
      SignalChangedLocked();
      return Done;
    }

    /** The forwarders are closed before the capability, and its leases with it, are deleted. */
    method RevokeCapability(capID: Name, faults: set<Fallible>) returns (reply: Reply)
      requires Valid()
      modifies this, store
      ensures var plan := RevokePlan(old(State()), capID, faults);
        State() == plan.end && reply == plan.reply && store.history == old(store.history) + plan.writes
      ensures Valid()
    {
      ghost var s := State();
      if ReadCapabilityByID in faults { return Failed(StoreError); }
      if !Known(store.Snapshot(), capID) { return Failed(NotFound); }
      var hash :| hash in store.capabilities && store.capabilities[hash].id == capID;
      assert hash == HashOf(s.tables, capID);
      RevokeHashKeepsSafe(s, hash, faults);
      if ReadOwned in faults { return Failed(StoreError); }
      var owned := LeasesForCapability(store.Snapshot(), hash, ZERO_TIME);
      assert forall k :: k in owned ==> GoodRow(s.tables, k);
      var records := store.List(owned);
      ListedPortsAreUsed(records, owned);
      CloseAll(records);
      var ok := store.DeleteCapability(hash, EraseCapability in faults);
      if !ok { return Failed(StoreError); }
      SignalChangedLocked();
      return Done;
    }

    method IssueCapability(cap: Capability, hostValid: bool, now: Time, ttl: Duration,
                           faults: set<Fallible>) returns (reply: Reply)
      requires Valid()
      modifies store
      ensures var plan := IssuePlan(config, old(State()), cap, hostValid, now, ttl, faults);
        State() == plan.end && reply == plan.reply && store.history == old(store.history) + plan.writes
      ensures Valid()
    {
      ghost var s := State();
      assert Safe(IssuePlan(config, s, cap, hostValid, now, ttl, faults).end) by {
        IssueKeepsSafe(config, s, cap, hostValid, now, ttl, faults);
      }
      if cap.userID == NO_NAME || cap.runID == NO_NAME || cap.workspaceID == NO_NAME || !hostValid {
        return Failed(InvalidRequest);
      }
      if ttl <= 0 || ttl > config.maximumTTL { return Failed(InvalidRequest); }
      if DrawID in faults { return Failed(RandomError); }
      var ok := store.InsertCapability(cap.(expiresAt := now + ttl), WriteCapability in faults);
      if !ok { return Failed(StoreError); }
      return Done;
    }

    method Reap(now: Time, faults: set<Fallible>) returns (reply: Reply)
      requires Valid()
      modifies this, store
      ensures var plan := ReapPlan(old(State()), now, faults);
        State() == plan.end && reply == plan.reply && store.history == old(store.history) + plan.writes
      ensures Valid()
    {
      reply := RemoveExpiredLocked(now, faults);
    }

    /** The caller's active leases. */
    method List(cap: Capability, now: Time) returns (records: seq<LeaseRecord>)
      requires Valid()
      ensures Lists(records, LeasesForCapability(store.Snapshot(), cap.hash, now))
    {
      assert forall k :: k in store.leases ==> GoodRow(store.Snapshot(), k);
      records := store.List(LeasesForCapability(store.Snapshot(), cap.hash, now));
    }

    /** Every active lease. */
    method ListAll(now: Time) returns (records: seq<LeaseRecord>)
      requires Valid()
      ensures Lists(records, ActiveLeases(store.Snapshot(), now))
    {
      assert forall k :: k in store.leases ==> GoodRow(store.Snapshot(), k);
      records := store.List(ActiveLeases(store.Snapshot(), now));
    }

    // ----- restoring

    /** Binds the ports of a row one by one and starts their forwarders, up to the first that cannot be bound. */
    method BindAll(record: LeaseRecord, bindable: set<int>) returns (bound: bool)
      requires sockets == proxies.Keys
      modifies this`proxies, this`sockets
      ensures bound == Restorable(record, old(proxies.Keys), bindable)
      ensures bound ==> proxies == old(proxies) + RowForwards(record)
      ensures proxies - Hosts(record) == old(proxies) - Hosts(record)
      ensures sockets == proxies.Keys
    {
      var ports, host := record.lease.ports, record.lease.targetHost;
      ghost var held := proxies.Keys;
      for i := 0 to |ports|
        invariant proxies == old(proxies) + Forwards(host, ports[..i]) && sockets == proxies.Keys
        invariant BindableUpTo(ports, i, held, bindable)
      {
        var p := ports[i].hostPort;
        BindNext(ports, i, held, bindable);
        assert p in sockets <==> p in held || p in HostPorts(ports[..i]);
        if p !in bindable || p in sockets {
          BindStops(record, i + 1, held, bindable);
          CloseStarted(old(proxies), host, ports, i);
          return false;
        }
        PrefixForwards(old(proxies), host, ports, i);
        sockets := sockets + {p};
        proxies := proxies[p := Endpoint(host, ports[i].targetPort)];
      }
      assert ports[..|ports|] == ports;
      BindableMeansRestorable(record, held, bindable);
      CloseStarted(old(proxies), host, ports, |ports|);
      return true;
    }

    /** Restores one row; when a port cannot be bound, closes what was opened and deletes the row. */
    method RestoreOne(record: LeaseRecord, env: Env, last: Reply) returns (reply: Reply)
      requires sockets == proxies.Keys && record.lease.id in store.leases
      modifies this, store
      ensures var plan := RestoreRow(Plan(old(State()), [], last), record, env);
        State() == plan.end && reply == plan.reply && store.history == old(store.history) + plan.writes
      ensures sockets == proxies.Keys && store.capabilities == old(store.capabilities)
    {
      var bound := BindAll(record, env.bindable);
      if record.lease.ports == [] { return last; }
      if !bound {
        CloseLeaseProxies(record);
        var _ := store.DeleteLease(record.lease.id, EraseLease(record.lease.id) in env.faults);
        return Failed(BindError);
      }
      return Done;
    }

    /** Restores the listed rows in order. */
    method RestoreAll(records: seq<LeaseRecord>, env: Env) returns (reply: Reply)
      requires sockets == proxies.Keys && Picks(records, store.leases)
      modifies this, store
      ensures var plan := RestorePlan(old(State()), records, env);
        State() == plan.end && reply == plan.reply && store.history == old(store.history) + plan.writes
      ensures sockets == proxies.Keys && store.capabilities == old(store.capabilities)
    {
      ghost var s := State();
      reply := Done;
      for i := 0 to |records|
        invariant sockets == proxies.Keys && store.capabilities == old(store.capabilities)
        invariant var plan := RestorePlan(s, records[..i], env);
          State() == plan.end && reply == plan.reply && store.history == old(store.history) + plan.writes
        invariant forall k :: i <= k < |records| ==> records[k].lease.id in store.leases
      {
        ghost var before := RestorePlan(s, records[..i], env);
        assert records[..i + 1][..i] == records[..i];
        reply := RestoreOne(records[i], env, reply);
      }
      assert records[..|records|] == records;
    }

    /** Lists the active rows and restores them. */
    method RestoreListed(now: Time, env: Env) returns (reply: Reply, records: seq<LeaseRecord>)
      requires Valid() && proxies == map[]
      modifies this, store
      ensures Lists(records, ActiveLeases(old(store.Snapshot()), now))
      ensures var plan := RestorePlan(old(State()), records, env);
        State() == plan.end && reply == plan.reply && store.history == old(store.history) + plan.writes
      ensures Valid()
    {
      ghost var s := State();
      records := ListAll(now);
      ListedArePicked(s.tables, now, records);
      assert Safe(RestorePlan(s, records, env).end) by { RestoreKeepsSafe(s, records, env); }
      reply := RestoreAll(records, env);
    }

    /** What `Open` does on a fresh broker; `records` is what the store listed as active at the second clock reading. */
    method Reconcile(t1: Time, t2: Time, env: Env) returns (reply: Reply, records: seq<LeaseRecord>)
      requires Valid() && State() == Fresh(store.Snapshot())
      modifies this, store
      ensures var plan := OpenPlan(old(store.Snapshot()), t1, records, env);
        State() == plan.end && reply == plan.reply && store.history == old(store.history) + plan.writes
      ensures StoreOpens(env) ==> ListedAt(old(store.Snapshot()), t1, t2, records, env)
      ensures Valid()
    {
      ghost var t, history := store.Snapshot(), store.history;
      ReapOpensNothing(t, t1, env.faults);
      records := [];
      reply := RemoveExpiredLocked(t1, env.faults);
      if reply.Failed? {
        OpenStopsEarly(t, t1, records, env);
        return;
      }
      if ReadActive in env.faults {
        OpenStopsEarly(t, t1, records, env);
        reply := Failed(StoreError);
        return;
      }
      reply, records := RestoreListed(t2, env);
      OpenGoesOn(t, t1, records, env, history);
    }

    // ----- the retry loop

    /** Whatever operation another thread performs. */
    method Perform(op: Op, env: Env) returns (reply: Reply)
      requires Valid() && Proper(State(), op)
      modifies this, store
      ensures var plan := OpPlan(config, old(State()), op, env);
        State() == plan.end && reply == plan.reply && store.history == old(store.history) + plan.writes
      ensures Valid()
    {
      match op
      case Issue(cap, hostValid, now, ttl) => reply := IssueCapability(cap, hostValid, now, ttl, env.faults);
      case Attempt(cap, targets, ttl, now, id) =>
        if ValidRequest(config, targets, ttl) {
          reply := AllocateOnce(cap, targets, EffectiveTTL(config, ttl), now, id, env);
        } else {
          reply := Failed(InvalidRequest);
        }
      case Renew(cap, leaseID, ttl, t1, t2, t3) => reply := Renew(cap, leaseID, ttl, t1, t2, t3, env.faults);
      case Release(cap, leaseID) => reply := ReleaseWhere(leaseID, cap.hash, env.faults);
      case Revoke(leaseID) => reply := ReleaseWhere(leaseID, NO_NAME, env.faults);
      case RevokeCapability(capID) => reply := RevokeCapability(capID, env.faults);
      case Reap(now) => reply := Reap(now, env.faults);
    }

    /** What other threads do while this one does not hold the mutex. */
    method Others(acts: seq<Act>)
      requires Valid() && ProperActs(config, State(), acts)
      modifies this, store
      ensures State() == RunActs(config, old(State()), acts) && Valid()
      decreases acts
    {
      if acts != [] {
        var _ := Perform(acts[0].op, acts[0].env);
        Others(acts[1..]);
      }
    }

    /**
     One turn of the retry loop: an attempt, then a wait until the channel is closed, the deadline passes or the
     context is done.
     */
    method TryOnce(r: Request, turn: Turn) returns (reply: Reply, again: bool)
      requires Valid() && ProperTurn(config, State(), r, turn) && r.targets != [] && r.ttl > 0
      modifies this, store
      ensures TurnResult(State(), reply, again) == TakeTurn(config, old(State()), r, turn)
      ensures Valid()
    {
      Others(turn.before);
      reply := AllocateOnce(r.cap, r.targets, r.ttl, turn.now, turn.id, turn.env);
      if StopsAt(r, reply, turn) { return reply, false; }
      Others(turn.during);
      match turn.wake
      case ContextDone => return Failed(Cancelled), false;
      case TimerFired => return Failed(Exhausted), false;
      case Woken => return Failed(Exhausted), true;
    }

    /**
     Allocates, retrying while ports are short and there is time to wait. `turns` tells what the loop meets each
     time round, `start` is the clock reading the deadline is counted from, and `taken` counts the turns.
     The loop has no bound of its own: it ends because the waiters are signalled finitely often.
     */
    method Allocate(cap: Capability, targets: seq<int>, ttl: Duration, wait: Duration, start: Time,
                    turns: nat -> Turn, ghost limit: nat)
      returns (reply: Reply, ghost taken: nat)
      requires Valid()
      requires ValidRequest(config, targets, ttl) ==>
        FewSignals(config, State(), Request(cap, targets, EffectiveTTL(config, ttl), wait, start + wait), turns, limit)
      modifies this, store
      ensures var r := Request(cap, targets, EffectiveTTL(config, ttl), wait, start + wait);
        if ValidRequest(config, targets, ttl) then
          AllocateLoop(config, old(State()), r, First(turns, taken)) == Answered(State(), reply)
        else State() == old(State()) && reply == Failed(InvalidRequest)
      ensures Valid()
    {
      hide AllocateLoop, TakeTurn, ProperTurn, FewSignals;
      taken := 0;
      if !ValidRequest(config, targets, ttl) { return Failed(InvalidRequest), 0; }
      var r := Request(cap, targets, EffectiveTTL(config, ttl), wait, start + wait);
      ghost var s := State();
      var i: nat := 0;
      NoTurnYet(config, s, r, turns);
      while true
        invariant Valid()
        invariant AllocateLoop(config, s, r, First(turns, i)) == StillWaiting(State())
        decreases limit - changed
      {
        NextTurn(config, s, r, turns, limit, i);
        var again: bool;
        reply, again := TryOnce(r, turns(i));
        i := i + 1;
        if !again { return reply, i; }
      }
    }
  }
}
