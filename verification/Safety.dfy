/** What every operation keeps, whatever the clock reads and whichever calls fail. */
module Safety {
  import opened Types
  import opened Tables
  import opened Pool
  import opened Plans

  predicate Serves(record: LeaseRecord, port: int, endpoint: Endpoint) {
    port in RowForwards(record) && RowForwards(record)[port] == endpoint
  }

  /** Some lease row names this host port and this target. */
  ghost predicate Backed(t: Tables, port: int, endpoint: Endpoint) {
    exists id :: id in t.leases && Serves(t.leases[id], port, endpoint)
  }

  /** No host port is forwarded without a lease row for it, and the tables are consistent. */
  ghost predicate Safe(s: State) {
    Consistent(s.tables) && AllBacked(s.tables, s.proxies)
  }

  ghost predicate AllBacked(t: Tables, proxies: map<int, Endpoint>) {
    forall p :: p in proxies ==> Backed(t, p, proxies[p])
  }

  /** The durable states of a plan: what a crash between any two of its effects leaves in the database. */
  function CrashPoints(s: State, plan: Plan): seq<Tables> {
    [s.tables] + plan.writes
  }

  ghost predicate KeepsSafe(s: State, plan: Plan) {
    && Safe(plan.end)
    && (forall i :: 0 <= i < |plan.writes| ==> Consistent(plan.writes[i]))
    && plan.end.tables == CrashPoints(s, plan)[|plan.writes|]
  }

  /** Forwarders may be closed, and rows whose ports have no forwarder may go. */
  lemma ShrinkKeepsBacked(t: Tables, proxies: map<int, Endpoint>, t': Tables, proxies': map<int, Endpoint>)
    requires AllBacked(t, proxies)
    requires forall p :: p in proxies' ==> p in proxies && proxies'[p] == proxies[p]
    requires forall id :: id in t.leases ==>
      (id in t'.leases && RowForwards(t'.leases[id]) == RowForwards(t.leases[id]))
        || Hosts(t.leases[id]) !! proxies'.Keys
    ensures AllBacked(t', proxies')
  {
    forall p | p in proxies' ensures Backed(t', p, proxies'[p]) {
      assert Backed(t, p, proxies[p]);
      var id :| id in t.leases && Serves(t.leases[id], p, proxies[p]);
      assert p in Hosts(t.leases[id]);
      assert Serves(t'.leases[id], p, proxies'[p]);
    }
  }

  /** The tables after a complete reap hold exactly the unexpired leases. */
  lemma ReapedLeases(t: Tables, now: Time)
    requires Consistent(t)
    ensures DropExpiredCapabilities(DropExpiredLeases(t, now), now).leases == ActiveLeases(t, now)
  {
    CascadeRemovesNothing(t, now);
  }

  lemma ExpiredAreClosed(t: Tables, proxies: map<int, Endpoint>, now: Time)
    ensures forall id :: id in t.leases && id !in ActiveLeases(t, now) ==>
      Hosts(t.leases[id]) !! (proxies - UsedPorts(ExpiredLeases(t, now))).Keys
  {
    var expired := ExpiredLeases(t, now);
    forall id | id in t.leases && id !in ActiveLeases(t, now)
      ensures Hosts(t.leases[id]) !! (proxies - UsedPorts(expired)).Keys
    {
      assert id in expired;
      assert forall p :: p in Hosts(expired[id]) ==> p in UsedPorts(expired);
    }
  }

  lemma ReapKeepsSafe(s: State, now: Time, faults: set<Fallible>)
    requires Safe(s)
    ensures KeepsSafe(s, ReapPlan(s, now, faults))
  {
    var t1 := DropExpiredLeases(s.tables, now);
    var t2 := DropExpiredCapabilities(t1, now);
    var proxies := s.proxies - UsedPorts(ExpiredLeases(s.tables, now));
    assert Consistent(t1) && Consistent(t2) by {
      PurgesKeepConsistent(s.tables, now);
      PurgesKeepConsistent(t1, now);
    }
    assert AllBacked(s.tables, proxies) && AllBacked(t1, proxies) && AllBacked(t2, proxies) by {
      CascadeRemovesNothing(s.tables, now);
      ExpiredAreClosed(s.tables, s.proxies, now);
      ShrinkKeepsBacked(s.tables, s.proxies, s.tables, proxies);
      ShrinkKeepsBacked(s.tables, s.proxies, t1, proxies);
      ShrinkKeepsBacked(s.tables, s.proxies, t2, proxies);
    }
    if ReadExpired in faults {
    } else if PurgeLeases in faults {
    } else if PurgeCapabilities in faults {
    } else {
    }
  }

  lemma ReapKeepsCapability(t: Tables, cap: Capability, now: Time)
    requires Live(t, cap.hash, now)
    ensures cap.hash in DropExpiredCapabilities(DropExpiredLeases(t, now), now).caps
    ensures DropExpiredCapabilities(DropExpiredLeases(t, now), now).caps[cap.hash] == t.caps[cap.hash]
  {
  }

  lemma AscendingPairsAreDistinct(hosts: seq<int>, targets: seq<int>)
    requires Ascending(hosts) && |hosts| <= |targets|
    ensures DistinctHosts(PairPorts(hosts, targets))
    ensures HostPorts(PairPorts(hosts, targets)) == Elements(hosts)
  {
    var ports := PairPorts(hosts, targets);
    forall p ensures p in HostPorts(ports) <==> p in Elements(hosts) {
      if p in HostPorts(ports) {
        var port :| port in ports && port.hostPort == p;
        var i :| 0 <= i < |ports| && ports[i] == port;
        assert hosts[i] == p;
      }
      if p in hosts {
        var i :| 0 <= i < |hosts| && hosts[i] == p;
        assert ports[i].hostPort == p;
      }
    }
  }

  /** The ports chosen for an allocation are distinct, in range, and neither used nor held. */
  lemma ChoiceIsFree(cfg: Config, s: State, n: nat, active: map<Name, LeaseRecord>, bindable: set<int>)
    ensures var free := FreePorts(cfg, UsedPorts(active), s.proxies.Keys, bindable);
      var hosts := Choice(cfg, s, n, active, bindable);
      IsFirstFit(free, n, hosts) && Elements(hosts) !! UsedPorts(active) && Elements(hosts) !! s.proxies.Keys
  {
    var free := FreePorts(cfg, UsedPorts(active), s.proxies.Keys, bindable);
    LowestIsFirstFit(free, cfg.portStart, cfg.portEnd, n);
  }

  /** A new row on unused ports, opened after it is written, keeps the state safe. */
  lemma GrantKeepsSafe(s: State, record: LeaseRecord)
    requires Safe(s) && record.lease.id !in s.tables.leases
    requires record.capabilityHash in s.tables.caps && BelongsTo(record, s.tables.caps[record.capabilityHash])
    requires record.lease.ports != [] && DistinctHosts(record.lease.ports)
    requires Hosts(record) !! UsedPorts(s.tables.leases)
    ensures Safe(State(PutLease(s.tables, record), s.proxies + RowForwards(record), s.changed))
  {
    var t := PutLease(s.tables, record);
    var proxies := s.proxies + RowForwards(record);
    assert Consistent(t) by { PutLeaseKeepsConsistent(s.tables, record); }
    forall p | p in proxies ensures Backed(t, p, proxies[p]) {
      if p in RowForwards(record) {
        assert Serves(t.leases[record.lease.id], p, proxies[p]);
      } else {
        assert Backed(s.tables, p, s.proxies[p]);
        var id :| id in s.tables.leases && Serves(s.tables.leases[id], p, s.proxies[p]);
        assert Serves(t.leases[id], p, proxies[p]);
      }
    }
  }

  /** The row a granted attempt writes. */
  function AttemptRecord(cfg: Config, s: State, cap: Capability, targets: seq<int>, ttl: Duration, now: Time,
                         id: Name, env: Env): LeaseRecord {
    var reap := ReapPlan(s, now, env.faults).end;
    var hosts := Choice(cfg, reap, |targets|, ActiveLeases(reap.tables, now), env.bindable);
    NewRecord(cap, if |hosts| <= |targets| then PairPorts(hosts, targets) else [], ttl, now, id)
  }

  lemma GrantedAttempt(cfg: Config, s: State, cap: Capability, targets: seq<int>, ttl: Duration, now: Time, id: Name,
                       env: Env)
    requires AttemptPlan(cfg, s, cap, targets, ttl, now, id, env).reply.Granted?
    ensures var reap := ReapPlan(s, now, env.faults);
      var active := ActiveLeases(reap.end.tables, now);
      var record := AttemptRecord(cfg, s, cap, targets, ttl, now, id, env);
      && reap.reply.Done? && Live(s.tables, cap.hash, now)
      && |Choice(cfg, reap.end, |targets|, active, env.bindable)| == |targets|
      && LimitError(cfg, cap, |targets|, active).None?
      && record.lease.id !in reap.end.tables.leases && record.capabilityHash in reap.end.tables.caps
      && AttemptPlan(cfg, s, cap, targets, ttl, now, id, env) == GrantPlan(reap, record, env)
  {
  }

  /** The row of a granted attempt belongs to its capability and its ports are distinct and unused. */
  lemma AttemptRecordIsGood(cfg: Config, s: State, cap: Capability, targets: seq<int>, ttl: Duration, now: Time,
                            id: Name, env: Env)
    requires Safe(s) && Genuine(s.tables, cap) && now >= ZERO_TIME
    requires targets != [] && ttl > 0
    requires AttemptPlan(cfg, s, cap, targets, ttl, now, id, env).reply.Granted?
    ensures var reap := ReapPlan(s, now, env.faults).end;
      var record := AttemptRecord(cfg, s, cap, targets, ttl, now, id, env);
      && ActiveLeases(reap.tables, now) == reap.tables.leases
      && record.capabilityHash in reap.tables.caps && BelongsTo(record, reap.tables.caps[record.capabilityHash])
      && |record.lease.ports| == |targets| && DistinctHosts(record.lease.ports)
      && Hosts(record) !! UsedPorts(reap.tables.leases) && Hosts(record) !! reap.proxies.Keys
  {
    GrantedAttempt(cfg, s, cap, targets, ttl, now, id, env);
    var reap := ReapPlan(s, now, env.faults).end;
    var active := ActiveLeases(reap.tables, now);
    assert active == reap.tables.leases by { ReapedLeases(s.tables, now); }
    var hosts := Choice(cfg, reap, |targets|, active, env.bindable);
    assert Ascending(hosts) && Elements(hosts) !! UsedPorts(active) && Elements(hosts) !! reap.proxies.Keys by {
      ChoiceIsFree(cfg, reap, |targets|, active, env.bindable);
    }
    AscendingPairsAreDistinct(hosts, targets);
    assert reap.tables.caps[cap.hash] == cap by { ReapKeepsCapability(s.tables, cap, now); }
  }

  /** A failed attempt has done no more than reap. */
  lemma FailedAttemptOnlyReaps(cfg: Config, s: State, cap: Capability, targets: seq<int>, ttl: Duration, now: Time,
                               id: Name, env: Env)
    requires AttemptPlan(cfg, s, cap, targets, ttl, now, id, env).reply.Failed?
    ensures var plan := AttemptPlan(cfg, s, cap, targets, ttl, now, id, env);
      var reap := ReapPlan(s, now, env.faults);
      (plan.end == s && plan.writes == []) || (plan.end == reap.end && plan.writes == reap.writes)
  {
    hide ReapPlan, LimitError, Choice, Live, ActiveLeases;
  }

  lemma AttemptKeepsSafe(cfg: Config, s: State, cap: Capability, targets: seq<int>, ttl: Duration, now: Time,
                         id: Name, env: Env)
    requires Safe(s) && Genuine(s.tables, cap) && now >= ZERO_TIME
    requires targets != [] && ttl > 0
    ensures KeepsSafe(s, AttemptPlan(cfg, s, cap, targets, ttl, now, id, env))
  {
    var plan := AttemptPlan(cfg, s, cap, targets, ttl, now, id, env);
    var reap := ReapPlan(s, now, env.faults);
    assert KeepsSafe(s, reap) by { ReapKeepsSafe(s, now, env.faults); }
    if plan.reply.Failed? {
      FailedAttemptOnlyReaps(cfg, s, cap, targets, ttl, now, id, env);
    } else {
      var record := AttemptRecord(cfg, s, cap, targets, ttl, now, id, env);
      assert plan == GrantPlan(reap, record, env) && reap.reply.Done? && record.lease.id !in reap.end.tables.leases by {
        GrantedAttempt(cfg, s, cap, targets, ttl, now, id, env);
      }
      assert Safe(plan.end) by {
        AttemptRecordIsGood(cfg, s, cap, targets, ttl, now, id, env);
        GrantKeepsSafe(reap.end, record);
      }
      GrantExtendsWrites(s, reap, record, env);
    }
  }

  lemma GrantExtendsWrites(s: State, reap: Plan, record: LeaseRecord, env: Env)
    requires KeepsSafe(s, reap) && GrantPlan(reap, record, env).reply.Granted? && Safe(GrantPlan(reap, record, env).end)
    ensures KeepsSafe(s, GrantPlan(reap, record, env))
  {
  }

  /** A row may be given another expiry within its capability's. */
  lemma RenewedIsSafe(t: Tables, proxies: map<int, Endpoint>, id: Name, expiry: Time)
    requires Consistent(t) && AllBacked(t, proxies) && id in t.leases
    requires t.leases[id].capabilityHash in t.caps ==>
      ZERO_TIME < expiry <= t.caps[t.leases[id].capabilityHash].expiresAt
    ensures var record := t.leases[id];
      var renewed := PutLease(t, record.(lease := record.lease.(expiresAt := expiry)));
      Consistent(renewed) && AllBacked(renewed, proxies)
  {
    var record := t.leases[id];
    var renewed := record.(lease := record.lease.(expiresAt := expiry));
    assert GoodRow(t, id);
    PutLeaseKeepsConsistent(t, renewed);
    assert RowForwards(renewed) == RowForwards(record);
    ShrinkKeepsBacked(t, proxies, PutLease(t, renewed), proxies);
  }

  lemma RenewKeepsSafe(cfg: Config, s: State, cap: Capability, leaseID: Name, ttl: Duration,
                       t1: Time, t2: Time, t3: Time, faults: set<Fallible>)
    requires Safe(s) && Genuine(s.tables, cap) && t1 >= ZERO_TIME && t3 >= ZERO_TIME
    ensures KeepsSafe(s, RenewPlan(cfg, s, cap, leaseID, ttl, t1, t2, t3, faults))
  {
    hide Consistent, AllBacked;
    var plan := RenewPlan(cfg, s, cap, leaseID, ttl, t1, t2, t3, faults);
    if plan.reply.Granted? { RenewedIsSafe(s.tables, s.proxies, leaseID, plan.reply.lease.expiresAt); }
  }

  lemma ErasedKeepsBacked(t: Tables, proxies: map<int, Endpoint>, id: Name)
    requires AllBacked(t, proxies) && id in t.leases
    ensures AllBacked(DropLease(t, id), proxies - Hosts(t.leases[id]))
  {
    ShrinkKeepsBacked(t, proxies, DropLease(t, id), proxies - Hosts(t.leases[id]));
  }

  lemma ReleaseKeepsSafe(s: State, leaseID: Name, hash: Name, faults: set<Fallible>)
    requires Safe(s)
    ensures KeepsSafe(s, ReleasePlan(s, leaseID, hash, faults))
  {
    hide Consistent, AllBacked;
    ErasuresKeepConsistent(s.tables, leaseID, NO_NAME);
    if leaseID in s.tables.leases { ErasedKeepsBacked(s.tables, s.proxies, leaseID); }
  }

  /** Every row of a capability is found by the query with the zero instant, and closed. */
  lemma OwnedAreClosed(t: Tables, proxies: map<int, Endpoint>, hash: Name)
    requires Consistent(t)
    ensures forall id :: id in t.leases && t.leases[id].capabilityHash == hash ==>
      Hosts(t.leases[id]) !! (proxies - UsedPorts(LeasesForCapability(t, hash, ZERO_TIME))).Keys
  {
    var owned := LeasesForCapability(t, hash, ZERO_TIME);
    forall id | id in t.leases && t.leases[id].capabilityHash == hash
      ensures Hosts(t.leases[id]) !! (proxies - UsedPorts(owned)).Keys
    {
      assert GoodRow(t, id);
      assert id in owned;
      assert forall p :: p in Hosts(owned[id]) ==> p in UsedPorts(owned);
    }
  }

  lemma RevokeHashKeepsSafe(s: State, hash: Name, faults: set<Fallible>)
    requires Safe(s)
    ensures KeepsSafe(s, RevokeHashPlan(s, hash, faults))
  {
    var t := DropCapability(s.tables, hash);
    var proxies := s.proxies - UsedPorts(LeasesForCapability(s.tables, hash, ZERO_TIME));
    assert Consistent(t) by { ErasuresKeepConsistent(s.tables, NO_NAME, hash); }
    assert AllBacked(t, proxies) && AllBacked(s.tables, proxies) by {
      OwnedAreClosed(s.tables, s.proxies, hash);
      ShrinkKeepsBacked(s.tables, s.proxies, t, proxies);
      ShrinkKeepsBacked(s.tables, s.proxies, s.tables, proxies);
    }
  }

  lemma AddedKeepsBacked(t: Tables, proxies: map<int, Endpoint>, cap: Capability)
    requires AllBacked(t, proxies)
    ensures AllBacked(AddCapability(t, cap), proxies)
  {
    ShrinkKeepsBacked(t, proxies, AddCapability(t, cap), proxies);
  }

  lemma IssueKeepsSafe(cfg: Config, s: State, cap: Capability, hostValid: bool, now: Time, ttl: Duration,
                       faults: set<Fallible>)
    requires Safe(s)
    ensures KeepsSafe(s, IssuePlan(cfg, s, cap, hostValid, now, ttl, faults))
  {
    hide Consistent, AllBacked;
    var added := cap.(expiresAt := now + ttl);
    if cap.hash !in s.tables.caps && !Known(s.tables, cap.id) { AddCapabilityKeepsConsistent(s.tables, added); }
    AddedKeepsBacked(s.tables, s.proxies, added);
  }

  /**
   Whatever the clock reads and whichever calls fail, no operation leaves a host port forwarded without
   its lease row, and no crash inside an operation leaves inconsistent tables.
   */
  lemma OpKeepsSafe(cfg: Config, s: State, op: Op, env: Env)
    requires Safe(s) && Proper(s, op)
    ensures KeepsSafe(s, OpPlan(cfg, s, op, env))
  {
    match op
    case Issue(cap, hostValid, now, ttl) => IssueKeepsSafe(cfg, s, cap, hostValid, now, ttl, env.faults);
    case Attempt(cap, targets, ttl, now, id) =>
      if ValidRequest(cfg, targets, ttl) {
        AttemptKeepsSafe(cfg, s, cap, targets, EffectiveTTL(cfg, ttl), now, id, env);
      }
    case Renew(cap, leaseID, ttl, t1, t2, t3) => RenewKeepsSafe(cfg, s, cap, leaseID, ttl, t1, t2, t3, env.faults);
    case Release(cap, leaseID) => ReleaseKeepsSafe(s, leaseID, cap.hash, env.faults);
    case Revoke(leaseID) => ReleaseKeepsSafe(s, leaseID, NO_NAME, env.faults);
    case RevokeCapability(capID) =>
      if Known(s.tables, capID) { RevokeHashKeepsSafe(s, HashOf(s.tables, capID), env.faults); }
    case Reap(now) => ReapKeepsSafe(s, now, env.faults);
  }
}
