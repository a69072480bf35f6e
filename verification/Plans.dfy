/**
 What every operation of the broker does while it holds the mutex, as a function of the state it finds
 and of what it meets outside: clock readings, bindable ports, failing calls, drawn identifiers.
 A plan also lists the durable states between its store writes: those a crash can leave behind.
 */
module Plans {
  import opened Types
  import opened Tables
  import opened Pool

  /** The durable tables, the running forwarders by host port, and the number of times waiters were signalled. */
  datatype State = State(tables: Tables, proxies: map<int, Endpoint>, changed: nat)

  /** The state an operation ends in, the tables after each of its store writes in order, and its answer. */
  datatype Plan = Plan(end: State, writes: seq<Tables>, reply: Reply)

  function Refuse(s: State, error: Error): Plan {
    Plan(s, [], Failed(error))
  }

  // ----- reaping

  function ReapPlan(s: State, now: Time, faults: set<Fallible>): Plan {
    if ReadExpired in faults then Refuse(s, StoreError)
    else
      var expired := ExpiredLeases(s.tables, now);
      var closed := s.(proxies := s.proxies - UsedPorts(expired));
      if PurgeLeases in faults then Refuse(closed, StoreError)
      else
        var t1 := DropExpiredLeases(s.tables, now);
        if PurgeCapabilities in faults then Plan(closed.(tables := t1), [t1], Failed(StoreError))
        else
          var t2 := DropExpiredCapabilities(t1, now);
          var changed := if |expired| > 0 then s.changed + 1 else s.changed;
          Plan(State(t2, closed.proxies, changed), [t1, t2], Done)
  }

  // ----- issuing

  function IssuePlan(cfg: Config, s: State, cap: Capability, hostValid: bool, now: Time, ttl: Duration,
                     faults: set<Fallible>): Plan {
    if cap.userID == NO_NAME || cap.runID == NO_NAME || cap.workspaceID == NO_NAME || !hostValid
      then Refuse(s, InvalidRequest)
    else if ttl <= 0 || ttl > cfg.maximumTTL then Refuse(s, InvalidRequest)
    else if DrawID in faults then Refuse(s, RandomError)
    else if WriteCapability in faults || cap.hash in s.tables.caps || Known(s.tables, cap.id) then Refuse(s, StoreError)
    else
      var t1 := AddCapability(s.tables, cap.(expiresAt := now + ttl));
      Plan(s.(tables := t1), [t1], Done)
  }

  // ----- allocating

  function PairPorts(hosts: seq<int>, targets: seq<int>): (ports: seq<Port>)
    requires |hosts| <= |targets|
    ensures |ports| == |hosts|
    ensures forall i :: 0 <= i < |hosts| ==> ports[i] == Port(hosts[i], targets[i])
  {
    seq(|hosts|, i requires 0 <= i < |hosts| => Port(hosts[i], targets[i]))
  }

  function NewRecord(cap: Capability, ports: seq<Port>, ttl: Duration, now: Time, id: Name): LeaseRecord {
    LeaseRecord(cap.hash,
      Lease(id, cap.userID, cap.runID, cap.workspaceID, cap.targetHost, ports, now,
            MinimumTime(now + ttl, cap.expiresAt)))
  }

  /** The host ports an allocation would be given in this state. */
  function Choice(cfg: Config, s: State, n: nat, active: map<Name, LeaseRecord>, bindable: set<int>): seq<int> {
    Lowest(FreePorts(cfg, UsedPorts(active), s.proxies.Keys, bindable), cfg.portStart, cfg.portEnd, n)
  }

  /** One pass through the critical section of an allocation. */
  function AttemptPlan(cfg: Config, s: State, cap: Capability, targets: seq<int>, ttl: Duration, now: Time, id: Name,
                       env: Env): Plan {
    if ReadCapability in env.faults then Refuse(s, StoreError)
    else if !Live(s.tables, cap.hash, now) then Refuse(s, Forbidden)
    else
      var reap := ReapPlan(s, now, env.faults);
      if reap.reply.Failed? then reap else ChoosePlan(cfg, reap, cap, targets, ttl, now, id, env)
  }

  /** The part of an attempt after its reap. */
  function ChoosePlan(cfg: Config, reap: Plan, cap: Capability, targets: seq<int>, ttl: Duration, now: Time, id: Name,
                      env: Env): Plan {
    if ReadActive in env.faults then reap.(reply := Failed(StoreError))
    else
      var active := ActiveLeases(reap.end.tables, now);
      var limit := LimitError(cfg, cap, |targets|, active);
      if limit.Some? then reap.(reply := Failed(limit.value))
      else
        var hosts := Choice(cfg, reap.end, |targets|, active, env.bindable);
        if |hosts| != |targets| then reap.(reply := Failed(Exhausted))
        else if DrawID in env.faults then reap.(reply := Failed(RandomError))
        else GrantPlan(reap, NewRecord(cap, PairPorts(hosts, targets), ttl, now, id), env)
  }

  function GrantPlan(reap: Plan, record: LeaseRecord, env: Env): Plan {
    var s := reap.end;
    if WriteLease in env.faults || record.lease.id in s.tables.leases || record.capabilityHash !in s.tables.caps
    then reap.(reply := Failed(StoreError))
    else
      var t1 := PutLease(s.tables, record);
      Plan(State(t1, s.proxies + RowForwards(record), s.changed), reap.writes + [t1], Granted(record.lease))
  }

  // ----- renewing

  /** Reads the clock three times: for the capability, for the lease, and for the new expiry. */
  function RenewPlan(cfg: Config, s: State, cap: Capability, leaseID: Name, ttl: Duration,
                     t1: Time, t2: Time, t3: Time, faults: set<Fallible>): Plan {
    if ttl <= 0 || ttl > cfg.maximumTTL then Refuse(s, InvalidRequest)
    else if ReadCapability in faults then Refuse(s, StoreError)
    else if !Live(s.tables, cap.hash, t1) then Refuse(s, Forbidden)
    else if ReadLease in faults then Refuse(s, StoreError)
    else if leaseID !in s.tables.leases then Refuse(s, NotFound)
    else
      var record := s.tables.leases[leaseID];
      if record.capabilityHash != cap.hash || record.lease.expiresAt <= t2 then Refuse(s, NotFound)
      else
        var renewed := record.(lease := record.lease.(expiresAt := MinimumTime(t3 + ttl, cap.expiresAt)));
        if ExtendLease in faults then Refuse(s, StoreError)
        else
          var t := PutLease(s.tables, renewed);
          Plan(s.(tables := t), [t], Granted(renewed.lease))
  }

  // ----- releasing and revoking

  /** An empty hash stands for the administrator, who may release any lease. */
  function ReleasePlan(s: State, leaseID: Name, hash: Name, faults: set<Fallible>): Plan {
    if ReadLease in faults then Refuse(s, StoreError)
    else if leaseID !in s.tables.leases then Refuse(s, NotFound)
    else
      var record := s.tables.leases[leaseID];
      if hash != NO_NAME && record.capabilityHash != hash then Refuse(s, NotFound)
      else if EraseLease(leaseID) in faults then Refuse(s, StoreError)
      else
        var t := DropLease(s.tables, leaseID);
        Plan(State(t, s.proxies - Hosts(record), s.changed + 1), [t], Done)
  }

  ghost function HashOf(t: Tables, id: Name): (hash: Name)
    requires Known(t, id)
    ensures hash in t.caps && t.caps[hash].id == id
  {
    var hash :| hash in t.caps && t.caps[hash].id == id;
    hash
  }

  /** Everything a revocation does once it has found the capability. */
  function RevokeHashPlan(s: State, hash: Name, faults: set<Fallible>): Plan {
    if ReadOwned in faults then Refuse(s, StoreError)
    else
      var closed := s.(proxies := s.proxies - UsedPorts(LeasesForCapability(s.tables, hash, ZERO_TIME)));
      if EraseCapability in faults then Refuse(closed, StoreError)
      else
        var t := DropCapability(s.tables, hash);
        Plan(State(t, closed.proxies, s.changed + 1), [t], Done)
  }

  ghost function RevokePlan(s: State, capID: Name, faults: set<Fallible>): Plan {
    if ReadCapabilityByID in faults then Refuse(s, StoreError)
    else if !Known(s.tables, capID) then Refuse(s, NotFound)
    else RevokeHashPlan(s, HashOf(s.tables, capID), faults)
  }

  // ----- every operation of a running broker

  datatype Op =
    | Issue(cap: Capability, hostValid: bool, now: Time, ttl: Duration)
    | Attempt(cap: Capability, targets: seq<int>, ttl: Duration, now: Time, id: Name)
    | Renew(cap: Capability, leaseID: Name, ttl: Duration, t1: Time, t2: Time, t3: Time)
    | Release(cap: Capability, leaseID: Name)
    | Revoke(leaseID: Name)
    | RevokeCapability(capID: Name)
    | Reap(now: Time)

  ghost function OpPlan(cfg: Config, s: State, op: Op, env: Env): Plan {
    match op
    case Issue(cap, hostValid, now, ttl) => IssuePlan(cfg, s, cap, hostValid, now, ttl, env.faults)
    case Attempt(cap, targets, ttl, now, id) =>
      if !ValidRequest(cfg, targets, ttl) then Refuse(s, InvalidRequest)
      else AttemptPlan(cfg, s, cap, targets, EffectiveTTL(cfg, ttl), now, id, env)
    case Renew(cap, leaseID, ttl, t1, t2, t3) => RenewPlan(cfg, s, cap, leaseID, ttl, t1, t2, t3, env.faults)
    case Release(cap, leaseID) => ReleasePlan(s, leaseID, cap.hash, env.faults)
    case Revoke(leaseID) => ReleasePlan(s, leaseID, NO_NAME, env.faults)
    case RevokeCapability(capID) => RevokePlan(s, capID, env.faults)
    case Reap(now) => ReapPlan(s, now, env.faults)
  }

  /** A capability argument is genuine when it equals the stored row, if there still is one. */
  predicate Genuine(t: Tables, cap: Capability) {
    cap.hash in t.caps ==> t.caps[cap.hash] == cap
  }

  /** What holds of every call: genuine capabilities with a real hash, and clock readings after the zero instant. */
  predicate Proper(s: State, op: Op) {
    match op
    case Issue(_, _, now, _) => now >= ZERO_TIME
    case Attempt(cap, _, _, now, _) => cap.hash != NO_NAME && Genuine(s.tables, cap) && now >= ZERO_TIME
    case Renew(cap, _, _, t1, t2, t3) =>
      cap.hash != NO_NAME && Genuine(s.tables, cap) && t1 >= ZERO_TIME && t2 >= ZERO_TIME && t3 >= ZERO_TIME
    case Release(cap, _) => cap.hash != NO_NAME && Genuine(s.tables, cap)
    case Revoke(_) => true
    case RevokeCapability(_) => true
    case Reap(now) => now >= ZERO_TIME
  }
}
