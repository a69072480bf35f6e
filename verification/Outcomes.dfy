/**
 What the caller of each operation can count on: exactly when it is granted or refused and with which error, and
 every field and row it leaves, stated on the tables and forwarders themselves.
 */
module Outcomes {
  import opened Types
  import opened Tables
  import opened Pool
  import opened Plans
  import opened Safety
  import opened Waiting

  /** The row is there in both states and the same, or in neither. */
  predicate SameRow(s: State, end: State, id: Name) {
    && (id in end.tables.leases <==> id in s.tables.leases)
    && (id in end.tables.leases && id in s.tables.leases ==> end.tables.leases[id] == s.tables.leases[id])
  }

  /** The port is forwarded to the same endpoint in both states, or in neither. */
  predicate SamePort(s: State, end: State, p: int) {
    && (p in end.proxies <==> p in s.proxies)
    && (p in end.proxies && p in s.proxies ==> end.proxies[p] == s.proxies[p])
  }

  /** The capability is stored and unexpired. */
  predicate Authentic(s: State, hash: Name, now: Time) {
    hash in s.tables.caps && s.tables.caps[hash].expiresAt > now
  }

  // ----- reaping

  /** Some lease that names the port is expired. */
  predicate NamedByExpired(s: State, now: Time, p: int) {
    exists id :: id in s.tables.leases && s.tables.leases[id].lease.expiresAt <= now && p in Hosts(s.tables.leases[id])
  }

  /**
   What a reap leaves: the unexpired leases and capabilities and the forwarders that no expired lease names. A purge
   that fails leaves what it was to delete; forwarders are closed even so.
   */
  lemma ReapOutcome(s: State, now: Time, faults: set<Fallible>, id: Name, hash: Name, p: int)
    requires Safe(s)
    ensures var plan := ReapPlan(s, now, faults);
      && plan.reply ==
           (if faults !! {ReadExpired, PurgeLeases, PurgeCapabilities} then Done else Failed(StoreError))
      && (id in plan.end.tables.leases <==>
            id in s.tables.leases
            && (s.tables.leases[id].lease.expiresAt > now || ReadExpired in faults || PurgeLeases in faults))
      && (id in plan.end.tables.leases ==> plan.end.tables.leases[id] == s.tables.leases[id])
      && (hash in plan.end.tables.caps <==>
            hash in s.tables.caps && (s.tables.caps[hash].expiresAt > now || plan.reply != Done))
      && (hash in plan.end.tables.caps ==> plan.end.tables.caps[hash] == s.tables.caps[hash])
      && (p in plan.end.proxies <==> p in s.proxies && (ReadExpired in faults || !NamedByExpired(s, now, p)))
      && (p in plan.end.proxies ==> plan.end.proxies[p] == s.proxies[p])
  {
    ReapedLeases(s.tables, now);
    ExpiredPorts(s, now, p);
  }

  lemma ExpiredPorts(s: State, now: Time, p: int)
    ensures p in UsedPorts(ExpiredLeases(s.tables, now)) <==> NamedByExpired(s, now, p)
  {
    var expired := ExpiredLeases(s.tables, now);
    if p in UsedPorts(expired) {
      var id :| id in expired && p in Hosts(expired[id]);
    }
    if NamedByExpired(s, now, p) {
      var id :| id in s.tables.leases && s.tables.leases[id].lease.expiresAt <= now && p in Hosts(s.tables.leases[id]);
      assert id in expired && p in Hosts(expired[id]);
    }
  }

  // ----- issuing

  predicate IssueIsValid(cfg: Config, cap: Capability, hostValid: bool, ttl: Duration) {
    && cap.userID != NO_NAME && cap.runID != NO_NAME && cap.workspaceID != NO_NAME && hostValid
    && 0 < ttl <= cfg.maximumTTL
  }

  /** The unique keys admit the capability. */
  predicate KeysAreNew(s: State, cap: Capability) {
    cap.hash !in s.tables.caps && forall hash :: hash in s.tables.caps ==> s.tables.caps[hash].id != cap.id
  }

  /**
   When a capability is issued; then it is stored as asked for, to expire after the lifetime, and nothing else
   changes.
   */
  lemma IssueOutcome(cfg: Config, s: State, cap: Capability, hostValid: bool, now: Time, ttl: Duration, env: Env,
                     h: Name)
    ensures var plan := OpPlan(cfg, s, Issue(cap, hostValid, now, ttl), env);
      var valid := IssueIsValid(cfg, cap, hostValid, ttl);
      && (plan.reply == Done <==> valid && env.faults !! {DrawID, WriteCapability} && KeysAreNew(s, cap))
      && (plan.reply == Failed(InvalidRequest) <==> !valid)
      && (plan.reply == Failed(RandomError) <==> valid && DrawID in env.faults)
      && (plan.reply == Done || plan.reply.Failed?)
      && (plan.reply != Done ==> plan.end == s)
      && (plan.reply == Done ==>
            && (h in plan.end.tables.caps <==> h == cap.hash || h in s.tables.caps)
            && (h in s.tables.caps ==> plan.end.tables.caps[h] == s.tables.caps[h])
            && plan.end.tables.caps[cap.hash] == Capability(
                 cap.id, cap.hash, cap.userID, cap.runID, cap.workspaceID, cap.targetHost, now + ttl)
            && plan.end.tables.leases == s.tables.leases && plan.end.proxies == s.proxies
            && plan.end.changed == s.changed)
  {
  }

  // ----- renewing

  /** The lease is stored, belongs to the capability, and is unexpired. */
  predicate OwnedAndActive(s: State, leaseID: Name, hash: Name, now: Time) {
    && leaseID in s.tables.leases && s.tables.leases[leaseID].capabilityHash == hash
    && s.tables.leases[leaseID].lease.expiresAt > now
  }

  /** When a renewal is granted, and with which error it is refused. */
  lemma RenewalAnswer(cfg: Config, s: State, cap: Capability, leaseID: Name, ttl: Duration, t1: Time, t2: Time,
                      t3: Time, env: Env)
    ensures var plan := OpPlan(cfg, s, Renew(cap, leaseID, ttl, t1, t2, t3), env);
      var valid := 0 < ttl <= cfg.maximumTTL;
      var known := valid && ReadCapability !in env.faults && Authentic(s, cap.hash, t1);
      && (plan.reply.Granted? <==>
            known && env.faults !! {ReadLease, ExtendLease} && OwnedAndActive(s, leaseID, cap.hash, t2))
      && (plan.reply == Failed(InvalidRequest) <==> !valid)
      && (plan.reply == Failed(Forbidden) <==>
            valid && ReadCapability !in env.faults && !Authentic(s, cap.hash, t1))
      && (plan.reply == Failed(NotFound) <==>
            known && ReadLease !in env.faults && !OwnedAndActive(s, leaseID, cap.hash, t2))
      && (plan.reply.Failed? ==>
            plan.end == s && plan.reply.error in {InvalidRequest, Forbidden, NotFound, StoreError})
      && !plan.reply.Done?
  {
  }

  /**
   A renewal granted gives the lifetime asked for, counted from the third clock reading and cut at the capability's
   expiry. The row differs from the old one in its expiry alone, and nothing else changes.
   */
  lemma RenewalOutcome(cfg: Config, s: State, cap: Capability, leaseID: Name, ttl: Duration, t1: Time, t2: Time,
                       t3: Time, env: Env, other: Name)
    requires Safe(s) && OpPlan(cfg, s, Renew(cap, leaseID, ttl, t1, t2, t3), env).reply.Granted?
    ensures leaseID in s.tables.leases
    ensures var plan := OpPlan(cfg, s, Renew(cap, leaseID, ttl, t1, t2, t3), env);
      var row, lease := s.tables.leases[leaseID], plan.reply.lease;
      && lease.expiresAt <= t3 + ttl && lease.expiresAt <= cap.expiresAt
      && (lease.expiresAt == t3 + ttl || lease.expiresAt == cap.expiresAt)
      && lease == row.lease.(expiresAt := lease.expiresAt)
      && leaseID in plan.end.tables.leases && plan.end.tables.leases[leaseID] == LeaseRecord(row.capabilityHash, lease)
      && (other != leaseID ==> SameRow(s, plan.end, other))
      && plan.end.tables.caps == s.tables.caps && plan.end.proxies == s.proxies && plan.end.changed == s.changed
  {
    assert leaseID in s.tables.leases ==> GoodRow(s.tables, leaseID);
  }

  // ----- releasing and revoking

  /** The caller may release the lease: it is the administrator's call or the owner's. */
  predicate MayRelease(s: State, op: Op)
    requires op.Release? || op.Revoke?
  {
    op.leaseID in s.tables.leases && (op.Release? ==> s.tables.leases[op.leaseID].capabilityHash == op.cap.hash)
  }

  /**
   When a lease is released by its owner, or revoked by the administrator, whoever owns it. Then its row and its
   forwarders are gone, every other row and forwarder is as before, and the waiters are signalled once.
   */
  lemma ReleaseOutcome(cfg: Config, s: State, op: Op, env: Env, other: Name, p: int)
    requires (op.Release? && op.cap.hash != NO_NAME) || op.Revoke?
    ensures var plan := OpPlan(cfg, s, op, env);
      && (plan.reply == Done <==> env.faults !! {ReadLease, EraseLease(op.leaseID)} && MayRelease(s, op))
      && (plan.reply == Failed(NotFound) <==> ReadLease !in env.faults && !MayRelease(s, op))
      && (plan.reply == Done || plan.reply == Failed(NotFound) || plan.reply == Failed(StoreError))
      && (plan.reply != Done ==> plan.end == s)
      && (plan.reply == Done ==>
            && op.leaseID !in plan.end.tables.leases
            && (other != op.leaseID ==> SameRow(s, plan.end, other))
            && (p in Hosts(s.tables.leases[op.leaseID]) ==> p !in plan.end.proxies)
            && (p !in Hosts(s.tables.leases[op.leaseID]) ==> SamePort(s, plan.end, p))
            && plan.end.tables.caps == s.tables.caps && plan.end.changed == s.changed + 1)
  {
  }

  /** Some lease of the capability names the port. */
  predicate NamedByOwned(s: State, hash: Name, p: int) {
    exists id :: id in s.tables.leases && s.tables.leases[id].capabilityHash == hash && p in Hosts(s.tables.leases[id])
  }

  /** Some stored capability has the identifier. */
  predicate IsIssued(s: State, capID: Name) {
    exists hash :: hash in s.tables.caps && s.tables.caps[hash].id == capID
  }

  /** When a capability is revoked, whether or not it has leases, and with which error it is not. */
  lemma RevocationAnswer(cfg: Config, s: State, capID: Name, env: Env)
    ensures var plan := OpPlan(cfg, s, RevokeCapability(capID), env);
      && (plan.reply == Done <==>
            env.faults !! {ReadCapabilityByID, ReadOwned, EraseCapability} && IsIssued(s, capID))
      && (plan.reply == Failed(NotFound) <==> ReadCapabilityByID !in env.faults && !IsIssued(s, capID))
      && (plan.reply == Done || plan.reply == Failed(NotFound) || plan.reply == Failed(StoreError))
      && (!IsIssued(s, capID) || ReadCapabilityByID in env.faults || ReadOwned in env.faults ==> plan.end == s)
  {
  }

  /**
   What revoking the capability with this hash leaves: neither it nor its leases nor their forwarders, and all else as
   before. When only the deletion fails the forwarders are closed and the tables are as before.
   */
  lemma RevocationOutcome(cfg: Config, s: State, capID: Name, hash: Name, env: Env, id: Name, h: Name, p: int)
    requires Safe(s) && UniqueIds(s.tables.caps) && hash in s.tables.caps && s.tables.caps[hash].id == capID
    requires env.faults !! {ReadCapabilityByID, ReadOwned}
    ensures var plan := OpPlan(cfg, s, RevokeCapability(capID), env);
      var done := EraseCapability !in env.faults;
      && plan.reply == (if done then Done else Failed(StoreError))
      && plan.end.changed == (if done then s.changed + 1 else s.changed)
      && (h in plan.end.tables.caps <==> h in s.tables.caps && !(done && h == hash))
      && (h in plan.end.tables.caps ==> plan.end.tables.caps[h] == s.tables.caps[h])
      && (id in plan.end.tables.leases <==>
            id in s.tables.leases && !(done && s.tables.leases[id].capabilityHash == hash))
      && (id in plan.end.tables.leases ==> plan.end.tables.leases[id] == s.tables.leases[id])
      && (p in plan.end.proxies <==> p in s.proxies && !NamedByOwned(s, hash, p))
      && (p in plan.end.proxies ==> plan.end.proxies[p] == s.proxies[p])
  {
    assert HashOf(s.tables, capID) == hash;
    OwnedPortsAreNamed(s, hash, p);
  }

  lemma OwnedPortsAreNamed(s: State, hash: Name, p: int)
    requires Safe(s)
    ensures p in UsedPorts(LeasesForCapability(s.tables, hash, ZERO_TIME)) <==> NamedByOwned(s, hash, p)
  {
    var owned := LeasesForCapability(s.tables, hash, ZERO_TIME);
    if p in UsedPorts(owned) {
      var id :| id in owned && p in Hosts(owned[id]);
    }
    if NamedByOwned(s, hash, p) {
      var id :| id in s.tables.leases && s.tables.leases[id].capabilityHash == hash && p in Hosts(s.tables.leases[id]);
      assert GoodRow(s.tables, id);
      assert id in owned && p in Hosts(owned[id]);
    }
  }

  // ----- allocating

  /** The lifetime a call asks for: the default when it names none. */
  function Asked(cfg: Config, ttl: Duration): Duration {
    if ttl == 0 then cfg.defaultTTL else ttl
  }

  predicate AttemptIsValid(cfg: Config, targets: seq<int>, ttl: Duration) {
    && |targets| > 0 && (forall target :: target in targets ==> 1 <= target <= 65535)
    && SECOND <= Asked(cfg, ttl) <= cfg.maximumTTL
  }

  lemma ValidMeansValid(cfg: Config, targets: seq<int>, ttl: Duration)
    ensures ValidRequest(cfg, targets, ttl) <==> AttemptIsValid(cfg, targets, ttl)
    ensures EffectiveTTL(cfg, ttl) == Asked(cfg, ttl)
  {
    if ValidRequest(cfg, targets, ttl) {
      forall target | target in targets ensures 1 <= target <= 65535 {
        var i :| 0 <= i < |targets| && targets[i] == target;
      }
    }
    if AttemptIsValid(cfg, targets, ttl) {
      forall i | 0 <= i < |targets| ensures 1 <= targets[i] <= 65535 {
        assert targets[i] in targets;
      }
    }
  }

  /** The part of an attempt after a complete reap: each error in turn, the run's quota before the user's. */
  lemma ChosenAnswer(cfg: Config, reap: Plan, cap: Capability, targets: seq<int>, ttl: Duration, now: Time, id: Name,
                     env: Env)
    requires reap.reply.Done? && cap.hash in reap.end.tables.caps
    ensures var rows := ActiveLeases(reap.end.tables, now);
      var pool := FreePorts(cfg, UsedPorts(rows), reap.end.proxies.Keys, env.bindable);
      var runRoom := RunPorts(rows, cap.userID, cap.runID) + |targets| <= cfg.maximumRun;
      var userRoom := UserPorts(rows, cap.userID) + |targets| <= cfg.maximumUser;
      ChoosePlan(cfg, reap, cap, targets, ttl, now, id, env).reply ==
        if ReadActive in env.faults then Failed(StoreError)
        else if !runRoom then Failed(RunLimit)
        else if !userRoom then Failed(UserLimit)
        else if |pool| < |targets| then Failed(Exhausted)
        else if DrawID in env.faults then Failed(RandomError)
        else if WriteLease in env.faults || id in reap.end.tables.leases then Failed(StoreError)
        else ChoosePlan(cfg, reap, cap, targets, ttl, now, id, env).reply
    ensures var reply := ChoosePlan(cfg, reap, cap, targets, ttl, now, id, env).reply;
      reply.Failed? ==> reply.error in {StoreError, RunLimit, UserLimit, Exhausted, RandomError}
  {
    ChosenExactly(cfg, reap, cap, targets, ttl, now, id, env);
    var rows := ActiveLeases(reap.end.tables, now);
    ChoiceIsFree(cfg, reap.end, |targets|, rows, env.bindable);
    FirstFitSize(FreePorts(cfg, UsedPorts(rows), reap.end.proxies.Keys, env.bindable), |targets|,
      Choice(cfg, reap.end, |targets|, rows, env.bindable));
  }

  /**
   When an attempt is granted, and with which error it is refused: the capability is looked at before anything else,
   the run's quota before the user's, and both before the ports.
   */
  lemma AttemptAnswer(cfg: Config, s: State, cap: Capability, targets: seq<int>, ttl: Duration, now: Time, id: Name,
                      env: Env)
    requires Safe(s)
    ensures var plan := OpPlan(cfg, s, Attempt(cap, targets, ttl, now, id), env);
      var valid := AttemptIsValid(cfg, targets, ttl);
      var rows := ActiveLeases(s.tables, now);
      var listed := valid && Authentic(s, cap.hash, now)
        && env.faults !! {ReadCapability, ReadExpired, PurgeLeases, PurgeCapabilities, ReadActive};
      var runRoom := RunPorts(rows, cap.userID, cap.runID) + |targets| <= cfg.maximumRun;
      var userRoom := UserPorts(rows, cap.userID) + |targets| <= cfg.maximumUser;
      var enough := |targets| <= |Available(cfg, rows, env.bindable)|;
      && (plan.reply.Granted? <==>
            listed && runRoom && userRoom && enough && env.faults !! {DrawID, WriteLease} && id !in rows)
      && (plan.reply == Failed(InvalidRequest) <==> !valid)
      && (plan.reply == Failed(Forbidden) <==>
            valid && ReadCapability !in env.faults && !Authentic(s, cap.hash, now))
      && (plan.reply == Failed(RunLimit) <==> listed && !runRoom)
      && (plan.reply == Failed(UserLimit) <==> listed && runRoom && !userRoom)
      && (plan.reply == Failed(Exhausted) <==> listed && runRoom && userRoom && !enough)
      && (plan.reply == Failed(RandomError) <==> listed && runRoom && userRoom && enough && DrawID in env.faults)
      && (plan.reply.Failed? ==>
            && plan.reply.error in {InvalidRequest, Forbidden, StoreError, RunLimit, UserLimit, Exhausted, RandomError}
            && plan.end == (if valid && ReadCapability !in env.faults && Authentic(s, cap.hash, now)
                            then ReapPlan(s, now, env.faults).end else s))
      && !plan.reply.Done?
  {
    hide AttemptPlan, ReapPlan, ChoosePlan, Available, RunPorts, UserPorts, FreePorts, Safe;
    ValidMeansValid(cfg, targets, ttl);
    var lifetime := Asked(cfg, ttl);
    AttemptIsChosen(cfg, s, cap, targets, lifetime, now, id, env);
    if AttemptPlan(cfg, s, cap, targets, lifetime, now, id, env).reply.Failed? {
      AttemptReapsWhenLive(cfg, s, cap, targets, lifetime, now, id, env);
    }
    GrantedExactly(cfg, s, cap, targets, lifetime, now, id, env);
    if ReadCapability !in env.faults && Live(s.tables, cap.hash, now) && ReapPlan(s, now, env.faults).reply.Done? {
      ChosenAnswer(cfg, ReapPlan(s, now, env.faults), cap, targets, lifetime, now, id, env);
      ReapedPool(cfg, s, now, env);
    }
  }

  /** An attempt is refused for its capability, stopped by its reap, or goes on to choose. */
  lemma AttemptIsChosen(cfg: Config, s: State, cap: Capability, targets: seq<int>, ttl: Duration, now: Time, id: Name,
                        env: Env)
    ensures var reply := AttemptPlan(cfg, s, cap, targets, ttl, now, id, env).reply;
      var reap := ReapPlan(s, now, env.faults);
      && (reap.reply.Done? <==> env.faults !! {ReadExpired, PurgeLeases, PurgeCapabilities})
      && !reply.Done?
      && (if ReadCapability in env.faults then reply == Failed(StoreError)
          else if !Live(s.tables, cap.hash, now) then reply == Failed(Forbidden)
          else if !reap.reply.Done? then reply == Failed(StoreError)
          else
            && reply == ChoosePlan(cfg, reap, cap, targets, ttl, now, id, env).reply
            && cap.hash in reap.end.tables.caps)
  {
  }

  /** Some unexpired lease names the port. */
  predicate NamedByActive(s: State, now: Time, p: int) {
    exists id :: id in s.tables.leases && s.tables.leases[id].lease.expiresAt > now && p in Hosts(s.tables.leases[id])
  }

  /** The port is in the range, can be bound, and no unexpired lease names it. */
  predicate IsFree(cfg: Config, s: State, now: Time, bindable: set<int>, p: int) {
    cfg.portStart <= p <= cfg.portEnd && p in bindable && !NamedByActive(s, now, p)
  }

  lemma AvailableAreFree(cfg: Config, s: State, now: Time, bindable: set<int>, p: int)
    ensures p in Available(cfg, ActiveLeases(s.tables, now), bindable) <==> IsFree(cfg, s, now, bindable, p)
  {
    var rows := ActiveLeases(s.tables, now);
    if p in UsedPorts(rows) {
      var id :| id in rows && p in Hosts(rows[id]);
      assert NamedByActive(s, now, p);
    }
    if NamedByActive(s, now, p) {
      var id :| id in s.tables.leases && s.tables.leases[id].lease.expiresAt > now && p in Hosts(s.tables.leases[id]);
      assert id in rows && p in Hosts(rows[id]);
    }
  }

  /** A granted attempt has reaped, and then added the row it answers with and the forwarders of its ports. */
  lemma GrantIsOneRow(cfg: Config, s: State, cap: Capability, targets: seq<int>, ttl: Duration, now: Time, id: Name,
                      env: Env)
    requires OpPlan(cfg, s, Attempt(cap, targets, ttl, now, id), env).reply.Granted?
    ensures var plan := OpPlan(cfg, s, Attempt(cap, targets, ttl, now, id), env);
      var reap, record := ReapPlan(s, now, env.faults), LeaseRecord(cap.hash, plan.reply.lease);
      && ValidRequest(cfg, targets, ttl) && reap.reply.Done? && plan.reply.lease.id == id
      && AttemptPlan(cfg, s, cap, targets, EffectiveTTL(cfg, ttl), now, id, env) == plan
      && plan.end.tables == Tables(reap.end.tables.caps, reap.end.tables.leases[id := record])
      && plan.end.proxies == reap.end.proxies + RowForwards(record) && plan.end.changed == reap.end.changed
  {
    GrantedAttempt(cfg, s, cap, targets, EffectiveTTL(cfg, ttl), now, id, env);
  }

  /**
   A granted lease is the capability's, was created at the clock reading, and lasts as long as was asked for, cut at
   the capability's expiry.
   */
  lemma GrantedLease(cfg: Config, s: State, cap: Capability, targets: seq<int>, ttl: Duration, now: Time, id: Name,
                     env: Env)
    requires OpPlan(cfg, s, Attempt(cap, targets, ttl, now, id), env).reply.Granted?
    ensures var lease := OpPlan(cfg, s, Attempt(cap, targets, ttl, now, id), env).reply.lease;
      && lease.expiresAt <= now + Asked(cfg, ttl) && lease.expiresAt <= cap.expiresAt
      && (lease.expiresAt == now + Asked(cfg, ttl) || lease.expiresAt == cap.expiresAt)
      && lease == Lease(
           id, cap.userID, cap.runID, cap.workspaceID, cap.targetHost, lease.ports, now, lease.expiresAt)
  {
    ValidMeansValid(cfg, targets, ttl);
    GrantedAttempt(cfg, s, cap, targets, EffectiveTTL(cfg, ttl), now, id, env);
  }

  /**
   Its ports are one for each target asked for, in order: each a valid target on a free port, ascending, and no free
   port below one of them is left out.
   */
  lemma GrantedPorts(cfg: Config, s: State, cap: Capability, targets: seq<int>, ttl: Duration, now: Time, id: Name,
                     env: Env, i: nat, j: nat, q: int)
    requires Safe(s) && OpPlan(cfg, s, Attempt(cap, targets, ttl, now, id), env).reply.Granted?
    requires i < |targets|
    ensures var ports := OpPlan(cfg, s, Attempt(cap, targets, ttl, now, id), env).reply.lease.ports;
      && |ports| == |targets| && ports[i].targetPort == targets[i] && 1 <= targets[i] <= 65535
      && IsFree(cfg, s, now, env.bindable, ports[i].hostPort)
      && (i < j < |ports| ==> ports[i].hostPort < ports[j].hostPort)
      && (IsFree(cfg, s, now, env.bindable, q) && q < ports[i].hostPort ==> q in HostPorts(ports))
  {
    hide AttemptPlan, Safe, Available, IsFree;
    var ports := OpPlan(cfg, s, Attempt(cap, targets, ttl, now, id), env).reply.lease.ports;
    ValidMeansValid(cfg, targets, ttl);
    GrantIsOneRow(cfg, s, cap, targets, ttl, now, id, env);
    GrantedExactly(cfg, s, cap, targets, EffectiveTTL(cfg, ttl), now, id, env);
    assert targets[i] in targets && TargetList(ports)[i] == targets[i];
    AvailableAreFree(cfg, s, now, env.bindable, ports[i].hostPort);
    AvailableAreFree(cfg, s, now, env.bindable, q);
    FirstFitPorts(Available(cfg, ActiveLeases(s.tables, now), env.bindable), ports, i, j, q);
  }

  lemma FirstFitPorts(pool: set<int>, ports: seq<Port>, i: nat, j: nat, q: int)
    requires IsFirstFit(pool, |ports|, HostList(ports)) && i < |ports|
    ensures ports[i].hostPort in pool
    ensures i < j < |ports| ==> ports[i].hostPort < ports[j].hostPort
    ensures q in pool && q < ports[i].hostPort ==> q in HostPorts(ports)
  {
    var hosts := HostList(ports);
    assert hosts[i] == ports[i].hostPort && hosts[i] in hosts && hosts[i] in Elements(hosts);
    if i < j < |ports| { assert hosts[j] == ports[j].hostPort; }
    if q in pool && q < ports[i].hostPort {
      assert q in hosts;
      var k :| 0 <= k < |hosts| && hosts[k] == q;
      assert ports[k] in ports;
    }
  }

  lemma GrantedPortsAreDistinct(cfg: Config, s: State, cap: Capability, targets: seq<int>, ttl: Duration, now: Time,
                                id: Name, env: Env)
    requires Safe(s) && OpPlan(cfg, s, Attempt(cap, targets, ttl, now, id), env).reply.Granted?
    ensures DistinctHosts(OpPlan(cfg, s, Attempt(cap, targets, ttl, now, id), env).reply.lease.ports)
  {
    hide AttemptPlan, Safe, IsFree;
    var ports := OpPlan(cfg, s, Attempt(cap, targets, ttl, now, id), env).reply.lease.ports;
    GrantIsOneRow(cfg, s, cap, targets, ttl, now, id, env);
    GrantedExactly(cfg, s, cap, targets, EffectiveTTL(cfg, ttl), now, id, env);
    assert |TargetList(ports)| == |ports|;
    forall i, j | 0 <= i < j < |ports| ensures ports[i].hostPort != ports[j].hostPort {
      GrantedPorts(cfg, s, cap, targets, ttl, now, id, env, i, j, 0);
    }
  }

  /**
   What a grant leaves: the unexpired leases and capabilities as before, one row more under the capability, and for
   each of its ports a forwarder to its target on the capability's host.
   */
  lemma GrantOutcome(cfg: Config, s: State, cap: Capability, targets: seq<int>, ttl: Duration, now: Time, id: Name,
                     env: Env, other: Name, hash: Name, p: int, i: nat)
    requires Safe(s) && OpPlan(cfg, s, Attempt(cap, targets, ttl, now, id), env).reply.Granted?
    ensures var plan := OpPlan(cfg, s, Attempt(cap, targets, ttl, now, id), env);
      var lease := plan.reply.lease;
      && id in plan.end.tables.leases && plan.end.tables.leases[id] == LeaseRecord(cap.hash, lease)
      && (other in plan.end.tables.leases && other != id <==>
            other in s.tables.leases && s.tables.leases[other].lease.expiresAt > now)
      && (other in plan.end.tables.leases && other != id ==>
            plan.end.tables.leases[other] == s.tables.leases[other])
      && (hash in plan.end.tables.caps <==> Authentic(s, hash, now))
      && (hash in plan.end.tables.caps ==> plan.end.tables.caps[hash] == s.tables.caps[hash])
      && (i < |lease.ports| ==>
            && lease.ports[i].hostPort in plan.end.proxies
            && plan.end.proxies[lease.ports[i].hostPort] == Endpoint(cap.targetHost, lease.ports[i].targetPort))
      && (p !in HostPorts(lease.ports) ==>
            && (p in plan.end.proxies <==> p in s.proxies && !NamedByExpired(s, now, p))
            && (p in plan.end.proxies ==> plan.end.proxies[p] == s.proxies[p]))
  {
    hide AttemptPlan, ReapPlan, Safe, NamedByExpired;
    var lease := OpPlan(cfg, s, Attempt(cap, targets, ttl, now, id), env).reply.lease;
    GrantIsOneRow(cfg, s, cap, targets, ttl, now, id, env);
    GrantedLease(cfg, s, cap, targets, ttl, now, id, env);
    GrantedPortsAreDistinct(cfg, s, cap, targets, ttl, now, id, env);
    ReapOutcome(s, now, env.faults, other, hash, p);
    AttemptAnswer(cfg, s, cap, targets, ttl, now, id, env);
    if i < |lease.ports| { ForwardsPairs(cap.targetHost, lease.ports, i); }
  }
}
