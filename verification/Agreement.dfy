/** The lease table and the running forwarders agree, and no port of the pool is lost. */
module Agreement {
  import opened Pick
  import opened Types
  import opened Tables
  import opened Pool
  import opened Plans
  import opened Safety
  import opened Restart
  import opened Runs
  import opened Limits

  /** Every row unexpired at `clock` has all its forwarders, with the right targets. */
  ghost predicate Agrees(s: State, clock: Time) {
    forall id :: id in s.tables.leases && s.tables.leases[id].lease.expiresAt > clock ==>
      Up(s.proxies, s.tables.leases[id])
  }

  lemma OthersDisjoint(t: Tables, rows: map<Name, LeaseRecord>, id: Name)
    requires Exclusive(t.leases) && id in t.leases && id !in rows
    requires forall k :: k in rows ==> k in t.leases && rows[k] == t.leases[k]
    ensures Hosts(t.leases[id]) !! UsedPorts(rows)
  {
    forall p | p in UsedPorts(rows) ensures p !in Hosts(t.leases[id]) {
      var k :| k in rows && p in Hosts(rows[k]);
      assert p in Hosts(t.leases[k]);
    }
  }

  lemma ReapAgrees(s: State, now: Time, faults: set<Fallible>, clock: Time)
    requires Safe(s) && Agrees(s, clock)
    ensures Agrees(ReapPlan(s, now, faults).end, Max(clock, now))
  {
    var end := ReapPlan(s, now, faults).end;
    forall id | id in end.tables.leases && end.tables.leases[id].lease.expiresAt > Max(clock, now)
      ensures Up(end.proxies, end.tables.leases[id])
    {
      assert end.tables.leases[id] == s.tables.leases[id];
      OthersDisjoint(s.tables, ExpiredLeases(s.tables, now), id);
    }
  }

  lemma GrantAgrees(s: State, record: LeaseRecord, clock: Time)
    requires Agrees(s, clock) && record.lease.id !in s.tables.leases && Hosts(record) !! UsedPorts(s.tables.leases)
    ensures Agrees(State(PutLease(s.tables, record), s.proxies + RowForwards(record), s.changed), clock)
  {
    var t, proxies := PutLease(s.tables, record), s.proxies + RowForwards(record);
    forall id | id in t.leases && t.leases[id].lease.expiresAt > clock ensures Up(proxies, t.leases[id]) {
      if id != record.lease.id {
        assert Up(s.proxies, s.tables.leases[id]);
        assert forall p :: p in Hosts(s.tables.leases[id]) ==> p in UsedPorts(s.tables.leases);
      }
    }
  }

  lemma AttemptAgrees(cfg: Config, s: State, cap: Capability, targets: seq<int>, ttl: Duration, now: Time, id: Name,
                      env: Env, clock: Time)
    requires Safe(s) && Genuine(s.tables, cap) && now >= ZERO_TIME && targets != [] && ttl > 0 && Agrees(s, clock)
    ensures Agrees(AttemptPlan(cfg, s, cap, targets, ttl, now, id, env).end, Max(clock, now))
  {
    ReapAgrees(s, now, env.faults, clock);
    if AttemptPlan(cfg, s, cap, targets, ttl, now, id, env).reply.Granted? {
      GrantedAttempt(cfg, s, cap, targets, ttl, now, id, env);
      AttemptRecordIsGood(cfg, s, cap, targets, ttl, now, id, env);
      GrantAgrees(ReapPlan(s, now, env.faults).end, AttemptRecord(cfg, s, cap, targets, ttl, now, id, env),
        Max(clock, now));
    } else {
      FailedAttemptOnlyReaps(cfg, s, cap, targets, ttl, now, id, env);
    }
  }

  /**
   A renewal brings a lease back that has expired but is not yet reaped when its second clock reading lies before
   its expiry; its forwarders may be gone. Agreement survives a renewal exactly when the lease still has its
   forwarders or is expired again.
   */
  lemma RenewalAgrees(cfg: Config, s: State, cap: Capability, leaseID: Name, ttl: Duration,
                      t1: Time, t2: Time, t3: Time, faults: set<Fallible>, clock: Time)
    requires Safe(s) && Agrees(s, clock) && RenewPlan(cfg, s, cap, leaseID, ttl, t1, t2, t3, faults).reply.Granted?
    ensures leaseID in s.tables.leases
    ensures var plan := RenewPlan(cfg, s, cap, leaseID, ttl, t1, t2, t3, faults);
      Agrees(plan.end, clock) <==> Up(s.proxies, s.tables.leases[leaseID]) || plan.reply.lease.expiresAt <= clock
  {
    var plan := RenewPlan(cfg, s, cap, leaseID, ttl, t1, t2, t3, faults);
    assert GoodRow(s.tables, leaseID);
    var row, renewed := s.tables.leases[leaseID], plan.end.tables.leases[leaseID];
    assert RowForwards(renewed) == RowForwards(row) && Hosts(renewed) == Hosts(row);
    assert Up(s.proxies, renewed) <==> Up(s.proxies, row);
    RenewedAgrees(s, leaseID, plan.end, clock);
  }

  /** Only one row has changed, and no forwarder. */
  lemma RenewedAgrees(s: State, id: Name, end: State, clock: Time)
    requires Agrees(s, clock) && end.proxies == s.proxies && id in end.tables.leases
    requires forall k :: k in end.tables.leases && k != id ==>
      k in s.tables.leases && end.tables.leases[k] == s.tables.leases[k]
    ensures Agrees(end, clock) <==>
      Up(end.proxies, end.tables.leases[id]) || end.tables.leases[id].lease.expiresAt <= clock
  {
  }

  lemma ReleaseAgrees(s: State, leaseID: Name, hash: Name, faults: set<Fallible>, clock: Time)
    requires Safe(s) && Agrees(s, clock)
    ensures Agrees(ReleasePlan(s, leaseID, hash, faults).end, clock)
  {
    var plan := ReleasePlan(s, leaseID, hash, faults);
    forall id | id in plan.end.tables.leases && plan.end.tables.leases[id].lease.expiresAt > clock
      ensures Up(plan.end.proxies, plan.end.tables.leases[id])
    {
      assert Up(s.proxies, s.tables.leases[id]);
    }
  }

  /** All leases of the capability have expired. */
  predicate NoneUnexpired(t: Tables, hash: Name, clock: Time) {
    forall id :: id in t.leases && t.leases[id].capabilityHash == hash ==> t.leases[id].lease.expiresAt <= clock
  }

  /**
   A revocation that fails to delete the capability has already closed its forwarders. Agreement survives a
   revocation exactly when that deletion succeeds or the capability has no unexpired lease.
   */
  lemma RevocationAgrees(s: State, hash: Name, faults: set<Fallible>, clock: Time)
    requires Safe(s) && Agrees(s, clock) && ReadOwned !in faults
    ensures Agrees(RevokeHashPlan(s, hash, faults).end, clock) <==>
      EraseCapability !in faults
      || NoneUnexpired(s.tables, hash, clock)
  {
    var end := RevokeHashPlan(s, hash, faults).end;
    var owned := LeasesForCapability(s.tables, hash, ZERO_TIME);
    forall id | id in end.tables.leases && s.tables.leases[id].capabilityHash != hash
      && s.tables.leases[id].lease.expiresAt > clock
      ensures Up(end.proxies, end.tables.leases[id])
    {
      OthersDisjoint(s.tables, owned, id);
      assert Up(s.proxies, s.tables.leases[id]);
    }
    if EraseCapability in faults {
      forall id | id in s.tables.leases && s.tables.leases[id].capabilityHash == hash
        ensures !Up(end.proxies, s.tables.leases[id])
      {
        OwnedAreClosed(s.tables, s.proxies, hash);
        assert GoodRow(s.tables, id);
        assert s.tables.leases[id].lease.ports[0] in s.tables.leases[id].lease.ports;
        assert s.tables.leases[id].lease.ports[0].hostPort in Hosts(s.tables.leases[id]);
      }
    }
  }

  lemma ForwardedAreBindable(t: Tables, t1: Time, t2: Time, env: Env, proxies: map<int, Endpoint>)
    requires ExactForwarders(t, t1, t2, env, proxies)
    ensures forall p :: p in proxies ==> p in env.bindable
  {
    forall p | p in proxies ensures p in env.bindable {
      assert KeptFor(t, t1, t2, env, p, proxies[p]);
      var id :| Kept(t, t1, t2, env, id) && Serves(t.leases[id], p, proxies[p]);
      assert p in Hosts(t.leases[id]);
    }
  }

  lemma UnboundIsDown(t: Tables, t1: Time, t2: Time, env: Env, proxies: map<int, Endpoint>, record: LeaseRecord)
    requires ExactForwarders(t, t1, t2, env, proxies) && !Recoverable(record, env.bindable)
    ensures !Up(proxies, record)
  {
    ForwardedAreBindable(t, t1, t2, env, proxies);
    var p :| p in Hosts(record) && p !in env.bindable;
  }

  /** An opening lists the lease and cannot bind all its ports. */
  predicate GivenUp(t: Tables, t1: Time, t2: Time, env: Env, id: Name) {
    ActiveAt(t, t1, t2, id) && !Recoverable(t.leases[id], env.bindable)
  }

  /** Every unexpired lease that an opening could not restore has been deleted. */
  ghost predicate GivenUpAreErased(t: Tables, t1: Time, t2: Time, env: Env, clock: Time) {
    forall id :: GivenUp(t, t1, t2, env, id) && t.leases[id].lease.expiresAt > clock ==> EraseLease(id) !in env.faults
  }

  /** A state just opened agrees exactly when every unexpired lease that could not be restored was deleted. */
  lemma OpeningAgrees(t: Tables, t1: Time, t2: Time, env: Env, end: State, clock: Time)
    requires end.tables.leases == RowsAfterOpen(t, t1, t2, env) && ExactForwarders(t, t1, t2, env, end.proxies)
    requires t1 <= clock && t2 <= clock
    ensures Agrees(end, clock) <==> GivenUpAreErased(t, t1, t2, env, clock)
  {
    hide Up, Recoverable;
    forall id | id in end.tables.leases && end.tables.leases[id].lease.expiresAt > clock
      ensures Up(end.proxies, end.tables.leases[id]) <==> Recoverable(t.leases[id], env.bindable)
    {
      if Recoverable(t.leases[id], env.bindable) {
        assert Kept(t, t1, t2, env, id);
      } else {
        UnboundIsDown(t, t1, t2, env, end.proxies, t.leases[id]);
      }
    }
    forall id | GivenUp(t, t1, t2, env, id)
      ensures id in end.tables.leases <==> EraseLease(id) in env.faults
    {
    }
  }

  // ----- over runs

  /** The revocation deletes the capability, or finds none of its leases unexpired, or does nothing. */
  ghost predicate RevokesWhole(w: World, capID: Name, env: Env, clock: Time) {
    || ReadCapabilityByID in env.faults || ReadOwned in env.faults || EraseCapability !in env.faults
    || !Known(w.state.tables, capID)
    || NoneUnexpired(w.state.tables, HashOf(w.state.tables, capID), clock)
  }

  /** The renewal is refused, or finds the lease forwarded, or leaves it expired. */
  ghost predicate RenewsForwarded(w: World, op: Op, env: Env, clock: Time)
    requires op.Renew?
  {
    var plan := OpPlan(w.cfg, w.state, op, env);
    plan.reply.Granted? && plan.reply.lease.expiresAt > clock ==>
      op.leaseID in w.state.tables.leases && Up(w.state.proxies, w.state.tables.leases[op.leaseID])
  }

  /** What a revocation, a renewal and an opening must do for agreement to survive; nothing else can break it. */
  ghost predicate Steady(w: World, e: Event) {
    match e
    case Perform(op, env) =>
      && (op.RevokeCapability? ==> RevokesWhole(w, op.capID, env, Max(w.clock, LatestReading(op))))
      && (op.Renew? ==> RenewsForwarded(w, op, env, Max(w.clock, LatestReading(op))))
    case Boot(_, start) =>
      BootPlan(w, start).reply.Done? ==>
        GivenUpAreErased(w.state.tables, start.t1, start.t2, start.env, Max(w.clock, Max(start.t1, start.t2)))
    case _ => true
  }

  ghost predicate SteadyRun(w: World, events: seq<Event>)
    decreases events
  {
    events == [] || (Steady(w, events[0]) && SteadyRun(Next(w, events[0]), events[1..]))
  }

  ghost predicate InAgreement(w: World) {
    w.running ==> Agrees(w.state, w.clock)
  }

  lemma WeakerAgreement(s: State, clock: Time, later: Time)
    requires Agrees(s, clock) && clock <= later
    ensures Agrees(s, later)
  {
  }

  lemma RevokeOpAgrees(w: World, capID: Name, env: Env, clock: Time)
    requires Safe(w.state) && Agrees(w.state, clock)
    ensures Agrees(RevokePlan(w.state, capID, env.faults).end, clock) <==> RevokesWhole(w, capID, env, clock)
  {
    hide Safe, Agrees;
    if Known(w.state.tables, capID) && ReadOwned !in env.faults {
      RevocationAgrees(w.state, HashOf(w.state.tables, capID), env.faults, clock);
    }
  }

  lemma RenewOpAgrees(w: World, op: Op, env: Env, clock: Time)
    requires Safe(w.state) && Agrees(w.state, clock) && op.Renew?
    ensures Agrees(OpPlan(w.cfg, w.state, op, env).end, clock) <==> RenewsForwarded(w, op, env, clock)
  {
    hide Safe, Agrees, Up;
    if OpPlan(w.cfg, w.state, op, env).reply.Granted? {
      RenewalAgrees(w.cfg, w.state, op.cap, op.leaseID, op.ttl, op.t1, op.t2, op.t3, env.faults, clock);
    }
  }

  lemma OpAgrees(w: World, op: Op, env: Env)
    requires Invariant(w) && Honest(w.issued, op) && Agrees(w.state, w.clock)
    ensures Agrees(OpPlan(w.cfg, w.state, op, env).end, Max(w.clock, LatestReading(op))) <==>
      Steady(w, Perform(op, env))
  {
    hide AttemptPlan, RenewPlan, ReleasePlan, RevokePlan, ReapPlan, Safe, Recorded, RevokesWhole, RenewsForwarded;
    var later := Max(w.clock, LatestReading(op));
    HonestIsProper(w, op);
    WeakerAgreement(w.state, w.clock, later);
    match op
    case Attempt(cap, targets, ttl, now, id) =>
      if ValidRequest(w.cfg, targets, ttl) {
        AttemptAgrees(w.cfg, w.state, cap, targets, EffectiveTTL(w.cfg, ttl), now, id, env, w.clock);
      }
    case Renew(cap, leaseID, ttl, t1, t2, t3) => RenewOpAgrees(w, op, env, later);
    case Release(cap, leaseID) => ReleaseAgrees(w.state, leaseID, cap.hash, env.faults, later);
    case Revoke(leaseID) => ReleaseAgrees(w.state, leaseID, NO_NAME, env.faults, later);
    case RevokeCapability(capID) => RevokeOpAgrees(w, capID, env, later);
    case Reap(now) => ReapAgrees(w.state, now, env.faults, w.clock);
    case Issue(_, _, _, _) =>
  }

  lemma BootAgrees(w: World, cfg: Config, start: Start)
    requires Invariant(w) && Valid(w, Boot(cfg, start)) && BootPlan(w, start).reply.Done?
    ensures Agrees(BootPlan(w, start).end, Max(w.clock, Max(start.t1, start.t2))) <==> Steady(w, Boot(cfg, start))
  {
    hide OpenPlan, Agrees, GivenUpAreErased;
    SuccessfulOpenReads(w.state.tables, start.t1, start.records, start.env);
    OpenIsExact(w.state.tables, start.t1, start.t2, start.records, start.env);
    OpeningAgrees(w.state.tables, start.t1, start.t2, start.env, BootPlan(w, start).end,
      Max(w.clock, Max(start.t1, start.t2)));
  }

  /**
   Agreement survives an event exactly when the event is steady, whatever the clock reads and whichever calls fail.
   */
  lemma AgreementSurvivesExactly(w: World, e: Event)
    requires Invariant(w) && InAgreement(w) && Valid(w, e)
    ensures InAgreement(Next(w, e)) <==> Steady(w, e)
  {
    hide OpPlan, OpenPlan, Agrees, Invariant;
    match e
    case Perform(op, env) => OpAgrees(w, op, env);
    case Boot(cfg, start) => if BootPlan(w, start).reply.Done? { BootAgrees(w, cfg, start); }
    case _ =>
  }

  /**
   Two-sided agreement. Over every run of steady events each unexpired row of a running broker has all its ports
   forwarded to their targets; that each forwarder has exactly one row holds besides.
   */
  lemma {:induction false} AgreementAlwaysHolds(w: World, events: seq<Event>)
    requires Invariant(w) && InAgreement(w) && ValidRun(w, events) && SteadyRun(w, events)
    ensures InAgreement(RunAll(w, events))
    decreases events
  {
    if events != [] {
      EventKeepsInvariant(w, events[0]);
      AgreementSurvivesExactly(w, events[0]);
      AgreementAlwaysHolds(Next(w, events[0]), events[1..]);
    }
  }

  /** The store deletes what it is told to delete, and a renewal reads a clock that has not gone back. */
  ghost predicate Orderly(clock: Time, e: Event) {
    match e
    case Perform(op, env) => EraseCapability !in env.faults && (op.Renew? ==> clock <= op.t2)
    case Boot(_, start) => forall id :: EraseLease(id) !in start.env.faults
    case _ => true
  }

  /** Where the store deletes and renewals read no earlier time, every event is steady. */
  lemma OrderlyIsSteady(w: World, e: Event)
    requires Invariant(w) && InAgreement(w) && Valid(w, e) && Orderly(w.clock, e)
    ensures Steady(w, e)
  {
    hide OpPlan, OpenPlan, Safe;
    if e.Perform? && e.op.Renew? { RenewedWasUp(w, e.op, e.env); }
  }

  lemma RenewedWasUp(w: World, op: Op, env: Env)
    requires Agrees(w.state, w.clock) && op.Renew? && w.clock <= op.t2
    ensures RenewsForwarded(w, op, env, Max(w.clock, LatestReading(op)))
  {
    if OpPlan(w.cfg, w.state, op, env).reply.Granted? { assert Up(w.state.proxies, w.state.tables.leases[op.leaseID]); }
  }

  /** Nothing in the tables is expired at any of the three instants. */
  predicate NothingExpired(t: Tables, clock: Time, t1: Time, t2: Time) {
    forall id :: id in t.leases ==> t.leases[id].lease.expiresAt > clock && ActiveAt(t, t1, t2, id)
  }

  /**
   Close then open. At the end of every steady run with nothing expired, shutting the broker down and opening it
   again with every port bindable brings back the same forwarders and keeps every lease.
   */
  lemma CloseThenOpenAfterAnyRun(cfg: Config, events: seq<Event>, cfg': Config, start: Start)
    requires ValidRun(Initial(cfg), events) && SteadyRun(Initial(cfg), events)
    requires var w := RunAll(Initial(cfg), events);
      && w.running && Valid(Next(w, Shutdown), Boot(cfg', start)) && StoreOpens(start.env)
      && NothingExpired(w.state.tables, w.clock, start.t1, start.t2)
      && UsedPorts(w.state.tables.leases) <= start.env.bindable
    ensures var w := RunAll(Initial(cfg), events);
      var again := Next(Next(w, Shutdown), Boot(cfg', start));
      && again.running && again.state.tables.leases == w.state.tables.leases
      && SameForwarding(w.state.proxies, again.state.proxies)
  {
    hide OpenPlan, Safe, RunAll;
    var w := RunAll(Initial(cfg), events);
    assert Safe(w.state) && Agrees(w.state, w.clock) by {
      InitialInvariant(cfg);
      RunKeepsInvariant(Initial(cfg), events);
      AgreementAlwaysHolds(Initial(cfg), events);
    }
    CloseThenOpen(w.state, start.t1, start.t2, start.records, start.env);
  }

  // ----- conservation of the pool

  function RangePorts(lo: int, hi: int): (r: set<int>)
    ensures forall p :: p in r <==> lo <= p <= hi
    ensures lo <= hi + 1 ==> |r| == hi - lo + 1
    decreases hi - lo + 1
  {
    if lo > hi then {} else RangePorts(lo, hi - 1) + {hi}
  }

  /** The host ports of the listed users, user by user. */
  function TotalPorts(rows: map<Name, LeaseRecord>, users: seq<Name>): nat {
    if users == [] then 0 else TotalPorts(rows, users[..|users| - 1]) + UserPorts(rows, users[|users| - 1])
  }

  function RowsOf(rows: map<Name, LeaseRecord>, users: seq<Name>): map<Name, LeaseRecord> {
    map id | id in rows && rows[id].lease.userID in users :: rows[id]
  }

  predicate Different(users: seq<Name>) {
    forall i, j :: 0 <= i < j < |users| ==> users[i] != users[j]
  }

  lemma {:induction false} UsersPartitionPorts(rows: map<Name, LeaseRecord>, users: seq<Name>)
    requires Exclusive(rows) && Different(users)
    ensures |UsedPorts(RowsOf(rows, users))| == TotalPorts(rows, users)
  {
    if users == [] {
      assert UsedPorts(RowsOf(rows, users)) == {};
    } else {
      var init, last := users[..|users| - 1], users[|users| - 1];
      assert users == init + [last];
      UsersPartitionPorts(rows, init);
      assert last !in init;
      var a, b := UsedPorts(RowsOf(rows, init)), UsedPorts(UserRows(rows, last));
      assert UsedPorts(RowsOf(rows, users)) == a + b by { UnionOfRows(rows, init, last); }
      assert a !! b;
    }
  }

  lemma UnionOfRows(rows: map<Name, LeaseRecord>, init: seq<Name>, last: Name)
    ensures UsedPorts(RowsOf(rows, init + [last])) == UsedPorts(RowsOf(rows, init)) + UsedPorts(UserRows(rows, last))
  {
    var all, a, b := RowsOf(rows, init + [last]), RowsOf(rows, init), UserRows(rows, last);
    forall p | p in UsedPorts(all) ensures p in UsedPorts(a) + UsedPorts(b) {
      var id :| id in all && p in Hosts(all[id]);
      if id in a { assert p in Hosts(a[id]); } else { assert id in b && p in Hosts(b[id]); }
    }
    forall p | p in UsedPorts(a) + UsedPorts(b) ensures p in UsedPorts(all) {
      if p in UsedPorts(a) {
        var id :| id in a && p in Hosts(a[id]);
        assert id in all && p in Hosts(all[id]);
      } else {
        var id :| id in b && p in Hosts(b[id]);
        assert id in all && p in Hosts(all[id]);
      }
    }
  }

  /** When nothing is expired, exactly the leased ports are forwarded. */
  lemma ForwardedAreLeased(s: State, clock: Time)
    requires Safe(s) && Agrees(s, clock)
    requires forall id :: id in s.tables.leases ==> s.tables.leases[id].lease.expiresAt > clock
    ensures forall p :: p in s.proxies <==> p in UsedPorts(s.tables.leases)
  {
    forall p | p in s.proxies ensures p in UsedPorts(s.tables.leases) {
      assert Backed(s.tables, p, s.proxies[p]);
      var id :| id in s.tables.leases && Serves(s.tables.leases[id], p, s.proxies[p]);
      assert p in Hosts(s.tables.leases[id]);
    }
    forall p | p in UsedPorts(s.tables.leases) ensures p in s.proxies {
      var id :| id in s.tables.leases && p in Hosts(s.tables.leases[id]);
      assert Up(s.proxies, s.tables.leases[id]);
    }
  }

  /** In an agreeing state with no row expired, forwarders, ports leased and free ports add up. */
  lemma PortsAreConserved(cfg: Config, s: State, clock: Time, users: seq<Name>)
    requires Safe(s) && Agrees(s, clock) && InRange(cfg, s.tables.leases) && cfg.portStart <= cfg.portEnd + 1
      && Different(users)
    requires forall id :: id in s.tables.leases ==>
      s.tables.leases[id].lease.expiresAt > clock && s.tables.leases[id].lease.userID in users
    ensures var free := FreePorts(cfg, UsedPorts(s.tables.leases), {}, RangePorts(cfg.portStart, cfg.portEnd));
      && |s.proxies| == TotalPorts(s.tables.leases, users)
      && TotalPorts(s.tables.leases, users) + |free| == cfg.portEnd - cfg.portStart + 1
  {
    hide FreePorts, InRange, Agrees, UsedPorts, TotalPorts, Different;
    ForwardedAreLeased(s, clock);
    SameMembersSameSize(s.proxies.Keys, UsedPorts(s.tables.leases));
    UsersHoldAllPorts(s.tables.leases, users);
    PoolSplits(cfg, s.tables.leases);
  }

  lemma UsersHoldAllPorts(rows: map<Name, LeaseRecord>, users: seq<Name>)
    requires Exclusive(rows) && Different(users) && forall id :: id in rows ==> rows[id].lease.userID in users
    ensures |UsedPorts(rows)| == TotalPorts(rows, users)
  {
    hide UsedPorts, TotalPorts;
    FewerRowsUseFewerPorts(rows, RowsOf(rows, users));
    FewerRowsUseFewerPorts(RowsOf(rows, users), rows);
    UsersPartitionPorts(rows, users);
  }

  /**
   Conservation. In a reachable state of a steady run under one configuration, with no row expired, there are
   as many forwarders as ports leased to all users together, and these and the free ports make up the pool.
   */
  lemma PoolIsConserved(cfg: Config, events: seq<Event>, users: seq<Name>)
    requires ValidRun(Initial(cfg), events) && OneConfig(cfg, events) && SteadyRun(Initial(cfg), events)
    requires cfg.maximumRun >= 0 && cfg.maximumUser >= 0 && cfg.portStart <= cfg.portEnd + 1
    requires var w := RunAll(Initial(cfg), events);
      && w.running && Different(users)
      && (forall id :: id in w.state.tables.leases ==>
            w.state.tables.leases[id].lease.expiresAt > w.clock && w.state.tables.leases[id].lease.userID in users)
    ensures var s := RunAll(Initial(cfg), events).state;
      var free := FreePorts(cfg, UsedPorts(s.tables.leases), {}, RangePorts(cfg.portStart, cfg.portEnd));
      && |s.proxies| == TotalPorts(s.tables.leases, users)
      && TotalPorts(s.tables.leases, users) + |free| == cfg.portEnd - cfg.portStart + 1
  {
    hide RunAll, ValidRun, SteadyRun, OneConfig, Safe, Agrees, FreePorts;
    var w := RunAll(Initial(cfg), events);
    InitialInvariant(cfg);
    RunKeepsInvariant(Initial(cfg), events);
    QuotasAlwaysHold(cfg, events, NO_NAME, NO_NAME, {});
    AgreementAlwaysHolds(Initial(cfg), events);
    PortsAreConserved(cfg, w.state, w.clock, users);
  }

  lemma PoolSplits(cfg: Config, rows: map<Name, LeaseRecord>)
    requires InRange(cfg, rows) && cfg.portStart <= cfg.portEnd + 1
    ensures |UsedPorts(rows)| + |FreePorts(cfg, UsedPorts(rows), {}, RangePorts(cfg.portStart, cfg.portEnd))|
      == cfg.portEnd - cfg.portStart + 1
  {
    var range := RangePorts(cfg.portStart, cfg.portEnd);
    var free := FreePorts(cfg, UsedPorts(rows), {}, range);
    forall p | p in UsedPorts(rows) ensures p in range {
      var id :| id in rows && p in Hosts(rows[id]);
    }
    assert UsedPorts(rows) + free == range;
    assert UsedPorts(rows) !! free;
  }

  // ----- isolation

  /**
   The administrator's listing is of the unexpired leases, and at one clock reading it is the disjoint union of the
   listings of the stored capabilities.
   */
  lemma ListingsPartition(t: Tables, now: Time, id: Name)
    requires Consistent(t)
    ensures id in ActiveLeases(t, now) <==> id in t.leases && t.leases[id].lease.expiresAt > now
    ensures id in ActiveLeases(t, now) ==> ActiveLeases(t, now)[id] == t.leases[id]
    ensures id in ActiveLeases(t, now) <==>
      exists hash :: hash in t.caps && id in LeasesForCapability(t, hash, now)
    ensures forall g, h :: id in LeasesForCapability(t, g, now) && id in LeasesForCapability(t, h, now) ==> g == h
    ensures forall hash :: id in LeasesForCapability(t, hash, now) ==>
      id in ActiveLeases(t, now) && LeasesForCapability(t, hash, now)[id] == ActiveLeases(t, now)[id]
  {
    if id in ActiveLeases(t, now) {
      assert GoodRow(t, id);
      assert id in LeasesForCapability(t, t.leases[id].capabilityHash, now);
    }
  }

  /** The row and its forwarders are the same in both states. */
  ghost predicate Untouched(s: State, end: State, id: Name)
    requires id in s.tables.leases
  {
    && id in end.tables.leases && end.tables.leases[id] == s.tables.leases[id]
    && forall p :: p in Hosts(s.tables.leases[id]) ==>
         (p in end.proxies <==> p in s.proxies) && (p in s.proxies ==> end.proxies[p] == s.proxies[p])
  }

  lemma RenewIsIsolated(cfg: Config, s: State, cap: Capability, leaseID: Name, ttl: Duration,
                        t1: Time, t2: Time, t3: Time, faults: set<Fallible>, id: Name)
    requires leaseID in s.tables.leases ==> s.tables.leases[leaseID].lease.id == leaseID
    requires id in s.tables.leases && s.tables.leases[id].capabilityHash != cap.hash
    ensures Untouched(s, RenewPlan(cfg, s, cap, leaseID, ttl, t1, t2, t3, faults).end, id)
  {
  }

  lemma ReleaseIsIsolated(s: State, leaseID: Name, hash: Name, faults: set<Fallible>, id: Name)
    requires hash != NO_NAME && id in s.tables.leases && s.tables.leases[id].capabilityHash != hash
    requires leaseID in s.tables.leases && leaseID != id ==>
      Hosts(s.tables.leases[leaseID]) !! Hosts(s.tables.leases[id])
    ensures Untouched(s, ReleasePlan(s, leaseID, hash, faults).end, id)
  {
  }

  /** A capability's renewals and releases touch no row and no forwarder of another capability. */
  lemma OwnersAreIsolated(cfg: Config, s: State, op: Op, env: Env, id: Name)
    requires Safe(s) && Proper(s, op) && (op.Renew? || op.Release?)
    requires id in s.tables.leases && s.tables.leases[id].capabilityHash != op.cap.hash
    ensures Untouched(s, OpPlan(cfg, s, op, env).end, id)
  {
    hide Untouched, RenewPlan, ReleasePlan;
    assert op.leaseID in s.tables.leases ==> GoodRow(s.tables, op.leaseID);
    match op
    case Renew(cap, leaseID, ttl, t1, t2, t3) => RenewIsIsolated(cfg, s, cap, leaseID, ttl, t1, t2, t3, env.faults, id);
    case Release(cap, leaseID) => ReleaseIsIsolated(s, leaseID, cap.hash, env.faults, id);
  }
}
