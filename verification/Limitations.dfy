/** Where the broker does less than its documentation suggests: one concrete state, and when it happens in general. */
module Limitations {
  import opened Types
  import opened Tables
  import opened Pool
  import opened Plans
  import opened Safety
  import opened Restart
  import opened Waiting
  import opened Agreement

  const CAP := Capability(1, 2, 3, 4, 5, 6, 100)
  const LEASE := Lease(7, 3, 4, 5, 6, [Port(1024, 80)], 1, 50)
  const RECORD := LeaseRecord(2, LEASE)
  const CONFIG := Config(1024, 1030, 10, 100, 5, 5)

  /** One capability with one lease, forwarded. */
  function Sample(): State {
    State(Tables(map[2 := CAP], map[7 := RECORD]), RowForwards(RECORD), 0)
  }

  lemma SampleIsSafe()
    ensures Safe(Sample()) && Agrees(Sample(), 5) && Hosts(RECORD) == {1024}
  {
    var s := Sample();
    assert forall port :: port in LEASE.ports <==> port == Port(1024, 80) by { assert LEASE.ports[0] in LEASE.ports; }
    forall p | p in s.proxies ensures Backed(s.tables, p, s.proxies[p]) {
      assert Serves(s.tables.leases[7], p, s.proxies[p]);
    }
  }

  /**
   A renewal is documented to extend a lease. It shortens it exactly when the lifetime asked for, from the
   third clock reading, ends before the current expiry.
   */
  lemma RenewalShortens(cfg: Config, s: State, cap: Capability, leaseID: Name, ttl: Duration,
                        t1: Time, t2: Time, t3: Time, faults: set<Fallible>)
    requires Safe(s) && Genuine(s.tables, cap)
    requires RenewPlan(cfg, s, cap, leaseID, ttl, t1, t2, t3, faults).reply.Granted?
    ensures leaseID in s.tables.leases
    ensures var expiry := s.tables.leases[leaseID].lease.expiresAt;
      RenewPlan(cfg, s, cap, leaseID, ttl, t1, t2, t3, faults).reply.lease.expiresAt < expiry <==> t3 + ttl < expiry
  {
    assert GoodRow(s.tables, leaseID);
  }

  lemma SampleRenewalShortens()
    ensures RenewPlan(CONFIG, Sample(), CAP, 7, 10, 5, 5, 5, {}).reply.Granted?
    ensures RenewPlan(CONFIG, Sample(), CAP, 7, 10, 5, 5, 5, {}).reply.lease.expiresAt == 15 < LEASE.expiresAt
  {
  }

  /** A renewal answers with a lease that has expired by its third clock reading exactly when its capability has. */
  lemma RenewalAnswersExpired(cfg: Config, s: State, cap: Capability, leaseID: Name, ttl: Duration,
                              t1: Time, t2: Time, t3: Time, faults: set<Fallible>)
    requires RenewPlan(cfg, s, cap, leaseID, ttl, t1, t2, t3, faults).reply.Granted?
    ensures RenewPlan(cfg, s, cap, leaseID, ttl, t1, t2, t3, faults).reply.lease.expiresAt <= t3 <==>
      cap.expiresAt <= t3
  {
  }

  /** The third clock reading is 200. */
  lemma SampleRenewalIsExpired()
    ensures RenewPlan(CONFIG, Sample(), CAP, 7, 10, 5, 5, 200, {}).reply.Granted?
    ensures RenewPlan(CONFIG, Sample(), CAP, 7, 10, 5, 5, 200, {}).reply.lease.expiresAt == 100 <= 200
  {
  }

  /** A reap that fails on the capabilities has freed a port and signalled no waiter. */
  lemma SampleSignalIsLost()
    ensures var end := ReapPlan(Sample(), 60, {PurgeCapabilities}).end;
      end.tables.leases == map[] && end.changed == 0 && ReapPlan(end, 60, {}).end.changed == 0
  {
    var end := ReapPlan(Sample(), 60, {PurgeCapabilities}).end;
    assert end.tables.leases == map[];
    NoneExpired(end.tables, 60);
  }

  // ----- a wakeup that is missed

  /** Row 7 holds port 1024 until 50, and is the only row. */
  ghost predicate OnlyRow(rows: map<Name, LeaseRecord>, record: LeaseRecord) {
    && 7 in rows && rows[7] == record && (forall id :: id in rows ==> id == 7)
    && Hosts(record) == {1024} && record.lease.expiresAt == 50
  }

  /** Only port 1024 can be bound, and every call works. */
  const ENV := Env({1024}, {})

  lemma OnePortIsHeld(cfg: Config, rows: map<Name, LeaseRecord>, record: LeaseRecord, userID: Name, runID: Name)
    requires OnlyRow(rows, record)
    ensures UserPorts(rows, userID) <= 1 && RunPorts(rows, userID, runID) <= 1 && |Available(cfg, rows, {1024})| == 0
  {
    assert 1024 in Hosts(rows[7]);
    assert forall p :: p !in Available(cfg, rows, {1024});
    MembersBound(Available(cfg, rows, {1024}), {});
    MembersBound(UsedPorts(UserRows(rows, userID)), {1024});
    MembersBound(UsedPorts(RunRows(rows, userID, runID)), {1024});
  }

  lemma NoPortIsHeld(cfg: Config, rows: map<Name, LeaseRecord>, userID: Name, runID: Name)
    requires (forall id :: id !in rows) && cfg.portStart <= 1024 <= cfg.portEnd
    ensures UserPorts(rows, userID) == 0 && RunPorts(rows, userID, runID) == 0 && |Available(cfg, rows, {1024})| == 1
  {
    MembersBound(UsedPorts(UserRows(rows, userID)), {});
    MembersBound(UsedPorts(RunRows(rows, userID, runID)), {});
    assert 1024 in Available(cfg, rows, {1024});
    MembersBound(Available(cfg, rows, {1024}), {1024});
    MembersBound({1024}, Available(cfg, rows, {1024}));
  }

  /** The reap of the failing attempt, at 5, finds nothing to do. */
  lemma NothingReapedAtFive(s: State, record: LeaseRecord, cap: Capability)
    requires Safe(s) && OnlyRow(s.tables.leases, record)
    requires cap.hash in s.tables.caps && s.tables.caps[cap.hash] == cap && cap.expiresAt > 5
    ensures OnlyRow(ActiveLeases(s.tables, 5), record)
    ensures var end := ReapPlan(s, 5, {}).end;
      && Safe(end) && OnlyRow(end.tables.leases, record) && end.changed == s.changed
      && cap.hash in end.tables.caps && end.tables.caps[cap.hash] == cap
  {
    ReapedLeases(s.tables, 5);
    ReapKeepsSafe(s, 5, {});
    ReapSignalsExactly(s, 5, {});
  }

  /** The reap of another thread at 60 deletes the row, and fails before its signal. */
  lemma SignalLostAtSixty(s: State, record: LeaseRecord)
    requires Safe(s) && OnlyRow(s.tables.leases, record)
    ensures var end := ReapPlan(s, 60, {PurgeCapabilities}).end;
      && Safe(end) && (forall id :: id !in end.tables.leases) && end.changed == s.changed
      && end.tables.caps == s.tables.caps
  {
    ReapKeepsSafe(s, 60, {PurgeCapabilities});
  }

  lemma FailsAtFive(cfg: Config, s: State, cap: Capability, record: LeaseRecord)
    requires Safe(s) && OnlyRow(s.tables.leases, record) && cfg.maximumRun >= 2 && cfg.maximumUser >= 2
    requires cap.hash in s.tables.caps && s.tables.caps[cap.hash] == cap && cap.expiresAt > 5
    ensures var plan := AttemptPlan(cfg, s, cap, [81], 10, 5, 9, ENV);
      plan.reply == Failed(Exhausted) && plan.end == ReapPlan(s, 5, {}).end
  {
    hide AttemptPlan, ReapPlan, ActiveLeases, OnlyRow, Safe, Available, RunPorts, UserPorts;
    NothingReapedAtFive(s, record, cap);
    OnePortIsHeld(cfg, ActiveLeases(s.tables, 5), record, cap.userID, cap.runID);
    ExhaustedMeansTooFew(cfg, s, cap, [81], 10, 5, 9, ENV);
  }

  lemma SucceedsAtSixty(cfg: Config, s: State, cap: Capability)
    requires Safe(s) && (forall id :: id !in s.tables.leases) && cfg.maximumRun >= 2 && cfg.maximumUser >= 2
    requires cfg.portStart <= 1024 <= cfg.portEnd
    requires cap.hash in s.tables.caps && s.tables.caps[cap.hash] == cap && cap.expiresAt > 60
    ensures AttemptPlan(cfg, s, cap, [81], 10, 60, 9, ENV).reply.Granted?
  {
    hide AttemptPlan, Safe, Available, RunPorts, UserPorts;
    NoPortIsHeld(cfg, ActiveLeases(s.tables, 60), cap.userID, cap.runID);
    GrantedExactly(cfg, s, cap, [81], 10, 60, 9, ENV);
  }

  const LOSS := [Act(Reap(60), Env({}, {PurgeCapabilities}))]

  /**
   A waiter misses its wakeup. Its attempt finds no port and blocks; the only lease expires and is reaped without
   a signal. The channel it captured is still current, though a retry would be granted.
   */
  lemma WakeupIsMissed(cfg: Config, s: State, cap: Capability, record: LeaseRecord)
    requires Safe(s) && OnlyRow(s.tables.leases, record) && cfg.maximumRun >= 2 && cfg.maximumUser >= 2
    requires cfg.portStart <= 1024 <= cfg.portEnd
    requires cap.hash in s.tables.caps && s.tables.caps[cap.hash] == cap && cap.expiresAt > 60
    ensures var plan := AttemptPlan(cfg, s, cap, [81], 10, 5, 9, ENV);
      var blocked := RunActs(cfg, plan.end, LOSS);
      && plan.reply == Failed(Exhausted) && ProperActs(cfg, plan.end, LOSS) && blocked.changed == s.changed
      && AttemptPlan(cfg, blocked, cap, [81], 10, 60, 9, ENV).reply.Granted?
  {
    hide AttemptPlan, ReapPlan, OnlyRow, Safe;
    FailsAtFive(cfg, s, cap, record);
    NothingReapedAtFive(s, record, cap);
    var after := ReapPlan(s, 5, {}).end;
    assert RunActs(cfg, after, LOSS) == ReapPlan(after, 60, {PurgeCapabilities}).end;
    SignalLostAtSixty(after, record);
    SucceedsAtSixty(cfg, RunActs(cfg, after, LOSS), cap);
  }

  lemma SampleWakeupIsMissed()
    ensures var plan := AttemptPlan(CONFIG, Sample(), CAP, [81], 10, 5, 9, ENV);
      var blocked := RunActs(CONFIG, plan.end, LOSS);
      && plan.reply == Failed(Exhausted) && ProperActs(CONFIG, plan.end, LOSS) && blocked.changed == Sample().changed
      && AttemptPlan(CONFIG, blocked, CAP, [81], 10, 60, 9, ENV).reply.Granted?
  {
    hide AttemptPlan, RunActs, ProperActs, Safe, Hosts;
    SampleIsSafe();
    WakeupIsMissed(CONFIG, Sample(), CAP, RECORD);
  }

  /** A revocation that fails to delete the capability leaves an unexpired lease without its forwarder. */
  lemma SampleRevocationBreaksAgreement()
    ensures RevokeHashPlan(Sample(), 2, {EraseCapability}).reply.Failed?
    ensures !Agrees(RevokeHashPlan(Sample(), 2, {EraseCapability}).end, 5)
  {
    SampleIsSafe();
    RevocationAgrees(Sample(), 2, {EraseCapability}, 5);
    assert 7 in Sample().tables.leases;
  }

  /** A reap at 60 that cannot purge leaves lease 7, expired at 50, without its forwarder. */
  function Unpurged(): State {
    ReapPlan(Sample(), 60, {PurgeLeases}).end
  }

  lemma UnpurgedRowIsDown(s: State, record: LeaseRecord)
    requires Safe(s) && OnlyRow(s.tables.leases, record)
    ensures var end := ReapPlan(s, 60, {PurgeLeases}).end;
      Safe(end) && Agrees(end, 60) && end.tables == s.tables && !Up(end.proxies, record)
  {
    hide Safe, AllBacked;
    ReapKeepsSafe(s, 60, {PurgeLeases});
    var expired := ExpiredLeases(s.tables, 60);
    assert 7 in expired && 1024 in Hosts(expired[7]);
    assert 1024 in UsedPorts(expired);
  }

  /** A renewal whose clock has gone back brings the lease back until 95, and nothing forwards its port. */
  lemma SampleRenewalBreaksAgreement()
    ensures Agrees(Unpurged(), 60)
    ensures RenewPlan(CONFIG, Unpurged(), CAP, 7, 90, 5, 5, 5, {}).reply.Granted?
    ensures !Agrees(RenewPlan(CONFIG, Unpurged(), CAP, 7, 90, 5, 5, 5, {}).end, 60)
  {
    hide Safe, Agrees, Up, ReapPlan;
    SampleIsSafe();
    UnpurgedRowIsDown(Sample(), RECORD);
    RenewalAgrees(CONFIG, Unpurged(), CAP, 7, 90, 5, 5, 5, {}, 60);
  }

  // ----- opening on two leases

  const OTHER := LeaseRecord(2, Lease(8, 3, 4, 5, 6, [Port(1025, 81)], 1, 50))
  const TWO := Tables(map[2 := CAP], map[7 := RECORD, 8 := OTHER])

  /** Only the port of lease 7 can be bound. */
  const HALF := Env({1024}, {})

  lemma TwoAreConsistent()
    ensures Consistent(TWO) && TwoRows(TWO, RECORD, OTHER, HALF)
  {
    assert forall port :: port in LEASE.ports <==> port == Port(1024, 80);
    assert forall port :: port in OTHER.lease.ports <==> port == Port(1025, 81);
    assert LEASE.ports[0] in LEASE.ports && OTHER.lease.ports[0] in OTHER.lease.ports;
    assert GoodRow(TWO, 7) && GoodRow(TWO, 8);
  }

  /** Where nothing is expired an opening lists all rows. */
  lemma AllAreListed(t: Tables, now: Time, records: seq<LeaseRecord>, env: Env)
    requires Consistent(t) && StoreOpens(env) && Lists(records, t.leases)
    requires forall id :: id in t.leases ==> t.leases[id].lease.expiresAt > now
    ensures ListedAt(t, now, now, records, env)
  {
    hide Consistent;
    ReapedLeases(t, now);
    var active := ActiveLeases(t, now);
    forall id | id in t.leases ensures id in active && active[id] == t.leases[id] { }
    assert active == t.leases;
    var reaped := ReapPlan(Fresh(t), now, env.faults).end.tables;
    assert ActiveLeases(reaped, now) == t.leases;
  }

  /** Two unexpired rows on one port each, of which only the first one's can be bound. */
  ghost predicate TwoRows(t: Tables, one: LeaseRecord, other: LeaseRecord, env: Env) {
    && t.leases.Keys == {7, 8} && t.leases[7] == one && t.leases[8] == other && one.lease.id == 7 && other.lease.id == 8
    && one.lease.expiresAt > 5 && other.lease.expiresAt > 5 && Hosts(one) == {1024} && Hosts(other) == {1025}
    && env.bindable == {1024} && env.faults == {}
  }

  lemma TwoAreListed(t: Tables, one: LeaseRecord, other: LeaseRecord, env: Env)
    requires Consistent(t) && TwoRows(t, one, other, env)
    ensures ListedAt(t, 5, 5, [one, other], env) && ListedAt(t, 5, 5, [other, one], env)
  {
    hide Consistent;
    assert one in [one, other] && other in [one, other] && one in [other, one] && other in [other, one];
    assert Lists([one, other], t.leases) && Lists([other, one], t.leases);
    assert env.faults == {} && forall id :: id in t.leases ==> t.leases[id].lease.expiresAt > 5 by {
      TwoAreUnexpired(t, one, other, env);
    }
    AllAreListed(t, 5, [one, other], env);
    AllAreListed(t, 5, [other, one], env);
  }

  lemma TwoAreUnexpired(t: Tables, one: LeaseRecord, other: LeaseRecord, env: Env)
    requires TwoRows(t, one, other, env)
    ensures env.faults == {} && forall id :: id in t.leases ==> t.leases[id].lease.expiresAt > 5
    ensures Recoverable(one, env.bindable) && !Recoverable(other, env.bindable)
  {
    assert 1025 in Hosts(other);
  }

  /** Only row 7 is there, and only its port is forwarded. */
  ghost predicate OnlySeven(end: State, one: LeaseRecord) {
    && 7 in end.tables.leases && end.tables.leases[7] == one && (forall id :: id in end.tables.leases ==> id == 7)
    && 1024 in end.proxies && forall p :: p in end.proxies ==> p == 1024
  }

  lemma OneRowIsKept(t: Tables, one: LeaseRecord, other: LeaseRecord, env: Env)
    requires TwoRows(t, one, other, env)
    ensures forall id :: Kept(t, 5, 5, env, id) <==> id == 7
    ensures var rows := RowsAfterOpen(t, 5, 5, env); 7 in rows && rows[7] == one && forall id :: id in rows ==> id == 7
  {
    hide Recoverable;
    TwoAreUnexpired(t, one, other, env);
  }

  lemma OneIsKept(t: Tables, one: LeaseRecord, other: LeaseRecord, env: Env, end: State)
    requires TwoRows(t, one, other, env)
    requires end.tables.leases == RowsAfterOpen(t, 5, 5, env) && ExactForwarders(t, 5, 5, env, end.proxies)
    ensures OnlySeven(end, one)
  {
    hide Kept, RowsAfterOpen;
    OneRowIsKept(t, one, other, env);
    assert Up(end.proxies, one) && 1024 in Hosts(one);
    forall p | p in end.proxies ensures p == 1024 {
      assert KeptFor(t, 5, 5, env, p, end.proxies[p]);
    }
  }

  /** Whichever is listed first, only row 7 is kept; the answer is that of the last. */
  lemma OpeningTwo(t: Tables, one: LeaseRecord, other: LeaseRecord, env: Env, records: seq<LeaseRecord>)
    requires Consistent(t) && TwoRows(t, one, other, env) && (records == [one, other] || records == [other, one])
    ensures var plan := OpenPlan(t, 5, records, env);
      && OnlySeven(plan.end, one) && Consistent(plan.end.tables)
      && plan.reply == (if records[1] == other then Failed(BindError) else Done)
  {
    hide OpenPlan, ListedAt, Consistent, RowsAfterOpen, ExactForwarders, TwoRows, OnlySeven, Recoverable;
    TwoAreListed(t, one, other, env);
    TwoAreUnexpired(t, one, other, env);
    OpenIsExact(t, 5, 5, records, env);
    OpenKeepsSafe(t, 5, 5, records, env);
    OneIsKept(t, one, other, env, OpenPlan(t, 5, records, env).end);
  }

  /** The same tables, the same bindable ports: opening fails or succeeds by the order of the listing alone. */
  lemma SampleOpeningDependsOnOrder()
    ensures ListedAt(TWO, 5, 5, [RECORD, OTHER], HALF) && ListedAt(TWO, 5, 5, [OTHER, RECORD], HALF)
    ensures OpenPlan(TWO, 5, [RECORD, OTHER], HALF).reply == Failed(BindError)
    ensures OpenPlan(TWO, 5, [OTHER, RECORD], HALF).reply == Done
    ensures OnlySeven(OpenPlan(TWO, 5, [RECORD, OTHER], HALF).end, RECORD)
    ensures OnlySeven(OpenPlan(TWO, 5, [OTHER, RECORD], HALF).end, RECORD)
  {
    hide OpenPlan, ListedAt, Consistent, OnlySeven, TwoRows;
    TwoAreConsistent();
    TwoAreListed(TWO, RECORD, OTHER, HALF);
    OpeningTwo(TWO, RECORD, OTHER, HALF, [RECORD, OTHER]);
    OpeningTwo(TWO, RECORD, OTHER, HALF, [OTHER, RECORD]);
  }

  /** The second opening finds port 1024 held by the forwarder the first one left, though 1025 has become free. */
  const AGAIN := Env({1025}, {})

  lemma SevenIsListed(first: State, one: LeaseRecord, env: Env)
    requires OnlySeven(first, one) && one.lease.id == 7 && Hosts(one) == {1024} && env == AGAIN
    ensures Lists([one], first.tables.leases) && env.bindable !! first.proxies.Keys && !Recoverable(one, env.bindable)
  {
    assert one in [one];
    assert 1024 in Hosts(one);
  }

  lemma SevenIsLost(first: State, one: LeaseRecord, env: Env)
    requires Consistent(first.tables) && OnlySeven(first, one)
    requires one.lease.id == 7 && one.lease.expiresAt > 6 && Hosts(one) == {1024} && env == AGAIN
    ensures env.bindable !! first.proxies.Keys && ListedAt(first.tables, 6, 6, [one], env)
    ensures forall id :: id !in OpenPlan(first.tables, 6, [one], env).end.tables.leases
  {
    hide OpenPlan, Lists, ListedAt, Consistent, Recoverable;
    SevenIsListed(first, one, env);
    AllAreListed(first.tables, 6, [one], env);
    OpenIsExact(first.tables, 6, 6, [one], env);
  }

  /** Opening again in the process where opening failed deletes the lease that the first opening had restored. */
  lemma SampleReopeningDeletesAll()
    ensures var first := OpenPlan(TWO, 5, [RECORD, OTHER], HALF);
      && first.reply.Failed? && OnlySeven(first.end, RECORD) && AGAIN.bindable !! first.end.proxies.Keys
      && ListedAt(first.end.tables, 6, 6, [RECORD], AGAIN)
      && forall id :: id !in OpenPlan(first.end.tables, 6, [RECORD], AGAIN).end.tables.leases
  {
    hide OpenPlan, ListedAt, Consistent, OnlySeven, TwoRows;
    TwoAreConsistent();
    OpeningTwo(TWO, RECORD, OTHER, HALF, [RECORD, OTHER]);
    SevenIsLost(OpenPlan(TWO, 5, [RECORD, OTHER], HALF).end, RECORD, AGAIN);
  }

  /** Only the port of lease 7 can be bound, and lease 8 cannot be deleted. */
  const STUCK := Env({1024}, {EraseLease(8)})

  lemma StuckAreListed()
    ensures ListedAt(TWO, 5, 5, [OTHER, RECORD], STUCK)
  {
    TwoAreConsistent();
    assert RECORD in [OTHER, RECORD] && OTHER in [OTHER, RECORD];
    assert Lists([OTHER, RECORD], TWO.leases);
    assert forall id :: id in TWO.leases ==> TWO.leases[id].lease.expiresAt > 5;
    AllAreListed(TWO, 5, [OTHER, RECORD], STUCK);
  }

  lemma OneIsStranded(t: Tables, one: LeaseRecord, other: LeaseRecord, env: Env)
    requires TwoRows(t, one, other, env.(faults := {})) && env.faults == {EraseLease(8)}
    ensures Recoverable(one, env.bindable) && !GivenUpAreErased(t, 5, 5, env, 5)
  {
    TwoAreUnexpired(t, one, other, env.(faults := {}));
    assert ActiveAt(t, 5, 5, 8);
  }

  /** An opening succeeds and leaves an active lease without its forwarder: it could neither be bound nor deleted. */
  lemma SampleOpeningBreaksAgreement()
    ensures ListedAt(TWO, 5, 5, [OTHER, RECORD], STUCK)
    ensures OpenPlan(TWO, 5, [OTHER, RECORD], STUCK).reply == Done
    ensures !Agrees(OpenPlan(TWO, 5, [OTHER, RECORD], STUCK).end, 5)
  {
    hide OpenPlan, ListedAt, Consistent, TwoRows, Agrees, GivenUpAreErased, Recoverable, RowsAfterOpen, ExactForwarders;
    TwoAreConsistent();
    StuckAreListed();
    OneIsStranded(TWO, RECORD, OTHER, STUCK);
    OpenIsExact(TWO, 5, 5, [OTHER, RECORD], STUCK);
    OpeningAgrees(TWO, 5, 5, STUCK, OpenPlan(TWO, 5, [OTHER, RECORD], STUCK).end, 5);
  }
}
