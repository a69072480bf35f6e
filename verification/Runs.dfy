/**
 Runs of the daemon: any sequence of operations, crashes between any two store writes, shutdowns and
 restarts, under any clock readings, any bindable ports and any failing calls.
 */
module Runs {
  import opened Types
  import opened Tables
  import opened Plans
  import opened Safety
  import opened Restart

  /**
   A capability as it was issued, the clock reading it was issued at, and the lifetime bound of that configuration.
   */
  datatype Grant = Grant(cap: Capability, at: Time, maximum: Duration)

  /** `issued` remembers every capability ever minted; `clock` is the latest clock reading. */
  datatype World = World(cfg: Config, running: bool, state: State, issued: map<Name, Grant>, clock: Time)

  datatype Event =
    | Perform(op: Op, env: Env)
    | Crash(op: Op, env: Env, cut: nat)
    | Shutdown
    | Boot(cfg: Config, start: Start)
    | CrashBoot(cfg: Config, start: Start, cut: nat)

  function Max(a: int, b: int): int {
    if a < b then b else a
  }

  function LatestReading(op: Op): Time {
    match op
    case Issue(_, _, now, _) => now
    case Attempt(_, _, _, now, _) => now
    case Renew(_, _, _, t1, t2, t3) => Max(t1, Max(t2, t3))
    case Release(_, _) => ZERO_TIME
    case Revoke(_) => ZERO_TIME
    case RevokeCapability(_) => ZERO_TIME
    case Reap(now) => now
  }

  function Mint(cfg: Config, issued: map<Name, Grant>, op: Op): map<Name, Grant> {
    if op.Issue? && 0 < op.ttl <= cfg.maximumTTL
    then issued[op.cap.hash := Grant(op.cap.(expiresAt := op.now + op.ttl), op.now, cfg.maximumTTL)]
    else issued
  }

  ghost function BootPlan(w: World, start: Start): Plan {
    OpenPlan(w.state.tables, start.t1, start.records, start.env)
  }

  ghost function Next(w: World, e: Event): World {
    match e
    case Perform(op, env) =>
      w.(state := OpPlan(w.cfg, w.state, op, env).end, issued := Mint(w.cfg, w.issued, op),
        clock := Max(w.clock, LatestReading(op)))
    case Crash(op, env, cut) =>
      var points := CrashPoints(w.state, OpPlan(w.cfg, w.state, op, env));
      w.(running := false, state := Fresh(if cut < |points| then points[cut] else w.state.tables),
        issued := Mint(w.cfg, w.issued, op))
    case Shutdown =>
      w.(running := false, state := Fresh(w.state.tables))
    case Boot(cfg, start) =>
      var plan := BootPlan(w, start);
      World(cfg, plan.reply.Done?, if plan.reply.Done? then plan.end else Fresh(plan.end.tables), w.issued,
            Max(w.clock, Max(start.t1, start.t2)))
    case CrashBoot(cfg, start, cut) =>
      var points := CrashPoints(Fresh(w.state.tables), BootPlan(w, start));
      w.(cfg := cfg, state := Fresh(if cut < |points| then points[cut] else w.state.tables))
  }

  /** Tokens are drawn at random, so a hash is never issued twice; a caller's capability is one that was issued. */
  predicate Honest(issued: map<Name, Grant>, op: Op) {
    match op
    case Issue(cap, _, now, _) => cap.hash != NO_NAME && cap.hash !in issued && now >= ZERO_TIME
    case Attempt(cap, _, _, now, _) => cap.hash in issued && issued[cap.hash].cap == cap && now >= ZERO_TIME
    case Renew(cap, _, _, t1, t2, t3) =>
      cap.hash in issued && issued[cap.hash].cap == cap && t1 >= ZERO_TIME && t2 >= ZERO_TIME && t3 >= ZERO_TIME
    case Release(cap, _) => cap.hash in issued && issued[cap.hash].cap == cap
    case Revoke(_) => true
    case RevokeCapability(_) => true
    case Reap(now) => now >= ZERO_TIME
  }

  ghost predicate Valid(w: World, e: Event) {
    match e
    case Perform(op, env) => w.running && Honest(w.issued, op)
    case Crash(op, env, cut) => w.running && Honest(w.issued, op)
    case Shutdown => w.running
    case Boot(cfg, start) => !w.running && ListedAt(w.state.tables, start.t1, start.t2, start.records, start.env)
    case CrashBoot(cfg, start, cut) =>
      !w.running && ListedAt(w.state.tables, start.t1, start.t2, start.records, start.env)
  }

  ghost predicate ValidRun(w: World, events: seq<Event>)
    decreases events
  {
    events == [] || (Valid(w, events[0]) && ValidRun(Next(w, events[0]), events[1..]))
  }

  ghost function RunAll(w: World, events: seq<Event>): World
    decreases events
  {
    if events == [] then w else RunAll(Next(w, events[0]), events[1..])
  }

  function Initial(cfg: Config): World {
    World(cfg, false, Fresh(EMPTY), map[], ZERO_TIME)
  }

  // ----- what holds in every reachable state

  /** Every stored capability is as issued, and every issued one expires within its configuration's bound. */
  ghost predicate Recorded(w: World) {
    && (forall h :: h in w.state.tables.caps ==> h in w.issued && w.issued[h].cap == w.state.tables.caps[h])
    && (forall h :: h in w.issued ==>
      h != NO_NAME && w.issued[h].cap.hash == h && w.issued[h].cap.expiresAt <= w.issued[h].at + w.issued[h].maximum)
  }

  ghost predicate Invariant(w: World) {
    Safe(w.state) && Recorded(w)
  }

  lemma HonestIsProper(w: World, op: Op)
    requires Recorded(w) && Honest(w.issued, op)
    ensures Proper(w.state, op)
  {
  }

  /** The durable states of an attempt are those of its reap, and that of its grant. */
  lemma AttemptWrites(cfg: Config, s: State, cap: Capability, targets: seq<int>, ttl: Duration, now: Time, id: Name,
                      env: Env, t: Tables)
    requires var plan := AttemptPlan(cfg, s, cap, targets, ttl, now, id, env); t == plan.end.tables || t in plan.writes
    ensures var plan := AttemptPlan(cfg, s, cap, targets, ttl, now, id, env);
      var reap := ReapPlan(s, now, env.faults);
      || t == s.tables || t == reap.end.tables || t in reap.writes
      || (plan.reply.Granted? && t == plan.end.tables && t.caps == reap.end.tables.caps)
  {
    if AttemptPlan(cfg, s, cap, targets, ttl, now, id, env).reply.Granted? {
      GrantedAttempt(cfg, s, cap, targets, ttl, now, id, env);
    } else {
      FailedAttemptOnlyReaps(cfg, s, cap, targets, ttl, now, id, env);
    }
  }

  lemma ReapCapabilities(s: State, now: Time, faults: set<Fallible>, t: Tables)
    requires var plan := ReapPlan(s, now, faults); t == plan.end.tables || t in plan.writes
    ensures forall h :: h in t.caps ==> h in s.tables.caps && t.caps[h] == s.tables.caps[h]
  {
  }

  /** An operation stores no capability but the one it issues, and never alters one. */
  lemma OpCapabilities(cfg: Config, s: State, op: Op, env: Env, t: Tables)
    requires var plan := OpPlan(cfg, s, op, env); t == plan.end.tables || t in plan.writes
    ensures forall h :: h in t.caps ==>
      (h in s.tables.caps && t.caps[h] == s.tables.caps[h])
      || (op.Issue? && h == op.cap.hash && 0 < op.ttl <= cfg.maximumTTL
          && t.caps[h] == op.cap.(expiresAt := op.now + op.ttl)
          && !Known(s.tables, op.cap.id))
  {
    match op
    case Attempt(cap, targets, ttl, now, id) =>
      if ValidRequest(cfg, targets, ttl) {
        AttemptWrites(cfg, s, cap, targets, EffectiveTTL(cfg, ttl), now, id, env, t);
        ReapCapabilities(s, now, env.faults, ReapPlan(s, now, env.faults).end.tables);
        if t in ReapPlan(s, now, env.faults).writes { ReapCapabilities(s, now, env.faults, t); }
      }
    case Reap(now) => ReapCapabilities(s, now, env.faults, t);
    case _ =>
  }

  lemma {:induction false} RestoreCapabilities(s: State, records: seq<LeaseRecord>, env: Env, t: Tables)
    requires var plan := RestorePlan(s, records, env); t == plan.end.tables || t in plan.writes
    ensures t.caps == s.tables.caps
  {
    if records != [] {
      var before := RestorePlan(s, records[..|records| - 1], env);
      RestoreCapabilities(s, records[..|records| - 1], env, before.end.tables);
      if t in before.writes {
        RestoreCapabilities(s, records[..|records| - 1], env, t);
      }
    }
  }

  lemma OpenCapabilities(t0: Tables, start: Start, t: Tables)
    requires var plan := OpenPlan(t0, start.t1, start.records, start.env); t == plan.end.tables || t in plan.writes
    ensures forall h :: h in t.caps ==> h in t0.caps && t.caps[h] == t0.caps[h]
  {
    var reap := ReapPlan(Fresh(t0), start.t1, start.env.faults);
    if !reap.reply.Failed? && ReadActive !in start.env.faults && t !in reap.writes {
      RestoreCapabilities(reap.end, start.records, start.env, t);
    }
  }

  /** Capabilities come only from the tables before, or from the issue. */
  lemma RecordedAfterOp(w: World, op: Op, env: Env, w': World)
    requires Recorded(w) && Honest(w.issued, op) && w'.issued == Mint(w.cfg, w.issued, op)
    requires var plan := OpPlan(w.cfg, w.state, op, env);
      w'.state.tables == w.state.tables || w'.state.tables == plan.end.tables || w'.state.tables in plan.writes
    ensures Recorded(w')
  {
    hide OpPlan;
    if w'.state.tables != w.state.tables { OpCapabilities(w.cfg, w.state, op, env, w'.state.tables); }
  }

  lemma PerformKeepsInvariant(w: World, op: Op, env: Env)
    requires Invariant(w) && Honest(w.issued, op)
    ensures Invariant(Next(w, Perform(op, env)))
  {
    hide OpPlan, Safe, Recorded;
    HonestIsProper(w, op);
    OpKeepsSafe(w.cfg, w.state, op, env);
    RecordedAfterOp(w, op, env, Next(w, Perform(op, env)));
  }

  /** A crash leaves the tables of one of the durable states of the plan. */
  lemma CrashPointIsConsistent(s: State, plan: Plan, cut: nat)
    requires KeepsSafe(s, plan) && Safe(s)
    ensures var points := CrashPoints(s, plan);
      var t := if cut < |points| then points[cut] else s.tables;
      Consistent(t) && (t == s.tables || t in plan.writes)
  {
  }

  lemma CrashKeepsInvariant(w: World, op: Op, env: Env, cut: nat)
    requires Invariant(w) && Honest(w.issued, op)
    ensures Invariant(Next(w, Crash(op, env, cut)))
  {
    hide OpPlan, Safe, Recorded, CrashPoints, KeepsSafe;
    HonestIsProper(w, op);
    OpKeepsSafe(w.cfg, w.state, op, env);
    CrashPointIsConsistent(w.state, OpPlan(w.cfg, w.state, op, env), cut);
    FreshIsSafe(Next(w, Crash(op, env, cut)).state.tables);
    RecordedAfterOp(w, op, env, Next(w, Crash(op, env, cut)));
  }

  lemma RecordedAfterOpen(w: World, start: Start, w': World)
    requires Recorded(w) && w'.issued == w.issued
    requires var plan := BootPlan(w, start);
      w'.state.tables == w.state.tables || w'.state.tables == plan.end.tables || w'.state.tables in plan.writes
    ensures Recorded(w')
  {
    hide OpenPlan;
    if w'.state.tables != w.state.tables { OpenCapabilities(w.state.tables, start, w'.state.tables); }
  }

  lemma BootKeepsInvariant(w: World, cfg: Config, start: Start)
    requires Invariant(w) && Valid(w, Boot(cfg, start))
    ensures Invariant(Next(w, Boot(cfg, start)))
  {
    var plan := BootPlan(w, start);
    assert Safe(plan.end) && Safe(Fresh(plan.end.tables)) by {
      OpenKeepsSafe(w.state.tables, start.t1, start.t2, start.records, start.env);
    }
    RecordedAfterOpen(w, start, Next(w, Boot(cfg, start)));
  }

  lemma CrashBootKeepsInvariant(w: World, cfg: Config, start: Start, cut: nat)
    requires Invariant(w) && Valid(w, CrashBoot(cfg, start, cut))
    ensures Invariant(Next(w, CrashBoot(cfg, start, cut)))
  {
    OpenKeepsSafe(w.state.tables, start.t1, start.t2, start.records, start.env);
    FreshIsSafe(w.state.tables);
    CrashPointIsConsistent(Fresh(w.state.tables), BootPlan(w, start), cut);
    FreshIsSafe(Next(w, CrashBoot(cfg, start, cut)).state.tables);
    RecordedAfterOpen(w, start, Next(w, CrashBoot(cfg, start, cut)));
  }

  /** Consistency, the backing of every forwarder and the lifetime of every capability survive every event. */
  lemma EventKeepsInvariant(w: World, e: Event)
    requires Invariant(w) && Valid(w, e)
    ensures Invariant(Next(w, e))
  {
    match e
    case Perform(op, env) => PerformKeepsInvariant(w, op, env);
    case Crash(op, env, cut) => CrashKeepsInvariant(w, op, env, cut);
    case Shutdown =>
    case Boot(cfg, start) => BootKeepsInvariant(w, cfg, start);
    case CrashBoot(cfg, start, cut) => CrashBootKeepsInvariant(w, cfg, start, cut);
  }

  /** No two stored capabilities ever share an identifier, so a revocation by identifier means one capability. */
  lemma EventKeepsUniqueIds(w: World, e: Event)
    requires Valid(w, e) && UniqueIds(w.state.tables.caps)
    ensures UniqueIds(Next(w, e).state.tables.caps)
  {
    var t := Next(w, e).state.tables;
    match e
    case Perform(op, env) => OpCapabilities(w.cfg, w.state, op, env, t);
    case Crash(op, env, cut) => if t != w.state.tables { OpCapabilities(w.cfg, w.state, op, env, t); }
    case Shutdown =>
    case Boot(cfg, start) => OpenCapabilities(w.state.tables, start, t);
    case CrashBoot(cfg, start, cut) => if t != w.state.tables { OpenCapabilities(w.state.tables, start, t); }
  }

  lemma {:induction false} IdsStayUnique(w: World, events: seq<Event>)
    requires ValidRun(w, events) && UniqueIds(w.state.tables.caps)
    ensures UniqueIds(RunAll(w, events).state.tables.caps)
    decreases events
  {
    if events != [] {
      EventKeepsUniqueIds(w, events[0]);
      IdsStayUnique(Next(w, events[0]), events[1..]);
    }
  }

  lemma {:induction false} RunKeepsInvariant(w: World, events: seq<Event>)
    requires Invariant(w) && ValidRun(w, events)
    ensures Invariant(RunAll(w, events))
    decreases events
  {
    if events != [] {
      EventKeepsInvariant(w, events[0]);
      RunKeepsInvariant(Next(w, events[0]), events[1..]);
    }
  }

  lemma InitialInvariant(cfg: Config)
    ensures Invariant(Initial(cfg))
  {
  }

  /** The one lease row behind a forwarder. */
  ghost predicate SoleBacking(t: Tables, p: int, endpoint: Endpoint, id: Name) {
    && id in t.leases && Serves(t.leases[id], p, endpoint)
    && forall other :: other in t.leases && p in Hosts(t.leases[other]) ==> other == id
  }

  /**
   In every reachable state, after any crashes, failing calls and clock readings: each forwarded port has
   exactly one lease row naming it, with that target, and no two rows share a port.
   */
  lemma NothingForwardedWithoutLease(cfg: Config, events: seq<Event>, p: int)
    requires ValidRun(Initial(cfg), events)
    ensures var s := RunAll(Initial(cfg), events).state;
      && Exclusive(s.tables.leases)
      && (p in s.proxies ==> exists id :: SoleBacking(s.tables, p, s.proxies[p], id))
  {
    InitialInvariant(cfg);
    RunKeepsInvariant(Initial(cfg), events);
    var s := RunAll(Initial(cfg), events).state;
    if p in s.proxies {
      assert Backed(s.tables, p, s.proxies[p]);
      var id :| id in s.tables.leases && Serves(s.tables.leases[id], p, s.proxies[p]);
      assert SoleBacking(s.tables, p, s.proxies[p], id);
    }
  }

  /**
   In every reachable state, however often a lease is renewed, it expires no later than its capability, so
   no later than the instant its capability was issued plus the maximum lifetime in force then.
   */
  lemma LifetimeBound(cfg: Config, events: seq<Event>, id: Name)
    requires ValidRun(Initial(cfg), events)
    requires id in RunAll(Initial(cfg), events).state.tables.leases
    ensures var w := RunAll(Initial(cfg), events);
      var record := w.state.tables.leases[id];
      && record.capabilityHash in w.issued
      && record.lease.expiresAt <= w.issued[record.capabilityHash].cap.expiresAt
      && record.lease.expiresAt <= w.issued[record.capabilityHash].at + w.issued[record.capabilityHash].maximum
  {
    InitialInvariant(cfg);
    RunKeepsInvariant(Initial(cfg), events);
    var t := RunAll(Initial(cfg), events).state.tables;
    assert GoodRow(t, id);
  }

  /** A successful opening forwards exactly the ports of the leases it found active and could bind. */
  lemma SuccessfulBoot(w: World, cfg: Config, start: Start)
    requires Consistent(w.state.tables) && Valid(w, Boot(cfg, start)) && BootPlan(w, start).reply.Done?
    ensures ExactForwarders(w.state.tables, start.t1, start.t2, start.env, BootPlan(w, start).end.proxies)
  {
    assert StoreOpens(start.env);
    OpenIsExact(w.state.tables, start.t1, start.t2, start.records, start.env);
  }

  /**
   Crash safety. Stop the daemon anywhere, between any two store or proxy effects of any operation or of an
   opening. If a later opening succeeds, exactly the ports of the leases it found active and could bind are
   forwarded, to their own targets.
   */
  lemma OpenAfterAnyRun(cfg: Config, events: seq<Event>, cfg': Config, start: Start)
    requires ValidRun(Initial(cfg), events)
    requires var w := RunAll(Initial(cfg), events); Valid(w, Boot(cfg', start)) && Next(w, Boot(cfg', start)).running
    ensures var w := RunAll(Initial(cfg), events);
      ExactForwarders(w.state.tables, start.t1, start.t2, start.env, Next(w, Boot(cfg', start)).state.proxies)
  {
    var w := RunAll(Initial(cfg), events);
    assert Consistent(w.state.tables) by {
      InitialInvariant(cfg);
      RunKeepsInvariant(Initial(cfg), events);
    }
    SuccessfulBoot(w, cfg', start);
  }

  // ----- revocation

  /** The capability was issued once and is no longer stored. */
  predicate Revoked(w: World, hash: Name) {
    hash in w.issued && hash !in w.state.tables.caps
  }

  lemma EventKeepsRevoked(w: World, e: Event, hash: Name)
    requires Invariant(w) && Valid(w, e) && Revoked(w, hash)
    ensures Revoked(Next(w, e), hash)
  {
    var w' := Next(w, e);
    match e
    case Perform(op, env) => OpCapabilities(w.cfg, w.state, op, env, w'.state.tables);
    case Crash(op, env, cut) =>
      if w'.state.tables != w.state.tables { OpCapabilities(w.cfg, w.state, op, env, w'.state.tables); }
    case Shutdown =>
    case Boot(cfg, start) => OpenCapabilities(w.state.tables, start, w'.state.tables);
    case CrashBoot(cfg, start, cut) =>
      if w'.state.tables != w.state.tables { OpenCapabilities(w.state.tables, start, w'.state.tables); }
  }

  /**
   Once a capability is gone, no later run stores a lease under it, and no allocation or renewal by a
   caller that authenticated earlier is granted.
   */
  lemma {:induction false} NoGrantAfterRevocation(w: World, events: seq<Event>, hash: Name)
    requires Invariant(w) && ValidRun(w, events) && Revoked(w, hash)
    ensures var last := RunAll(w, events);
      && Revoked(last, hash)
      && (forall id :: id in last.state.tables.leases ==> last.state.tables.leases[id].capabilityHash != hash)
    ensures forall op: Op, env: Env :: (op.Attempt? || op.Renew?) && op.cap.hash == hash ==>
      !OpPlan(RunAll(w, events).cfg, RunAll(w, events).state, op, env).reply.Granted?
    decreases events
  {
    if events == [] {
      forall id | id in w.state.tables.leases ensures w.state.tables.leases[id].capabilityHash != hash {
        assert GoodRow(w.state.tables, id);
      }
    } else {
      EventKeepsInvariant(w, events[0]);
      EventKeepsRevoked(w, events[0], hash);
      NoGrantAfterRevocation(Next(w, events[0]), events[1..], hash);
    }
  }

  /**
   A successful revocation removes the capability and all its rows, expired ones included, with their
   forwarders, and leaves every other row and forwarder as it was.
   */
  lemma RevocationIsComplete(s: State, capID: Name, faults: set<Fallible>)
    requires Safe(s) && RevokePlan(s, capID, faults).reply.Done?
    ensures Known(s.tables, capID)
    ensures var end := RevokePlan(s, capID, faults).end;
      var hash := HashOf(s.tables, capID);
      && hash !in end.tables.caps && end.changed > s.changed
      && (forall id :: id in end.tables.leases <==> id in s.tables.leases && s.tables.leases[id].capabilityHash != hash)
      && (forall id :: id in end.tables.leases ==> end.tables.leases[id] == s.tables.leases[id])
      && (forall id :: id in s.tables.leases && s.tables.leases[id].capabilityHash == hash ==>
            Hosts(s.tables.leases[id]) !! end.proxies.Keys)
      && (forall id, p :: id in end.tables.leases && p in Hosts(end.tables.leases[id]) && p in s.proxies ==>
            p in end.proxies && end.proxies[p] == s.proxies[p])
  {
    var hash := HashOf(s.tables, capID);
    var owned := LeasesForCapability(s.tables, hash, ZERO_TIME);
    var end := RevokePlan(s, capID, faults).end;
    OwnedAreClosed(s.tables, s.proxies, hash);
    forall id, p | id in end.tables.leases && p in Hosts(end.tables.leases[id]) ensures p !in UsedPorts(owned) {
    }
  }

  /**
   After a successful revocation no later run stores a lease under the capability, nor grants it an allocation or a
   renewal.
   */
  lemma NothingAfterRevocation(w: World, capID: Name, env: Env, events: seq<Event>)
    requires Invariant(w) && ValidRun(w, [Perform(RevokeCapability(capID), env)] + events)
    requires RevokePlan(w.state, capID, env.faults).reply.Done?
    ensures Known(w.state.tables, capID)
    ensures var hash := HashOf(w.state.tables, capID);
      var last := RunAll(w, [Perform(RevokeCapability(capID), env)] + events);
      && hash !in last.state.tables.caps
      && (forall id :: id in last.state.tables.leases ==> last.state.tables.leases[id].capabilityHash != hash)
      && (forall op: Op, e: Env :: (op.Attempt? || op.Renew?) && op.cap.hash == hash ==>
            !OpPlan(last.cfg, last.state, op, e).reply.Granted?)
  {
    hide RevokePlan, Safe;
    var revocation := Perform(RevokeCapability(capID), env);
    assert ([revocation] + events)[1..] == events;
    RevocationIsComplete(w.state, capID, env.faults);
    EventKeepsInvariant(w, revocation);
    NoGrantAfterRevocation(Next(w, revocation), events, HashOf(w.state.tables, capID));
  }
}
