/** Quotas and the port range, over every run under one configuration. */
module Limits {
  import opened Types
  import opened Tables
  import opened Pool
  import opened Plans
  import opened Safety
  import opened Restart
  import opened Runs

  /** Every host port of every row lies in the configured range. */
  predicate InRange(cfg: Config, rows: map<Name, LeaseRecord>) {
    forall id, p :: id in rows && p in Hosts(rows[id]) ==> cfg.portStart <= p <= cfg.portEnd
  }

  ghost predicate Limited(cfg: Config, t: Tables) {
    WithinQuotas(cfg, t.leases) && InRange(cfg, t.leases)
  }

  /** Rows of `a` are rows of `b`, but perhaps for their expiry. */
  predicate Fewer(a: Tables, b: Tables) {
    forall id :: id in a.leases ==>
      id in b.leases && a.leases[id].lease.(expiresAt := b.leases[id].lease.expiresAt) == b.leases[id].lease
  }

  lemma FewerKeepsLimits(cfg: Config, a: Tables, b: Tables)
    requires Limited(cfg, b) && Fewer(a, b)
    ensures Limited(cfg, a)
  {
    ShrinkingKeepsQuotas(cfg, a.leases, b.leases);
    forall id, p | id in a.leases && p in Hosts(a.leases[id]) ensures cfg.portStart <= p <= cfg.portEnd {
      assert p in Hosts(b.leases[id]);
    }
  }

  lemma AttemptKeepsLimits(cfg: Config, s: State, cap: Capability, targets: seq<int>, ttl: Duration, now: Time,
                           id: Name, env: Env)
    requires Safe(s) && Genuine(s.tables, cap) && now >= ZERO_TIME && targets != [] && ttl > 0
    requires Limited(cfg, s.tables)
    requires AttemptPlan(cfg, s, cap, targets, ttl, now, id, env).reply.Granted?
    ensures Limited(cfg, AttemptPlan(cfg, s, cap, targets, ttl, now, id, env).end.tables)
  {
    hide Safe, ReapPlan, AttemptPlan, Choice;
    var reap := ReapPlan(s, now, env.faults).end;
    var record := AttemptRecord(cfg, s, cap, targets, ttl, now, id, env);
    GrantedAttempt(cfg, s, cap, targets, ttl, now, id, env);
    AttemptRecordIsGood(cfg, s, cap, targets, ttl, now, id, env);
    var active := ActiveLeases(reap.tables, now);
    assert Limited(cfg, reap.tables) by {
      ReapWritesFewer(s, now, env.faults, reap.tables);
      FewerKeepsLimits(cfg, reap.tables, s.tables);
    }
    assert WithinQuotas(cfg, reap.tables.leases[record.lease.id := record]) by {
      AllocationKeepsQuotas(cfg, reap.tables.leases, record, cap);
    }
    forall p | p in Hosts(record) ensures cfg.portStart <= p <= cfg.portEnd {
      ChosenAreInRange(cfg, reap, |targets|, active, env.bindable, targets);
    }
  }

  lemma ChosenAreInRange(cfg: Config, s: State, n: nat, active: map<Name, LeaseRecord>, bindable: set<int>,
                         targets: seq<int>)
    requires var hosts := Choice(cfg, s, n, active, bindable); |hosts| == |targets|
    ensures forall p :: p in HostPorts(PairPorts(Choice(cfg, s, n, active, bindable), targets)) ==>
      cfg.portStart <= p <= cfg.portEnd
  {
    ChoiceIsFree(cfg, s, n, active, bindable);
    AscendingPairsAreDistinct(Choice(cfg, s, n, active, bindable), targets);
  }

  lemma ReapWritesFewer(s: State, now: Time, faults: set<Fallible>, t: Tables)
    requires var plan := ReapPlan(s, now, faults); t == plan.end.tables || t in plan.writes
    ensures Fewer(t, s.tables)
  {
  }

  lemma AttemptWritesFewer(cfg: Config, s: State, cap: Capability, targets: seq<int>, ttl: Duration, now: Time,
                           id: Name,
                            env: Env, t: Tables)
    requires var plan := AttemptPlan(cfg, s, cap, targets, ttl, now, id, env);
      (t == plan.end.tables || t in plan.writes) && !(plan.reply.Granted? && t == plan.end.tables)
    ensures Fewer(t, s.tables)
  {
    hide AttemptPlan, ReapPlan;
    AttemptWrites(cfg, s, cap, targets, ttl, now, id, env, t);
    if t != s.tables { ReapWritesFewer(s, now, env.faults, t); }
  }

  lemma RenewWritesFewer(cfg: Config, s: State, cap: Capability, leaseID: Name, ttl: Duration,
                         t1: Time, t2: Time, t3: Time, faults: set<Fallible>, t: Tables)
    requires leaseID in s.tables.leases ==> s.tables.leases[leaseID].lease.id == leaseID
    requires var plan := RenewPlan(cfg, s, cap, leaseID, ttl, t1, t2, t3, faults);
      t == plan.end.tables || t in plan.writes
    ensures Fewer(t, s.tables)
  {
  }

  /** Every write of an operation but a grant leaves fewer rows. */
  lemma OpWritesFewer(cfg: Config, s: State, op: Op, env: Env, t: Tables)
    requires Consistent(s.tables)
    requires var plan := OpPlan(cfg, s, op, env);
      (t == plan.end.tables || t in plan.writes) && !(op.Attempt? && plan.reply.Granted? && t == plan.end.tables)
    ensures Fewer(t, s.tables)
  {
    hide AttemptPlan, RenewPlan, ReapPlan;
    match op
    case Attempt(cap, targets, ttl, now, id) =>
      if ValidRequest(cfg, targets, ttl) {
        AttemptWritesFewer(cfg, s, cap, targets, EffectiveTTL(cfg, ttl), now, id, env, t);
      }
    case Reap(now) => ReapWritesFewer(s, now, env.faults, t);
    case Renew(cap, leaseID, ttl, t1, t2, t3) =>
      assert leaseID in s.tables.leases ==> GoodRow(s.tables, leaseID);
      RenewWritesFewer(cfg, s, cap, leaseID, ttl, t1, t2, t3, env.faults, t);
    case _ =>
  }

  /** Whatever the clock reads, every operation keeps the quotas and the range, at every crash point. */
  lemma OpKeepsLimits(cfg: Config, s: State, op: Op, env: Env, t: Tables)
    requires Safe(s) && Proper(s, op) && Limited(cfg, s.tables)
    requires var plan := OpPlan(cfg, s, op, env); t == plan.end.tables || t in plan.writes
    ensures Limited(cfg, t)
  {
    var plan := OpPlan(cfg, s, op, env);
    if op.Attempt? && plan.reply.Granted? && t == plan.end.tables {
      AttemptKeepsLimits(cfg, s, op.cap, op.targets, EffectiveTTL(cfg, op.ttl), op.now, op.id, env);
    } else {
      OpWritesFewer(cfg, s, op, env, t);
      FewerKeepsLimits(cfg, t, s.tables);
    }
  }

  lemma {:induction false} RestoreWritesFewer(s: State, records: seq<LeaseRecord>, env: Env, t: Tables)
    requires var plan := RestorePlan(s, records, env); t == plan.end.tables || t in plan.writes
    ensures Fewer(t, s.tables)
  {
    if records != [] {
      var before := RestorePlan(s, records[..|records| - 1], env);
      RestoreWritesFewer(s, records[..|records| - 1], env, before.end.tables);
      if t in before.writes {
        RestoreWritesFewer(s, records[..|records| - 1], env, t);
      }
    }
  }

  lemma OpenWritesFewer(t0: Tables, start: Start, t: Tables)
    requires var plan := OpenPlan(t0, start.t1, start.records, start.env); t == plan.end.tables || t in plan.writes
    ensures Fewer(t, t0)
  {
    var reap := ReapPlan(Fresh(t0), start.t1, start.env.faults);
    if !reap.reply.Failed? && ReadActive !in start.env.faults && t !in reap.writes {
      RestoreWritesFewer(reap.end, start.records, start.env, t);
    }
  }

  /** The configuration never changes during the run. */
  predicate OneConfig(cfg: Config, events: seq<Event>) {
    forall i :: 0 <= i < |events| ==>
      (events[i].Boot? ==> events[i].cfg == cfg) && (events[i].CrashBoot? ==> events[i].cfg == cfg)
  }

  lemma EventKeepsLimits(w: World, e: Event)
    requires Invariant(w) && Valid(w, e) && Limited(w.cfg, w.state.tables)
    requires OneConfig(w.cfg, [e])
    ensures Next(w, e).cfg == w.cfg && Limited(w.cfg, Next(w, e).state.tables)
  {
    var t := Next(w, e).state.tables;
    assert e == [e][0];
    match e
    case Perform(op, env) => HonestIsProper(w, op); OpKeepsLimits(w.cfg, w.state, op, env, t);
    case Crash(op, env, cut) =>
      if t != w.state.tables { HonestIsProper(w, op); OpKeepsLimits(w.cfg, w.state, op, env, t); }
    case Shutdown =>
    case Boot(cfg, start) => OpenWritesFewer(w.state.tables, start, t); FewerKeepsLimits(w.cfg, t, w.state.tables);
    case CrashBoot(cfg, start, cut) =>
      if t != w.state.tables { OpenWritesFewer(w.state.tables, start, t); FewerKeepsLimits(w.cfg, t, w.state.tables); }
  }

  lemma {:induction false} RunKeepsLimits(w: World, events: seq<Event>)
    requires Invariant(w) && ValidRun(w, events) && Limited(w.cfg, w.state.tables) && OneConfig(w.cfg, events)
    ensures RunAll(w, events).cfg == w.cfg && Limited(w.cfg, RunAll(w, events).state.tables)
    decreases events
  {
    if events != [] {
      var e := events[0];
      assert OneConfig(w.cfg, [e]);
      EventKeepsLimits(w, e);
      EventKeepsInvariant(w, e);
      RunKeepsLimits(Next(w, e), events[1..]);
    }
  }

  /**
   Under one configuration, in every reachable state and for any clock readings: ports that rows of one run name are
   at most as many as the run limit, ports that rows of one user name at most as many as the user limit, and every
   leased port is in the configured range.
   */
  lemma QuotasAlwaysHold(cfg: Config, events: seq<Event>, userID: Name, runID: Name, ports: set<int>)
    requires ValidRun(Initial(cfg), events) && OneConfig(cfg, events)
    requires cfg.maximumRun >= 0 && cfg.maximumUser >= 0
    ensures var rows := RunAll(Initial(cfg), events).state.tables.leases;
      && ((forall p :: p in ports ==> RunHolds(rows, userID, runID, p)) ==> |ports| <= cfg.maximumRun)
      && ((forall p :: p in ports ==> UserHolds(rows, userID, p)) ==> |ports| <= cfg.maximumUser)
      && (forall id, p :: id in rows && p in Hosts(rows[id]) ==> cfg.portStart <= p <= cfg.portEnd)
  {
    InitialInvariant(cfg);
    assert WithinQuotas(cfg, EMPTY.leases) by {
      forall u ensures UserPorts(EMPTY.leases, u) == 0 { assert UsedPorts(UserRows(EMPTY.leases, u)) == {}; }
      forall u, r ensures RunPorts(EMPTY.leases, u, r) == 0 { assert UsedPorts(RunRows(EMPTY.leases, u, r)) == {}; }
    }
    RunKeepsLimits(Initial(cfg), events);
    var rows := RunAll(Initial(cfg), events).state.tables.leases;
    PortsAreCounted(rows, userID, runID, ports);
    assert RunPorts(rows, userID, runID) <= cfg.maximumRun && UserPorts(rows, userID) <= cfg.maximumUser;
  }
}
