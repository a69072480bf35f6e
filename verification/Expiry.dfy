/** The expiry jobs of the daemon: one for every lease granted, renewed or restored. */
module Expiry {
  import opened Types
  import opened Tables
  import opened Plans
  import opened Safety
  import opened Restart
  import opened Runs

  /** How often a job whose reap fails is tried again, each time a second later. */
  const RETRIES: nat := 3

  /**
   A scheduled reap: the lease and the expiry it was scheduled for, when it becomes due, and how many retries it
   has left. The lease is kept for the record: a job carries nothing, and reaps whatever has expired.
   */
  datatype Job = Job(lease: Name, expiry: Time, due: Time, retries: nat)

  /** A lease handed to a call that has yet to schedule its job. */
  datatype Promise = Promise(id: Name, expiry: Time)

  /**
   The daemon: the broker, the durable jobs, the promises of calls under way, the clock reading at which the
   restored leases were listed, and the promises whose job was dropped because all its reaps failed.
   */
  datatype Daemon = Daemon(
    world: World, jobs: multiset<Job>, pending: set<Promise>, floor: Time, dropped: set<Promise>)

  datatype Doing =
    | Broker(e: Event)
    | BootAndList(cfg: Config, start: Start, listed: Time)
    | Schedule(promise: Promise, read: Time, queued: Time)
    | RunJob(job: Job, now: Time, faults: set<Fallible>)

  /**
   The job waits until the expiry from the reading, or not at all when that is past, counted from when it is queued.
   */
  function ScheduleExpiry(id: Name, expiry: Time, read: Time, queued: Time): Job {
    Job(id, expiry, queued + (if expiry - read < 0 then 0 else expiry - read), RETRIES)
  }

  /** The retry of a job that has run, if it is not done and has one left. */
  function Retry(job: Job, now: Time, done: bool): multiset<Job> {
    if !done && job.retries > 0 then multiset{Job(job.lease, job.expiry, now + SECOND, job.retries - 1)} else multiset{}
  }

  function ActivePromises(t: Tables, now: Time): set<Promise> {
    set id | id in t.leases && t.leases[id].lease.expiresAt > now :: Promise(id, t.leases[id].lease.expiresAt)
  }

  ghost function Granting(w: World, e: Event): set<Promise> {
    if e.Perform? && OpPlan(w.cfg, w.state, e.op, e.env).reply.Granted? then
      var lease := OpPlan(w.cfg, w.state, e.op, e.env).reply.lease;
      {Promise(lease.id, lease.expiresAt)}
    else {}
  }

  ghost function Do(d: Daemon, doing: Doing): Daemon {
    match doing
    case Broker(e) =>
      d.(world := Next(d.world, e), pending := if e.Perform? then d.pending + Granting(d.world, e) else {})
    case BootAndList(cfg, start, listed) =>
      var w := Next(d.world, Boot(cfg, start));
      d.(world := w.(clock := Max(w.clock, listed)), pending := ActivePromises(w.state.tables, listed), floor := listed)
    case Schedule(promise, read, queued) =>
      d.(world := d.world.(clock := Max(d.world.clock, queued)), pending := d.pending - {promise},
         jobs := d.jobs + multiset{ScheduleExpiry(promise.id, promise.expiry, read, queued)})
    case RunJob(job, now, faults) =>
      var done := ReapPlan(d.world.state, now, faults).reply.Done?;
      d.(world := Next(d.world, Perform(Reap(now), Env({}, faults))),
         jobs := d.jobs - multiset{job} + Retry(job, now, done),
         dropped := if done || job.retries > 0 then d.dropped else d.dropped + {Promise(job.lease, job.expiry)})
  }

  /** Every schedule call succeeds, and queues its job within `latency` of reading the clock. */
  ghost predicate Possible(d: Daemon, doing: Doing, latency: Duration) {
    match doing
    case Broker(e) => Runs.Valid(d.world, e) && !e.Boot?
    case BootAndList(cfg, start, listed) => Runs.Valid(d.world, Boot(cfg, start))
    case Schedule(promise, read, queued) => d.world.running && promise in d.pending && read <= queued <= read + latency
    case RunJob(job, now, faults) => d.world.running && job in d.jobs && ZERO_TIME <= now && job.due <= now
  }

  ghost predicate PossibleRun(d: Daemon, doings: seq<Doing>, latency: Duration)
    decreases doings
  {
    doings == [] || (Possible(d, doings[0], latency) && PossibleRun(Do(d, doings[0]), doings[1..], latency))
  }

  ghost function DoAll(d: Daemon, doings: seq<Doing>): Daemon
    decreases doings
  {
    if doings == [] then d else DoAll(Do(d, doings[0]), doings[1..])
  }

  /** Some job was scheduled for this lease with this expiry. */
  predicate HasJob(jobs: multiset<Job>, id: Name, expiry: Time) {
    exists job :: job in jobs && job.lease == id && job.expiry == expiry
  }

  /** Some job was scheduled for this expiry, for whichever lease. */
  predicate HasJobAt(jobs: multiset<Job>, expiry: Time) {
    exists job :: job in jobs && job.expiry == expiry
  }

  /**
   The lease has a job of its own for its current expiry, or the call it was handed to has yet to schedule one, or
   that very job has been dropped.
   */
  predicate Covered(d: Daemon, id: Name, expiry: Time) {
    Promise(id, expiry) in d.pending || Promise(id, expiry) in d.dropped || HasJob(d.jobs, id, expiry)
  }

  ghost predicate AllCovered(d: Daemon) {
    d.world.running ==>
      forall id :: id in d.world.state.tables.leases && d.world.state.tables.leases[id].lease.expiresAt > d.floor ==>
        Covered(d, id, d.world.state.tables.leases[id].lease.expiresAt)
  }

  /** The job is being tried again, within a second. */
  predicate Retrying(job: Job, clock: Time) {
    job.retries < RETRIES && job.due <= clock + SECOND
  }

  /**
   No job is due before its expiry, and none later than the latency allows unless it is due already or tried again.
   */
  predicate JobsTimely(d: Daemon, latency: Duration) {
    forall job :: job in d.jobs ==>
      && job.retries <= RETRIES && job.expiry <= job.due
      && (job.due <= job.expiry + latency || job.due <= d.world.clock || Retrying(job, d.world.clock))
  }

  ghost predicate Coverage(d: Daemon, latency: Duration) {
    Invariant(d.world) && AllCovered(d) && JobsTimely(d, latency)
  }

  /** A row after an operation is as before, or is the lease the operation answered with. */
  ghost predicate OldOrAnswered(s: State, plan: Plan, id: Name)
    requires id in plan.end.tables.leases
  {
    || (id in s.tables.leases && plan.end.tables.leases[id] == s.tables.leases[id])
    || (plan.reply.Granted? && plan.reply.lease == plan.end.tables.leases[id].lease && plan.reply.lease.id == id)
  }

  /** A reap, whether it fails or not, leaves rows as they were; one that succeeds leaves none expired. */
  lemma ReapLeavesRows(s: State, now: Time, faults: set<Fallible>)
    ensures var plan := ReapPlan(s, now, faults);
      forall id :: id in plan.end.tables.leases ==>
        && id in s.tables.leases && plan.end.tables.leases[id] == s.tables.leases[id]
        && (plan.reply.Done? ==> s.tables.leases[id].lease.expiresAt > now)
  {
  }

  lemma AttemptRows(cfg: Config, s: State, cap: Capability, targets: seq<int>, ttl: Duration, now: Time, newID: Name,
                    env: Env, id: Name)
    requires id in AttemptPlan(cfg, s, cap, targets, ttl, now, newID, env).end.tables.leases
    ensures OldOrAnswered(s, AttemptPlan(cfg, s, cap, targets, ttl, now, newID, env), id)
  {
    hide Choice, Live, ReapPlan;
    ReapLeavesRows(s, now, env.faults);
    var plan := AttemptPlan(cfg, s, cap, targets, ttl, now, newID, env);
    if plan.reply.Granted? {
      GrantedAttempt(cfg, s, cap, targets, ttl, now, newID, env);
    } else {
      FailedAttemptOnlyReaps(cfg, s, cap, targets, ttl, now, newID, env);
    }
  }

  lemma ReleaseRows(s: State, leaseID: Name, hash: Name, faults: set<Fallible>, id: Name)
    requires id in ReleasePlan(s, leaseID, hash, faults).end.tables.leases
    ensures OldOrAnswered(s, ReleasePlan(s, leaseID, hash, faults), id)
  {
  }

  lemma RevokeRows(s: State, capID: Name, faults: set<Fallible>, id: Name)
    requires id in RevokePlan(s, capID, faults).end.tables.leases
    ensures OldOrAnswered(s, RevokePlan(s, capID, faults), id)
  {
  }

  lemma RenewRows(cfg: Config, s: State, cap: Capability, leaseID: Name, ttl: Duration,
                  t1: Time, t2: Time, t3: Time, faults: set<Fallible>, id: Name)
    requires leaseID in s.tables.leases ==> s.tables.leases[leaseID].lease.id == leaseID
    requires id in RenewPlan(cfg, s, cap, leaseID, ttl, t1, t2, t3, faults).end.tables.leases
    ensures OldOrAnswered(s, RenewPlan(cfg, s, cap, leaseID, ttl, t1, t2, t3, faults), id)
  {
  }

  lemma OpRows(cfg: Config, s: State, op: Op, env: Env, id: Name)
    requires Safe(s) && id in OpPlan(cfg, s, op, env).end.tables.leases
    ensures OldOrAnswered(s, OpPlan(cfg, s, op, env), id)
  {
    hide AttemptPlan, RenewPlan, ReleasePlan, RevokePlan, ReapPlan;
    match op
    case Attempt(cap, targets, ttl, now, newID) =>
      if ValidRequest(cfg, targets, ttl) {
        AttemptRows(cfg, s, cap, targets, EffectiveTTL(cfg, ttl), now, newID, env, id);
      }
    case Renew(cap, leaseID, ttl, t1, t2, t3) =>
      assert leaseID in s.tables.leases ==> GoodRow(s.tables, leaseID);
      RenewRows(cfg, s, cap, leaseID, ttl, t1, t2, t3, env.faults, id);
    case Release(cap, leaseID) => ReleaseRows(s, leaseID, cap.hash, env.faults, id);
    case Revoke(leaseID) => ReleaseRows(s, leaseID, NO_NAME, env.faults, id);
    case RevokeCapability(capID) => RevokeRows(s, capID, env.faults, id);
    case Reap(now) => ReapLeavesRows(s, now, env.faults);
    case _ =>
  }

  /** A job, stale or duplicate or not, removes no unexpired lease, and leaves exactly those when its reap succeeds. */
  lemma JobRemovesOnlyExpired(s: State, now: Time, faults: set<Fallible>)
    requires Safe(s)
    ensures var plan := ReapPlan(s, now, faults);
      && (forall id :: id in ActiveLeases(s.tables, now) ==>
            id in plan.end.tables.leases && plan.end.tables.leases[id] == s.tables.leases[id])
      && (plan.reply.Done? ==> plan.end.tables.leases == ActiveLeases(s.tables, now))
  {
    ReapedLeases(s.tables, now);
  }

  lemma BrokerKeepsCovered(d: Daemon, e: Event)
    requires Invariant(d.world) && AllCovered(d) && Runs.Valid(d.world, e) && !e.Boot?
    ensures AllCovered(Do(d, Broker(e)))
  {
    var d' := Do(d, Broker(e));
    if e.Perform? {
      HonestIsProper(d.world, e.op);
      forall id | id in d'.world.state.tables.leases && d'.world.state.tables.leases[id].lease.expiresAt > d.floor
        ensures Covered(d', id, d'.world.state.tables.leases[id].lease.expiresAt)
      {
        OpRows(d.world.cfg, d.world.state, e.op, e.env, id);
        var expiry := d'.world.state.tables.leases[id].lease.expiresAt;
        if Granting(d.world, e) != {Promise(id, expiry)} {
          assert Covered(d, id, expiry);
        }
      }
    }
  }

  lemma ScheduleKeepsCovered(d: Daemon, promise: Promise, read: Time, queued: Time)
    requires AllCovered(d)
    ensures AllCovered(Do(d, Schedule(promise, read, queued)))
  {
    var d' := Do(d, Schedule(promise, read, queued));
    var job := ScheduleExpiry(promise.id, promise.expiry, read, queued);
    assert job in d'.jobs;
    if d.world.running {
      forall id | id in d.world.state.tables.leases && d.world.state.tables.leases[id].lease.expiresAt > d.floor
        ensures Covered(d', id, d.world.state.tables.leases[id].lease.expiresAt)
      {
        var expiry := d.world.state.tables.leases[id].lease.expiresAt;
        assert Covered(d, id, expiry);
        if HasJob(d.jobs, id, expiry) {
          var k :| k in d.jobs && k.lease == id && k.expiry == expiry;
          assert k in d'.jobs;
        }
      }
    }
  }

  lemma OtherJobsStay(jobs: multiset<Job>, job: Job, more: multiset<Job>, id: Name, expiry: Time)
    requires HasJob(jobs, id, expiry) && (job.lease != id || job.expiry != expiry)
    ensures HasJob(jobs - multiset{job} + more, id, expiry)
  {
    var k :| k in jobs && k.lease == id && k.expiry == expiry;
    assert k in jobs - multiset{job} + more;
  }

  lemma RunJobKeepsCovered(d: Daemon, job: Job, now: Time, faults: set<Fallible>)
    requires Safe(d.world.state) && AllCovered(d) && d.world.running
    requires job in d.jobs && job.due <= now && job.expiry <= job.due
    ensures AllCovered(Do(d, RunJob(job, now, faults)))
  {
    hide ReapPlan, Safe;
    var d' := Do(d, RunJob(job, now, faults));
    var more := Retry(job, now, ReapPlan(d.world.state, now, faults).reply.Done?);
    ReapLeavesRows(d.world.state, now, faults);
    forall id | id in d'.world.state.tables.leases && d'.world.state.tables.leases[id].lease.expiresAt > d.floor
      ensures Covered(d', id, d'.world.state.tables.leases[id].lease.expiresAt)
    {
      var expiry := d.world.state.tables.leases[id].lease.expiresAt;
      assert Covered(d, id, expiry);
      if id != job.lease || expiry != job.expiry {
        if HasJob(d.jobs, id, expiry) { OtherJobsStay(d.jobs, job, more, id, expiry); }
      } else if job.retries > 0 {
        assert Job(id, expiry, now + SECOND, job.retries - 1) in more;
        assert Job(id, expiry, now + SECOND, job.retries - 1) in d'.jobs;
      }
    }
  }

  lemma BootIsCovered(d: Daemon, cfg: Config, start: Start, listed: Time)
    ensures AllCovered(Do(d, BootAndList(cfg, start, listed)))
  {
    var t := Do(d, BootAndList(cfg, start, listed)).world.state.tables;
    forall id | id in t.leases && t.leases[id].lease.expiresAt > listed
      ensures Covered(Do(d, BootAndList(cfg, start, listed)), id, t.leases[id].lease.expiresAt)
    {
      assert Promise(id, t.leases[id].lease.expiresAt) in ActivePromises(t, listed);
    }
  }

  lemma RunJobKeepsTimely(d: Daemon, job: Job, now: Time, faults: set<Fallible>, latency: Duration)
    requires JobsTimely(d, latency) && job in d.jobs && job.due <= now
    ensures JobsTimely(Do(d, RunJob(job, now, faults)), latency)
  {
    hide ReapPlan;
    var d' := Do(d, RunJob(job, now, faults));
    forall k | k in d'.jobs
      ensures k.retries <= RETRIES && k.expiry <= k.due
      ensures k.due <= k.expiry + latency || k.due <= d'.world.clock || Retrying(k, d'.world.clock)
    {
      assert k in d.jobs || k in Retry(job, now, ReapPlan(d.world.state, now, faults).reply.Done?);
    }
  }

  lemma ClockGoesOn(w: World, e: Event)
    ensures Next(w, e).clock >= w.clock
  {
    hide OpPlan, OpenPlan, CrashPoints;
  }

  lemma DoingKeepsTimely(d: Daemon, doing: Doing, latency: Duration)
    requires JobsTimely(d, latency) && Possible(d, doing, latency)
    ensures JobsTimely(Do(d, doing), latency)
  {
    hide Next;
    match doing
    case Broker(e) => ClockGoesOn(d.world, e);
    case BootAndList(cfg, start, listed) => ClockGoesOn(d.world, Boot(cfg, start));
    case Schedule(promise, read, queued) =>
    case RunJob(job, now, faults) => RunJobKeepsTimely(d, job, now, faults, latency);
  }

  lemma DoingKeepsInvariant(d: Daemon, doing: Doing, latency: Duration)
    requires Invariant(d.world) && Possible(d, doing, latency)
    ensures Invariant(Do(d, doing).world)
  {
    hide Safe, Next;
    match doing
    case Broker(e) => EventKeepsInvariant(d.world, e);
    case BootAndList(cfg, start, listed) => EventKeepsInvariant(d.world, Boot(cfg, start));
    case Schedule(promise, read, queued) =>
    case RunJob(job, now, faults) => EventKeepsInvariant(d.world, Perform(Reap(now), Env({}, faults)));
  }

  lemma DoingKeepsCoverage(d: Daemon, doing: Doing, latency: Duration)
    requires Coverage(d, latency) && Possible(d, doing, latency)
    ensures Coverage(Do(d, doing), latency)
  {
    hide Do, AllCovered;
    DoingKeepsInvariant(d, doing, latency);
    DoingKeepsTimely(d, doing, latency);
    match doing
    case Broker(e) => BrokerKeepsCovered(d, e);
    case BootAndList(cfg, start, listed) => BootIsCovered(d, cfg, start, listed);
    case Schedule(promise, read, queued) => ScheduleKeepsCovered(d, promise, read, queued);
    case RunJob(job, now, faults) => RunJobKeepsCovered(d, job, now, faults);
  }

  /**
   While schedule calls succeed, through any crashes, restarts and failing reaps, every lease whose call has
   completed, or that was active when the restored leases were listed, has a job of its own at or after its current
   expiry, unless that job's reap and all its retries have failed.
   */
  lemma {:induction false} EveryLeaseHasItsJob(d: Daemon, doings: seq<Doing>, latency: Duration)
    requires Coverage(d, latency) && PossibleRun(d, doings, latency)
    ensures Coverage(DoAll(d, doings), latency)
    decreases doings
  {
    if doings != [] {
      DoingKeepsCoverage(d, doings[0], latency);
      EveryLeaseHasItsJob(Do(d, doings[0]), doings[1..], latency);
    }
  }

  function Started(cfg: Config): Daemon {
    Daemon(Initial(cfg), multiset{}, {}, ZERO_TIME, {})
  }

  /**
   Once every due job has run, a lease whose call has completed is not past its expiry by the scheduling latency,
   unless a reap for that expiry has failed and is tried again within a second. This leaves out only a lease whose
   own job was dropped and for whose expiry no other lease has a job either.
   */
  lemma NoLeaseOutstays(cfg: Config, doings: seq<Doing>, latency: Duration, id: Name)
    requires PossibleRun(Started(cfg), doings, latency)
    requires var d := DoAll(Started(cfg), doings);
      && d.world.running && id in d.world.state.tables.leases
      && var expiry := d.world.state.tables.leases[id].lease.expiresAt;
      && expiry > d.floor && Promise(id, expiry) !in d.pending
      && (Promise(id, expiry) !in d.dropped || HasJobAt(d.jobs, expiry))
      && forall job :: job in d.jobs ==> job.due > d.world.clock
    ensures var d := DoAll(Started(cfg), doings);
      var expiry := d.world.state.tables.leases[id].lease.expiresAt;
      || d.world.clock < expiry + latency
      || exists job :: job in d.jobs && job.expiry == expiry && Retrying(job, d.world.clock)
  {
    InitialInvariant(cfg);
    EveryLeaseHasItsJob(Started(cfg), doings, latency);
    var d := DoAll(Started(cfg), doings);
    var expiry := d.world.state.tables.leases[id].lease.expiresAt;
    assert Covered(d, id, expiry);
    var job :| job in d.jobs && job.expiry == expiry;
  }

  // ----- dropped jobs

  /** The promise the job was scheduled for. */
  function PromiseOf(job: Job): Promise {
    Promise(job.lease, job.expiry)
  }

  /** How many reaps of jobs scheduled for this promise fail. */
  ghost function FailedReaps(d: Daemon, doings: seq<Doing>, promise: Promise): nat
    decreases doings
  {
    if doings == [] then 0
    else
      var fails := doings[0].RunJob? && PromiseOf(doings[0].job) == promise
        && ReapPlan(d.world.state, doings[0].now, doings[0].faults).reply.Failed?;
      (if fails then 1 else 0) + FailedReaps(Do(d, doings[0]), doings[1..], promise)
  }

  /** After `n` failures each job has used up at most that many retries, and is dropped only with one failure more. */
  predicate RetriesUsed(d: Daemon, promise: Promise, n: nat) {
    && (promise in d.dropped ==> n > RETRIES)
    && forall job :: job in d.jobs && PromiseOf(job) == promise ==> n + job.retries >= RETRIES
  }

  lemma DoingUsesRetries(d: Daemon, doing: Doing, promise: Promise, n: nat)
    requires RetriesUsed(d, promise, n) && (doing.RunJob? ==> doing.job in d.jobs)
    ensures RetriesUsed(Do(d, doing), promise, n + FailedReaps(d, [doing], promise))
  {
    hide Next, ReapPlan;
    assert FailedReaps(Do(d, doing), [doing][1..], promise) == 0;
    if doing.RunJob? { ReapIsDoneOrFailed(d.world.state, doing.now, doing.faults); }
  }

  lemma ReapIsDoneOrFailed(s: State, now: Time, faults: set<Fallible>)
    ensures ReapPlan(s, now, faults).reply.Done? || ReapPlan(s, now, faults).reply.Failed?
  {
  }

  lemma {:induction false} RunUsesRetries(d: Daemon, doings: seq<Doing>, latency: Duration, promise: Promise, n: nat)
    requires RetriesUsed(d, promise, n) && PossibleRun(d, doings, latency)
    ensures RetriesUsed(DoAll(d, doings), promise, n + FailedReaps(d, doings, promise))
    decreases doings
  {
    hide Do;
    if doings != [] {
      DoingUsesRetries(d, doings[0], promise, n);
      assert [doings[0]][1..] == [];
      RunUsesRetries(Do(d, doings[0]), doings[1..], latency, promise, n + FailedReaps(d, [doings[0]], promise));
    }
  }

  /** A job is dropped only after its reap and all its retries have failed. */
  lemma DroppedAfterAllRetries(cfg: Config, doings: seq<Doing>, latency: Duration, promise: Promise)
    requires PossibleRun(Started(cfg), doings, latency) && promise in DoAll(Started(cfg), doings).dropped
    ensures FailedReaps(Started(cfg), doings, promise) >= 1 + RETRIES
  {
    hide PossibleRun, DoAll, FailedReaps;
    RunUsesRetries(Started(cfg), doings, latency, promise, 0);
  }
}
