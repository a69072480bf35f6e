/** The layer that gives every granted, renewed or restored lease its expiry job. */
module Api {
  import opened Types
  import opened Tables
  import opened Plans
  import opened Safety
  import opened Restart
  import opened Runs
  import opened Waiting
  import opened Manager
  import opened Expiry

  function ApiRequest(cfg: Config, cap: Capability, targets: seq<int>, ttlSeconds: int, waitSeconds: int,
                      start: Time): Request {
    var wait := SecondsToDuration(waitSeconds);
    Request(cap, targets, EffectiveTTL(cfg, SecondsToDuration(ttlSeconds)), wait, start + wait)
  }

  /**
   A request reaches the manager as it was made: the wait is as long as was asked for exactly when its product fits,
   the deadline is its end, and the lifetime is the one asked for when its product fits.
   */
  lemma RequestIsAsAsked(cfg: Config, cap: Capability, targets: seq<int>, ttlSeconds: int, waitSeconds: int,
                         start: Time)
    ensures var r := ApiRequest(cfg, cap, targets, ttlSeconds, waitSeconds, start);
      && (r.wait == waitSeconds * SECOND <==> ProductFits(waitSeconds))
      && r.deadline == start + r.wait && r.cap == cap && r.targets == targets
      && (ProductFits(ttlSeconds) ==> r.ttl == AskedTTL(cfg, ttlSeconds))
  {
  }

  /** What others do between the grant and its scheduling or release is proper, whenever the grant comes. */
  ghost predicate ProperAfter(cfg: Config, s: State, r: Request, turns: nat -> Turn, between: seq<Act>) {
    forall n: nat :: AllocateLoop(cfg, s, r, First(turns, n)).Answered? ==>
      ProperActs(cfg, AllocateLoop(cfg, s, r, First(turns, n)).end, between)
  }

  /**
   What an allocation request that took `turns` leaves. Refused, it leaves what others did and the reaps. Granted,
   it has added one row to that, others act again, and if scheduling fails the lease is released.
   */
  ghost predicate AllocateEffect(cfg: Config, s: State, r: Request, turns: seq<Turn>, between: seq<Act>,
                                 scheduleFails: bool,
                                 faults: set<Fallible>, end: State, reply: Reply) {
    var out := AllocateLoop(cfg, s, r, turns);
    out.Answered? &&
      if out.reply.Granted? then
        var later := RunActs(cfg, out.end, between);
        if scheduleFails then
          reply == Failed(SchedulerError) && end == ReleasePlan(later, out.reply.lease.id, r.cap.hash, faults).end
        else reply == out.reply && end == later
      else
        reply == out.reply && end == out.end
  }

  // ----- the compensating release

  /**
   Whatever others have done since the grant, a release that works leaves no lease of this capability under the
   identifier, and no other row or forwarder changed.
   */
  lemma RollbackIsComplete(later: State, id: Name, hash: Name, faults: set<Fallible>, other: Name)
    requires Safe(later) && faults !! {ReadLease, EraseLease(id)} && hash != NO_NAME
    ensures var end := ReleasePlan(later, id, hash, faults).end;
      && (id in end.tables.leases ==> end.tables.leases[id].capabilityHash != hash)
      && (other != id ==> (other in end.tables.leases <==> other in later.tables.leases))
      && (other in end.tables.leases ==>
            && other in later.tables.leases && end.tables.leases[other] == later.tables.leases[other]
            && forall p :: p in Hosts(later.tables.leases[other]) && p in later.proxies ==>
                 p in end.proxies && end.proxies[p] == later.proxies[p])
      && (id in later.tables.leases && later.tables.leases[id].capabilityHash == hash ==>
            Hosts(later.tables.leases[id]) !! end.proxies.Keys)
  {
  }

  /** No other caller acts, and every call of the store succeeds. */
  predicate Alone(turns: seq<Turn>) {
    forall i :: 0 <= i < |turns| ==> turns[i].before == [] && turns[i].during == [] && turns[i].env.faults == {}
  }

  predicate Reaps(acts: seq<Act>) {
    forall i :: 0 <= i < |acts| ==> acts[i].op.Reap? && acts[i].env.faults == {}
  }

  function LatestReap(acts: seq<Act>): Time
    requires Reaps(acts)
  {
    if acts == [] then ZERO_TIME else Max(acts[0].op.now, LatestReap(acts[1..]))
  }

  lemma {:induction false} AloneOnlyReaps(cfg: Config, s: State, r: Request, turns: seq<Turn>)
    requires Alone(turns)
    ensures Reaps(Ledger(cfg, s, r, turns))
    decreases turns
  {
    hide TurnPlan, RunActs, Live;
    if turns != [] {
      AloneOnlyReaps(cfg, TakeTurn(cfg, s, r, turns[0]).end, r, turns[1..]);
    }
  }

  /** The rows and forwarders of `s`, but for the leases expired at `now`. */
  ghost predicate OnlyExpiredGone(s: State, now: Time, end: State) {
    && end.tables.leases == ActiveLeases(s.tables, now)
    && SameForwarding(end.proxies, s.proxies - UsedPorts(ExpiredLeases(s.tables, now)))
  }

  lemma NothingExpiredAtZero(s: State)
    requires Safe(s)
    ensures OnlyExpiredGone(s, ZERO_TIME, s)
  {
    var active, expired := ActiveLeases(s.tables, ZERO_TIME), ExpiredLeases(s.tables, ZERO_TIME);
    forall id | id in s.tables.leases ensures id in active && id !in expired {
      assert GoodRow(s.tables, id);
    }
    assert forall p :: p !in UsedPorts(expired);
  }

  /** The ports of the rows that two reaps find expired are those that one reap at the later instant would. */
  lemma TwoReapsFree(s: State, now: Time, middle: State, later: Time, p: int)
    requires middle.tables.leases == ActiveLeases(s.tables, now)
    ensures p in UsedPorts(ExpiredLeases(s.tables, Max(now, later)))
      <==> p in UsedPorts(ExpiredLeases(s.tables, now)) || p in UsedPorts(ExpiredLeases(middle.tables, later))
  {
    var first, second, both := ExpiredLeases(s.tables, now), ExpiredLeases(middle.tables, later),
      ExpiredLeases(s.tables, Max(now, later));
    if p in UsedPorts(both) {
      var id :| id in both && p in Hosts(both[id]);
      assert id in first || id in second;
    }
    if p in UsedPorts(first) {
      var id :| id in first && p in Hosts(first[id]);
      assert id in both;
    }
    if p in UsedPorts(second) {
      var id :| id in second && p in Hosts(second[id]);
      assert id in both && both[id] == second[id];
    }
  }

  lemma TwoReaps(s: State, now: Time, middle: State, later: Time, end: State)
    requires OnlyExpiredGone(s, now, middle) && OnlyExpiredGone(middle, later, end)
    ensures OnlyExpiredGone(s, Max(now, later), end)
  {
    assert end.tables.leases == ActiveLeases(s.tables, Max(now, later));
    forall p
      ensures p in UsedPorts(ExpiredLeases(s.tables, Max(now, later)))
        <==> p in UsedPorts(ExpiredLeases(s.tables, now)) || p in UsedPorts(ExpiredLeases(middle.tables, later))
    {
      TwoReapsFree(s, now, middle, later, p);
    }
  }

  lemma {:induction false} ReapsLeaveUnexpired(cfg: Config, s: State, acts: seq<Act>)
    requires Safe(s) && Reaps(acts)
    ensures OnlyExpiredGone(s, LatestReap(acts), RunActs(cfg, s, acts))
    decreases acts
  {
    if acts == [] {
      NothingExpiredAtZero(s);
    } else {
      var now := acts[0].op.now;
      var middle := ReapPlan(s, now, {}).end;
      assert OnlyExpiredGone(s, now, middle) by { ReapedLeases(s.tables, now); }
      assert Safe(middle) by { ReapKeepsSafe(s, now, {}); }
      ReapsLeaveUnexpired(cfg, middle, acts[1..]);
      TwoReaps(s, now, middle, LatestReap(acts[1..]), RunActs(cfg, s, acts));
    }
  }

  /**
   A lone caller whose lease cannot be scheduled leaves the rows and forwarders as they were before its request,
   minus the leases that expired meanwhile.
   */
  lemma LoneRollback(cfg: Config, s: State, r: Request, turns: seq<Turn>, end: State, reply: Reply)
    requires Safe(s) && Alone(turns)
    requires AllocateEffect(cfg, s, r, turns, [], true, {}, end, reply) && reply == Failed(SchedulerError)
    ensures Reaps(Ledger(cfg, s, r, turns)) && OnlyExpiredGone(s, LatestReap(Ledger(cfg, s, r, turns)), end)
  {
    var out := AllocateLoop(cfg, s, r, turns);
    var acts := Ledger(cfg, s, r, turns);
    AllOrNothing(cfg, s, r, turns);
    AloneOnlyReaps(cfg, s, r, turns);
    ReapsLeaveUnexpired(cfg, s, acts);
    if out.reply.Granted? {
      ReleaseUndoesGrant(RunActs(cfg, s, acts), out.end, r.cap.hash, out.reply.lease, {});
    }
  }

  /** The job of a lease whose schedule call reads the clock at `read` and queues the job at `queued`. */
  function JobOf(lease: Lease, read: Time, queued: Time): Job {
    ScheduleExpiry(lease.id, lease.expiresAt, read, queued)
  }

  /** Some job was scheduled for this lease and expiry, and is not due before it. */
  predicate HasTimelyJob(jobs: multiset<Job>, lease: Lease) {
    exists job :: job in jobs && job.lease == lease.id && job.expiry == lease.expiresAt && job.expiry <= job.due
  }

  lemma JobAdded(jobs: multiset<Job>, lease: Lease, job: Job)
    requires job.lease == lease.id && job.expiry == lease.expiresAt && job.expiry <= job.due
    ensures HasTimelyJob(jobs + multiset{job}, lease)
    ensures forall other :: HasTimelyJob(jobs, other) ==> HasTimelyJob(jobs + multiset{job}, other)
  {
    assert job in jobs + multiset{job};
    forall other | HasTimelyJob(jobs, other) ensures HasTimelyJob(jobs + multiset{job}, other) {
      var k :| k in jobs && k.lease == other.id && k.expiry == other.expiresAt && k.expiry <= k.due;
      assert k in jobs + multiset{job};
    }
  }

  class Api {
    const manager: Manager
    var jobs: multiset<Job>

    constructor (manager: Manager)
      ensures this.manager == manager && jobs == multiset{}
    {
      this.manager := manager;
      jobs := multiset{};
    }

    method Schedule(lease: Lease, read: Time, queued: Time, fails: bool) returns (ok: bool)
      modifies this`jobs
      ensures ok == !fails
      ensures jobs == (if ok then old(jobs) + multiset{JobOf(lease, read, queued)} else old(jobs))
    {
      ok := !fails;
      if ok {
        var delay := lease.expiresAt - read;
        if delay < 0 { delay := 0; }
        jobs := jobs + multiset{Job(lease.id, lease.expiresAt, queued + delay, RETRIES)};
      }
    }

    /**
     Allocates, then schedules; when scheduling fails, releases the lease again and ignores how that went.
     No lock is held from the grant on: `between` is what others do before the release.
     */
    method Allocate(cap: Capability, targets: seq<int>, ttlSeconds: int, waitSeconds: int, maxWait: Duration,
                    start: Time, turns: nat -> Turn, ghost limit: nat, between: seq<Act>,
                    read: Time, queued: Time, scheduleFails: bool, faults: set<Fallible>)
      returns (reply: Reply, ghost taken: nat)
      requires manager.Valid()
      requires var r := ApiRequest(manager.config, cap, targets, ttlSeconds, waitSeconds, start);
        ValidRequest(manager.config, targets, SecondsToDuration(ttlSeconds)) ==>
          && FewSignals(manager.config, manager.State(), r, turns, limit)
          && ProperAfter(manager.config, manager.State(), r, turns, between)
      modifies this, manager, manager.store
      ensures manager.Valid()
      ensures var r := ApiRequest(manager.config, cap, targets, ttlSeconds, waitSeconds, start);
        if 0 <= r.wait <= maxWait && ValidRequest(manager.config, targets, SecondsToDuration(ttlSeconds)) then
          && AllocateEffect(manager.config, old(manager.State()), r, First(turns, taken), between, scheduleFails,
               faults, manager.State(), reply)
          && jobs == (if reply.Granted? then old(jobs) + multiset{JobOf(reply.lease, read, queued)} else old(jobs))
        else
          manager.State() == old(manager.State()) && jobs == old(jobs) && reply == Failed(InvalidRequest)
    {
      hide AllocateLoop, RunActs, FewSignals, ProperActs, ReleasePlan;
      taken := 0;
      var wait := SecondsToDuration(waitSeconds);
      if wait < 0 || wait > maxWait { return Failed(InvalidRequest), 0; }
      reply, taken := manager.Allocate(cap, targets, SecondsToDuration(ttlSeconds), wait, start, turns, limit);
      if reply.Granted? {
        manager.Others(between);
        reply := ScheduleOrRelease(reply.lease, cap.hash, read, queued, scheduleFails, faults);
      }
    }

    /** Schedules the job of a lease granted, or takes the lease back. */
    method ScheduleOrRelease(lease: Lease, hash: Name, read: Time, queued: Time, scheduleFails: bool,
                             faults: set<Fallible>)
      returns (reply: Reply)
      requires manager.Valid()
      modifies this, manager, manager.store
      ensures manager.Valid()
      ensures jobs == if scheduleFails then old(jobs) else old(jobs) + multiset{JobOf(lease, read, queued)}
      ensures reply == if scheduleFails then Failed(SchedulerError) else Granted(lease)
      ensures manager.State() ==
        if scheduleFails then ReleasePlan(old(manager.State()), lease.id, hash, faults).end else old(manager.State())
    {
      var ok := Schedule(lease, read, queued, scheduleFails);
      if ok { return Granted(lease); }
      var _ := manager.ReleaseWhere(lease.id, hash, faults);
      return Failed(SchedulerError);
    }

    /** Renews, then schedules; when scheduling fails the renewal stays. */
    method Renew(cap: Capability, leaseID: Name, ttlSeconds: int, t1: Time, t2: Time, t3: Time,
                 read: Time, queued: Time, scheduleFails: bool, faults: set<Fallible>)
      returns (reply: Reply)
      requires manager.Valid() && Genuine(manager.store.Snapshot(), cap) && t1 >= ZERO_TIME && t3 >= ZERO_TIME
      modifies this, manager, manager.store
      ensures manager.Valid()
      ensures var plan := RenewPlan(manager.config, old(manager.State()), cap, leaseID,
        SecondsToDuration(ttlSeconds), t1, t2, t3, faults);
        && manager.State() == plan.end
        && (if plan.reply.Granted? && !scheduleFails then
              reply == plan.reply && jobs == old(jobs) + multiset{JobOf(plan.reply.lease, read, queued)}
            else
              jobs == old(jobs) && reply == if plan.reply.Granted? then Failed(SchedulerError) else plan.reply)
    {
      reply := manager.Renew(cap, leaseID, SecondsToDuration(ttlSeconds), t1, t2, t3, faults);
      if !reply.Granted? { return; }
      var ok := Schedule(reply.lease, read, queued, scheduleFails);
      if !ok { return Failed(SchedulerError); }
    }

    /** Schedules a job for every lease active at `listed`, up to the first schedule call that fails. */
    method ScheduleRestored(listed: Time, readings: nat -> Time, fails: nat -> bool) returns (ok: bool)
      requires manager.Valid()
      modifies this`jobs
      ensures old(jobs) <= jobs
      ensures ok ==> forall id :: id in ActiveLeases(manager.store.Snapshot(), listed) ==>
        HasTimelyJob(jobs, manager.store.leases[id].lease)
    {
      var records := manager.ListAll(listed);
      for i := 0 to |records|
        invariant old(jobs) <= jobs
        invariant forall k :: 0 <= k < i ==> HasTimelyJob(jobs, records[k].lease)
      {
        ghost var before := jobs;
        ok := Schedule(records[i].lease, readings(i), readings(i), fails(i));
        if !ok { return; }
        JobAdded(before, records[i].lease, JobOf(records[i].lease, readings(i), readings(i)));
      }
      ok := true;
      forall id | id in ActiveLeases(manager.store.Snapshot(), listed)
        ensures HasTimelyJob(jobs, manager.store.leases[id].lease)
      {
        assert ActiveLeases(manager.store.Snapshot(), listed)[id] in records;
      }
    }
  }
}
