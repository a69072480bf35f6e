/**
 Allocations that wait. Every other thread acts on the broker only through whole critical sections, so
 from a waiter's point of view the others are an arbitrary sequence of operations before its attempt and
 another one while it is blocked.
 */
module Waiting {
  import opened Pick
  import opened Types
  import opened Tables
  import opened Pool
  import opened Plans
  import opened Safety

  datatype Act = Act(op: Op, env: Env)

  ghost function RunActs(cfg: Config, s: State, acts: seq<Act>): State
    decreases acts
  {
    if acts == [] then s else RunActs(cfg, OpPlan(cfg, s, acts[0].op, acts[0].env).end, acts[1..])
  }

  /** Each operation is a proper call in the state it finds. */
  ghost predicate ProperActs(cfg: Config, s: State, acts: seq<Act>)
    decreases acts
  {
    acts == [] || (Proper(s, acts[0].op) && ProperActs(cfg, OpPlan(cfg, s, acts[0].op, acts[0].env).end, acts[1..]))
  }

  lemma {:induction false} RunActsKeepsSafe(cfg: Config, s: State, acts: seq<Act>)
    requires Safe(s) && ProperActs(cfg, s, acts)
    ensures Safe(RunActs(cfg, s, acts))
    decreases acts
  {
    if acts != [] {
      OpKeepsSafe(cfg, s, acts[0].op, acts[0].env);
      RunActsKeepsSafe(cfg, OpPlan(cfg, s, acts[0].op, acts[0].env).end, acts[1..]);
    }
  }

  lemma {:induction false} RunActsAppend(cfg: Config, s: State, a: seq<Act>, b: seq<Act>)
    ensures RunActs(cfg, s, a + b) == RunActs(cfg, RunActs(cfg, s, a), b)
    decreases a
  {
    if a == [] {
      assert a + b == b;
    } else {
      assert (a + b)[0] == a[0] && (a + b)[1..] == a[1..] + b;
      RunActsAppend(cfg, OpPlan(cfg, s, a[0].op, a[0].env).end, a[1..], b);
    }
  }

  // ----- signals

  /** Rows may be added or renewed, but none goes. */
  predicate Stays(a: map<Name, LeaseRecord>, b: map<Name, LeaseRecord>) {
    forall id :: id in a ==> id in b && b[id].lease.ports == a[id].lease.ports
  }

  /** A reap at `now` deletes an expired lease and then fails on the capabilities, before its signal. */
  predicate ReapLosesSignal(s: State, now: Time, faults: set<Fallible>) {
    && ReadExpired !in faults && PurgeLeases !in faults && PurgeCapabilities in faults
    && exists id :: id in s.tables.leases && s.tables.leases[id].lease.expiresAt <= now
  }

  ghost predicate LosesSignal(cfg: Config, s: State, op: Op, env: Env) {
    match op
    case Reap(now) => ReapLosesSignal(s, now, env.faults)
    case Attempt(cap, targets, ttl, now, _) =>
      ValidRequest(cfg, targets, ttl) && ReadCapability !in env.faults && Live(s.tables, cap.hash, now)
      && ReapLosesSignal(s, now, env.faults)
    case _ => false
  }

  /** What an operation does to the rows and the signal count. */
  ghost predicate Signals(s: State, end: State, lost: bool) {
    && end.changed >= s.changed
    && (!lost && end.changed == s.changed ==> Stays(s.tables.leases, end.tables.leases))
    && (lost ==> end.changed == s.changed && !Stays(s.tables.leases, end.tables.leases))
  }

  lemma ReapSignals(s: State, now: Time, faults: set<Fallible>)
    requires Consistent(s.tables)
    ensures Signals(s, ReapPlan(s, now, faults).end, ReapLosesSignal(s, now, faults))
  {
    var expired := ExpiredLeases(s.tables, now);
    if ReadExpired in faults || PurgeLeases in faults {
    } else {
      ReapedLeases(s.tables, now);
      if exists id :: id in s.tables.leases && s.tables.leases[id].lease.expiresAt <= now {
        var id :| id in s.tables.leases && s.tables.leases[id].lease.expiresAt <= now;
        assert id in expired;
        assert id !in DropExpiredLeases(s.tables, now).leases;
      } else {
        NoneExpired(s.tables, now);
      }
    }
  }

  lemma NoneExpired(t: Tables, now: Time)
    requires forall id :: id in t.leases ==> t.leases[id].lease.expiresAt > now
    ensures |ExpiredLeases(t, now)| == 0
  {
    assert forall id :: id !in ExpiredLeases(t, now);
    if |ExpiredLeases(t, now)| > 0 {
      var id := SomeMember(ExpiredLeases(t, now).Keys);
    }
  }

  lemma AttemptReapsWhenLive(cfg: Config, s: State, cap: Capability, targets: seq<int>, ttl: Duration, now: Time,
                             id: Name, env: Env)
    requires AttemptPlan(cfg, s, cap, targets, ttl, now, id, env).reply.Failed?
    ensures AttemptPlan(cfg, s, cap, targets, ttl, now, id, env).end
      == (if ReadCapability in env.faults || !Live(s.tables, cap.hash, now) then s
        else ReapPlan(s, now, env.faults).end)
  {
  }

  lemma DoneReapSignals(s: State, now: Time, faults: set<Fallible>)
    requires ReapPlan(s, now, faults).reply.Done?
    ensures !ReapLosesSignal(s, now, faults)
  {
  }

  lemma AttemptSignals(cfg: Config, s: State, cap: Capability, targets: seq<int>, ttl: Duration, now: Time, id: Name,
                       env: Env)
    requires Consistent(s.tables)
    ensures Signals(s, AttemptPlan(cfg, s, cap, targets, ttl, now, id, env).end,
      ReadCapability !in env.faults && Live(s.tables, cap.hash, now) && ReapLosesSignal(s, now, env.faults))
  {
    hide ReapPlan, Choice, LimitError;
    ReapSignals(s, now, env.faults);
    if AttemptPlan(cfg, s, cap, targets, ttl, now, id, env).reply.Granted? {
      GrantedAttempt(cfg, s, cap, targets, ttl, now, id, env);
      DoneReapSignals(s, now, env.faults);
    } else {
      AttemptReapsWhenLive(cfg, s, cap, targets, ttl, now, id, env);
    }
  }

  /**
   An operation removes a lease row without signalling the waiters exactly when it reaps an expired lease
   and then fails to delete the expired capabilities.
   */
  lemma RemovalIsSignalled(cfg: Config, s: State, op: Op, env: Env)
    requires Safe(s) && Proper(s, op)
    ensures Signals(s, OpPlan(cfg, s, op, env).end, LosesSignal(cfg, s, op, env))
  {
    match op
    case Reap(now) => ReapSignals(s, now, env.faults);
    case Attempt(cap, targets, ttl, now, id) =>
      if ValidRequest(cfg, targets, ttl) {
        AttemptSignals(cfg, s, cap, targets, EffectiveTTL(cfg, ttl), now, id, env);
      }
    case _ =>
  }

  /**
   A lost signal is not sent again. A later reap signals exactly when it is complete and finds another lease
   expired among those the first one left.
   */
  lemma LostSignalIsNotResent(s: State, now: Time, faults: set<Fallible>, later: Time, again: set<Fallible>)
    requires Consistent(s.tables) && ReapLosesSignal(s, now, faults)
    ensures var first := ReapPlan(s, now, faults).end;
      && !Stays(s.tables.leases, first.tables.leases) && first.changed == s.changed
      && (ReapPlan(first, later, again).end.changed > s.changed <==>
            && again !! {ReadExpired, PurgeLeases, PurgeCapabilities}
            && exists id :: id in first.tables.leases && first.tables.leases[id].lease.expiresAt <= later)
  {
    ReapSignals(s, now, faults);
    ReapSignalsExactly(ReapPlan(s, now, faults).end, later, again);
  }

  lemma ReapSignalsExactly(s: State, now: Time, faults: set<Fallible>)
    ensures ReapPlan(s, now, faults).end.changed ==
      if faults !! {ReadExpired, PurgeLeases, PurgeCapabilities}
        && exists id :: id in s.tables.leases && s.tables.leases[id].lease.expiresAt <= now
      then s.changed + 1 else s.changed
  {
    if id :| id in s.tables.leases && s.tables.leases[id].lease.expiresAt <= now {
      assert id in ExpiredLeases(s.tables, now);
    } else {
      NoneExpired(s.tables, now);
    }
  }

  // ----- no missed wakeup

  /** No act loses its signal in the state it finds. */
  ghost predicate NoSignalLost(cfg: Config, s: State, acts: seq<Act>)
    decreases acts
  {
    acts == [] ||
      (!LosesSignal(cfg, s, acts[0].op, acts[0].env)
        && NoSignalLost(cfg, OpPlan(cfg, s, acts[0].op, acts[0].env).end, acts[1..]))
  }

  /** Signals are only ever added; while no signal is lost and their count does not move, no row goes. */
  lemma {:induction false} UnsignalledRowsStay(cfg: Config, s: State, acts: seq<Act>)
    requires Safe(s) && ProperActs(cfg, s, acts)
    ensures RunActs(cfg, s, acts).changed >= s.changed
    ensures NoSignalLost(cfg, s, acts) && RunActs(cfg, s, acts).changed == s.changed ==>
      Stays(s.tables.leases, RunActs(cfg, s, acts).tables.leases)
    decreases acts
  {
    if acts != [] {
      var next := OpPlan(cfg, s, acts[0].op, acts[0].env).end;
      RemovalIsSignalled(cfg, s, acts[0].op, acts[0].env);
      OpKeepsSafe(cfg, s, acts[0].op, acts[0].env);
      UnsignalledRowsStay(cfg, next, acts[1..]);
    }
  }

  /** The ports an allocation could still be given: in range, bindable and in no row. */
  function Available(cfg: Config, rows: map<Name, LeaseRecord>, bindable: set<int>): set<int> {
    FreePorts(cfg, UsedPorts(rows), {}, bindable)
  }

  lemma ProxiesAreUsed(s: State)
    requires Safe(s)
    ensures forall p :: p in s.proxies ==> p in UsedPorts(s.tables.leases)
  {
    forall p | p in s.proxies ensures p in UsedPorts(s.tables.leases) {
      assert Backed(s.tables, p, s.proxies[p]);
      var id :| id in s.tables.leases && Serves(s.tables.leases[id], p, s.proxies[p]);
      assert p in Hosts(s.tables.leases[id]);
    }
  }

  /** After a complete reap the rows are the unexpired ones, and an attempt chooses among the available ports. */
  lemma ReapedPool(cfg: Config, s: State, now: Time, env: Env)
    requires Safe(s) && ReapPlan(s, now, env.faults).reply.Done?
    ensures var end := ReapPlan(s, now, env.faults).end;
      && end.tables.leases == ActiveLeases(s.tables, now)
      && ActiveLeases(end.tables, now) == ActiveLeases(s.tables, now)
      && FreePorts(cfg, UsedPorts(end.tables.leases), end.proxies.Keys, env.bindable)
        == Available(cfg, ActiveLeases(s.tables, now), env.bindable)
  {
    ReapedLeases(s.tables, now);
    var end := ReapPlan(s, now, env.faults).end;
    assert Safe(end) by { ReapKeepsSafe(s, now, env.faults); }
    ProxiesAreUsed(end);
  }

  /**
   An attempt is refused for lack of ports exactly when it passes the checks and fewer ports are available than it
   asks for.
   */
  lemma ExhaustedMeansTooFew(cfg: Config, s: State, cap: Capability, targets: seq<int>, ttl: Duration, now: Time,
                             id: Name, env: Env)
    requires Safe(s)
    ensures var plan := AttemptPlan(cfg, s, cap, targets, ttl, now, id, env);
      plan.reply == Failed(Exhausted) <==>
        && env.faults !! {ReadCapability, ReadExpired, PurgeLeases, PurgeCapabilities, ReadActive}
        && Live(s.tables, cap.hash, now)
        && LimitError(cfg, cap, |targets|, ActiveLeases(s.tables, now)).None?
        && |Available(cfg, ActiveLeases(s.tables, now), env.bindable)| < |targets|
    ensures var plan := AttemptPlan(cfg, s, cap, targets, ttl, now, id, env);
      plan.reply == Failed(Exhausted) ==> plan.end == ReapPlan(s, now, env.faults).end
  {
    var reap := ReapPlan(s, now, env.faults);
    if reap.reply.Done? {
      var rows := ActiveLeases(s.tables, now);
      ReapedPool(cfg, s, now, env);
      ChoiceIsFree(cfg, reap.end, |targets|, rows, env.bindable);
      FirstFitSize(Available(cfg, rows, env.bindable), |targets|, Choice(cfg, reap.end, |targets|, rows, env.bindable));
    }
  }

  function HostList(ports: seq<Port>): seq<int> {
    seq(|ports|, i requires 0 <= i < |ports| => ports[i].hostPort)
  }

  function TargetList(ports: seq<Port>): seq<int> {
    seq(|ports|, i requires 0 <= i < |ports| => ports[i].targetPort)
  }

  /** What an attempt needs to be granted. */
  ghost predicate Grantable(cfg: Config, s: State, cap: Capability, targets: seq<int>, now: Time, id: Name, env: Env) {
    var rows := ActiveLeases(s.tables, now);
    && env.faults !! {ReadCapability, ReadExpired, PurgeLeases, PurgeCapabilities, ReadActive, DrawID, WriteLease}
    && Live(s.tables, cap.hash, now)
    && RunPorts(rows, cap.userID, cap.runID) + |targets| <= cfg.maximumRun
    && UserPorts(rows, cap.userID) + |targets| <= cfg.maximumUser
    && |targets| <= |Available(cfg, rows, env.bindable)|
    && id !in rows
  }

  /** The part of an attempt after its reap, over the pool it finds. */
  lemma ChosenExactly(cfg: Config, reap: Plan, cap: Capability, targets: seq<int>, ttl: Duration, now: Time, id: Name,
                      env: Env)
    requires reap.reply.Done?
    ensures var rows := ActiveLeases(reap.end.tables, now);
      var pool := FreePorts(cfg, UsedPorts(rows), reap.end.proxies.Keys, env.bindable);
      var reply := ChoosePlan(cfg, reap, cap, targets, ttl, now, id, env).reply;
      && (reply.Granted? <==>
            && env.faults !! {ReadActive, DrawID, WriteLease}
            && LimitError(cfg, cap, |targets|, rows).None? && |targets| <= |pool|
            && id !in reap.end.tables.leases && cap.hash in reap.end.tables.caps)
      && (reply.Granted? ==>
        IsFirstFit(pool, |targets|, HostList(reply.lease.ports)) && TargetList(reply.lease.ports) == targets)
  {
    var rows := ActiveLeases(reap.end.tables, now);
    var hosts := Choice(cfg, reap.end, |targets|, rows, env.bindable);
    ChoiceIsFree(cfg, reap.end, |targets|, rows, env.bindable);
    FirstFitSize(FreePorts(cfg, UsedPorts(rows), reap.end.proxies.Keys, env.bindable), |targets|, hosts);
    if |hosts| == |targets| {
      assert HostList(PairPorts(hosts, targets)) == hosts;
      assert TargetList(PairPorts(hosts, targets)) == targets;
    }
  }

  lemma AttemptAfterReap(cfg: Config, s: State, cap: Capability, targets: seq<int>, ttl: Duration, now: Time,
                         id: Name, env: Env)
    requires ReadCapability !in env.faults && Live(s.tables, cap.hash, now) && ReapPlan(s, now, env.faults).reply.Done?
    ensures var reap := ReapPlan(s, now, env.faults);
      && AttemptPlan(cfg, s, cap, targets, ttl, now, id, env) == ChoosePlan(cfg, reap, cap, targets, ttl, now, id, env)
      && cap.hash in reap.end.tables.caps
      && env.faults !! {ReadCapability, ReadExpired, PurgeLeases, PurgeCapabilities}
  {
    ReapKeepsCapability(s.tables, cap, now);
  }

  lemma AttemptBeforeReap(cfg: Config, s: State, cap: Capability, targets: seq<int>, ttl: Duration, now: Time,
                          id: Name, env: Env)
    requires ReadCapability in env.faults || !Live(s.tables, cap.hash, now) || !ReapPlan(s, now, env.faults).reply.Done?
    ensures AttemptPlan(cfg, s, cap, targets, ttl, now, id, env).reply.Failed?
    ensures ReadCapability in env.faults || !Live(s.tables, cap.hash, now)
      || ReadExpired in env.faults || PurgeLeases in env.faults || PurgeCapabilities in env.faults
  {
  }

  /**
   An attempt is granted exactly when the capability is live, both quotas allow it, enough ports are available
   among those no unexpired lease holds, and no call fails. It is then given the lowest available ports, in
   ascending order, paired in order with the targets asked for.
   */
  lemma GrantedExactly(cfg: Config, s: State, cap: Capability, targets: seq<int>, ttl: Duration, now: Time, id: Name,
                       env: Env)
    requires Safe(s)
    ensures var reply := AttemptPlan(cfg, s, cap, targets, ttl, now, id, env).reply;
      && (reply.Granted? <==> Grantable(cfg, s, cap, targets, now, id, env))
      && (reply.Granted? ==>
            && IsFirstFit(Available(cfg, ActiveLeases(s.tables, now), env.bindable), |targets|,
              HostList(reply.lease.ports))
            && TargetList(reply.lease.ports) == targets)
  {
    if ReadCapability !in env.faults && Live(s.tables, cap.hash, now) && ReapPlan(s, now, env.faults).reply.Done? {
      AttemptAfterReap(cfg, s, cap, targets, ttl, now, id, env);
      ReapedPool(cfg, s, now, env);
      ChosenExactly(cfg, ReapPlan(s, now, env.faults), cap, targets, ttl, now, id, env);
    } else {
      AttemptBeforeReap(cfg, s, cap, targets, ttl, now, id, env);
    }
  }

  /**
   No missed wakeup. An attempt has been refused for lack of ports, others have acted since, and the
   channel the waiter captured before the attempt is still the current one. Then no lease row has gone,
   and on any set of bindable ports that has not grown, fewer ports are available than it asked for.
   */
  lemma NoMissedWakeup(cfg: Config, s: State, cap: Capability, targets: seq<int>, ttl: Duration, now: Time, id: Name,
                       env: Env,
                       before: State, during: seq<Act>, bindable: set<int>)
    requires Safe(s) && before.changed <= s.changed
    requires AttemptPlan(cfg, s, cap, targets, ttl, now, id, env).reply == Failed(Exhausted)
    requires var after := AttemptPlan(cfg, s, cap, targets, ttl, now, id, env).end;
      ProperActs(cfg, after, during) && RunActs(cfg, after, during).changed == before.changed
    requires NoSignalLost(cfg, AttemptPlan(cfg, s, cap, targets, ttl, now, id, env).end, during)
      && bindable <= env.bindable
    ensures var after := AttemptPlan(cfg, s, cap, targets, ttl, now, id, env).end;
      var blocked := RunActs(cfg, after, during);
      && Stays(after.tables.leases, blocked.tables.leases)
      && |Available(cfg, blocked.tables.leases, bindable)| < |targets|
  {
    var after := AttemptPlan(cfg, s, cap, targets, ttl, now, id, env).end;
    var blocked := RunActs(cfg, after, during);
    assert after == ReapPlan(s, now, env.faults).end
      && |Available(cfg, after.tables.leases, env.bindable)| < |targets| by {
      ExhaustedMeansTooFew(cfg, s, cap, targets, ttl, now, id, env);
      ReapedLeases(s.tables, now);
    }
    assert Safe(after) && s.changed <= after.changed by {
      ReapKeepsSafe(s, now, env.faults);
      ReapSignals(s, now, env.faults);
    }
    UnsignalledRowsStay(cfg, after, during);
    FewerRowsUseFewerPorts(after.tables.leases, blocked.tables.leases);
    SubsetSize(Available(cfg, blocked.tables.leases, bindable), Available(cfg, after.tables.leases, env.bindable));
  }

  /** With too few ports available and no lease expired, a retry cannot be granted. */
  lemma RetryWouldFail(cfg: Config, s: State, cap: Capability, targets: seq<int>, ttl: Duration, now: Time, id: Name,
                       env: Env)
    requires Safe(s) && |Available(cfg, s.tables.leases, env.bindable)| < |targets|
    requires forall k :: k in s.tables.leases ==> s.tables.leases[k].lease.expiresAt > now
    ensures AttemptPlan(cfg, s, cap, targets, ttl, now, id, env).reply.Failed?
  {
    if AttemptPlan(cfg, s, cap, targets, ttl, now, id, env).reply.Granted? {
      GrantedAttempt(cfg, s, cap, targets, ttl, now, id, env);
      var reap := ReapPlan(s, now, env.faults).end;
      var active := ActiveLeases(reap.tables, now);
      assert UsedPorts(s.tables.leases) <= UsedPorts(active) by {
        ReapedLeases(s.tables, now);
        FewerRowsUseFewerPorts(s.tables.leases, active);
      }
      var hosts := Choice(cfg, reap, |targets|, active, env.bindable);
      ChoiceIsFree(cfg, reap, |targets|, active, env.bindable);
      AscendingSize(hosts);
      SubsetSize(Elements(hosts), Available(cfg, s.tables.leases, env.bindable));
    }
  }

  // ----- the retry loop

  /** What ends a wait: the captured channel was closed, the deadline timer fired, or the context was done. */
  datatype Wake = Woken | TimerFired | ContextDone

  /**
   One turn of the loop: what others do between the capture of the channel and the lock, what the attempt
   meets, the clock reading compared with the deadline, what others do during the wait, and what ends it.
   */
  datatype Turn = Turn(before: seq<Act>, now: Time, id: Name, env: Env, checked: Time, during: seq<Act>, wake: Wake)

  datatype Request = Request(cap: Capability, targets: seq<int>, ttl: Duration, wait: Duration, deadline: Time)

  /** Where an allocation stands after the turns given: it has answered, or goes round again. */
  datatype Outcome = Answered(end: State, reply: Reply) | StillWaiting(end: State)

  /** The attempt of a turn, after what others did before it. */
  ghost function TurnPlan(cfg: Config, s: State, r: Request, turn: Turn): Plan {
    AttemptPlan(cfg, RunActs(cfg, s, turn.before), r.cap, r.targets, r.ttl, turn.now, turn.id, turn.env)
  }

  /**
   The attempt ends the allocation: it was granted, or refused for another reason, or there is no time left to wait.
   */
  predicate StopsAt(r: Request, reply: Reply, turn: Turn) {
    reply != Failed(Exhausted) || r.wait <= 0 || turn.checked > r.deadline
  }

  /** What a turn comes to, and whether the loop goes round again. */
  datatype TurnResult = TurnResult(end: State, reply: Reply, again: bool)

  ghost function WaitOut(cfg: Config, s: State, turn: Turn): TurnResult {
    var reply := Failed(if turn.wake == ContextDone then Cancelled else Exhausted);
    TurnResult(RunActs(cfg, s, turn.during), reply, turn.wake == Woken)
  }

  ghost function TakeTurn(cfg: Config, s: State, r: Request, turn: Turn): TurnResult {
    var plan := TurnPlan(cfg, s, r, turn);
    if StopsAt(r, plan.reply, turn) then TurnResult(plan.end, plan.reply, false)
    else WaitOut(cfg, plan.end, turn)
  }

  /** An allocation over the first turns it goes through. */
  ghost function AllocateLoop(cfg: Config, s: State, r: Request, turns: seq<Turn>): Outcome
    decreases turns
  {
    if turns == [] then StillWaiting(s)
    else
      var taken := TakeTurn(cfg, s, r, turns[0]);
      if taken.again then AllocateLoop(cfg, taken.end, r, turns[1..]) else Answered(taken.end, taken.reply)
  }

  /** How many of the turns are taken before the allocation answers. */
  ghost function TurnsTaken(cfg: Config, s: State, r: Request, turns: seq<Turn>): (n: nat)
    ensures n <= |turns|
    decreases turns
  {
    if turns == [] then 0
    else
      var taken := TakeTurn(cfg, s, r, turns[0]);
      1 + if taken.again then TurnsTaken(cfg, taken.end, r, turns[1..]) else 0
  }

  /** The state in which turn `k` starts. */
  ghost function StartOf(cfg: Config, s: State, r: Request, turns: seq<Turn>, k: nat): State
    requires k <= |turns|
    decreases turns
  {
    if k == 0 then s else StartOf(cfg, TakeTurn(cfg, s, r, turns[0]).end, r, turns[1..], k - 1)
  }

  /**
   What holds of a turn: proper acts, a capability argument equal to the stored row, and a wakeup only when
   the channel captured at the start of the turn has been closed.
   */
  ghost predicate ProperTurn(cfg: Config, s: State, r: Request, turn: Turn) {
    && ProperActs(cfg, s, turn.before)
    && Genuine(RunActs(cfg, s, turn.before).tables, r.cap) && turn.now >= ZERO_TIME
    && ProperActs(cfg, TurnPlan(cfg, s, r, turn).end, turn.during)
    && (turn.wake == Woken && !StopsAt(r, TurnPlan(cfg, s, r, turn).reply, turn) ==>
          RunActs(cfg, TurnPlan(cfg, s, r, turn).end, turn.during).changed != s.changed)
  }

  ghost predicate ProperTurns(cfg: Config, s: State, r: Request, turns: seq<Turn>)
    decreases turns
  {
    turns == [] ||
      var taken := TakeTurn(cfg, s, r, turns[0]);
      ProperTurn(cfg, s, r, turns[0]) && (taken.again ==> ProperTurns(cfg, taken.end, r, turns[1..]))
  }

  /** What the allocation itself did in a turn, apart from a grant: it reaped, or nothing. */
  ghost function OwnReap(cfg: Config, s: State, r: Request, turn: Turn): seq<Act> {
    if ReadCapability in turn.env.faults || !Live(RunActs(cfg, s, turn.before).tables, r.cap.hash, turn.now) then []
    else [Act(Reap(turn.now), turn.env)]
  }

  /** Everything that happened to the broker in a turn but its grant: the acts of others and the reap. */
  ghost function TurnLedger(cfg: Config, s: State, r: Request, turn: Turn): seq<Act> {
    var own := turn.before + OwnReap(cfg, s, r, turn);
    if StopsAt(r, TurnPlan(cfg, s, r, turn).reply, turn) then own else own + turn.during
  }

  /** Everything that happened to the broker during an allocation but its grant. */
  ghost function Ledger(cfg: Config, s: State, r: Request, turns: seq<Turn>): seq<Act>
    decreases turns
  {
    if turns == [] then []
    else
      var taken := TakeTurn(cfg, s, r, turns[0]);
      TurnLedger(cfg, s, r, turns[0]) + if taken.again then Ledger(cfg, taken.end, r, turns[1..]) else []
  }

  /** Exactly one row is added, with forwarders on ports that had none. */
  predicate AddsOneRow(s: State, end: State, hash: Name, lease: Lease) {
    var record := LeaseRecord(hash, lease);
    && lease.id !in s.tables.leases && Hosts(record) !! s.proxies.Keys
    && end == State(PutLease(s.tables, record), s.proxies + RowForwards(record), s.changed)
  }

  lemma TurnIsOwnReapOrGrant(cfg: Config, s: State, r: Request, turn: Turn)
    ensures var plan := TurnPlan(cfg, s, r, turn);
      var reaped := RunActs(cfg, s, turn.before + OwnReap(cfg, s, r, turn));
      && (plan.reply.Failed? ==> plan.end == reaped)
      && (plan.reply.Granted? ==> AddsOneRow(reaped, plan.end, r.cap.hash, plan.reply.lease))
      && !plan.reply.Done?
  {
    var s1 := RunActs(cfg, s, turn.before);
    var plan := TurnPlan(cfg, s, r, turn);
    RunActsAppend(cfg, s, turn.before, OwnReap(cfg, s, r, turn));
    var reap := ReapPlan(s1, turn.now, turn.env.faults);
    if OwnReap(cfg, s, r, turn) != [] {
      assert RunActs(cfg, s1, OwnReap(cfg, s, r, turn)) == RunActs(cfg, reap.end, []);
    }
    if plan.reply.Failed? {
      AttemptReapsWhenLive(cfg, s1, r.cap, r.targets, r.ttl, turn.now, turn.id, turn.env);
    } else {
      GrantedAttempt(cfg, s1, r.cap, r.targets, r.ttl, turn.now, turn.id, turn.env);
      var active := ActiveLeases(reap.end.tables, turn.now);
      ChoiceIsFree(cfg, reap.end, |r.targets|, active, turn.env.bindable);
      AscendingPairsAreDistinct(Choice(cfg, reap.end, |r.targets|, active, turn.env.bindable), r.targets);
    }
  }

  lemma TurnIsAllOrNothing(cfg: Config, s: State, r: Request, turn: Turn)
    ensures var taken := TakeTurn(cfg, s, r, turn);
      var rest := RunActs(cfg, s, TurnLedger(cfg, s, r, turn));
      && (taken.reply.Failed? ==> taken.end == rest)
      && (taken.reply.Granted? ==> AddsOneRow(rest, taken.end, r.cap.hash, taken.reply.lease))
      && !taken.reply.Done? && (taken.again ==> taken.reply.Failed?)
  {
    TurnIsOwnReapOrGrant(cfg, s, r, turn);
    if !StopsAt(r, TurnPlan(cfg, s, r, turn).reply, turn) {
      RunActsAppend(cfg, s, turn.before + OwnReap(cfg, s, r, turn), turn.during);
    }
  }

  /**
   All or nothing. Whatever the number of retries, an allocation that fails has added no row and opened no
   forwarder: the broker is where the acts of others and the reaps left it. One that is granted has added
   to that exactly one row and the forwarders of its ports.
   */
  lemma {:induction false} AllOrNothing(cfg: Config, s: State, r: Request, turns: seq<Turn>)
    ensures var out := AllocateLoop(cfg, s, r, turns);
      var rest := RunActs(cfg, s, Ledger(cfg, s, r, turns));
      && (out.StillWaiting? || out.reply.Failed? ==> out.end == rest)
      && (out.Answered? && out.reply.Granted? ==> AddsOneRow(rest, out.end, r.cap.hash, out.reply.lease))
      && (out.Answered? ==> !out.reply.Done?)
    decreases turns
  {
    if turns != [] {
      var taken := TakeTurn(cfg, s, r, turns[0]);
      TurnIsAllOrNothing(cfg, s, r, turns[0]);
      if taken.again {
        AllOrNothing(cfg, taken.end, r, turns[1..]);
        RunActsAppend(cfg, s, TurnLedger(cfg, s, r, turns[0]), Ledger(cfg, taken.end, r, turns[1..]));
      } else {
        assert TurnLedger(cfg, s, r, turns[0]) + [] == TurnLedger(cfg, s, r, turns[0]);
      }
    }
  }

  /**
   While an allocation is blocked on the channel it captured, in whatever way others have acted before and
   after its attempt, fewer ports are available than it asks for.
   */
  lemma BlockedMeansTooFewPorts(cfg: Config, s: State, r: Request, turn: Turn)
    requires Safe(s) && ProperTurn(cfg, s, r, turn)
    requires NoSignalLost(cfg, TurnPlan(cfg, s, r, turn).end, turn.during)
    requires !StopsAt(r, TurnPlan(cfg, s, r, turn).reply, turn)
    requires RunActs(cfg, TurnPlan(cfg, s, r, turn).end, turn.during).changed == s.changed
    ensures var blocked := RunActs(cfg, TurnPlan(cfg, s, r, turn).end, turn.during);
      |Available(cfg, blocked.tables.leases, turn.env.bindable)| < |r.targets|
  {
    RunActsKeepsSafe(cfg, s, turn.before);
    UnsignalledRowsStay(cfg, s, turn.before);
    NoMissedWakeup(cfg, RunActs(cfg, s, turn.before), r.cap, r.targets, r.ttl, turn.now, turn.id, turn.env, s,
      turn.during, turn.env.bindable);
  }

  /** The last turn taken found too few ports, and left no time to wait. */
  ghost predicate OutOfTime(cfg: Config, s: State, r: Request, turns: seq<Turn>) {
    var n := TurnsTaken(cfg, s, r, turns);
    n > 0 &&
      var last := turns[n - 1];
      && TurnPlan(cfg, StartOf(cfg, s, r, turns, n - 1), r, last).reply == Failed(Exhausted)
      && (r.wait <= 0 || last.checked > r.deadline || last.wake == TimerFired)
  }

  /**
   An allocation answers that ports are exhausted exactly when the last attempt it made failed for lack of
   ports, and it may not wait, its deadline had passed when it looked, or its timer fired.
   */
  lemma {:induction false} ExhaustedMeansOutOfTime(cfg: Config, s: State, r: Request, turns: seq<Turn>)
    ensures var out := AllocateLoop(cfg, s, r, turns);
      out.Answered? && out.reply == Failed(Exhausted) <==> OutOfTime(cfg, s, r, turns)
    decreases turns
  {
    hide TurnPlan, RunActs;
    if turns != [] {
      var taken := TakeTurn(cfg, s, r, turns[0]);
      if taken.again {
        ExhaustedMeansOutOfTime(cfg, taken.end, r, turns[1..]);
        var n := TurnsTaken(cfg, taken.end, r, turns[1..]);
        if n > 0 { assert turns[1..][n - 1] == turns[n]; }
      }
    }
  }

  /** The turn found too few ports with time left to wait, and was woken. */
  ghost predicate GoesOn(cfg: Config, at: State, r: Request, turn: Turn) {
    && TurnPlan(cfg, at, r, turn).reply == Failed(Exhausted)
    && r.wait > 0 && turn.checked <= r.deadline && turn.wake == Woken
  }

  /** What an allocation answers with, and leaves, in a turn that does not go on. */
  ghost predicate EndsWith(cfg: Config, at: State, r: Request, turn: Turn, end: State, reply: Reply) {
    var plan := TurnPlan(cfg, at, r, turn);
    if plan.reply != Failed(Exhausted) || r.wait <= 0 || turn.checked > r.deadline then
      end == plan.end && reply == plan.reply
    else
      && end == RunActs(cfg, plan.end, turn.during)
      && reply == Failed(if turn.wake == ContextDone then Cancelled else Exhausted)
  }

  /**
   The course of an allocation: each turn but the last goes on, from where the one before it left the broker, and the
   last one gives the answer; while there is no answer all turns go on.
   */
  lemma {:induction false} AnswerIsThatOfTheLastTurn(cfg: Config, s: State, r: Request, turns: seq<Turn>, k: nat)
    requires k < TurnsTaken(cfg, s, r, turns)
    ensures var out, n := AllocateLoop(cfg, s, r, turns), TurnsTaken(cfg, s, r, turns);
      var at := StartOf(cfg, s, r, turns, k);
      && (k == 0 ==> at == s)
      && (k + 1 < n || out.StillWaiting? ==>
            && GoesOn(cfg, at, r, turns[k])
            && StartOf(cfg, s, r, turns, k + 1) == RunActs(cfg, TurnPlan(cfg, at, r, turns[k]).end, turns[k].during))
      && (k + 1 == n && out.Answered? ==>
            !GoesOn(cfg, at, r, turns[k]) && EndsWith(cfg, at, r, turns[k], out.end, out.reply))
      && (out.StillWaiting? ==> n == |turns| && out.end == StartOf(cfg, s, r, turns, n))
    decreases turns
  {
    hide TurnPlan, RunActs;
    var taken := TakeTurn(cfg, s, r, turns[0]);
    if taken.again {
      if k > 0 {
        AnswerIsThatOfTheLastTurn(cfg, taken.end, r, turns[1..], k - 1);
        assert turns[1..][k - 1] == turns[k];
      } else if turns[1..] != [] {
        AnswerIsThatOfTheLastTurn(cfg, taken.end, r, turns[1..], 0);
      }
    }
  }

  // ----- the loop ends

  /** A turn keeps the broker safe and takes no signal back; the loop goes round only if there was a signal. */
  lemma TurnIsSignalled(cfg: Config, s: State, r: Request, turn: Turn)
    requires Safe(s) && r.targets != [] && r.ttl > 0 && ProperTurn(cfg, s, r, turn)
    ensures var taken := TakeTurn(cfg, s, r, turn);
      Safe(taken.end) && taken.end.changed >= s.changed && (taken.again ==> taken.end.changed > s.changed)
  {
    var s1, plan := RunActs(cfg, s, turn.before), TurnPlan(cfg, s, r, turn);
    assert Safe(s1) && s1.changed >= s.changed by {
      RunActsKeepsSafe(cfg, s, turn.before);
      UnsignalledRowsStay(cfg, s, turn.before);
    }
    assert Safe(plan.end) && plan.end.changed >= s1.changed by {
      AttemptKeepsSafe(cfg, s1, r.cap, r.targets, r.ttl, turn.now, turn.id, turn.env);
      AttemptSignals(cfg, s1, r.cap, r.targets, r.ttl, turn.now, turn.id, turn.env);
    }
    RunActsKeepsSafe(cfg, plan.end, turn.during);
    UnsignalledRowsStay(cfg, plan.end, turn.during);
  }

  /** An allocation makes at most one attempt more than the waiters are signalled while it runs. */
  lemma {:induction false} RetriesAreSignalled(cfg: Config, s: State, r: Request, turns: seq<Turn>)
    requires Safe(s) && r.targets != [] && r.ttl > 0 && ProperTurns(cfg, s, r, turns)
    ensures var out := AllocateLoop(cfg, s, r, turns);
      && TurnsTaken(cfg, s, r, turns) <= out.end.changed - s.changed + (if out.Answered? then 1 else 0)
      && (out.StillWaiting? ==> TurnsTaken(cfg, s, r, turns) == |turns|)
    decreases turns
  {
    if turns != [] {
      var taken := TakeTurn(cfg, s, r, turns[0]);
      TurnIsSignalled(cfg, s, r, turns[0]);
      if taken.again { RetriesAreSignalled(cfg, taken.end, r, turns[1..]); }
    }
  }

  function First(turns: nat -> Turn, n: nat): seq<Turn> {
    seq(n, k requires 0 <= k < n => turns(k))
  }

  /** However long the allocation goes on, its turns are proper and the waiters are not signalled beyond `limit`. */
  ghost predicate FewSignals(cfg: Config, s: State, r: Request, turns: nat -> Turn, limit: nat) {
    forall n: nat ::
      ProperTurns(cfg, s, r, First(turns, n)) && AllocateLoop(cfg, s, r, First(turns, n)).end.changed <= limit
  }

  /** An allocation whose first wait is not interrupted meets the assumption, whatever the turns it never takes. */
  lemma OneTurnSignalsFew(cfg: Config, s: State, r: Request, turns: nat -> Turn)
    requires Safe(s) && r.targets != [] && r.ttl > 0 && ProperTurn(cfg, s, r, turns(0)) && turns(0).wake != Woken
    ensures FewSignals(cfg, s, r, turns, TakeTurn(cfg, s, r, turns(0)).end.changed)
  {
    hide TurnPlan, ProperTurn, RunActs, Safe;
    TurnIsSignalled(cfg, s, r, turns(0));
    forall n: nat
      ensures ProperTurns(cfg, s, r, First(turns, n))
      ensures AllocateLoop(cfg, s, r, First(turns, n)).end.changed <= TakeTurn(cfg, s, r, turns(0)).end.changed
    {
      if n > 0 { assert First(turns, n)[0] == turns(0); }
    }
  }

  /**
   The loop ends: with finitely many signals, an allocation answers after at most one turn more than there are
   signals.
   */
  lemma AllocationTerminates(cfg: Config, s: State, r: Request, turns: nat -> Turn, limit: nat)
    requires Safe(s) && r.targets != [] && r.ttl > 0 && FewSignals(cfg, s, r, turns, limit)
    ensures s.changed <= limit && AllocateLoop(cfg, s, r, First(turns, limit - s.changed + 1)).Answered?
  {
    assert AllocateLoop(cfg, s, r, First(turns, 0)) == StillWaiting(s);
    RetriesAreSignalled(cfg, s, r, First(turns, limit - s.changed + 1));
  }

  /** An allocation still waiting goes on with the next turn from where it stands. */
  lemma {:induction false} OneMoreTurn(cfg: Config, s: State, r: Request, turns: seq<Turn>, turn: Turn)
    requires AllocateLoop(cfg, s, r, turns).StillWaiting?
    ensures var at := AllocateLoop(cfg, s, r, turns).end;
      var taken := TakeTurn(cfg, at, r, turn);
      && AllocateLoop(cfg, s, r, turns + [turn])
        == (if taken.again then StillWaiting(taken.end) else Answered(taken.end, taken.reply))
      && (ProperTurns(cfg, s, r, turns + [turn]) ==> ProperTurn(cfg, at, r, turn))
    decreases turns
  {
    if turns == [] {
      assert ([] + [turn])[1..] == [];
    } else {
      assert (turns + [turn])[1..] == turns[1..] + [turn];
      OneMoreTurn(cfg, TakeTurn(cfg, s, r, turns[0]).end, r, turns[1..], turn);
    }
  }

  lemma NoTurnYet(cfg: Config, s: State, r: Request, turns: nat -> Turn)
    ensures AllocateLoop(cfg, s, r, First(turns, 0)) == StillWaiting(s)
  {
  }

  /** The loop goes round once more: either it answers, or there was a signal of the few there are. */
  lemma NextTurn(cfg: Config, s: State, r: Request, turns: nat -> Turn, limit: nat, i: nat)
    requires r.targets != [] && r.ttl > 0 && FewSignals(cfg, s, r, turns, limit)
    requires AllocateLoop(cfg, s, r, First(turns, i)).StillWaiting?
      && Safe(AllocateLoop(cfg, s, r, First(turns, i)).end)
    ensures var at := AllocateLoop(cfg, s, r, First(turns, i)).end;
      var taken := TakeTurn(cfg, at, r, turns(i));
      && ProperTurn(cfg, at, r, turns(i))
      && AllocateLoop(cfg, s, r, First(turns, i + 1))
        == (if taken.again then StillWaiting(taken.end) else Answered(taken.end, taken.reply))
      && taken.end.changed <= limit && (taken.again ==> at.changed < taken.end.changed)
  {
    hide AllocateLoop, ProperTurns, ProperTurn, TakeTurn, Safe;
    assert First(turns, i + 1) == First(turns, i) + [turns(i)];
    OneMoreTurn(cfg, s, r, First(turns, i), turns(i));
    TurnIsSignalled(cfg, AllocateLoop(cfg, s, r, First(turns, i)).end, r, turns(i));
  }

  /** Releasing a lease just granted takes back exactly what the grant added, and signals. */
  lemma ReleaseUndoesGrant(s: State, end: State, hash: Name, lease: Lease, faults: set<Fallible>)
    requires AddsOneRow(s, end, hash, lease) && faults !! {ReadLease, EraseLease(lease.id)}
    ensures ReleasePlan(end, lease.id, hash, faults).reply.Done?
    ensures ReleasePlan(end, lease.id, hash, faults).end == s.(changed := s.changed + 1)
  {
    var record := LeaseRecord(hash, lease);
    assert s.tables.leases[lease.id := record] - {lease.id} == s.tables.leases;
    assert (s.proxies + RowForwards(record)) - Hosts(record) == s.proxies;
  }
}
