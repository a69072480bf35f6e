/** Opening the broker on surviving tables: reaping, then restoring a forwarder for every active lease. */
module Restart {
  import opened Types
  import opened Tables
  import opened Pool
  import opened Plans
  import opened Safety

  /** Every port of the row can be bound, one after the other. */
  predicate Restorable(record: LeaseRecord, held: set<int>, bindable: set<int>) {
    && DistinctHosts(record.lease.ports)
    && forall p :: p in Hosts(record) ==> p in bindable && p !in held
  }

  /** Restores one row after those before it, or gives it up at its first port that cannot be bound. */
  function RestoreRow(before: Plan, record: LeaseRecord, env: Env): Plan {
    var s := before.end;
    if record.lease.ports == [] then before
    else if Restorable(record, s.proxies.Keys, env.bindable) then
      Plan(s.(proxies := s.proxies + RowForwards(record)), before.writes, Done)
    else
      var closed := s.(proxies := s.proxies - Hosts(record));
      if EraseLease(record.lease.id) in env.faults then Plan(closed, before.writes, Failed(BindError))
      else
        var t := DropLease(s.tables, record.lease.id);
        Plan(closed.(tables := t), before.writes + [t], Failed(BindError))
  }

  /** Restores the listed rows in order. The answer is that of the last bind tried. */
  function RestorePlan(s: State, records: seq<LeaseRecord>, env: Env): Plan {
    if records == [] then Plan(s, [], Done)
    else RestoreRow(RestorePlan(s, records[..|records| - 1], env), records[|records| - 1], env)
  }

  /** A broker just started over surviving tables. */
  function Fresh(t: Tables): State {
    State(t, map[], 0)
  }

  function ReconcilePlan(s: State, t1: Time, records: seq<LeaseRecord>, env: Env): Plan {
    var reap := ReapPlan(s, t1, env.faults);
    if reap.reply.Failed? then reap
    else if ReadActive in env.faults then reap.(reply := Failed(StoreError))
    else
      var restore := RestorePlan(reap.end, records, env);
      Plan(restore.end, reap.writes + restore.writes, restore.reply)
  }

  function OpenPlan(t: Tables, t1: Time, records: seq<LeaseRecord>, env: Env): Plan {
    ReconcilePlan(Fresh(t), t1, records, env)
  }

  /** `records` is what the store lists as active at `t2`, after the reap at `t1`. */
  ghost predicate ListedAt(t: Tables, t1: Time, t2: Time, records: seq<LeaseRecord>, env: Env) {
    Lists(records, ActiveLeases(ReapPlan(Fresh(t), t1, env.faults).end.tables, t2))
  }

  predicate Recoverable(record: LeaseRecord, bindable: set<int>) {
    Hosts(record) <= bindable
  }

  /** Every port of the row has its forwarder, with the right target. */
  predicate Up(proxies: map<int, Endpoint>, record: LeaseRecord) {
    forall p :: p in Hosts(record) ==> p in proxies && proxies[p] == RowForwards(record)[p]
  }

  function Ids(records: seq<LeaseRecord>): set<Name> {
    set record | record in records :: record.lease.id
  }

  /** The rows left when the listed rows that cannot be bound are deleted, except where the deletion fails. */
  function Survivors(t: Tables, ids: set<Name>, env: Env): map<Name, LeaseRecord> {
    map id | id in t.leases &&
      !(id in ids && !Recoverable(t.leases[id], env.bindable) && EraseLease(id) !in env.faults) :: t.leases[id]
  }

  /** The row is among the listed ones and all its ports can be bound. */
  predicate Restored(t: Tables, ids: set<Name>, env: Env, id: Name) {
    id in ids && id in t.leases && Recoverable(t.leases[id], env.bindable)
  }

  ghost predicate RestoredFor(t: Tables, ids: set<Name>, env: Env, p: int, endpoint: Endpoint) {
    exists id :: Restored(t, ids, env, id) && Serves(t.leases[id], p, endpoint)
  }

  /** Exactly the ports of the listed rows that can be bound have a forwarder. */
  ghost predicate ExactlyRestored(t: Tables, ids: set<Name>, env: Env, proxies: map<int, Endpoint>) {
    && (forall id :: Restored(t, ids, env, id) ==> Up(proxies, t.leases[id]))
    && (forall p :: p in proxies ==> RestoredFor(t, ids, env, p, proxies[p]))
  }

  lemma HeldByOthers(t: Tables, ids: set<Name>, record: LeaseRecord, env: Env, proxies: map<int, Endpoint>)
    requires Exclusive(t.leases)
    requires record.lease.id in t.leases && t.leases[record.lease.id] == record && record.lease.id !in ids
    requires ExactlyRestored(t, ids, env, proxies)
    ensures Hosts(record) !! proxies.Keys
  {
    forall p | p in proxies ensures p !in Hosts(record) {
      assert RestoredFor(t, ids, env, p, proxies[p]);
      var id :| Restored(t, ids, env, id) && Serves(t.leases[id], p, proxies[p]);
      assert p in Hosts(t.leases[id]);
    }
  }

  lemma RestoredMore(t: Tables, ids: set<Name>, record: LeaseRecord, env: Env, proxies: map<int, Endpoint>)
    requires record.lease.id in t.leases && t.leases[record.lease.id] == record
    requires ExactlyRestored(t, ids, env, proxies) && Hosts(record) !! proxies.Keys
    requires Recoverable(record, env.bindable)
    ensures ExactlyRestored(t, ids + {record.lease.id}, env, proxies + RowForwards(record))
  {
    var after, ids' := proxies + RowForwards(record), ids + {record.lease.id};
    forall p | p in after ensures RestoredFor(t, ids', env, p, after[p]) {
      if p in Hosts(record) {
        assert Restored(t, ids', env, record.lease.id) && Serves(t.leases[record.lease.id], p, after[p]);
      } else {
        assert RestoredFor(t, ids, env, p, proxies[p]);
        var id :| Restored(t, ids, env, id) && Serves(t.leases[id], p, proxies[p]);
        assert Restored(t, ids', env, id);
      }
    }
    forall id | Restored(t, ids', env, id) ensures Up(after, t.leases[id]) {
      if id != record.lease.id {
        assert Restored(t, ids, env, id);
        assert Up(proxies, t.leases[id]);
      }
    }
  }

  lemma RestoredNoMore(t: Tables, ids: set<Name>, record: LeaseRecord, env: Env, proxies: map<int, Endpoint>)
    requires record.lease.id in t.leases && t.leases[record.lease.id] == record
    requires ExactlyRestored(t, ids, env, proxies) && Hosts(record) !! proxies.Keys
    requires !Recoverable(record, env.bindable)
    ensures ExactlyRestored(t, ids + {record.lease.id}, env, proxies)
  {
    var ids' := ids + {record.lease.id};
    assert forall id :: Restored(t, ids', env, id) <==> Restored(t, ids, env, id);
    forall p | p in proxies ensures RestoredFor(t, ids', env, p, proxies[p]) {
      assert RestoredFor(t, ids, env, p, proxies[p]);
      var id :| Restored(t, ids, env, id) && Serves(t.leases[id], p, proxies[p]);
      assert Restored(t, ids', env, id);
    }
  }

  /** The rows in `ids` have been restored or given up. */
  ghost predicate Handled(t: Tables, ids: set<Name>, env: Env, end: State) {
    && end.tables == Tables(t.caps, Survivors(t, ids, env))
    && ExactlyRestored(t, ids, env, end.proxies)
  }

  lemma RestoredRowExact(t: Tables, ids: set<Name>, before: Plan, record: LeaseRecord, env: Env)
    requires Handled(t, ids, env, before.end) && Hosts(record) !! before.end.proxies.Keys
    requires record.lease.id in t.leases && t.leases[record.lease.id] == record && record.lease.id !in ids
    requires record.lease.ports != [] && DistinctHosts(record.lease.ports) && Recoverable(record, env.bindable)
    ensures var plan := RestoreRow(before, record, env);
      Handled(t, ids + {record.lease.id}, env, plan.end) && plan.end.changed == before.end.changed && plan.reply == Done
  {
    hide ExactlyRestored;
    var proxies, ids' := before.end.proxies, ids + {record.lease.id};
    RestoredMore(t, ids, record, env, proxies);
    assert Survivors(t, ids', env) == Survivors(t, ids, env);
  }

  lemma GivenUpRowExact(t: Tables, ids: set<Name>, before: Plan, record: LeaseRecord, env: Env)
    requires Handled(t, ids, env, before.end) && Hosts(record) !! before.end.proxies.Keys
    requires record.lease.id in t.leases && t.leases[record.lease.id] == record && record.lease.id !in ids
    requires record.lease.ports != [] && !Recoverable(record, env.bindable)
    ensures var plan := RestoreRow(before, record, env);
      && Handled(t, ids + {record.lease.id}, env, plan.end) && plan.end.changed == before.end.changed
      && plan.reply == Failed(BindError)
  {
    hide ExactlyRestored;
    var proxies, ids' := before.end.proxies, ids + {record.lease.id};
    RestoredNoMore(t, ids, record, env, proxies);
    assert proxies - Hosts(record) == proxies;
    if EraseLease(record.lease.id) in env.faults {
      assert Survivors(t, ids', env) == Survivors(t, ids, env);
    } else {
      assert Survivors(t, ids', env) == Survivors(t, ids, env) - {record.lease.id};
    }
  }

  lemma RestoreRowExact(t: Tables, ids: set<Name>, before: Plan, record: LeaseRecord, env: Env)
    requires Consistent(t) && Handled(t, ids, env, before.end)
    requires record.lease.id in t.leases && t.leases[record.lease.id] == record && record.lease.id !in ids
    ensures var plan := RestoreRow(before, record, env);
      && Handled(t, ids + {record.lease.id}, env, plan.end)
      && plan.end.changed == before.end.changed
      && plan.reply == (if Recoverable(record, env.bindable) then Done else Failed(BindError))
  {
    hide RestoreRow, Survivors, ExactlyRestored, Recoverable;
    assert record.lease.ports != [] && DistinctHosts(record.lease.ports) by { assert GoodRow(t, record.lease.id); }
    HeldByOthers(t, ids, record, env, before.end.proxies);
    if Recoverable(record, env.bindable) {
      RestoredRowExact(t, ids, before, record, env);
    } else {
      GivenUpRowExact(t, ids, before, record, env);
    }
  }

  /**
   Restoring deletes exactly the listed rows with a port that cannot be bound, restores the others whole
   with their targets, and fails exactly when the last listed row is one it could not restore.
   */
  lemma {:induction false} RestoreExact(s: State, records: seq<LeaseRecord>, env: Env)
    requires Consistent(s.tables) && s.proxies == map[] && Picks(records, s.tables.leases)
    ensures var plan := RestorePlan(s, records, env);
      && Handled(s.tables, Ids(records), env, plan.end)
      && plan.end.changed == s.changed
      && plan.reply
        == (if records != [] && !Recoverable(records[|records| - 1], env.bindable) then Failed(BindError) else Done)
  {
    if records == [] {
      assert Survivors(s.tables, {}, env) == s.tables.leases;
    } else {
      var init, record := records[..|records| - 1], records[|records| - 1];
      assert records == init + [record];
      RestoreExact(s, init, env);
      assert Ids(records) == Ids(init) + {record.lease.id};
      assert record.lease.id !in Ids(init);
      RestoreRowExact(s.tables, Ids(init), RestorePlan(s, init, env), record, env);
    }
  }

  lemma SurvivorsConsistent(t: Tables, ids: set<Name>, env: Env)
    requires Consistent(t)
    ensures Consistent(Tables(t.caps, Survivors(t, ids, env)))
  {
    var a := Tables(t.caps, Survivors(t, ids, env));
    forall id | id in a.leases ensures GoodRow(a, id) { assert GoodRow(t, id); }
  }

  lemma HandledIsSafe(t: Tables, ids: set<Name>, env: Env, end: State)
    requires Consistent(t) && Handled(t, ids, env, end)
    ensures Safe(end)
  {
    SurvivorsConsistent(t, ids, env);
    forall p | p in end.proxies ensures Backed(end.tables, p, end.proxies[p]) {
      assert RestoredFor(t, ids, env, p, end.proxies[p]);
      var id :| Restored(t, ids, env, id) && Serves(t.leases[id], p, end.proxies[p]);
      assert id in end.tables.leases && Serves(end.tables.leases[id], p, end.proxies[p]);
    }
  }

  /** Restoring one row more writes the tables it ends in, or nothing. */
  lemma RestoreRowWrites(s: State, before: Plan, record: LeaseRecord, env: Env)
    requires KeepsSafe(s, before) && Safe(RestoreRow(before, record, env).end)
    ensures KeepsSafe(s, RestoreRow(before, record, env))
  {
    hide Safe;
    assert Consistent(RestoreRow(before, record, env).end.tables) by {
      SafeIsConsistent(RestoreRow(before, record, env).end);
    }
  }

  lemma SafeIsConsistent(s: State)
    requires Safe(s)
    ensures Consistent(s.tables)
  {
  }

  lemma {:induction false} RestoreKeepsSafe(s: State, records: seq<LeaseRecord>, env: Env)
    requires Consistent(s.tables) && s.proxies == map[] && Picks(records, s.tables.leases)
    ensures KeepsSafe(s, RestorePlan(s, records, env))
  {
    assert Safe(RestorePlan(s, records, env).end) by {
      RestoreExact(s, records, env);
      HandledIsSafe(s.tables, Ids(records), env, RestorePlan(s, records, env).end);
    }
    if records != [] {
      RestoreKeepsSafe(s, records[..|records| - 1], env);
      RestoreRowWrites(s, RestorePlan(s, records[..|records| - 1], env), records[|records| - 1], env);
    }
  }

  lemma ListedArePicked(t: Tables, now: Time, records: seq<LeaseRecord>)
    requires Consistent(t) && Lists(records, ActiveLeases(t, now))
    ensures Picks(records, t.leases)
    ensures Ids(records) == ActiveLeases(t, now).Keys
  {
    forall id | id in ActiveLeases(t, now) ensures id in Ids(records) {
      assert GoodRow(t, id);
      assert ActiveLeases(t, now)[id] in records;
    }
  }

  // ----- opening

  lemma ThenKeepsSafe(s: State, first: Plan, second: Plan)
    requires KeepsSafe(s, first) && KeepsSafe(first.end, second)
    ensures KeepsSafe(s, Plan(second.end, first.writes + second.writes, second.reply))
  {
    var writes := first.writes + second.writes;
    forall i | 0 <= i < |writes| ensures Consistent(writes[i]) {
      if i >= |first.writes| { assert writes[i] == second.writes[i - |first.writes|]; }
    }
  }

  lemma FreshIsSafe(t: Tables)
    requires Consistent(t)
    ensures Safe(Fresh(t))
  {
  }

  lemma FreshReapKeepsSafe(t: Tables, t1: Time, env: Env)
    requires Consistent(t)
    ensures var reap := ReapPlan(Fresh(t), t1, env.faults);
      KeepsSafe(Fresh(t), reap) && Consistent(reap.end.tables) && reap.end.proxies == map[]
  {
    FreshIsSafe(t);
    ReapKeepsSafe(Fresh(t), t1, env.faults);
  }

  lemma OpenKeepsSafe(t: Tables, t1: Time, t2: Time, records: seq<LeaseRecord>, env: Env)
    requires Consistent(t) && ListedAt(t, t1, t2, records, env)
    ensures KeepsSafe(Fresh(t), OpenPlan(t, t1, records, env))
  {
    hide ReapPlan, RestorePlan, KeepsSafe, Consistent;
    FreshReapKeepsSafe(t, t1, env);
    var reap := ReapPlan(Fresh(t), t1, env.faults);
    if !reap.reply.Failed? {
      if ReadActive !in env.faults {
        ListedArePicked(reap.end.tables, t2, records);
        RestoreKeepsSafe(reap.end, records, env);
        ThenKeepsSafe(Fresh(t), reap, RestorePlan(reap.end, records, env));
      } else {
        ReplyDoesNotMatter(Fresh(t), reap, Failed(StoreError));
      }
    }
  }

  lemma ReplyDoesNotMatter(s: State, plan: Plan, reply: Reply)
    requires KeepsSafe(s, plan)
    ensures KeepsSafe(s, plan.(reply := reply))
  {
  }

  /** The lease is unexpired at both clock readings of an opening. */
  predicate ActiveAt(t: Tables, t1: Time, t2: Time, id: Name) {
    id in t.leases && t.leases[id].lease.expiresAt > t1 && t.leases[id].lease.expiresAt > t2
  }

  predicate Kept(t: Tables, t1: Time, t2: Time, env: Env, id: Name) {
    ActiveAt(t, t1, t2, id) && Recoverable(t.leases[id], env.bindable)
  }

  ghost predicate KeptFor(t: Tables, t1: Time, t2: Time, env: Env, p: int, endpoint: Endpoint) {
    exists id :: Kept(t, t1, t2, env, id) && Serves(t.leases[id], p, endpoint)
  }

  /** The store reads and purges of an opening succeed. */
  predicate StoreOpens(env: Env) {
    env.faults !! {ReadExpired, PurgeLeases, PurgeCapabilities, ReadActive}
  }

  /** The rows an opening leaves: the unexpired ones, but for those it could not restore and did delete. */
  function RowsAfterOpen(t: Tables, t1: Time, t2: Time, env: Env): map<Name, LeaseRecord> {
    map id | id in t.leases && t.leases[id].lease.expiresAt > t1 &&
      (ActiveAt(t, t1, t2, id) ==> Recoverable(t.leases[id], env.bindable) || EraseLease(id) in env.faults) ::
        t.leases[id]
  }

  ghost predicate ExactForwarders(t: Tables, t1: Time, t2: Time, env: Env, proxies: map<int, Endpoint>) {
    && (forall id :: Kept(t, t1, t2, env, id) ==> Up(proxies, t.leases[id]))
    && (forall p :: p in proxies ==> KeptFor(t, t1, t2, env, p, proxies[p]))
  }

  /** An opening that succeeds has had no trouble with its store reads and purges. */
  lemma SuccessfulOpenReads(t: Tables, t1: Time, records: seq<LeaseRecord>, env: Env)
    requires OpenPlan(t, t1, records, env).reply.Done?
    ensures StoreOpens(env)
  {
  }

  lemma FreshReap(t: Tables, t1: Time, env: Env)
    requires Consistent(t) && StoreOpens(env)
    ensures var reap := ReapPlan(Fresh(t), t1, env.faults);
      && reap.reply == Done && Consistent(reap.end.tables) && reap.end.proxies == map[]
      && reap.end.tables.leases == ActiveLeases(t, t1)
  {
    var reap := ReapPlan(Fresh(t), t1, env.faults);
    assert Consistent(reap.end.tables) by { ReapKeepsSafe(Fresh(t), t1, env.faults); }
    assert reap.end.tables.leases == ActiveLeases(t, t1) by { ReapedLeases(t, t1); }
  }

  lemma RestoredIsKept(t: Tables, reaped: Tables, t1: Time, t2: Time, ids: set<Name>, env: Env, end: State)
    requires reaped.leases == ActiveLeases(t, t1) && ids == ActiveLeases(reaped, t2).Keys
    requires Handled(reaped, ids, env, end)
    ensures end.tables.leases == RowsAfterOpen(t, t1, t2, env)
    ensures ExactForwarders(t, t1, t2, env, end.proxies)
  {
    assert forall id :: Restored(reaped, ids, env, id) <==> Kept(t, t1, t2, env, id);
    forall p | p in end.proxies ensures KeptFor(t, t1, t2, env, p, end.proxies[p]) {
      assert RestoredFor(reaped, ids, env, p, end.proxies[p]);
      var id :| Restored(reaped, ids, env, id) && Serves(reaped.leases[id], p, end.proxies[p]);
      assert Kept(t, t1, t2, env, id) && Serves(t.leases[id], p, end.proxies[p]);
    }
  }

  /**
   Opening on any consistent tables. The active leases whose ports can all be bound are restored whole with
   their own targets, and nothing else is forwarded; the other active leases are deleted unless the deletion
   fails, and the expired ones are gone. The call fails exactly when the last lease listed could not be
   restored, whatever happened to the ones before it.
   */
  lemma OpenIsExact(t: Tables, t1: Time, t2: Time, records: seq<LeaseRecord>, env: Env)
    requires Consistent(t) && ListedAt(t, t1, t2, records, env) && StoreOpens(env)
    ensures var plan := OpenPlan(t, t1, records, env);
      && plan.end.tables.leases == RowsAfterOpen(t, t1, t2, env)
      && ExactForwarders(t, t1, t2, env, plan.end.proxies)
      && plan.reply
        == (if records != [] && !Recoverable(records[|records| - 1], env.bindable) then Failed(BindError) else Done)
    ensures forall i :: 0 <= i < |records| ==>
      ActiveAt(t, t1, t2, records[i].lease.id) && t.leases[records[i].lease.id] == records[i]
  {
    FreshReap(t, t1, env);
    var reaped := ReapPlan(Fresh(t), t1, env.faults).end;
    ListedArePicked(reaped.tables, t2, records);
    RestoreExact(reaped, records, env);
    RestoredIsKept(t, reaped.tables, t1, t2, Ids(records), env, RestorePlan(reaped, records, env).end);
  }

  /**
   Opening keeps exactly the capabilities unexpired at its first clock reading. It fails, and forwards nothing, when
   one of its store reads or purges fails.
   */
  lemma OpenAnswer(t: Tables, t1: Time, t2: Time, records: seq<LeaseRecord>, env: Env, hash: Name)
    requires Consistent(t) && ListedAt(t, t1, t2, records, env)
    ensures var plan := OpenPlan(t, t1, records, env);
      && (StoreOpens(env) ==>
            && (hash in plan.end.tables.caps <==> hash in t.caps && t.caps[hash].expiresAt > t1)
            && (hash in plan.end.tables.caps ==> plan.end.tables.caps[hash] == t.caps[hash]))
      && (!StoreOpens(env) ==> plan.reply == Failed(StoreError) && forall p :: p !in plan.end.proxies)
  {
    if StoreOpens(env) {
      FreshReap(t, t1, env);
      var reaped := ReapPlan(Fresh(t), t1, env.faults).end;
      ListedArePicked(reaped.tables, t2, records);
      RestoreExact(reaped, records, env);
    }
  }

  /** An opening that fails on a bind with a working store has deleted a lease. */
  lemma FailedOpenDeletes(t: Tables, t1: Time, t2: Time, records: seq<LeaseRecord>, env: Env)
    requires Consistent(t) && ListedAt(t, t1, t2, records, env) && env.faults == {}
    requires OpenPlan(t, t1, records, env).reply.Failed?
    ensures |OpenPlan(t, t1, records, env).end.tables.leases| < |t.leases|
  {
    OpenIsExact(t, t1, t2, records, env);
    var after := RowsAfterOpen(t, t1, t2, env);
    var last := records[|records| - 1].lease.id;
    assert ActiveAt(t, t1, t2, last) && last !in after;
    assert after.Keys <= t.leases.Keys - {last};
    SubsetSize(after.Keys, t.leases.Keys - {last});
  }

  /** One start of the daemon: its two clock readings, what the store listed, and what it met. */
  datatype Start = Start(t1: Time, t2: Time, records: seq<LeaseRecord>, env: Env)

  /** Each start finds the tables the one before left, has a working store, and fails. */
  ghost predicate AllFail(t: Tables, starts: seq<Start>)
    decreases |starts|
  {
    starts == [] ||
      var start := starts[0];
      && start.env.faults == {}
      && ListedAt(t, start.t1, start.t2, start.records, start.env)
      && OpenPlan(t, start.t1, start.records, start.env).reply.Failed?
      && AllFail(OpenPlan(t, start.t1, start.records, start.env).end.tables, starts[1..])
  }

  /** With a working store there are at most as many failing starts in a row as there are leases. */
  lemma {:induction false} FailingStartsAreBounded(t: Tables, starts: seq<Start>)
    requires Consistent(t) && AllFail(t, starts)
    ensures |starts| <= |t.leases|
    decreases |starts|
  {
    if starts != [] {
      var start := starts[0];
      FailedOpenDeletes(t, start.t1, start.t2, start.records, start.env);
      OpenKeepsSafe(t, start.t1, start.t2, start.records, start.env);
      FailingStartsAreBounded(OpenPlan(t, start.t1, start.records, start.env).end.tables, starts[1..]);
    }
  }

  /** Every row has all its forwarders. */
  ghost predicate AllUp(s: State) {
    forall id :: id in s.tables.leases ==> Up(s.proxies, s.tables.leases[id])
  }

  /** The same ports are forwarded, each to the same target. */
  ghost predicate SameForwarding(a: map<int, Endpoint>, b: map<int, Endpoint>) {
    && (forall p :: p in a <==> p in b)
    && (forall p :: p in a && p in b ==> a[p] == b[p])
  }

  /** Backed forwarders of rows that are all up are determined by the rows. */
  lemma SameForwarders(t: Tables, a: map<int, Endpoint>, b: map<int, Endpoint>)
    requires AllBacked(t, a) && forall id :: id in t.leases ==> Up(b, t.leases[id])
    ensures forall p :: p in a ==> p in b && a[p] == b[p]
  {
    forall p | p in a ensures p in b && a[p] == b[p] {
      assert Backed(t, p, a[p]);
      var id :| id in t.leases && Serves(t.leases[id], p, a[p]);
      assert Up(b, t.leases[id]) && p in Hosts(t.leases[id]);
    }
  }

  lemma NothingLost(t: Tables, t1: Time, t2: Time, env: Env)
    requires forall id :: id in t.leases ==> Kept(t, t1, t2, env, id)
    ensures RowsAfterOpen(t, t1, t2, env) == t.leases
  {
    var rows := RowsAfterOpen(t, t1, t2, env);
    forall id | id in t.leases ensures id in rows && rows[id] == t.leases[id] {
      assert Kept(t, t1, t2, env, id);
    }
  }

  lemma SameWhenAllKept(t: Tables, t1: Time, t2: Time, env: Env, a: map<int, Endpoint>, b: map<int, Endpoint>)
    requires AllBacked(t, a) && forall id :: id in t.leases ==> Up(a, t.leases[id])
    requires ExactForwarders(t, t1, t2, env, b) && forall id :: id in t.leases ==> Kept(t, t1, t2, env, id)
    ensures SameForwarding(a, b)
  {
    assert AllBacked(t, b) by {
      forall p | p in b ensures Backed(t, p, b[p]) {
        assert KeptFor(t, t1, t2, env, p, b[p]);
      }
    }
    SameForwarders(t, a, b);
    SameForwarders(t, b, a);
  }

  /**
   Closing a broker and opening it again, with nothing expired and every port bindable, restores the same forwarders.
   */
  lemma CloseThenOpen(s: State, t1: Time, t2: Time, records: seq<LeaseRecord>, env: Env)
    requires Safe(s) && AllUp(s)
    requires ListedAt(s.tables, t1, t2, records, env) && StoreOpens(env)
    requires forall id :: id in s.tables.leases ==> ActiveAt(s.tables, t1, t2, id)
    requires UsedPorts(s.tables.leases) <= env.bindable
    ensures var plan := OpenPlan(s.tables, t1, records, env);
      plan.reply == Done && SameForwarding(s.proxies, plan.end.proxies) && plan.end.tables.leases == s.tables.leases
  {
    var t := s.tables;
    OpenIsExact(t, t1, t2, records, env);
    forall id | id in t.leases ensures Kept(t, t1, t2, env, id) {
      assert forall p :: p in Hosts(t.leases[id]) ==> p in UsedPorts(t.leases);
    }
    NothingLost(t, t1, t2, env);
    SameWhenAllKept(t, t1, t2, env, s.proxies, OpenPlan(t, t1, records, env).end.proxies);
  }

  /** A kept row has a port, so a second opening that finds the ports held cannot recover it. */
  lemma HeldRowIsLost(t: Tables, t1: Time, t2: Time, env: Env, proxies: map<int, Endpoint>, bindable: set<int>,
                      id: Name)
    requires Consistent(t) && ExactForwarders(t, t1, t2, env, proxies) && bindable !! proxies.Keys
    requires Kept(t, t1, t2, env, id)
    ensures !Recoverable(t.leases[id], bindable)
  {
    assert GoodRow(t, id) && Up(proxies, t.leases[id]);
    var p := t.leases[id].lease.ports[0].hostPort;
    assert t.leases[id].lease.ports[0] in t.leases[id].lease.ports;
    assert p in Hosts(t.leases[id]);
  }

  lemma RestoredRowsAreLost(t: Tables, t1: Time, t2: Time, env: Env, first: State, u1: Time, u2: Time, again: Env,
                            id: Name)
    requires Consistent(t) && t2 <= u2 && env.faults == {} && again.faults == {}
    requires first.tables.leases == RowsAfterOpen(t, t1, t2, env) && ExactForwarders(t, t1, t2, env, first.proxies)
    requires again.bindable !! first.proxies.Keys && id in RowsAfterOpen(first.tables, u1, u2, again)
    ensures id in t.leases && t.leases[id].lease.expiresAt <= u2
  {
    hide Consistent, ExactForwarders;
    if ActiveAt(first.tables, u1, u2, id) {
      assert Kept(t, t1, t2, env, id);
      HeldRowIsLost(t, t1, t2, env, first.proxies, again.bindable, id);
      assert false;
    }
  }

  /**
   A failed opening does not close the forwarders it has restored. If the same process opens again while the
   forwarders of an opening run, failed or not, their ports cannot be bound, and every lease still active is deleted.
   */
  lemma ReopeningInProcessDeletesAll(t: Tables, a: Start, b: Start)
    requires Consistent(t) && a.env.faults == {} && b.env.faults == {} && a.t2 <= b.t2
    requires ListedAt(t, a.t1, a.t2, a.records, a.env)
    requires var first := OpenPlan(t, a.t1, a.records, a.env).end;
      ListedAt(first.tables, b.t1, b.t2, b.records, b.env) && b.env.bindable !! first.proxies.Keys
    ensures var first := OpenPlan(t, a.t1, a.records, a.env).end;
      forall id :: id in OpenPlan(first.tables, b.t1, b.records, b.env).end.tables.leases ==>
        id in t.leases && t.leases[id].lease.expiresAt <= b.t2
  {
    hide OpenPlan, RowsAfterOpen, ExactForwarders;
    var first := OpenPlan(t, a.t1, a.records, a.env).end;
    OpenIsExact(t, a.t1, a.t2, a.records, a.env);
    OpenKeepsSafe(t, a.t1, a.t2, a.records, a.env);
    OpenIsExact(first.tables, b.t1, b.t2, b.records, b.env);
    forall id | id in RowsAfterOpen(first.tables, b.t1, b.t2, b.env)
      ensures id in t.leases && t.leases[id].lease.expiresAt <= b.t2
    {
      RestoredRowsAreLost(t, a.t1, a.t2, a.env, first, b.t1, b.t2, b.env, id);
    }
  }
}
