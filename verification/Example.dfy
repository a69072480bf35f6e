/** A short life of the daemon. It meets the assumptions of every result over runs, and ends with a lease in force. */
module Example {
  import opened Types
  import opened Tables
  import opened Pool
  import opened Plans
  import opened Safety
  import opened Restart
  import opened Waiting
  import opened Runs
  import opened Limits
  import opened Agreement
  import opened Expiry

  const CONFIG := Config(1024, 1030, SECOND, 100 * SECOND, 5, 5)
  const CAP := Capability(1, 2, 3, 4, 5, 6, 1 + 50 * SECOND)

  const START := Start(1, 1, [], Env({}, {}))
  const ISSUE := Perform(Issue(CAP, true, 1, 50 * SECOND), Env({}, {}))
  const ALLOCATE := Perform(Attempt(CAP, [80], SECOND, 2, 7), Env({1024}, {}))

  const EXPIRY: Time := 2 + SECOND

  /** Opened on empty tables at 1. */
  function Opened(): World {
    World(CONFIG, true, Fresh(EMPTY), map[], 1)
  }

  lemma NothingToReap()
    ensures ReapPlan(Fresh(EMPTY), 1, {}) == Plan(Fresh(EMPTY), [EMPTY, EMPTY], Done)
  {
    var expired, t1 := ExpiredLeases(EMPTY, 1), DropExpiredLeases(EMPTY, 1);
    assert t1 == EMPTY && DropExpiredCapabilities(t1, 1) == EMPTY;
    NoneExpired(EMPTY, 1);
  }

  lemma FirstBoot()
    ensures Valid(Initial(CONFIG), Boot(CONFIG, START))
    ensures Next(Initial(CONFIG), Boot(CONFIG, START)) == Opened()
  {
    hide ReapPlan;
    NothingToReap();
  }

  function Issued(): World {
    Opened().(state := Fresh(Tables(map[2 := CAP], map[])), issued := map[2 := Grant(CAP, 1, 100 * SECOND)])
  }

  lemma ThenIssue()
    ensures Valid(Opened(), ISSUE)
    ensures Next(Opened(), ISSUE) == Issued()
    ensures OpPlan(CONFIG, Opened().state, ISSUE.op, ISSUE.env).reply == Done
  {
  }

  lemma NothingHeldYet()
    ensures Consistent(Issued().state.tables) && Safe(Issued().state)
    ensures ActiveLeases(Issued().state.tables, 2) == map[]
    ensures RunPorts(map[], 3, 4) == 0 && UserPorts(map[], 3) == 0
    ensures Available(CONFIG, map[], {1024}) == {1024}
  {
    assert UsedPorts(UserRows(map[], 3)) == {} && UsedPorts(RunRows(map[], 3, 4)) == {};
  }

  function Allocated(): Plan {
    AttemptPlan(CONFIG, Issued().state, CAP, [80], SECOND, 2, 7, Env({1024}, {}))
  }

  lemma AllocationIsGranted()
    ensures Allocated().reply.Granted?
  {
    NothingHeldYet();
    assert Grantable(CONFIG, Issued().state, CAP, [80], 2, 7, Env({1024}, {}));
    assert Allocated().reply.Granted? by {
      GrantedExactly(CONFIG, Issued().state, CAP, [80], SECOND, 2, 7, Env({1024}, {}));
    }
  }

  lemma OneRowIsAdded()
    ensures Allocated().reply.Granted? && Allocated().reply.lease.id == 7 && Allocated().reply.lease.expiresAt == EXPIRY
    ensures var rows := Allocated().end.tables.leases;
      rows.Keys == {7} && rows[7].lease.expiresAt == EXPIRY && rows[7].lease.userID == 3
  {
    hide AttemptPlan, Choice, LimitError, Live;
    var s, env := Issued().state, Env({1024}, {});
    var record := AttemptRecord(CONFIG, s, CAP, [80], SECOND, 2, 7, env);
    assert Allocated() == GrantPlan(ReapPlan(s, 2, {}), record, env) by {
      AllocationIsGranted();
      GrantedAttempt(CONFIG, s, CAP, [80], SECOND, 2, 7, env);
    }
    assert ReapPlan(s, 2, {}).end.tables.leases == map[] by {
      NothingHeldYet();
      ReapedLeases(s.tables, 2);
    }
    AllocationIsGranted();
  }

  lemma ThenAllocate()
    ensures Valid(Issued(), ALLOCATE)
    ensures OpPlan(CONFIG, Issued().state, ALLOCATE.op, ALLOCATE.env) == Allocated()
    ensures Next(Issued(), ALLOCATE) == Leased(2)
  {
    hide AttemptPlan;
  }

  function Run(): seq<Event> {
    [Boot(CONFIG, START), ISSUE, ALLOCATE]
  }

  lemma OneEvent(w: World, e: Event, w': World, rest: seq<Event>)
    requires Valid(w, e) && Steady(w, e) && Next(w, e) == w'
    requires ValidRun(w', rest) && SteadyRun(w', rest)
    ensures ValidRun(w, [e] + rest) && SteadyRun(w, [e] + rest) && RunAll(w, [e] + rest) == RunAll(w', rest)
  {
    hide Valid, Next, Steady;
    assert ([e] + rest)[1..] == rest;
  }

  lemma ThreeEvents(w0: World, w1: World, w2: World, w3: World, a: Event, b: Event, c: Event)
    requires Valid(w0, a) && Steady(w0, a) && Next(w0, a) == w1
    requires Valid(w1, b) && Steady(w1, b) && Next(w1, b) == w2
    requires Valid(w2, c) && Steady(w2, c) && Next(w2, c) == w3
    ensures ValidRun(w0, [a, b, c]) && SteadyRun(w0, [a, b, c]) && RunAll(w0, [a, b, c]) == w3
  {
    hide Valid, Next, Steady;
    OneEvent(w2, c, w3, []);
    OneEvent(w1, b, w2, [c] + []);
    OneEvent(w0, a, w1, [b] + ([c] + []));
    assert [a, b, c] == [a] + ([b] + ([c] + []));
  }

  /** A steady run under one configuration that ends with one lease, unexpired, under a capability as it was issued. */
  lemma RunHoldsALease()
    ensures ValidRun(Initial(CONFIG), Run()) && SteadyRun(Initial(CONFIG), Run()) && OneConfig(CONFIG, Run())
    ensures var w := RunAll(Initial(CONFIG), Run());
      && w.running && w.clock == 2 && w.state.tables.leases.Keys == {7}
      && w.state.tables.leases[7].lease.expiresAt == EXPIRY && w.state.tables.leases[7].lease.userID == 3
  {
    hide Next, Valid, AttemptPlan, ReapPlan;
    var last := Leased(2);
    assert OneConfig(CONFIG, Run());
    FirstBoot();
    ThenIssue();
    ThenAllocate();
    ThreeEvents(Initial(CONFIG), Opened(), Issued(), last, Boot(CONFIG, START), ISSUE, ALLOCATE);
    OneRowIsAdded();
  }

  function Service(): seq<Doing> {
    [BootAndList(CONFIG, START, 1), Broker(ISSUE), Broker(ALLOCATE), Schedule(Promise(7, EXPIRY), 3, 3)]
  }

  function Served(world: World, jobs: multiset<Job>, pending: set<Promise>): Daemon {
    Daemon(world, jobs, pending, 1, {})
  }

  function Leased(clock: Time): World {
    World(CONFIG, true, Allocated().end, Issued().issued, clock)
  }

  lemma OneDoing(d: Daemon, doing: Doing, d': Daemon, rest: seq<Doing>)
    requires Possible(d, doing, 0) && Do(d, doing) == d' && PossibleRun(d', rest, 0)
    ensures PossibleRun(d, [doing] + rest, 0) && DoAll(d, [doing] + rest) == DoAll(d', rest)
  {
    hide Possible, Do;
    assert ([doing] + rest)[1..] == rest;
  }

  lemma ServiceBoots()
    ensures var d := Started(CONFIG);
      && Possible(d, BootAndList(CONFIG, START, 1), 0)
      && Do(d, BootAndList(CONFIG, START, 1)) == Served(Opened(), multiset{}, {})
  {
    hide Next, Valid;
    FirstBoot();
    assert ActivePromises(EMPTY, 1) == {};
  }

  lemma ServiceIssues()
    ensures Possible(Served(Opened(), multiset{}, {}), Broker(ISSUE), 0)
    ensures Do(Served(Opened(), multiset{}, {}), Broker(ISSUE)) == Served(Issued(), multiset{}, {})
  {
    hide Next, Valid;
    ThenIssue();
  }

  lemma ServiceAllocates()
    ensures Possible(Served(Issued(), multiset{}, {}), Broker(ALLOCATE), 0)
    ensures Do(Served(Issued(), multiset{}, {}), Broker(ALLOCATE))
      == Served(Leased(2), multiset{}, {Promise(7, EXPIRY)})
  {
    hide Next, Valid, OpPlan;
    ThenAllocate();
    OneRowIsAdded();
  }

  lemma ServiceSchedules()
    ensures Possible(Served(Leased(2), multiset{}, {Promise(7, EXPIRY)}), Schedule(Promise(7, EXPIRY), 3, 3), 0)
    ensures Do(Served(Leased(2), multiset{}, {Promise(7, EXPIRY)}), Schedule(Promise(7, EXPIRY), 3, 3))
      == Served(Leased(3), multiset{Job(7, EXPIRY, EXPIRY, RETRIES)}, {})
  {
    hide Allocated, AttemptPlan;
  }

  lemma FourDoings(d0: Daemon, d1: Daemon, d2: Daemon, d3: Daemon, d4: Daemon, a: Doing, b: Doing, c: Doing, e: Doing)
    requires Possible(d0, a, 0) && Do(d0, a) == d1 && Possible(d1, b, 0) && Do(d1, b) == d2
    requires Possible(d2, c, 0) && Do(d2, c) == d3 && Possible(d3, e, 0) && Do(d3, e) == d4
    ensures PossibleRun(d0, [a, b, c, e], 0) && DoAll(d0, [a, b, c, e]) == d4
  {
    hide Possible, Do;
    OneDoing(d3, e, d4, []);
    OneDoing(d2, c, d3, [e] + []);
    OneDoing(d1, b, d2, [c] + ([e] + []));
    OneDoing(d0, a, d1, [b] + ([c] + ([e] + [])));
    assert [a, b, c, e] == [a] + ([b] + ([c] + ([e] + [])));
  }

  /** The daemon's side of the same life: no call is under way, and the lease has its job, which is not yet due. */
  lemma ServiceHoldsALease()
    ensures PossibleRun(Started(CONFIG), Service(), 0)
    ensures DoAll(Started(CONFIG), Service()) == Served(Leased(3), multiset{Job(7, EXPIRY, EXPIRY, RETRIES)}, {})
    ensures Leased(3).running && 7 in Leased(3).state.tables.leases
      && Leased(3).state.tables.leases[7].lease.expiresAt == EXPIRY > 3
  {
    hide Possible, Do;
    ServiceBoots();
    ServiceIssues();
    ServiceAllocates();
    ServiceSchedules();
    FourDoings(Started(CONFIG), Served(Opened(), multiset{}, {}), Served(Issued(), multiset{}, {}),
      Served(Leased(2), multiset{}, {Promise(7, EXPIRY)}),
      Served(Leased(3), multiset{Job(7, EXPIRY, EXPIRY, RETRIES)}, {}),
      BootAndList(CONFIG, START, 1), Broker(ISSUE), Broker(ALLOCATE), Schedule(Promise(7, EXPIRY), 3, 3));
    OneRowIsAdded();
  }
}
