/** First-fit choice of host ports, and the port counts behind the quotas. */
module Pool {
  import opened Pick
  import opened Types
  import opened Tables

  // ----- first fit

  /** The ports of the configured range that no row uses, no forwarder holds and the system lets us bind. */
  function FreePorts(cfg: Config, used: set<int>, held: set<int>, bindable: set<int>): set<int> {
    set p | p in bindable && cfg.portStart <= p <= cfg.portEnd && p !in used && p !in held
  }

  /** Scans from `lo` to `hi`, taking free ports until `n` are found. */
  function Lowest(free: set<int>, lo: int, hi: int, n: nat): seq<int>
    decreases hi - lo + 1
  {
    if n == 0 || lo > hi then []
    else if lo in free then [lo] + Lowest(free, lo + 1, hi, n - 1)
    else Lowest(free, lo + 1, hi, n)
  }

  predicate Ascending(s: seq<int>) {
    forall i, j :: 0 <= i < j < |s| ==> s[i] < s[j]
  }

  function Elements(s: seq<int>): set<int> {
    set x | x in s
  }

  /** `chosen` is the ascending list of the n lowest members of `free`, or of all of them when there are fewer. */
  ghost predicate IsFirstFit(free: set<int>, n: nat, chosen: seq<int>) {
    && Ascending(chosen)
    && Elements(chosen) <= free
    && |chosen| <= n
    && (|chosen| < n ==> Elements(chosen) == free)
    && (forall p, q :: p in free && q in chosen && p < q ==> p in chosen)
  }

  lemma {:induction false} LowestIsFirstFit(free: set<int>, lo: int, hi: int, n: nat)
    requires forall p :: p in free ==> lo <= p <= hi
    ensures IsFirstFit(free, n, Lowest(free, lo, hi, n))
  {
    LowestScan(free, lo, hi, n);
    var chosen := Lowest(free, lo, hi, n);
    if |chosen| < n {
      assert forall p :: p in free ==> p in chosen && p in Elements(chosen);
      assert Elements(chosen) == free;
    }
  }

  lemma AscendingPrepend(lo: int, rest: seq<int>)
    requires Ascending(rest) && forall q :: q in rest ==> lo < q
    ensures Ascending([lo] + rest) && forall q :: q in [lo] + rest <==> q == lo || q in rest
  {
    var all := [lo] + rest;
    forall i, j | 0 <= i < j < |all| ensures all[i] < all[j] {
      assert all[j] == rest[j - 1] && rest[j - 1] in rest;
    }
  }

  lemma {:induction false} LowestScan(free: set<int>, lo: int, hi: int, n: nat)
    ensures var chosen := Lowest(free, lo, hi, n);
      && Ascending(chosen) && |chosen| <= n
      && (forall q :: q in chosen ==> q in free && lo <= q <= hi)
      && (|chosen| < n ==> forall p :: p in free && lo <= p <= hi ==> p in chosen)
      && (forall p, q :: p in free && lo <= p && q in chosen && p < q ==> p in chosen)
    decreases hi - lo + 1
  {
    if n == 0 || lo > hi {
    } else if lo in free {
      LowestScan(free, lo + 1, hi, n - 1);
      AscendingPrepend(lo, Lowest(free, lo + 1, hi, n - 1));
    } else {
      LowestScan(free, lo + 1, hi, n);
    }
  }

  lemma {:induction false} AscendingSize(s: seq<int>)
    requires Ascending(s)
    ensures |Elements(s)| == |s|
  {
    if s != [] {
      var init := s[..|s| - 1];
      AscendingSize(init);
      assert s == init + [s[|s| - 1]];
      assert Elements(s) == Elements(init) + {s[|s| - 1]};
      assert s[|s| - 1] !in Elements(init);
    }
  }

  lemma SubsetSize(a: set<int>, b: set<int>)
    requires a <= b
    ensures |a| <= |b|
  {
    assert b == a + (b - a);
  }

  /** First fit finds all it was asked for exactly when that many ports are free. */
  lemma FirstFitSize(free: set<int>, n: nat, chosen: seq<int>)
    requires IsFirstFit(free, n, chosen)
    ensures |chosen| == n <==> n <= |free|
    ensures |chosen| < n <==> |free| < n
  {
    AscendingSize(chosen);
    SubsetSize(Elements(chosen), free);
  }

  /** There is only one first fit. */
  lemma FirstFitUnique(free: set<int>, n: nat, a: seq<int>, b: seq<int>)
    requires IsFirstFit(free, n, a) && IsFirstFit(free, n, b)
    ensures a == b
  {
    FirstFitSize(free, n, a);
    FirstFitSize(free, n, b);
    AscendingSize(a);
    AscendingSize(b);
    if |a| == n {
      if exists x :: x in a && x !in b {
        var x :| x in a && x !in b;
        assert x in Elements(a) && x in free;
        assert Elements(b) <= Elements(a) - {x} by {
          forall q | q in b ensures q in a { assert q in Elements(b) && q in free; }
        }
        SubsetSize(Elements(b), Elements(a) - {x});
      }
      assert Elements(a) <= Elements(b);
      EqualBySize(Elements(a), Elements(b));
    }
    AscendingUnique(a, b);
  }

  lemma {:induction false} MembersBound(a: set<int>, b: set<int>)
    requires forall p :: p in a ==> p in b
    ensures |a| <= |b|
    decreases |a|
  {
    if |a| > 0 {
      var p := SomeMember(a);
      MembersBound(a - {p}, b - {p});
    }
  }

  lemma SameMembersSameSize(a: set<int>, b: set<int>)
    requires forall p :: p in a <==> p in b
    ensures |a| == |b|
  {
    MembersBound(a, b);
    MembersBound(b, a);
  }

  lemma EqualBySize(a: set<int>, b: set<int>)
    requires a <= b && |a| == |b|
    ensures a == b
  {
    assert b == a + (b - a);
    assert |b - a| == 0;
  }

  lemma AscendingLast(s: seq<int>)
    requires Ascending(s) && s != []
    ensures var init := s[..|s| - 1]; Ascending(init) && Elements(init) == Elements(s) - {s[|s| - 1]}
    ensures forall x :: x in Elements(s) ==> x <= s[|s| - 1]
    ensures s[|s| - 1] in Elements(s)
  {
    var init, last := s[..|s| - 1], s[|s| - 1];
    assert s == init + [last];
    assert Elements(s) == Elements(init) + {last};
    assert last !in init;
  }

  lemma {:induction false} AscendingUnique(a: seq<int>, b: seq<int>)
    requires Ascending(a) && Ascending(b) && Elements(a) == Elements(b)
    ensures a == b
  {
    AscendingSize(a);
    AscendingSize(b);
    if a != [] {
      AscendingLast(a);
      AscendingLast(b);
      var m, n := a[|a| - 1], b[|b| - 1];
      assert m == n;
      AscendingUnique(a[..|a| - 1], b[..|b| - 1]);
      assert a == a[..|a| - 1] + [m] && b == b[..|b| - 1] + [n];
    }
  }

  // ----- quotas

  /** Some row of the user names the port. */
  predicate UserHolds(rows: map<Name, LeaseRecord>, userID: Name, p: int) {
    exists id :: id in rows && rows[id].lease.userID == userID && p in Hosts(rows[id])
  }

  /** Some row of this run of the user names the port. */
  predicate RunHolds(rows: map<Name, LeaseRecord>, userID: Name, runID: Name, p: int) {
    exists id :: id in rows && rows[id].lease.userID == userID && rows[id].lease.runID == runID && p in Hosts(rows[id])
  }

  function UserRows(rows: map<Name, LeaseRecord>, userID: Name): map<Name, LeaseRecord> {
    map id | id in rows && rows[id].lease.userID == userID :: rows[id]
  }

  function RunRows(rows: map<Name, LeaseRecord>, userID: Name, runID: Name): map<Name, LeaseRecord> {
    map id | id in rows && rows[id].lease.userID == userID && rows[id].lease.runID == runID :: rows[id]
  }

  /** The number of host ports a user holds. */
  function UserPorts(rows: map<Name, LeaseRecord>, userID: Name): nat {
    |UsedPorts(UserRows(rows, userID))|
  }

  /** The number of host ports one run of a user holds. */
  function RunPorts(rows: map<Name, LeaseRecord>, userID: Name, runID: Name): nat {
    |UsedPorts(RunRows(rows, userID, runID))|
  }

  /** The counts are the sizes of the sets of ports that the rows of the user, and of the run, name. */
  lemma PortsAreCounted(rows: map<Name, LeaseRecord>, userID: Name, runID: Name, ports: set<int>)
    ensures (forall p :: p in ports ==> RunHolds(rows, userID, runID, p)) ==> |ports| <= RunPorts(rows, userID, runID)
    ensures (forall p :: RunHolds(rows, userID, runID, p) ==> p in ports) ==> RunPorts(rows, userID, runID) <= |ports|
    ensures (forall p :: p in ports ==> UserHolds(rows, userID, p)) ==> |ports| <= UserPorts(rows, userID)
    ensures (forall p :: UserHolds(rows, userID, p) ==> p in ports) ==> UserPorts(rows, userID) <= |ports|
  {
    var ofRun, ofUser := UsedPorts(RunRows(rows, userID, runID)), UsedPorts(UserRows(rows, userID));
    assert forall p :: p in ofRun <==> RunHolds(rows, userID, runID, p) by {
      forall p ensures p in ofRun <==> RunHolds(rows, userID, runID, p) { RunPortsAreHeld(rows, userID, runID, p); }
    }
    assert forall p :: p in ofUser <==> UserHolds(rows, userID, p) by {
      forall p ensures p in ofUser <==> UserHolds(rows, userID, p) { UserPortsAreHeld(rows, userID, p); }
    }
    if forall p :: p in ports ==> RunHolds(rows, userID, runID, p) { MembersBound(ports, ofRun); }
    if forall p :: RunHolds(rows, userID, runID, p) ==> p in ports { MembersBound(ofRun, ports); }
    if forall p :: p in ports ==> UserHolds(rows, userID, p) { MembersBound(ports, ofUser); }
    if forall p :: UserHolds(rows, userID, p) ==> p in ports { MembersBound(ofUser, ports); }
  }

  lemma RunPortsAreHeld(rows: map<Name, LeaseRecord>, userID: Name, runID: Name, p: int)
    ensures p in UsedPorts(RunRows(rows, userID, runID)) <==> RunHolds(rows, userID, runID, p)
  {
    var own := RunRows(rows, userID, runID);
    if p in UsedPorts(own) {
      var id :| id in own && p in Hosts(own[id]);
    }
    if RunHolds(rows, userID, runID, p) {
      var id :| id in rows && rows[id].lease.userID == userID && rows[id].lease.runID == runID && p in Hosts(rows[id]);
      assert id in own && p in Hosts(own[id]);
    }
  }

  lemma UserPortsAreHeld(rows: map<Name, LeaseRecord>, userID: Name, p: int)
    ensures p in UsedPorts(UserRows(rows, userID)) <==> UserHolds(rows, userID, p)
  {
    var own := UserRows(rows, userID);
    if p in UsedPorts(own) {
      var id :| id in own && p in Hosts(own[id]);
    }
    if UserHolds(rows, userID, p) {
      var id :| id in rows && rows[id].lease.userID == userID && p in Hosts(rows[id]);
      assert id in own && p in Hosts(own[id]);
    }
  }

  ghost predicate WithinQuotas(cfg: Config, rows: map<Name, LeaseRecord>) {
    && (forall userID, runID :: RunPorts(rows, userID, runID) <= cfg.maximumRun)
    && (forall userID :: UserPorts(rows, userID) <= cfg.maximumUser)
  }

  /** The quota an allocation of `requested` more ports would break, the run's first. */
  function LimitError(cfg: Config, cap: Capability, requested: nat, rows: map<Name, LeaseRecord>): Option<Error> {
    if RunPorts(rows, cap.userID, cap.runID) + requested > cfg.maximumRun then Some(RunLimit)
    else if UserPorts(rows, cap.userID) + requested > cfg.maximumUser then Some(UserLimit)
    else None
  }

  lemma FewerRowsUseFewerPorts(a: map<Name, LeaseRecord>, b: map<Name, LeaseRecord>)
    requires forall id :: id in a ==> id in b && a[id].lease.ports == b[id].lease.ports
    ensures UsedPorts(a) <= UsedPorts(b) && |UsedPorts(a)| <= |UsedPorts(b)|
  {
    forall p | p in UsedPorts(a) ensures p in UsedPorts(b) {
      var id :| id in a && p in Hosts(a[id]);
      assert p in Hosts(b[id]);
    }
    SubsetSize(UsedPorts(a), UsedPorts(b));
  }

  /** Removing rows, or changing only their expiry, keeps the quotas. */
  lemma ShrinkingKeepsQuotas(cfg: Config, a: map<Name, LeaseRecord>, b: map<Name, LeaseRecord>)
    requires WithinQuotas(cfg, b)
    requires forall id :: id in a ==> id in b && a[id].lease.(expiresAt := b[id].lease.expiresAt) == b[id].lease
    ensures WithinQuotas(cfg, a)
  {
    forall u, r ensures RunPorts(a, u, r) <= cfg.maximumRun {
      FewerRowsUseFewerPorts(RunRows(a, u, r), RunRows(b, u, r));
      assert RunPorts(b, u, r) <= cfg.maximumRun;
    }
    forall u ensures UserPorts(a, u) <= cfg.maximumUser {
      FewerRowsUseFewerPorts(UserRows(a, u), UserRows(b, u));
      assert UserPorts(b, u) <= cfg.maximumUser;
    }
  }

  lemma {:induction false} HostPortsSize(ports: seq<Port>)
    requires DistinctHosts(ports)
    ensures |HostPorts(ports)| == |ports|
  {
    if ports != [] {
      var last, rest := ports[|ports| - 1], ports[..|ports| - 1];
      HostPortsSize(rest);
      assert ports == rest + [last];
      assert HostPorts(ports) == HostPorts(rest) + {last.hostPort};
      assert last.hostPort !in HostPorts(rest);
    }
  }

  lemma AddedRowPorts(rows: map<Name, LeaseRecord>, record: LeaseRecord)
    requires record.lease.id !in rows
    ensures UsedPorts(rows[record.lease.id := record]) == UsedPorts(rows) + Hosts(record)
  {
    var more := rows[record.lease.id := record];
    forall p | p in UsedPorts(rows) + Hosts(record) ensures p in UsedPorts(more) {
      if p in Hosts(record) {
        assert record.lease.id in more && p in Hosts(more[record.lease.id]);
      } else {
        var id :| id in rows && p in Hosts(rows[id]);
        assert id in more && p in Hosts(more[id]);
      }
    }
  }

  lemma AddedRowUserPorts(rows: map<Name, LeaseRecord>, record: LeaseRecord, u: Name)
    requires record.lease.id !in rows && DistinctHosts(record.lease.ports)
    ensures UserPorts(rows[record.lease.id := record], u)
         <= UserPorts(rows, u) + if u == record.lease.userID then |record.lease.ports| else 0
  {
    var more := rows[record.lease.id := record];
    if u == record.lease.userID {
      assert UserRows(more, u) == UserRows(rows, u)[record.lease.id := record];
      AddedRowPorts(UserRows(rows, u), record);
      HostPortsSize(record.lease.ports);
    } else {
      assert UserRows(more, u) == UserRows(rows, u);
    }
  }

  lemma AddedRowRunPorts(rows: map<Name, LeaseRecord>, record: LeaseRecord, u: Name, r: Name)
    requires record.lease.id !in rows && DistinctHosts(record.lease.ports)
    ensures RunPorts(rows[record.lease.id := record], u, r)
      <= RunPorts(rows, u, r)
        + if u == record.lease.userID && r == record.lease.runID then |record.lease.ports| else 0
  {
    var more := rows[record.lease.id := record];
    if u == record.lease.userID && r == record.lease.runID {
      assert RunRows(more, u, r) == RunRows(rows, u, r)[record.lease.id := record];
      AddedRowPorts(RunRows(rows, u, r), record);
      HostPortsSize(record.lease.ports);
    } else {
      assert RunRows(more, u, r) == RunRows(rows, u, r);
    }
  }

  /** An allocation that passed the limit checks keeps every quota of every user. */
  lemma AllocationKeepsQuotas(cfg: Config, rows: map<Name, LeaseRecord>, record: LeaseRecord, cap: Capability)
    requires WithinQuotas(cfg, rows) && record.lease.id !in rows
    requires DistinctHosts(record.lease.ports)
    requires record.lease.userID == cap.userID && record.lease.runID == cap.runID
    requires LimitError(cfg, cap, |record.lease.ports|, rows).None?
    ensures WithinQuotas(cfg, rows[record.lease.id := record])
  {
    var more := rows[record.lease.id := record];
    forall u, r ensures RunPorts(more, u, r) <= cfg.maximumRun {
      AddedRowRunPorts(rows, record, u, r);
      assert RunPorts(rows, u, r) <= cfg.maximumRun;
    }
    forall u ensures UserPorts(more, u) <= cfg.maximumUser {
      AddedRowUserPorts(rows, record, u);
      assert UserPorts(rows, u) <= cfg.maximumUser;
    }
  }
}
