/** The values the port-lease broker works with. */
module Types {

  /** Instants and durations in nanoseconds. ZERO_TIME is the zero instant, before every clock reading. */
  type Time = int
  type Duration = int

  /**
   Identifiers, hashes, owners and hosts. The broker only compares them and tests them for emptiness,
   so numbers stand for the texts, NO_NAME for the empty one.
   */
  type Name = int

  const NO_NAME: Name := 0

  const ZERO_TIME: Time := 0
  const SECOND: Duration := 1_000_000_000

  datatype Config = Config(
    portStart: int, portEnd: int,
    defaultTTL: Duration, maximumTTL: Duration,
    maximumRun: int, maximumUser: int)

  datatype Capability = Capability(
    id: Name, hash: Name,
    userID: Name, runID: Name, workspaceID: Name, targetHost: Name,
    expiresAt: Time)

  datatype Port = Port(hostPort: int, targetPort: int)

  datatype Lease = Lease(
    id: Name,
    userID: Name, runID: Name, workspaceID: Name, targetHost: Name,
    ports: seq<Port>, createdAt: Time, expiresAt: Time)

  /** A row of the lease table: a lease and the foreign key to its capability. */
  datatype LeaseRecord = LeaseRecord(capabilityHash: Name, lease: Lease)

  /** Where a running forwarder sends its connections. */
  datatype Endpoint = Endpoint(host: Name, port: int)

  datatype Option<+T> = None | Some(value: T)

  datatype Error =
    | Exhausted | Forbidden | NotFound
    | RunLimit | UserLimit
    | InvalidRequest | StoreError | RandomError | BindError | SchedulerError | Cancelled

  datatype Reply = Granted(lease: Lease) | Done | Failed(error: Error)

  /** The calls inside one broker operation that may fail, each without any effect. */
  datatype Fallible =
    | ReadCapability | ReadCapabilityByID | ReadExpired | ReadActive | ReadLease | ReadOwned
    | WriteCapability | WriteLease | ExtendLease
    | EraseLease(id: Name) | EraseCapability
    | PurgeLeases | PurgeCapabilities
    | DrawID

  /** What one operation meets outside the broker: the ports no other process holds, and the calls that fail. */
  datatype Env = Env(bindable: set<int>, faults: set<Fallible>)

  function MinimumTime(first: Time, second: Time): (r: Time)
    ensures r <= first && r <= second && (r == first || r == second)
  {
    if second < first then second else first
  }

  /** Two's complement wrap-around of a 64-bit integer. */
  function Wrap64(x: int): (r: int)
    ensures -0x8000_0000_0000_0000 <= r < 0x8000_0000_0000_0000
    ensures -0x8000_0000_0000_0000 <= x < 0x8000_0000_0000_0000 ==> r == x
    ensures (x - r) % 0x1_0000_0000_0000_0000 == 0
  {
    (x + 0x8000_0000_0000_0000) % 0x1_0000_0000_0000_0000 - 0x8000_0000_0000_0000
  }

  /** The conversion of a requested number of seconds to a duration: a 64-bit product. */
  function SecondsToDuration(seconds: int): Duration {
    Wrap64(seconds * SECOND)
  }

  function EffectiveTTL(cfg: Config, ttl: Duration): Duration {
    if ttl == 0 then cfg.defaultTTL else ttl
  }

  /** The checks made on an allocation request before its first attempt. */
  predicate ValidRequest(cfg: Config, targets: seq<int>, ttl: Duration) {
    && targets != []
    && SECOND <= EffectiveTTL(cfg, ttl) <= cfg.maximumTTL
    && forall i :: 0 <= i < |targets| ==> 1 <= targets[i] <= 65535
  }

  /** The lifetime a request of so many seconds asks for: the default for zero. */
  function AskedTTL(cfg: Config, seconds: int): Duration {
    if seconds == 0 then cfg.defaultTTL else seconds * SECOND
  }

  /** The product of the conversion fits in 64 bits. */
  predicate ProductFits(seconds: int) {
    -0x8000_0000_0000_0000 <= seconds * SECOND < 0x8000_0000_0000_0000
  }

  /** An accepted request is served the lifetime it asks for exactly when its product fits in 64 bits. */
  lemma ServedAsAsked(cfg: Config, targets: seq<int>, seconds: int)
    requires ValidRequest(cfg, targets, SecondsToDuration(seconds)) && cfg.maximumTTL < 0x8000_0000_0000_0000
    ensures EffectiveTTL(cfg, SecondsToDuration(seconds)) == AskedTTL(cfg, seconds) <==> ProductFits(seconds)
  {
    if !ProductFits(seconds) { assert seconds != 0; }
  }

  /** An accepted request that is not served as asked has asked for more than the maximum, or for less than nothing. */
  lemma WrappedIsOutOfBounds(cfg: Config, targets: seq<int>, seconds: int)
    requires ValidRequest(cfg, targets, SecondsToDuration(seconds)) && cfg.maximumTTL < 0x8000_0000_0000_0000
    requires EffectiveTTL(cfg, SecondsToDuration(seconds)) != AskedTTL(cfg, seconds)
    ensures AskedTTL(cfg, seconds) > cfg.maximumTTL || AskedTTL(cfg, seconds) < 0
  {
    ServedAsAsked(cfg, targets, seconds);
  }

  const WRAP := 0x80_0000_0000_0000

  /** The inverse of 1953125 modulo 2^55. */
  const INVERSE := 20211507185753197

  lemma OddFactor(x: int)
    ensures (x * 1953125) % WRAP == 0 <==> x % WRAP == 0
  {
    if (x * 1953125) % WRAP == 0 {
      var q := (x * 1953125) / WRAP;
      assert x * 1953125 == WRAP * q;
      assert x == WRAP * (INVERSE * q - 1095668 * x);
    }
    if x % WRAP == 0 {
      var q := x / WRAP;
      assert x * 1953125 == WRAP * (q * 1953125);
    }
  }

  lemma WrapsToZero(x: int)
    ensures Wrap64(x) == 0 <==> x % 0x1_0000_0000_0000_0000 == 0
  {
  }

  lemma EvenFactor(x: int)
    ensures (x * 0x200) % 0x1_0000_0000_0000_0000 == 0 <==> x % WRAP == 0
  {
    if x % WRAP == 0 {
      assert x * 0x200 == 0x1_0000_0000_0000_0000 * (x / WRAP);
    }
  }

  /**
   The conversion gives zero, which stands for the default lifetime, exactly for the multiples of 2^55
   seconds: a second is 2^9 times an odd number.
   */
  lemma ZeroExactlyOnMultiples(seconds: int)
    ensures SecondsToDuration(seconds) == 0 <==> seconds % WRAP == 0
  {
    hide Wrap64;
    var odd := seconds * 1953125;
    assert SecondsToDuration(seconds) == Wrap64(odd * 0x200);
    WrapsToZero(odd * 0x200);
    EvenFactor(odd);
    OddFactor(seconds);
  }

  /** Every other multiple of 2^55 seconds is far out of bounds, and is served as the default lifetime. */
  lemma WrappedRequestIsServed(cfg: Config, targets: seq<int>, seconds: int)
    requires ValidRequest(cfg, targets, 0) && cfg.maximumTTL < 0x8000_0000_0000_0000
    requires seconds % WRAP == 0 && seconds != 0
    ensures AskedTTL(cfg, seconds) > cfg.maximumTTL || AskedTTL(cfg, seconds) < 0
    ensures ValidRequest(cfg, targets, SecondsToDuration(seconds))
    ensures EffectiveTTL(cfg, SecondsToDuration(seconds)) == cfg.defaultTTL
  {
    ZeroExactlyOnMultiples(seconds);
    assert seconds >= WRAP || seconds <= -WRAP;
  }
}
