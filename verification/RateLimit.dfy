/** The per-identity rate limiter (api/ratelimit.py): a token bucket and a concurrency cap for each
    identity, and the eviction of buckets that have been idle. */
module RateLimit {
  import opened Common

  const IDLE_EVICTION_SECONDS := 3600.0

  datatype Config = Config(enabled: bool, rate: real, burst: nat, maxConcurrent: int)

  datatype Decision = Admitted | TooManyInFlight | TooFast(retryAfter: int)

  /** One bucket, as a value. */
  datatype BucketState = BucketState(tokens: real, lastRefill: real, inFlight: nat, lastSeen: real)

  function Least(a: real, b: real): real {
    if a < b then a else b
  }

  function Greatest(a: real, b: real): real {
    if a < b then b else a
  }

  /** Tokens accrue with time, up to the capacity. */
  function Accrued(tokens: real, elapsed: real, rate: real, capacity: real): real {
    Least(capacity, tokens + elapsed * rate)
  }

  function Refilled(b: BucketState, now: real, rate: real, capacity: real): BucketState {
    var elapsed := now - b.lastRefill;
    if elapsed > 0.0 then b.(tokens := Accrued(b.tokens, elapsed, rate, capacity), lastRefill := now) else b
  }

  /** Seconds until `cost` tokens are there; never zero. */
  function RetryAfter(tokens: real, cost: nat, rate: real): real {
    if rate <= 0.0 then 1.0
    else
      var deficit := Greatest(cost as real - tokens, 0.0);
      Greatest(deficit / rate, 0.001)
  }

  /** The Retry-After header: Python's int() rounds down, as the value is positive. */
  function RetryHeader(retryAfter: real): int {
    var seconds := (retryAfter + 0.999).Floor;
    if seconds < 1 then 1 else seconds
  }

  class Bucket {
    var tokens: real
    var lastRefill: real
    var inFlight: nat
    var lastSeen: real

    constructor (tokens: real, now: real)
      ensures State() == BucketState(tokens, now, 0, now)
    {
      this.tokens, lastRefill, inFlight, lastSeen := tokens, now, 0, now;
    }

    function State(): BucketState
      reads this
    {
      BucketState(tokens, lastRefill, inFlight, lastSeen)
    }

    method Refill(now: real, rate: real, capacity: real)
      modifies `tokens, `lastRefill
      ensures State() == Refilled(old(State()), now, rate, capacity)
    {
      hide Accrued;
      var elapsed := now - lastRefill;
      if elapsed > 0.0 {
        tokens := Accrued(tokens, elapsed, rate, capacity);
        lastRefill := now;
      }
    }

    /** Claims `cost` tokens and a slot, or says why not. */
    method Charge(cost: nat, now: real, cfg: Config) returns (decision: Decision)
      modifies this
      ensures (State(), decision)
              == Charged(Refilled(old(State()).(lastSeen := now), now, cfg.rate, cfg.burst as real), cost, cfg)
    {
      hide Refilled, RetryAfter, RetryHeader;
      lastSeen := now;
      Refill(now, cfg.rate, cfg.burst as real);
      if cfg.maxConcurrent > 0 && inFlight >= cfg.maxConcurrent {
        return TooManyInFlight;
      }
      if tokens < cost as real {
        return TooFast(RetryHeader(RetryAfter(tokens, cost, cfg.rate)));
      }
      tokens := tokens - cost as real;
      inFlight := inFlight + 1;
      decision := Admitted;
    }
  }

  /** All buckets, as values. */
  datatype Limits = Limits(buckets: map<string, BucketState>, lastEviction: real)

  predicate Stale(b: BucketState, now: real) {
    b.inFlight == 0 && now - b.lastSeen > IDLE_EVICTION_SECONDS
  }

  ghost function Swept(s: Limits, now: real): Limits {
    if now - s.lastEviction < IDLE_EVICTION_SECONDS then s
    else Limits(map id | id in s.buckets && !Stale(s.buckets[id], now) :: s.buckets[id], now)
  }

  /** The identity's bucket when a request of it comes in: a full one if there is none. */
  ghost function Touched(s: Limits, id: string, now: real, cfg: Config): BucketState {
    var b := if id in s.buckets then s.buckets[id] else BucketState(cfg.burst as real, now, 0, now);
    Refilled(b.(lastSeen := now), now, cfg.rate, cfg.burst as real)
  }

  /** What one acquire does to the identity's bucket, and what it decides. */
  ghost function Charged(b: BucketState, cost: nat, cfg: Config): (BucketState, Decision) {
    if cfg.maxConcurrent > 0 && b.inFlight >= cfg.maxConcurrent then (b, TooManyInFlight)
    else if b.tokens < cost as real then (b, TooFast(RetryHeader(RetryAfter(b.tokens, cost, cfg.rate))))
    else (b.(tokens := b.tokens - cost as real, inFlight := b.inFlight + 1), Admitted)
  }

  /** `acquire`, with the table swept first if `evicts`. */
  ghost function Acquired(s: Limits, id: string, cost: nat, now: real, cfg: Config, evicts: bool): (Limits, Decision) {
    if !cfg.enabled then (s, Admitted)
    else
      var swept := if evicts then Swept(s, now) else s;
      var (b, d) := Charged(Touched(swept, id, now, cfg), cost, cfg);
      (swept.(buckets := swept.buckets[id := b]), d)
  }

  ghost function Released(s: Limits, id: string, cfg: Config): Limits {
    if !cfg.enabled || id !in s.buckets || s.buckets[id].inFlight == 0 then s
    else s.(buckets := s.buckets[id := s.buckets[id].(inFlight := s.buckets[id].inFlight - 1)])
  }

  class RateLimiter {
    var buckets: map<string, Bucket>
    var lastEviction: real

    ghost predicate Valid()
      reads this
    {
      forall a, b :: a in buckets && b in buckets && a != b ==> buckets[a] != buckets[b]
    }

    ghost function State(): Limits
      reads this, buckets.Values
    {
      Limits(map id | id in buckets :: buckets[id].State(), lastEviction)
    }

    constructor (now: real)
      ensures Valid() && State() == Limits(map[], now) && buckets == map[]
    {
      buckets, lastEviction := map[], now;
    }

    method EvictIdle(now: real)
      requires Valid()
      modifies this
      ensures Valid() && State() == Swept(old(State()), now)
      ensures buckets.Values <= old(buckets.Values)
    {
      if now - lastEviction < IDLE_EVICTION_SECONDS {
        return;
      }
      lastEviction := now;
      var stale := set id | id in buckets && Stale(buckets[id].State(), now);
      buckets := buckets - stale;
    }

    /** The identity's bucket, made full if there is none. */
    method BucketFor(identity: string, now: real, cfg: Config) returns (bucket: Bucket)
      requires Valid()
      modifies this
      ensures Valid() && identity in buckets && bucket == buckets[identity]
      ensures if identity in old(buckets) then buckets == old(buckets)
              else fresh(bucket) && buckets == old(buckets)[identity := bucket]
                   && bucket.State() == BucketState(cfg.burst as real, now, 0, now)
      ensures lastEviction == old(lastEviction)
    {
      if identity !in buckets {
        var made := new Bucket(cfg.burst as real, now);
        buckets := buckets[identity := made];
      }
      bucket := buckets[identity];
    }

    /** Charges the identity's bucket. */
    method ChargeIdentity(identity: string, cost: nat, now: real, cfg: Config) returns (decision: Decision)
      requires Valid() && cfg.enabled
      modifies this, buckets.Values
      ensures Valid() && fresh(buckets.Values - old(buckets.Values))
      ensures (State(), decision) == Acquired(old(State()), identity, cost, now, cfg, false)
    {
      hide Charged, Refilled;
      ghost var before := State();
      var bucket := BucketFor(identity, now, cfg);
      assert bucket.State() == if identity in before.buckets then before.buckets[identity]
             else BucketState(cfg.burst as real, now, 0, now);
      decision := bucket.Charge(cost, now, cfg);
      assert State().buckets == before.buckets[identity := bucket.State()];
    }

    /** Charges `cost` to `identity` and claims a slot, or says why not. */
    method Acquire(identity: string, cost: nat, now: real, cfg: Config) returns (decision: Decision)
      requires Valid()
      modifies this, buckets.Values
      ensures Valid() && fresh(buckets.Values - old(buckets.Values))
      ensures (State(), decision) == Acquired(old(State()), identity, cost, now, cfg, true)
    {
      hide Charged, Touched, Swept;
      if !cfg.enabled {
        return Admitted;
      }
      EvictIdle(now);
      decision := ChargeIdentity(identity, cost, now, cfg);
    }

    method Release(identity: string, cfg: Config)
      requires Valid()
      modifies this, buckets.Values
      ensures Valid() && buckets == old(buckets) && State() == Released(old(State()), identity, cfg)
    {
      if !cfg.enabled {
        return;
      }
      if identity in buckets && buckets[identity].inFlight > 0 {
        buckets[identity].inFlight := buckets[identity].inFlight - 1;
      }
    }
  }

  // ---------------------------------------------------------------- whole runs

  datatype Op = AcquireOp(id: string, cost: nat, now: real) | ReleaseOp(id: string)

  /** The table after a run, and the decision each acquire got. `evicts` off is the reference that
      never forgets a bucket. */
  datatype Outcome = Outcome(limits: Limits, decisions: seq<Option<Decision>>)

  ghost function Step(before: Outcome, op: Op, cfg: Config, evicts: bool): Outcome {
    match op
    case AcquireOp(id, cost, now) =>
      var (s, d) := Acquired(before.limits, id, cost, now, cfg, evicts);
      Outcome(s, before.decisions + [Some(d)])
    case ReleaseOp(id) =>
      Outcome(Released(before.limits, id, cfg), before.decisions + [None])
  }

  ghost function Replay(ops: seq<Op>, cfg: Config, start: real, evicts: bool): (r: Outcome)
    ensures |r.decisions| == |ops|
  {
    if ops == [] then Outcome(Limits(map[], start), [])
    else Step(Replay(ops[..|ops| - 1], cfg, start, evicts), ops[|ops| - 1], cfg, evicts)
  }

  /** When the last acquire happened. */
  ghost function LastTime(ops: seq<Op>, start: real): real {
    if ops == [] then start
    else if ops[|ops| - 1].AcquireOp? then ops[|ops| - 1].now
    else LastTime(ops[..|ops| - 1], start)
  }

  /** The clock never goes back. */
  ghost predicate Rising(ops: seq<Op>, start: real) {
    ops == [] || (Rising(ops[..|ops| - 1], start)
                  && (ops[|ops| - 1].AcquireOp? ==> ops[|ops| - 1].now >= LastTime(ops[..|ops| - 1], start)))
  }

  /** One limiter, driven through a whole run. */
  method Serve(ops: seq<Op>, cfg: Config, start: real) returns (decisions: seq<Option<Decision>>)
    ensures decisions == Replay(ops, cfg, start, true).decisions
  {
    var limiter := new RateLimiter(start);
    decisions := [];
    for i := 0 to |ops|
      invariant limiter.Valid() && fresh(limiter) && fresh(limiter.buckets.Values)
      invariant Outcome(limiter.State(), decisions) == Replay(ops[..i], cfg, start, true)
    {
      hide Acquired, Released;
      assert ops[..i + 1][..i] == ops[..i];
      match ops[i] {
        case AcquireOp(id, cost, now) =>
          var d := limiter.Acquire(id, cost, now, cfg);
          decisions := decisions + [Some(d)];
        case ReleaseOp(id) =>
          limiter.Release(id, cfg);
          decisions := decisions + [None];
      }
    }
    assert ops[..|ops|] == ops;
  }

  // ---------------------------------------------------------------- what every run keeps

  ghost predicate BucketRight(b: BucketState, t: real, cfg: Config) {
    && 0.0 <= b.tokens <= cfg.burst as real
    && b.lastRefill == b.lastSeen <= t
    && (cfg.maxConcurrent > 0 ==> b.inFlight <= cfg.maxConcurrent)
  }

  ghost predicate LimitsRight(s: Limits, t: real, cfg: Config) {
    s.lastEviction <= t && forall id :: id in s.buckets ==> BucketRight(s.buckets[id], t, cfg)
  }

  lemma AccruedRange(tokens: real, elapsed: real, rate: real, capacity: real)
    requires 0.0 <= tokens <= capacity && elapsed >= 0.0 && rate >= 0.0
    ensures tokens <= Accrued(tokens, elapsed, rate, capacity) <= capacity
    ensures Accrued(tokens, elapsed, rate, capacity) <= tokens + elapsed * rate
    ensures tokens + elapsed * rate >= capacity ==> Accrued(tokens, elapsed, rate, capacity) == capacity
    ensures tokens + elapsed * rate <= capacity ==> Accrued(tokens, elapsed, rate, capacity) == tokens + elapsed * rate
  {
    assert elapsed * rate >= 0.0;
  }

  lemma TouchedIsRight(s: Limits, id: string, now: real, cfg: Config, t: real)
    requires LimitsRight(s, t, cfg) && now >= t && cfg.rate >= 0.0
    ensures var b := Touched(s, id, now, cfg);
            BucketRight(b, now, cfg) && b.lastRefill == b.lastSeen == now && b.tokens <= cfg.burst as real
                && b.inFlight == (if id in s.buckets then s.buckets[id].inFlight else 0)
  {
    if id in s.buckets {
      assert BucketRight(s.buckets[id], t, cfg);
      AccruedRange(s.buckets[id].tokens, now - s.buckets[id].lastRefill, cfg.rate, cfg.burst as real);
    }
  }

  lemma AcquiredIsRight(s: Limits, id: string, cost: nat, now: real, cfg: Config, evicts: bool, t: real)
    requires LimitsRight(s, t, cfg) && now >= t && cfg.rate >= 0.0
    ensures LimitsRight(Acquired(s, id, cost, now, cfg, evicts).0, now, cfg)
  {
    hide Touched, RetryAfter, RetryHeader;
    if cfg.enabled {
      var swept := if evicts then Swept(s, now) else s;
      assert LimitsRight(swept, now, cfg);
      TouchedIsRight(swept, id, now, cfg, now);
    }
  }

  lemma {:induction false} RunIsRight(ops: seq<Op>, cfg: Config, start: real, evicts: bool)
    requires Rising(ops, start) && cfg.rate >= 0.0
    ensures LimitsRight(Replay(ops, cfg, start, evicts).limits, LastTime(ops, start), cfg)
  {
    if ops != [] {
      var n := |ops| - 1;
      RunIsRight(ops[..n], cfg, start, evicts);
      hide Acquired;
      if ops[n].AcquireOp? {
        AcquiredIsRight(Replay(ops[..n], cfg, start, evicts).limits, ops[n].id, ops[n].cost, ops[n].now, cfg, evicts,
                        LastTime(ops[..n], start));
      }
    }
  }

  // ---------------------------------------------------------------- requests in flight

  ghost function InFlight(s: Limits, id: string): nat {
    if id in s.buckets then s.buckets[id].inFlight else 0
  }

  /** How many requests of `id` were admitted, and how many slots were handed back. */
  ghost function AdmittedCount(ops: seq<Op>, decisions: seq<Option<Decision>>, id: string): nat
    requires |decisions| == |ops|
  {
    if ops == [] then 0
    else
      var n := |ops| - 1;
      AdmittedCount(ops[..n], decisions[..n], id)
      + if ops[n].AcquireOp? && ops[n].id == id && decisions[n] == Some(Admitted) then 1 else 0
  }

  ghost function ReleasedCount(ops: seq<Op>, id: string): nat {
    if ops == [] then 0
    else ReleasedCount(ops[..|ops| - 1], id) + if ops[|ops| - 1] == ReleaseOp(id) then 1 else 0
  }

  /** Only slots that were claimed are handed back. */
  ghost predicate Paired(ops: seq<Op>, cfg: Config, start: real, evicts: bool, id: string) {
    ops == [] ||
    (Paired(ops[..|ops| - 1], cfg, start, evicts, id)
     && ReleasedCount(ops, id) <= AdmittedCount(ops, Replay(ops, cfg, start, evicts).decisions, id))
  }

  lemma InFlightAfterAcquire(s: Limits, id: string, cost: nat, now: real, cfg: Config, evicts: bool, other: string)
    requires cfg.enabled
    ensures var (s', d) := Acquired(s, id, cost, now, cfg, evicts);
            InFlight(s', other) == InFlight(s, other) + if other == id && d == Admitted then 1 else 0
  {
  }

  /** Requests in flight are the admitted ones minus the released ones, evictions or not, and never
      more than the cap. */
  lemma {:induction false} InFlightIsExact(ops: seq<Op>, cfg: Config, start: real, evicts: bool, id: string)
    requires cfg.enabled && Paired(ops, cfg, start, evicts, id)
    ensures var r := Replay(ops, cfg, start, evicts);
            InFlight(r.limits, id) == AdmittedCount(ops, r.decisions, id) - ReleasedCount(ops, id)
  {
    hide Acquired, Released;
    if ops != [] {
      var n := |ops| - 1;
      var before := Replay(ops[..n], cfg, start, evicts);
      InFlightIsExact(ops[..n], cfg, start, evicts, id);
      assert Replay(ops, cfg, start, evicts).decisions[..n] == before.decisions;
      match ops[n] {
        case AcquireOp(who, cost, now) => InFlightAfterAcquire(before.limits, who, cost, now, cfg, evicts, id);
        case ReleaseOp(who) => InFlightAfterRelease(before.limits, who, cfg, id);
      }
    }
  }

  lemma InFlightAfterRelease(s: Limits, who: string, cfg: Config, id: string)
    requires cfg.enabled
    ensures InFlight(Released(s, who, cfg), id) == InFlight(s, id) - if who == id && InFlight(s, id) > 0 then 1 else 0
  {
  }

  lemma InFlightIsCapped(ops: seq<Op>, cfg: Config, start: real, evicts: bool, id: string)
    requires Rising(ops, start) && cfg.rate >= 0.0 && cfg.maxConcurrent > 0
    ensures InFlight(Replay(ops, cfg, start, evicts).limits, id) <= cfg.maxConcurrent
  {
    RunIsRight(ops, cfg, start, evicts);
  }

  /** A sweep, at most once an hour, drops exactly the buckets that nobody has used for more than an hour
      and that hold no slot; the others stay as they are. */
  lemma SweepIsHourly(s: Limits, now: real)
    ensures now - s.lastEviction < 3600.0 ==> Swept(s, now) == s
    ensures now - s.lastEviction >= 3600.0 ==>
              && Swept(s, now).lastEviction == now
              && (forall id :: id in Swept(s, now).buckets <==>
                     id in s.buckets && (s.buckets[id].inFlight > 0 || now - s.buckets[id].lastSeen <= 3600.0))
              && (forall id :: id in Swept(s, now).buckets ==> Swept(s, now).buckets[id] == s.buckets[id])
  {
  }

  // ---------------------------------------------------------------- what a bucket is worth

  /** The tokens `id` could spend at time `t`. No bucket is as good as a full one. */
  ghost function Level(s: Limits, id: string, t: real, cfg: Config): real {
    if id in s.buckets then Accrued(s.buckets[id].tokens, t - s.buckets[id].lastRefill, cfg.rate, cfg.burst as real)
    else cfg.burst as real
  }

  lemma LevelRange(s: Limits, id: string, t: real, t': real, cfg: Config)
    requires LimitsRight(s, t, cfg) && t' >= t && cfg.rate >= 0.0
    ensures 0.0 <= Level(s, id, t', cfg) <= cfg.burst as real
    ensures Level(s, id, t', cfg) <= Level(s, id, t, cfg) + (t' - t) * cfg.rate
  {
    NeverNegative(t' - t, cfg.rate);
    if id in s.buckets {
      var b := s.buckets[id];
      assert BucketRight(b, t, cfg);
      AccruedLater(b.tokens, t - b.lastRefill, t' - t, cfg.rate, cfg.burst as real);
      assert t - b.lastRefill + (t' - t) == t' - b.lastRefill;
    }
  }

  lemma AccruedLater(tokens: real, elapsed: real, more: real, rate: real, capacity: real)
    requires 0.0 <= tokens <= capacity && elapsed >= 0.0 && more >= 0.0 && rate >= 0.0
    ensures 0.0 <= Accrued(tokens, elapsed + more, rate, capacity) <= capacity
    ensures Accrued(tokens, elapsed + more, rate, capacity) <= Accrued(tokens, elapsed, rate, capacity) + more * rate
  {
    InTwoParts(elapsed, more, rate);
    NeverNegative(elapsed, rate);
    NeverNegative(more, rate);
  }

  lemma InTwoParts(a: real, b: real, rate: real)
    ensures (a + b) * rate == a * rate + b * rate
  {
  }

  /** A bucket idle for longer than the eviction time is full again, if the rate fills it that fast. */
  lemma IdleIsFull(b: BucketState, t: real, now: real, cfg: Config)
    requires BucketRight(b, t, cfg) && cfg.rate * IDLE_EVICTION_SECONDS >= cfg.burst as real
    requires now - b.lastSeen > IDLE_EVICTION_SECONDS && cfg.rate >= 0.0
    ensures Accrued(b.tokens, now - b.lastRefill, cfg.rate, cfg.burst as real) == cfg.burst as real
  {
    var elapsed := now - b.lastRefill;
    MoreTime(IDLE_EVICTION_SECONDS, elapsed, cfg.rate);
    assert cfg.rate * IDLE_EVICTION_SECONDS <= elapsed * cfg.rate;
    FullAgain(b.tokens, elapsed * cfg.rate, cfg.burst as real);
  }

  lemma FullAgain(tokens: real, earned: real, capacity: real)
    requires tokens >= 0.0 && earned >= capacity
    ensures Least(capacity, tokens + earned) == capacity
  {
  }

  lemma MoreTime(a: real, b: real, rate: real)
    requires a <= b && rate >= 0.0
    ensures rate * a <= b * rate
  {
    assert (b - a) * rate >= 0.0;
  }

  /** Sweeping takes nothing from anybody. */
  lemma SweptLevel(s: Limits, id: string, t: real, now: real, cfg: Config)
    requires LimitsRight(s, t, cfg) && now >= t && cfg.rate >= 0.0
             && cfg.rate * IDLE_EVICTION_SECONDS >= cfg.burst as real
    ensures Level(Swept(s, now), id, now, cfg) == Level(s, id, now, cfg)
  {
    hide Accrued;
    if id in s.buckets && id !in Swept(s, now).buckets {
      IdleIsFull(s.buckets[id], t, now, cfg);
    }
  }

  /** What an acquire finds in the bucket is its level at that moment. */
  lemma TouchedLevel(s: Limits, id: string, now: real, cfg: Config, t: real)
    requires LimitsRight(s, t, cfg) && now >= t && cfg.rate >= 0.0
    ensures Touched(s, id, now, cfg).tokens == Level(s, id, now, cfg)
  {
    if id in s.buckets {
      var b := s.buckets[id];
      assert BucketRight(b, t, cfg);
      if now == b.lastRefill {
        NoTime(cfg.rate);
      }
    }
  }

  lemma NoTime(rate: real)
    ensures 0.0 * rate == 0.0
  {
  }

  // ---------------------------------------------------------------- eviction cannot be observed

  /** The evicting limiter and the one that never forgets agree, up to idle buckets that are full. */
  ghost predicate SameToCallers(s: Limits, reference: Limits, t: real, cfg: Config) {
    && LimitsRight(s, t, cfg) && LimitsRight(reference, t, cfg)
    && (forall id :: id in s.buckets ==> id in reference.buckets && reference.buckets[id] == s.buckets[id])
    && (forall id :: id in reference.buckets && id !in s.buckets ==>
          reference.buckets[id].inFlight == 0 && Level(reference, id, t, cfg) == cfg.burst as real)
  }

  lemma FullStays(s: Limits, id: string, t: real, t': real, cfg: Config)
    requires LimitsRight(s, t, cfg) && t' >= t && cfg.rate >= 0.0
    requires id in s.buckets && Level(s, id, t, cfg) == cfg.burst as real
    ensures Level(s, id, t', cfg) == cfg.burst as real
  {
    var b := s.buckets[id];
    assert BucketRight(b, t, cfg);
    MoreTime(t - b.lastRefill, t' - b.lastRefill, cfg.rate);
    AccruedRange(b.tokens, t' - b.lastRefill, cfg.rate, cfg.burst as real);
  }

  lemma SweepIsUnseen(s: Limits, reference: Limits, t: real, now: real, cfg: Config)
    requires SameToCallers(s, reference, t, cfg) && now >= t && cfg.rate >= 0.0
    requires cfg.rate * IDLE_EVICTION_SECONDS >= cfg.burst as real
    ensures SameToCallers(Swept(s, now), reference, now, cfg)
  {
    hide Accrued, Level;
    var swept := Swept(s, now);
    assert LimitsRight(swept, now, cfg);
    forall id | id in reference.buckets && id !in swept.buckets
      ensures reference.buckets[id].inFlight == 0 && Level(reference, id, now, cfg) == cfg.burst as real
    {
      if id in s.buckets {
        StaleIsFull(reference, id, t, now, cfg);
      } else {
        FullStays(reference, id, t, now, cfg);
      }
    }
  }

  lemma StaleIsFull(s: Limits, id: string, t: real, now: real, cfg: Config)
    requires LimitsRight(s, t, cfg) && cfg.rate >= 0.0 && cfg.rate * IDLE_EVICTION_SECONDS >= cfg.burst as real
    requires id in s.buckets && Stale(s.buckets[id], now)
    ensures Level(s, id, now, cfg) == cfg.burst as real
  {
    IdleIsFull(s.buckets[id], t, now, cfg);
  }

  lemma SameTouched(s: Limits, reference: Limits, id: string, now: real, cfg: Config)
    requires SameToCallers(s, reference, now, cfg) && cfg.rate >= 0.0
    ensures Touched(s, id, now, cfg) == Touched(reference, id, now, cfg)
  {
    if id !in s.buckets && id in reference.buckets {
      TouchedLevel(reference, id, now, cfg, now);
      TouchedIsRight(reference, id, now, cfg, now);
      TouchedLevel(s, id, now, cfg, now);
    }
  }

  lemma SameAfterAcquire(s: Limits, reference: Limits, id: string, cost: nat, now: real, cfg: Config, t: real)
    requires SameToCallers(s, reference, t, cfg) && now >= t && cfg.rate >= 0.0
    requires cfg.rate * IDLE_EVICTION_SECONDS >= cfg.burst as real
    ensures var (s', d) := Acquired(s, id, cost, now, cfg, true);
            var (reference', d') := Acquired(reference, id, cost, now, cfg, false);
            d == d' && SameToCallers(s', reference', now, cfg)
  {
    AcquiredIsRight(s, id, cost, now, cfg, true, t);
    AcquiredIsRight(reference, id, cost, now, cfg, false, t);
    if cfg.enabled {
      SweepIsUnseen(s, reference, t, now, cfg);
      SameTouched(Swept(s, now), reference, id, now, cfg);
      hide Touched, Charged, Swept, LimitsRight, Accrued;
    } else {
      forall other | other in reference.buckets && other !in s.buckets
        ensures Level(reference, other, now, cfg) == cfg.burst as real
      {
        FullStays(reference, other, t, now, cfg);
      }
    }
  }

  /** If the rate fills a bucket within the eviction time, no run can tell that buckets are evicted. */
  lemma {:induction false} EvictionIsUnseen(ops: seq<Op>, cfg: Config, start: real)
    requires Rising(ops, start) && cfg.rate >= 0.0 && cfg.rate * IDLE_EVICTION_SECONDS >= cfg.burst as real
    ensures Replay(ops, cfg, start, true).decisions == Replay(ops, cfg, start, false).decisions
    ensures SameToCallers(Replay(ops, cfg, start, true).limits, Replay(ops, cfg, start, false).limits,
                          LastTime(ops, start), cfg)
  {
    if ops != [] {
      var n := |ops| - 1;
      EvictionIsUnseen(ops[..n], cfg, start);
      var (a, b) := (Replay(ops[..n], cfg, start, true), Replay(ops[..n], cfg, start, false));
      match ops[n] {
        case AcquireOp(id, cost, now) =>
          SameAfterAcquire(a.limits, b.limits, id, cost, now, cfg, LastTime(ops[..n], start));
          hide Acquired, SameToCallers;
        case ReleaseOp(id) =>
          SameAfterRelease(a.limits, b.limits, id, LastTime(ops[..n], start), cfg);
          hide Released, SameToCallers;
      }
    }
  }

  lemma SameAfterRelease(s: Limits, reference: Limits, id: string, t: real, cfg: Config)
    requires SameToCallers(s, reference, t, cfg)
    ensures SameToCallers(Released(s, id, cfg), Released(reference, id, cfg), t, cfg)
  {
  }

  /** A burst, then nothing for a little over the eviction time, then a burst again. */
  ghost function TwoBursts(cfg: Config, gap: real): seq<Op> {
    [AcquireOp("a", cfg.burst, 0.0), ReleaseOp("a"), AcquireOp("a", cfg.burst, gap)]
  }

  /** How long to wait: longer than the eviction time, yet too short to fill the bucket again. */
  ghost function TellingGap(cfg: Config): real
    requires cfg.rate >= 0.0
  {
    IDLE_EVICTION_SECONDS + (cfg.burst as real - cfg.rate * IDLE_EVICTION_SECONDS) / (cfg.rate + 1.0)
  }

  lemma GapTells(cfg: Config)
    requires cfg.rate >= 0.0 && cfg.rate * IDLE_EVICTION_SECONDS < cfg.burst as real
    ensures TellingGap(cfg) > IDLE_EVICTION_SECONDS && TellingGap(cfg) * cfg.rate < cfg.burst as real
  {
    var short := cfg.burst as real - cfg.rate * IDLE_EVICTION_SECONDS;
    ShareIsLess(short, cfg.rate);
    assert TellingGap(cfg) * cfg.rate == IDLE_EVICTION_SECONDS * cfg.rate + short / (cfg.rate + 1.0) * cfg.rate;
  }

  lemma ShareIsLess(x: real, rate: real)
    requires x > 0.0 && rate >= 0.0
    ensures x / (rate + 1.0) > 0.0 && x / (rate + 1.0) * rate < x
  {
    var share := x / (rate + 1.0);
    assert share * (rate + 1.0) == x;
    assert share * rate + share == x;
    if share <= 0.0 {
      NotPositive(share, rate + 1.0);
    }
  }

  lemma NotPositive(a: real, b: real)
    requires a <= 0.0 && b > 0.0
    ensures a * b <= 0.0
  {
  }

  /** The state before the second burst: the whole burst spent at time 0, nothing in flight. */
  lemma AfterFirstBurst(cfg: Config, evicts: bool)
    requires cfg.enabled && cfg.rate >= 0.0 && cfg.burst > 0
    ensures var r := Replay(TwoBursts(cfg, 0.0)[..2], cfg, 0.0, evicts);
            r == Outcome(Limits(map["a" := BucketState(0.0, 0.0, 0, 0.0)], 0.0), [Some(Admitted), None])
  {
    var ops := TwoBursts(cfg, 0.0);
    assert ops[..2][..1] == ops[..1] && ops[..1][..0] == [];
    var fresh_ := BucketState(cfg.burst as real, 0.0, 0, 0.0);
    var empty := Limits(map[], 0.0);
    assert Touched(empty, "a", 0.0, cfg) == fresh_ && Swept(empty, 0.0) == empty;
    assert Replay(ops[..1], cfg, 0.0, evicts)
        == Outcome(Limits(map["a" := BucketState(0.0, 0.0, 1, 0.0)], 0.0), [Some(Admitted)]);
  }

  lemma SecondDecision(cfg: Config, gap: real)
    requires cfg.enabled && cfg.rate >= 0.0 && cfg.burst > 0
    requires gap > IDLE_EVICTION_SECONDS && gap * cfg.rate < cfg.burst as real
    ensures var spent := Limits(map["a" := BucketState(0.0, 0.0, 0, 0.0)], 0.0);
            && Acquired(spent, "a", cfg.burst, gap, cfg, true).1 == Admitted
            && Acquired(spent, "a", cfg.burst, gap, cfg, false).1 != Admitted
  {
    var spent := Limits(map["a" := BucketState(0.0, 0.0, 0, 0.0)], 0.0);
    assert Swept(spent, gap) == Limits(map[], gap);
    assert Touched(Swept(spent, gap), "a", gap, cfg).tokens == cfg.burst as real;
    assert Touched(spent, "a", gap, cfg).tokens < cfg.burst as real;
  }

  lemma NoOps(cfg: Config, start: real, evicts: bool)
    ensures Rising([], start) && LastTime([], start) == start
            && Replay([], cfg, start, evicts) == Outcome(Limits(map[], start), [])
  {
  }

  lemma OpNext(ops: seq<Op>, op: Op, cfg: Config, start: real, evicts: bool)
    requires Rising(ops, start) && (op.AcquireOp? ==> op.now >= LastTime(ops, start))
    ensures Rising(ops + [op], start) && LastTime(ops + [op], start) == if op.AcquireOp? then op.now
            else LastTime(ops, start)
    ensures Replay(ops + [op], cfg, start, evicts) == Step(Replay(ops, cfg, start, evicts), op, cfg, evicts)
  {
    hide Step;
    assert (ops + [op])[..|ops|] == ops;
  }

  lemma BurstThenAnother(cfg: Config, a: Op, b: Op, c: Op, evicts: bool)
    requires cfg.enabled && cfg.rate >= 0.0 && cfg.burst > 0 && [a, b] == TwoBursts(cfg, 0.0)[..2]
    requires c.AcquireOp? && c.now >= 0.0
    ensures Rising([a, b, c], 0.0) && LastTime([a, b, c], 0.0) == c.now
    ensures Replay([a, b, c], cfg, 0.0, evicts)
            == Step(Outcome(Limits(map["a" := BucketState(0.0, 0.0, 0, 0.0)], 0.0), [Some(Admitted), None]), c, cfg,
                    evicts)
  {
    hide Replay, Rising, LastTime, Step;
    assert [a, b][0] == a == TwoBursts(cfg, 0.0)[0] && [a, b][1] == b == TwoBursts(cfg, 0.0)[1];
    AfterFirstBurst(cfg, evicts);
    NoOps(cfg, 0.0, evicts);
    assert [] + [a] == [a] && [a] + [b] == [a, b] && [a, b] + [c] == [a, b, c];
    OpNext([], a, cfg, 0.0, evicts);
    OpNext([a], b, cfg, 0.0, evicts);
    OpNext([a, b], c, cfg, 0.0, evicts);
  }

  /** If the rate does not, two bursts can tell: the evicting limiter admits both. */
  lemma SecondBurst(cfg: Config)
    requires cfg.enabled && cfg.rate >= 0.0 && cfg.rate * IDLE_EVICTION_SECONDS < cfg.burst as real
    ensures var ops := TwoBursts(cfg, TellingGap(cfg));
            && Rising(ops, 0.0)
            && Replay(ops, cfg, 0.0, true).decisions == [Some(Admitted), None, Some(Admitted)]
            && Replay(ops, cfg, 0.0, false).decisions[2] != Some(Admitted)
  {
    var ops, gap := TwoBursts(cfg, TellingGap(cfg)), TellingGap(cfg);
    GapTells(cfg);
    assert cfg.rate * IDLE_EVICTION_SECONDS >= 0.0;
    SecondDecision(cfg, gap);
    hide Acquired, TellingGap, Replay, Rising;
    assert [ops[0], ops[1]] == TwoBursts(cfg, 0.0)[..2] && ops == [ops[0], ops[1], ops[2]];
    BurstThenAnother(cfg, ops[0], ops[1], ops[2], true);
    BurstThenAnother(cfg, ops[0], ops[1], ops[2], false);
  }

  /** Eviction is unobservable, over all runs, exactly when the rate fills a bucket within the eviction
      time. */
  lemma EvictionUnseenIff(cfg: Config)
    requires cfg.enabled && cfg.rate >= 0.0
    ensures (forall ops, start :: Rising(ops, start) ==>
             Replay(ops, cfg, start, true).decisions == Replay(ops, cfg, start, false).decisions)
            <==> cfg.rate * IDLE_EVICTION_SECONDS >= cfg.burst as real
  {
    if cfg.rate * IDLE_EVICTION_SECONDS >= cfg.burst as real {
      forall ops, start | Rising(ops, start)
        ensures Replay(ops, cfg, start, true).decisions == Replay(ops, cfg, start, false).decisions
      {
        EvictionIsUnseen(ops, cfg, start);
      }
    } else {
      SecondBurst(cfg);
      var ops := TwoBursts(cfg, TellingGap(cfg));
      assert Replay(ops, cfg, 0.0, true).decisions != Replay(ops, cfg, 0.0, false).decisions;
    }
  }

  // ---------------------------------------------------------------- the window bound

  /** The cost admitted to `id` between the times `from` and `to`. */
  ghost function CostWithin(ops: seq<Op>, decisions: seq<Option<Decision>>, id: string, from: real, to: real): nat
    requires |decisions| == |ops|
  {
    if ops == [] then 0
    else
      var n := |ops| - 1;
      CostWithin(ops[..n], decisions[..n], id, from, to)
      + if ops[n].AcquireOp? && ops[n].id == id && decisions[n] == Some(Admitted)
          && from <= ops[n].now <= to then ops[n].cost else 0
  }

  /** One acquire spends what it is admitted for out of the level, and nobody else's. */
  lemma AcquireSpends(s: Limits, id: string, cost: nat, now: real, cfg: Config, t: real, other: string)
    requires cfg.enabled && LimitsRight(s, t, cfg) && now >= t && cfg.rate >= 0.0
    requires cfg.rate * IDLE_EVICTION_SECONDS >= cfg.burst as real
    ensures var (s', d) := Acquired(s, id, cost, now, cfg, true);
            var spent := if other == id && d == Admitted then cost as real else 0.0;
            Level(s', other, now, cfg) + spent <= Level(s, other, now, cfg)
  {
    hide RetryAfter, RetryHeader, Stale, Accrued, Level, Touched, Swept, BucketRight;
    var swept := Swept(s, now);
    SweptIsRight(s, t, now, cfg);
    SweptLevel(s, other, t, now, cfg);
    TouchedLevel(swept, id, now, cfg, now);
    TouchedIsRight(swept, id, now, cfg, now);
    var (b, d) := Charged(Touched(swept, id, now, cfg), cost, cfg);
    LevelAfter(swept, swept.(buckets := swept.buckets[id := b]), id, now, cfg, other);
  }

  lemma SweptIsRight(s: Limits, t: real, now: real, cfg: Config)
    requires LimitsRight(s, t, cfg) && now >= t
    ensures LimitsRight(Swept(s, now), now, cfg)
  {
  }

  /** Writing one bucket, just refilled, sets its owner's level and no other. */
  lemma LevelAfter(s: Limits, s': Limits, id: string, now: real, cfg: Config, other: string)
    requires id in s'.buckets && s'.buckets == s.buckets[id := s'.buckets[id]]
    requires s'.buckets[id].lastRefill == now && s'.buckets[id].tokens <= cfg.burst as real
    ensures Level(s', other, now, cfg) == if other == id then s'.buckets[id].tokens else Level(s, other, now, cfg)
  {
    NoTime(cfg.rate);
  }

  lemma ReleaseSpendsNothing(s: Limits, id: string, t: real, cfg: Config, other: string)
    ensures Level(Released(s, id, cfg), other, t, cfg) == Level(s, other, t, cfg)
  {
  }

  /** Where a run stands with respect to a window: before it, nothing is counted; inside it, what is
      spent and what is left come to at most a burst and what has accrued; behind it, the bound. */
  ghost predicate InBudget(cost: real, level: real, t: real, from: real, to: real, cfg: Config) {
    if t < from then cost == 0.0
    else if t <= to then cost + level <= Allowance(t - from, cfg)
    else cost <= Allowance(to - from, cfg)
  }

  /** At most a burst, and what accrues meanwhile. */
  ghost function Allowance(elapsed: real, cfg: Config): real {
    cfg.burst as real + elapsed * cfg.rate
  }

  lemma AllowanceGrows(elapsed: real, more: real, cfg: Config)
    requires elapsed >= 0.0 && more >= 0.0 && cfg.rate >= 0.0
    ensures 0.0 <= cfg.burst as real <= Allowance(elapsed, cfg)
    ensures Allowance(elapsed + more, cfg) == Allowance(elapsed, cfg) + more * cfg.rate >= Allowance(elapsed, cfg)
  {
    NeverNegative(elapsed, cfg.rate);
    NeverNegative(more, cfg.rate);
    InTwoParts(elapsed, more, cfg.rate);
  }

  lemma BudgetMoves(cost: real, level: real, t: real, level': real, spent: real, now: real, from: real, to: real,
                    cfg: Config)
    requires InBudget(cost, level, t, from, to, cfg) && from <= to && now >= t && cfg.rate >= 0.0
    requires 0.0 <= level && 0.0 <= level' && 0.0 <= spent
    requires level' + spent <= cfg.burst as real && level' + spent <= level + (now - t) * cfg.rate
    ensures InBudget(cost + if from <= now <= to then spent else 0.0, level', now, from, to, cfg)
  {
    hide Allowance;
    AllowanceGrows(to - from, 0.0, cfg);
    if t < from && from <= now {
      AllowanceGrows(now - from, 0.0, cfg);
    } else if from <= t <= to && now <= to {
      AllowanceGrows(t - from, now - t, cfg);
      assert t - from + (now - t) == now - from;
    } else if from <= t <= to {
      AllowanceGrows(t - from, to - t, cfg);
      assert t - from + (to - t) == to - from;
    }
  }

  lemma NeverNegative(elapsed: real, rate: real)
    requires elapsed >= 0.0 && rate >= 0.0
    ensures elapsed * rate >= 0.0
  {
  }

  lemma BudgetStarts(start: real, from: real, to: real, cfg: Config)
    requires from <= to && cfg.rate >= 0.0
    ensures InBudget(0.0, cfg.burst as real, start, from, to, cfg)
  {
    hide Allowance;
    AllowanceGrows(to - from, 0.0, cfg);
    if from <= start {
      AllowanceGrows(start - from, 0.0, cfg);
    }
  }

  lemma {:induction false} RunInBudget(ops: seq<Op>, cfg: Config, start: real, id: string, from: real, to: real)
    requires cfg.enabled && cfg.rate >= 0.0 && cfg.rate * IDLE_EVICTION_SECONDS >= cfg.burst as real
    requires Rising(ops, start) && from <= to
    ensures var r := Replay(ops, cfg, start, true);
            InBudget(CostWithin(ops, r.decisions, id, from, to) as real, Level(r.limits, id, LastTime(ops, start), cfg),
                     LastTime(ops, start), from, to, cfg)
  {
    hide InBudget, Level, Acquired, Released, LimitsRight;
    if ops == [] {
      BudgetStarts(start, from, to, cfg);
      NothingSpent(id, start, cfg);
    } else {
      var n := |ops| - 1;
      RunInBudget(ops[..n], cfg, start, id, from, to);
      var before, t := Replay(ops[..n], cfg, start, true), LastTime(ops[..n], start);
      assert Replay(ops, cfg, start, true).decisions[..n] == before.decisions;
      RunIsRight(ops[..n], cfg, start, true);
      var spent := CostWithin(ops[..n], before.decisions, id, from, to) as real;
      match ops[n] {
        case AcquireOp(who, cost, now) =>
          AcquireInBudget(before.limits, spent, who, cost, now, cfg, t, id, from, to);
        case ReleaseOp(who) =>
          ReleaseSpendsNothing(before.limits, who, t, cfg, id);
      }
    }
  }

  /** In every window, however long: at most a burst, and what accrues meanwhile. */
  lemma WindowBound(ops: seq<Op>, cfg: Config, start: real, id: string, from: real, to: real)
    requires cfg.enabled && cfg.rate >= 0.0 && cfg.rate * IDLE_EVICTION_SECONDS >= cfg.burst as real
    requires Rising(ops, start) && from <= to
    ensures CostWithin(ops, Replay(ops, cfg, start, true).decisions, id, from, to) as real <= Allowance(to - from, cfg)
  {
    var r, t := Replay(ops, cfg, start, true), LastTime(ops, start);
    RunInBudget(ops, cfg, start, id, from, to);
    RunIsRight(ops, cfg, start, true);
    LevelRange(r.limits, id, t, t, cfg);
    hide Replay, Level, LimitsRight, Rising, CostWithin, LastTime;
    BudgetHolds(CostWithin(ops, r.decisions, id, from, to) as real, Level(r.limits, id, t, cfg), t, from, to, cfg);
  }

  lemma BudgetHolds(cost: real, level: real, t: real, from: real, to: real, cfg: Config)
    requires InBudget(cost, level, t, from, to, cfg) && level >= 0.0 && from <= to && cfg.rate >= 0.0
    ensures cost <= Allowance(to - from, cfg)
  {
    hide Allowance;
    AllowanceGrows(to - from, 0.0, cfg);
    if from <= t <= to {
      AllowanceGrows(t - from, to - t, cfg);
      assert t - from + (to - t) == to - from;
    }
  }

  /** The bound holds for all runs and windows exactly when the rate fills a bucket within the
      eviction time. */
  lemma WindowBoundIff(cfg: Config)
    requires cfg.enabled && cfg.rate >= 0.0
    ensures (forall ops, start, id, from, to :: Rising(ops, start) && from <= to ==>
               CostWithin(ops, Replay(ops, cfg, start, true).decisions, id, from, to) as real <= Allowance(to - from,
                     cfg))
            <==> cfg.rate * IDLE_EVICTION_SECONDS >= cfg.burst as real
  {
    if cfg.rate * IDLE_EVICTION_SECONDS >= cfg.burst as real {
      forall ops, start, id, from, to | Rising(ops, start) && from <= to
        ensures CostWithin(ops, Replay(ops, cfg, start, true).decisions, id, from, to) as real <= Allowance(to - from,
                  cfg)
      {
        WindowBound(ops, cfg, start, id, from, to);
      }
    } else {
      BothBurstsCount(cfg);
      var ops := TwoBursts(cfg, TellingGap(cfg));
      assert Rising(ops, 0.0) && 0.0 <= TellingGap(cfg);
    }
  }

  lemma BothBurstsCount(cfg: Config)
    requires cfg.enabled && cfg.rate >= 0.0 && cfg.rate * IDLE_EVICTION_SECONDS < cfg.burst as real
    ensures var (ops, gap) := (TwoBursts(cfg, TellingGap(cfg)), TellingGap(cfg));
            && gap >= 0.0 && Rising(ops, 0.0)
            && CostWithin(ops, Replay(ops, cfg, 0.0, true).decisions, "a", 0.0, gap) as real > Allowance(gap - 0.0, cfg)
  {
    var (ops, gap) := (TwoBursts(cfg, TellingGap(cfg)), TellingGap(cfg));
    GapTells(cfg);
    SecondBurst(cfg);
    hide Replay, TellingGap, Rising;
    var ds := Replay(ops, cfg, 0.0, true).decisions;
    assert ops[..2][..1] == ops[..1] && ops[..1][..0] == [] && ds[..2][..1] == ds[..1];
    assert CostWithin(ops[..1], ds[..1], "a", 0.0, gap) == cfg.burst;
    assert CostWithin(ops[..2], ds[..2], "a", 0.0, gap) == cfg.burst;
    assert CostWithin(ops, ds, "a", 0.0, gap) == 2 * cfg.burst;
  }

  lemma NothingSpent(id: string, start: real, cfg: Config)
    ensures Level(Limits(map[], start), id, start, cfg) == cfg.burst as real
  {
  }

  lemma AcquireInBudget(s: Limits, spentBefore: real, who: string, cost: nat, now: real, cfg: Config, t: real,
                        id: string, from: real, to: real)
    requires cfg.enabled && LimitsRight(s, t, cfg) && now >= t && cfg.rate >= 0.0 && from <= to
    requires cfg.rate * IDLE_EVICTION_SECONDS >= cfg.burst as real
    requires InBudget(spentBefore, Level(s, id, t, cfg), t, from, to, cfg)
    ensures var (s', d) := Acquired(s, who, cost, now, cfg, true);
            InBudget(spentBefore + (if who == id && d == Admitted && from <= now <= to then cost as real else 0.0),
                     Level(s', id, now, cfg), now, from, to, cfg)
  {
    var (s', d) := Acquired(s, who, cost, now, cfg, true);
    var spent := if who == id && d == Admitted then cost as real else 0.0;
    AcquireSpends(s, who, cost, now, cfg, t, id);
    AcquiredIsRight(s, who, cost, now, cfg, true, t);
    LevelRange(s, id, t, now, cfg);
    LevelRange(s, id, t, t, cfg);
    LevelRange(s', id, now, now, cfg);
    hide InBudget, Level, Acquired, LimitsRight;
    BudgetMoves(spentBefore, Level(s, id, t, cfg), t, Level(s', id, now, cfg), spent, now, from, to, cfg);
  }

  // ---------------------------------------------------------------- Retry-After

  /** What a bucket that is charged nothing else holds after `wait` more seconds. */
  ghost function After(tokens: real, wait: real, cfg: Config): real {
    Accrued(tokens, wait, cfg.rate, cfg.burst as real)
  }

  /** How long the caller really has to wait. */
  ghost function TrueWait(tokens: real, cost: nat, rate: real): real
    requires rate > 0.0
  {
    (cost as real - tokens) / rate
  }

  lemma TrueWaitEarns(tokens: real, cost: nat, rate: real)
    requires rate > 0.0
    ensures TrueWait(tokens, cost, rate) * rate == cost as real - tokens
  {
  }

  lemma WaitIsEnough(tokens: real, cost: nat, wait: real, cfg: Config)
    requires cfg.rate > 0.0 && tokens < cost as real <= cfg.burst as real && wait >= 0.0
    ensures After(tokens, wait, cfg) >= cost as real <==> wait >= TrueWait(tokens, cost, cfg.rate)
  {
    hide TrueWait;
    var w := TrueWait(tokens, cost, cfg.rate);
    TrueWaitEarns(tokens, cost, cfg.rate);
    if wait >= w {
      LongerEarns(w, wait, cfg.rate);
      assert tokens + wait * cfg.rate >= cost as real;
    } else {
      LessTime(wait, w, cfg.rate);
      assert tokens + wait * cfg.rate < cost as real;
    }
  }

  lemma LongerEarns(a: real, b: real, rate: real)
    requires a <= b && rate > 0.0
    ensures a * rate <= b * rate
  {
    if a < b {
      LessTime(a, b, rate);
    }
  }

  /** Without a rate there is nothing to wait for; the caller is told one second. */
  lemma NoRateSaysOneSecond(tokens: real, cost: nat, rate: real)
    requires rate <= 0.0
    ensures RetryHeader(RetryAfter(tokens, cost, rate)) == 1
  {
  }

  lemma LessTime(a: real, b: real, rate: real)
    requires a < b && rate > 0.0
    ensures a * rate < b * rate
  {
    assert (b - a) * rate > 0.0;
  }

  lemma HeaderRange(tokens: real, cost: nat, cfg: Config)
    requires cfg.rate > 0.0 && tokens < cost as real
    ensures var (header, w) := (RetryHeader(RetryAfter(tokens, cost, cfg.rate)) as real,
                                TrueWait(tokens, cost, cfg.rate));
            && w > 0.0 && header >= 1.0 && header > w - 0.001 && header <= Greatest(1.0, w + 0.999)
            && (header >= w <==> w <= 1.0 || w.Floor as real == w || w - w.Floor as real >= 0.001)
  {
    WaitIsPositive(tokens, cost, cfg.rate);
    hide TrueWait;
    HeaderOf(TrueWait(tokens, cost, cfg.rate), RetryAfter(tokens, cost, cfg.rate));
  }

  lemma WaitIsPositive(tokens: real, cost: nat, rate: real)
    requires rate > 0.0 && tokens < cost as real
    ensures TrueWait(tokens, cost, rate) > 0.0
    ensures RetryAfter(tokens, cost, rate) == Greatest(TrueWait(tokens, cost, rate), 0.001)
  {
    var w := TrueWait(tokens, cost, rate);
    assert w * rate == cost as real - tokens;
    if w <= 0.0 {
      NotPositive(w, rate);
    }
  }

  lemma HeaderOf(w: real, value: real)
    requires w > 0.0 && value == Greatest(w, 0.001)
    ensures var header := RetryHeader(value) as real;
            && header >= 1.0 && header > w - 0.001 && header <= Greatest(1.0, w + 0.999)
            && (header >= w <==> w <= 1.0 || w.Floor as real == w || w - w.Floor as real >= 0.001)
  {
    var seconds := (value + 0.999).Floor;
    FloorIs(value + 0.999);
    FloorIs(w);
    var whole := w.Floor;
    if value == w {
      if whole as real == w {
        FloorIsUnique(value + 0.999, whole);
      } else if w - whole as real >= 0.001 {
        FloorIsUnique(value + 0.999, whole + 1);
      } else {
        FloorIsUnique(value + 0.999, whole);
      }
    } else {
      FloorIsUnique(value + 0.999, 1);
    }
  }

  lemma FloorIs(x: real)
    ensures x.Floor as real <= x < x.Floor as real + 1.0
  {
  }

  lemma FloorIsUnique(x: real, n: int)
    requires n as real <= x < n as real + 1.0
    ensures x.Floor == n
  {
  }

  /** After Retry-After and a millisecond the bucket holds enough; and the header is at most the true
      wait rounded up. */
  lemma RetryAfterIsTight(tokens: real, cost: nat, cfg: Config)
    requires cfg.rate > 0.0 && tokens < cost as real <= cfg.burst as real
    ensures var header := RetryHeader(RetryAfter(tokens, cost, cfg.rate)) as real;
            && After(tokens, header + 0.001, cfg) >= cost as real
            && header <= Greatest(1.0, TrueWait(tokens, cost, cfg.rate) + 0.999)
  {
    HeaderRange(tokens, cost, cfg);
    WaitIsEnough(tokens, cost, RetryHeader(RetryAfter(tokens, cost, cfg.rate)) as real + 0.001, cfg);
  }

  /** After exactly Retry-After the bucket holds enough exactly when the true wait is at most a second,
      or whole, or at least a millisecond past a whole second. */
  lemma ExactWaitIsEnoughIff(tokens: real, cost: nat, cfg: Config)
    requires cfg.rate > 0.0 && tokens < cost as real <= cfg.burst as real
    ensures var (header, w) := (RetryHeader(RetryAfter(tokens, cost, cfg.rate)) as real,
                                TrueWait(tokens, cost, cfg.rate));
            After(tokens, header, cfg) >= cost as real
            <==> w <= 1.0 || w.Floor as real == w || w - w.Floor as real >= 0.001
  {
    HeaderRange(tokens, cost, cfg);
    WaitIsEnough(tokens, cost, RetryHeader(RetryAfter(tokens, cost, cfg.rate)) as real, cfg);
  }

  // ---------------------------------------------------------------- what the limiter says to a retry

  /** The level at a later time follows from the level now. */
  lemma LevelLater(s: Limits, id: string, t: real, t': real, cfg: Config)
    requires LimitsRight(s, t, cfg) && t' >= t && cfg.rate >= 0.0
    ensures Level(s, id, t', cfg) == Accrued(Level(s, id, t, cfg), t' - t, cfg.rate, cfg.burst as real)
  {
    NeverNegative(t' - t, cfg.rate);
    if id in s.buckets {
      var b := s.buckets[id];
      assert BucketRight(b, t, cfg);
      NeverNegative(t - b.lastRefill, cfg.rate);
      InTwoParts(t - b.lastRefill, t' - t, cfg.rate);
      assert t - b.lastRefill + (t' - t) == t' - b.lastRefill;
    }
  }

  /** Sweeping only ever fills a bucket up. */
  lemma SweepLowersNothing(s: Limits, id: string, t: real, now: real, cfg: Config)
    requires LimitsRight(s, t, cfg) && now >= t && cfg.rate >= 0.0
    ensures Level(Swept(s, now), id, now, cfg) >= Level(s, id, now, cfg)
  {
    LevelRange(s, id, t, now, cfg);
  }

  /** Only an admitted request of its own takes anything from an identity. */
  lemma OnlyAdmissionCharges(s: Limits, id: string, cost: nat, now: real, cfg: Config, evicts: bool, t: real,
                             other: string)
    requires cfg.enabled && LimitsRight(s, t, cfg) && now >= t && cfg.rate >= 0.0
    requires other != id || Acquired(s, id, cost, now, cfg, evicts).1 != Admitted
    ensures Level(Acquired(s, id, cost, now, cfg, evicts).0, other, now, cfg) >= Level(s, other, now, cfg)
  {
    hide RetryAfter, RetryHeader, Stale, Accrued, Level, Touched, Swept, BucketRight;
    var swept := if evicts then Swept(s, now) else s;
    SweptIsRight(s, t, now, cfg);
    LaterIsRight(s, t, now, cfg);
    SweepLowersNothing(s, other, t, now, cfg);
    TouchedLevel(swept, id, now, cfg, now);
    TouchedIsRight(swept, id, now, cfg, now);
    var (b, d) := Charged(Touched(swept, id, now, cfg), cost, cfg);
    LevelAfter(swept, swept.(buckets := swept.buckets[id := b]), id, now, cfg, other);
  }

  lemma LaterIsRight(s: Limits, t: real, now: real, cfg: Config)
    requires LimitsRight(s, t, cfg) && now >= t
    ensures LimitsRight(s, now, cfg)
  {
  }

  /** A request is turned away for its rate exactly when its cost is above the level that the sweep
      leaves, unless the concurrency cap speaks first. */
  /** All slots of `id` are taken. */
  ghost predicate Full(s: Limits, id: string, cfg: Config) {
    cfg.maxConcurrent > 0 && InFlight(s, id) >= cfg.maxConcurrent
  }

  lemma TooFastMeansBelow(s: Limits, id: string, cost: nat, now: real, cfg: Config, evicts: bool, t: real)
    requires cfg.enabled && LimitsRight(s, t, cfg) && now >= t && cfg.rate >= 0.0
    ensures var swept := if evicts then Swept(s, now) else s;
            var (s', d) := Acquired(s, id, cost, now, cfg, evicts);
            && (d.TooFast? ==> d.retryAfter == RetryHeader(RetryAfter(Level(swept, id, now, cfg), cost, cfg.rate))
                               && Level(s', id, now, cfg) == Level(swept, id, now, cfg) < cost as real)
            && (Level(swept, id, now, cfg) >= cost as real ==> !d.TooFast?)
            && (Level(swept, id, now, cfg) < cost as real && !Full(swept, id, cfg) ==> d.TooFast?)
            && id in s'.buckets && (d.TooFast? ==>
                                    s'.buckets[id].lastSeen == now && InFlight(s', id) == InFlight(swept, id)
                                                   && !Full(s', id, cfg))
  {
    hide RetryAfter, RetryHeader, Stale, Accrued, Level, Touched, Swept, BucketRight;
    var swept := if evicts then Swept(s, now) else s;
    SweptIsRight(s, t, now, cfg);
    LaterIsRight(s, t, now, cfg);
    TouchedLevel(swept, id, now, cfg, now);
    TouchedIsRight(swept, id, now, cfg, now);
    var (b, d) := Charged(Touched(swept, id, now, cfg), cost, cfg);
    LevelAfter(swept, swept.(buckets := swept.buckets[id := b]), id, now, cfg, id);
  }

  /** What an acquire decides and what it costs: admitted exactly when there is a slot and there are
      tokens enough, no slot being the first objection; and then the cost and a slot are taken, from
      that identity alone. Nothing is taken otherwise. */
  lemma ChargeIsExact(s: Limits, id: string, cost: nat, now: real, cfg: Config, evicts: bool, t: real, other: string)
    requires cfg.enabled && LimitsRight(s, t, cfg) && now >= t && cfg.rate >= 0.0
    ensures var swept := if evicts then Swept(s, now) else s;
            var (s', d) := Acquired(s, id, cost, now, cfg, evicts);
            var full := Full(swept, id, cfg);
            && (d == Admitted <==> !full && Level(swept, id, now, cfg) >= cost as real)
            && (d.TooFast? <==> !full && Level(swept, id, now, cfg) < cost as real)
            && Level(s', other, now, cfg) == Level(swept, other, now, cfg) - (if other == id
                  && d == Admitted then cost as real else 0.0)
            && InFlight(s', other) == InFlight(swept, other) + (if other == id && d == Admitted then 1 else 0)
  {
    hide RetryAfter, RetryHeader, Stale, Accrued, Level, Touched, Swept, BucketRight;
    var swept := if evicts then Swept(s, now) else s;
    SweptIsRight(s, t, now, cfg);
    LaterIsRight(s, t, now, cfg);
    TouchedLevel(swept, id, now, cfg, now);
    TouchedIsRight(swept, id, now, cfg, now);
    var (b, d) := Charged(Touched(swept, id, now, cfg), cost, cfg);
    LevelAfter(swept, swept.(buckets := swept.buckets[id := b]), id, now, cfg, other);
  }

  /** A limiter that is switched off admits everybody and keeps no account. */
  lemma {:induction false} DisabledAdmitsEverybody(ops: seq<Op>, cfg: Config, start: real, evicts: bool)
    requires !cfg.enabled
    ensures Replay(ops, cfg, start, evicts).limits == Limits(map[], start)
    ensures forall i :: 0 <= i < |ops| ==>
              Replay(ops, cfg, start, evicts).decisions[i] == if ops[i].AcquireOp? then Some(Admitted) else None
  {
    if ops != [] {
      DisabledAdmitsEverybody(ops[..|ops| - 1], cfg, start, evicts);
    }
  }

  /** A cost above the burst is turned away at any time and after any wait; up to the burst, whoever
      has a full bucket and a free slot is admitted. */
  lemma FitsInTheBurst(s: Limits, id: string, cost: nat, now: real, cfg: Config, t: real)
    requires cfg.enabled && LimitsRight(s, t, cfg) && now >= t && cfg.rate >= 0.0
    ensures cost > cfg.burst ==> Acquired(s, id, cost, now, cfg, true).1 != Admitted
    ensures cost <= cfg.burst && id !in s.buckets ==> Acquired(s, id, cost, now, cfg, true).1 == Admitted
  {
    hide Acquired, LimitsRight;
    ChargeIsExact(s, id, cost, now, cfg, true, t, id);
    SweptIsRight(s, t, now, cfg);
    LevelRange(Swept(s, now), id, now, now, cfg);
  }

  /** `ops[first]` was turned away for its rate at `at`, with `header` as Retry-After. */
  ghost predicate TurnedAway(ops: seq<Op>, cfg: Config, start: real, first: nat, id: string, cost: nat, at: real,
                             header: int) {
    && first < |ops| && ops[first] == AcquireOp(id, cost, at)
    && Replay(ops, cfg, start, true).decisions[first] == Some(TooFast(header))
  }

  /** From `first` on, nothing more is charged to `id`. */
  ghost predicate NotCharged(ops: seq<Op>, cfg: Config, start: real, first: nat, id: string) {
    forall m :: first < m < |ops| && ops[m].AcquireOp? && ops[m].id == id ==>
          Replay(ops, cfg, start, true).decisions[m] != Some(Admitted)
  }

  lemma {:induction false} DecisionsStay(ops: seq<Op>, cfg: Config, start: real, evicts: bool, n: nat)
    requires n <= |ops|
    ensures Replay(ops[..n], cfg, start, evicts).decisions == Replay(ops, cfg, start, evicts).decisions[..n]
    decreases |ops| - n
  {
    if n == |ops| {
      assert ops[..n] == ops;
    } else {
      DecisionsStay(ops, cfg, start, evicts, n + 1);
      assert ops[..n + 1][..n] == ops[..n];
    }
  }

  lemma {:induction false} RisingPrefix(ops: seq<Op>, start: real, n: nat)
    requires Rising(ops, start) && n <= |ops|
    ensures Rising(ops[..n], start)
    decreases |ops|
  {
    if n == |ops| {
      assert ops[..n] == ops;
    } else {
      RisingPrefix(ops[..|ops| - 1], start, n);
      assert ops[..|ops| - 1][..n] == ops[..n];
    }
  }

  /** What the last of the first `n` operations found, and what it left. */
  lemma LastOp(ops: seq<Op>, cfg: Config, start: real, n: nat)
    requires Rising(ops, start) && 0 < n <= |ops| && cfg.rate >= 0.0
    ensures var (op, before, after) := (ops[n - 1], Replay(ops[..n - 1], cfg, start, true),
                                        Replay(ops[..n], cfg, start, true));
            var t := LastTime(ops[..n - 1], start);
            && LimitsRight(before.limits, t, cfg) && after == Step(before, op, cfg, true)
            && (op.AcquireOp? ==> op.now >= t
                                  && Replay(ops, cfg, start, true).decisions[n - 1]
                                     == Some(Acquired(before.limits, op.id, op.cost, op.now, cfg, true).1))
            && LastTime(ops[..n], start) == if op.AcquireOp? then op.now else t
  {
    hide Acquired, Released, LimitsRight;
    DecisionsStay(ops, cfg, start, true, n);
    RisingPrefix(ops, start, n - 1);
    RisingPrefix(ops, start, n);
    RunIsRight(ops[..n - 1], cfg, start, true);
    assert ops[..n][..n - 1] == ops[..n - 1];
    assert Replay(ops[..n], cfg, start, true).decisions[n - 1] == Replay(ops, cfg, start, true).decisions[n - 1];
  }

  /** While nothing is charged to it, an identity's level grows at least as if nothing happened. */
  lemma {:induction false} LevelWhileWaiting(ops: seq<Op>, cfg: Config, start: real, first: nat, id: string, cost: nat,
                                             at: real, header: int, n: nat)
    requires cfg.enabled && cfg.rate > 0.0 && Rising(ops, start)
    requires TurnedAway(ops, cfg, start, first, id, cost, at, header) && NotCharged(ops, cfg, start, first, id)
             && first < n <= |ops|
    ensures var before := Replay(ops[..first], cfg, start, true).limits;
            var tokens := Level(Swept(before, at), id, at, cfg);
            var t := LastTime(ops[..n], start);
            t >= at && Level(Replay(ops[..n], cfg, start, true).limits, id, t, cfg) >= Accrued(tokens, t - at,
                  cfg.rate, cfg.burst as real)
  {
    hide Acquired, Released, Level, Swept, LimitsRight, Accrued, Rising, Replay, LastTime, Step;
    LastOp(ops, cfg, start, n);
    var tokens := Level(Swept(Replay(ops[..first], cfg, start, true).limits, at), id, at, cfg);
    var (before, t) := (Replay(ops[..n - 1], cfg, start, true), LastTime(ops[..n - 1], start));
    if n == first + 1 {
      WaitBegins(before, cfg, t, id, cost, at, header);
    } else {
      LevelWhileWaiting(ops, cfg, start, first, id, cost, at, header, n - 1);
      WaitingStep(before, ops[n - 1], cfg, t, id, tokens, at);
    }
  }

  lemma WaitBegins(before: Outcome, cfg: Config, t: real, id: string, cost: nat, at: real, header: int)
    requires cfg.enabled && cfg.rate > 0.0 && LimitsRight(before.limits, t, cfg) && at >= t
    requires Acquired(before.limits, id, cost, at, cfg, true).1 == TooFast(header)
    ensures var tokens := Level(Swept(before.limits, at), id, at, cfg);
            Level(Step(before, AcquireOp(id, cost, at), cfg, true).limits, id, at, cfg) >= Accrued(tokens, 0.0,
                  cfg.rate, cfg.burst as real)
  {
    var tokens := Level(Swept(before.limits, at), id, at, cfg);
    hide Acquired, Level, Swept, LimitsRight, Accrued;
    TooFastMeansBelow(before.limits, id, cost, at, cfg, true, t);
    AccruedAtOnce(tokens, cfg);
  }

  lemma WaitingStep(before: Outcome, op: Op, cfg: Config, t: real, id: string, tokens: real, at: real)
    requires cfg.enabled && cfg.rate > 0.0 && LimitsRight(before.limits, t, cfg) && t >= at
    requires Level(before.limits, id, t, cfg) >= Accrued(tokens, t - at, cfg.rate, cfg.burst as real)
    requires op.AcquireOp? ==> op.now >= t
    requires op.AcquireOp? && op.id == id ==> Acquired(before.limits, id, op.cost, op.now, cfg, true).1 != Admitted
    ensures var t' := if op.AcquireOp? then op.now else t;
            Level(Step(before, op, cfg, true).limits, id, t', cfg) >= Accrued(tokens, t' - at, cfg.rate,
                  cfg.burst as real)
  {
    hide Acquired, Released, Level, LimitsRight, Accrued;
    match op {
      case AcquireOp(who, c, now) =>
        OnlyAdmissionCharges(before.limits, who, c, now, cfg, true, t, id);
        LevelLater(before.limits, id, t, now, cfg);
        AccruedChain(tokens, t - at, now - t, Level(before.limits, id, t, cfg), cfg);
        assert t - at + (now - t) == now - at;
      case ReleaseOp(who) =>
        ReleaseSpendsNothing(before.limits, who, t, cfg, id);
    }
  }

  lemma AccruedAtOnce(tokens: real, cfg: Config)
    ensures Accrued(tokens, 0.0, cfg.rate, cfg.burst as real) <= tokens
  {
    NoTime(cfg.rate);
  }

  lemma AccruedChain(tokens: real, elapsed: real, more: real, level: real, cfg: Config)
    requires level >= Accrued(tokens, elapsed, cfg.rate, cfg.burst as real) && more >= 0.0 && cfg.rate >= 0.0
    ensures Accrued(level, more, cfg.rate, cfg.burst as real) >= Accrued(tokens, elapsed + more, cfg.rate,
              cfg.burst as real)
  {
    InTwoParts(elapsed, more, cfg.rate);
    NeverNegative(more, cfg.rate);
  }

  /** Over whole runs: a request turned away for its rate, and made again after Retry-After seconds and
      a millisecond in which nothing was charged to its identity, is not turned away for its rate. */
  lemma RetryIsNotTooFast(ops: seq<Op>, cfg: Config, start: real, first: nat, id: string, cost: nat, at: real,
                          header: int, later: real)
    requires cfg.enabled && cfg.rate > 0.0 && cost <= cfg.burst
    requires Rising(ops + [AcquireOp(id, cost, later)], start)
    requires TurnedAway(ops, cfg, start, first, id, cost, at, header) && NotCharged(ops, cfg, start, first, id)
    requires later >= at + header as real + 0.001
    ensures var d := Replay(ops + [AcquireOp(id, cost, later)], cfg, start, true).decisions[|ops|];
            d.Some? && !d.value.TooFast?
  {
    hide Acquired, Level, Swept, LimitsRight, Accrued, Rising, Replay, LastTime, Step, RetryHeader, RetryAfter;
    var all := ops + [AcquireOp(id, cost, later)];
    assert all[..|all| - 1] == ops == ops[..|ops|] && all[..|ops|] == ops;
    RisingPrefix(all, start, |ops|);
    LastOp(all, cfg, start, |all|);
    var (s, t) := (Replay(ops, cfg, start, true).limits, LastTime(ops, start));
    var tokens := FirstRejection(ops, cfg, start, first, id, cost, at, header);
    LevelWhileWaiting(ops, cfg, start, first, id, cost, at, header, |ops|);
    WaitEnds(s, cfg, t, id, cost, at, header, later, tokens);
  }

  lemma WaitEnds(s: Limits, cfg: Config, t: real, id: string, cost: nat, at: real, header: int, later: real,
                 tokens: real)
    requires cfg.enabled && cfg.rate > 0.0 && cost <= cfg.burst && LimitsRight(s, t, cfg) && at <= t <= later
    requires tokens < cost as real && header == RetryHeader(RetryAfter(tokens, cost, cfg.rate))
             && later >= at + header as real + 0.001
    requires Level(s, id, t, cfg) >= Accrued(tokens, t - at, cfg.rate, cfg.burst as real)
    ensures !Acquired(s, id, cost, later, cfg, true).1.TooFast?
  {
    hide Acquired, Level, Swept, LimitsRight, Accrued, RetryHeader, RetryAfter;
    LevelLater(s, id, t, later, cfg);
    AccruedChain(tokens, t - at, later - t, Level(s, id, t, cfg), cfg);
    assert t - at + (later - t) == later - at;
    HeaderRange(tokens, cost, cfg);
    WaitIsEnough(tokens, cost, later - at, cfg);
    SweepLowersNothing(s, id, t, later, cfg);
    TooFastMeansBelow(s, id, cost, later, cfg, true, t);
  }

  lemma FirstRejection(ops: seq<Op>, cfg: Config, start: real, first: nat, id: string, cost: nat, at: real,
                       header: int) returns (tokens: real)
    requires cfg.enabled && cfg.rate > 0.0 && Rising(ops, start)
             && TurnedAway(ops, cfg, start, first, id, cost, at, header)
    ensures tokens == Level(Swept(Replay(ops[..first], cfg, start, true).limits, at), id, at, cfg)
    ensures tokens < cost as real && header == RetryHeader(RetryAfter(tokens, cost, cfg.rate))
  {
    DecisionsStay(ops, cfg, start, true, first + 1);
    RisingPrefix(ops, start, first);
    RisingPrefix(ops, start, first + 1);
    assert ops[..first + 1][..first] == ops[..first];
    RunIsRight(ops[..first], cfg, start, true);
    var s := Replay(ops[..first], cfg, start, true).limits;
    TooFastMeansBelow(s, id, cost, at, cfg, true, LastTime(ops[..first], start));
    tokens := Level(Swept(s, at), id, at, cfg);
  }

  /** The header is at most the true wait rounded up, and a second at least. A retry made exactly when
      it says, with nothing in between, is turned away again unless the true wait is at most a second,
      or whole, or a millisecond or more past a whole second, or the bucket has been evicted meanwhile:
      adding 0.999 and rounding down is not rounding up. */
  lemma ExactRetryIsTooFastIff(s: Limits, id: string, cost: nat, at: real, cfg: Config, evicts: bool, t: real)
    requires cfg.enabled && cfg.rate > 0.0 && cost <= cfg.burst && LimitsRight(s, t, cfg) && at >= t
    ensures var (s', d) := Acquired(s, id, cost, at, cfg, evicts);
            d.TooFast? ==>
              && id in s'.buckets && s'.buckets[id].tokens < cost as real
              && var w := TrueWait(s'.buckets[id].tokens, cost, cfg.rate);
              && d.retryAfter as real <= Greatest(1.0, w + 0.999)
              && var later := at + d.retryAfter as real;
              var evicted := evicts && id !in Swept(s', later).buckets;
              Acquired(s', id, cost, later, cfg, evicts).1.TooFast?
              <==> !(w <= 1.0 || w.Floor as real == w || w - w.Floor as real >= 0.001 || evicted)
  {
    var (s', d) := Acquired(s, id, cost, at, cfg, evicts);
    AcquiredIsRight(s, id, cost, at, cfg, evicts, t);
    TooFastMeansBelow(s, id, cost, at, cfg, evicts, t);
    if d.TooFast? {
      var tokens := Level(s', id, at, cfg);
      LevelIsTokens(s', id, at, cfg);
      hide Acquired, Level, LimitsRight, Accrued, RetryHeader, RetryAfter, Touched;
      RetryAfterIsTight(tokens, cost, cfg);
      var later := at + d.retryAfter as real;
      ExactWaitIsEnoughIff(tokens, cost, cfg);
      LevelLater(s', id, at, later, cfg);
      assert later - at == d.retryAfter as real;
      TooFastMeansBelow(s', id, cost, later, cfg, evicts, at);
      SweptOne(s', id, later, cfg);
    }
  }

  lemma LevelIsTokens(s: Limits, id: string, now: real, cfg: Config)
    requires LimitsRight(s, now, cfg) && id in s.buckets && s.buckets[id].lastSeen == now
    ensures Level(s, id, now, cfg) == s.buckets[id].tokens
  {
    assert BucketRight(s.buckets[id], now, cfg);
    NoTime(cfg.rate);
  }

  /** After a sweep a bucket is as it was, or gone, which is as good as full. */
  lemma SweptOne(s: Limits, id: string, now: real, cfg: Config)
    requires id in s.buckets
    ensures if id in Swept(s, now).buckets then Level(Swept(s, now), id, now, cfg) == Level(s, id, now, cfg)
            && InFlight(Swept(s, now), id) == InFlight(s, id)
            else Level(Swept(s, now), id, now, cfg) == cfg.burst as real
  {
  }

  /** 1.0005 seconds to wait, 1 second announced: a client that spends its burst of two, asks for two
      more 0.9995 seconds later, and again one second after that, as it was told, is turned away twice. */
  ghost function ToldTooSoon(): seq<Op> {
    [AcquireOp("a", 2, 0.0), ReleaseOp("a"), AcquireOp("a", 2, 0.9995), AcquireOp("a", 2, 1.9995)]
  }

  lemma OneSecondIsTooShort(cfg: Config)
    requires cfg.enabled && cfg.rate == 1.0 && cfg.burst == 2
    ensures Rising(ToldTooSoon(), 0.0)
    ensures Replay(ToldTooSoon(), cfg, 0.0, true).decisions
            == [Some(Admitted), None, Some(TooFast(1)), Some(TooFast(1))]
  {
    hide Acquired, Replay, Rising, LastTime;
    var ops := ToldTooSoon();
    FirstTooFast(cfg);
    SecondTooFast(cfg);
    assert [ops[0], ops[1]] == TwoBursts(cfg, 0.0)[..2];
    BurstThenAnother(cfg, ops[0], ops[1], ops[2], true);
    OpNext([ops[0], ops[1], ops[2]], ops[3], cfg, 0.0, true);
    assert ops == [ops[0], ops[1], ops[2]] + [ops[3]];
  }

  lemma FirstTooFast(cfg: Config)
    requires cfg.enabled && cfg.rate == 1.0 && cfg.burst == 2
    ensures Acquired(Limits(map["a" := BucketState(0.0, 0.0, 0, 0.0)], 0.0), "a", 2, 0.9995, cfg, true)
            == (Limits(map["a" := BucketState(0.9995, 0.9995, 0, 0.9995)], 0.0), TooFast(1))
  {
    var spent := Limits(map["a" := BucketState(0.0, 0.0, 0, 0.0)], 0.0);
    var b := BucketState(0.9995, 0.9995, 0, 0.9995);
    assert Swept(spent, 0.9995) == spent && Touched(spent, "a", 0.9995, cfg) == b;
    assert RetryAfter(0.9995, 2, cfg.rate) == 1.0005;
    assert spent.buckets["a" := b] == map["a" := b];
  }

  lemma SecondTooFast(cfg: Config)
    requires cfg.enabled && cfg.rate == 1.0 && cfg.burst == 2
    ensures Acquired(Limits(map["a" := BucketState(0.9995, 0.9995, 0, 0.9995)], 0.0), "a", 2, 1.9995, cfg, true).1
            == TooFast(1)
  {
    assert RetryAfter(1.9995, 2, cfg.rate) == 0.001;
  }
}
