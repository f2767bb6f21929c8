/** The token-bucket limiter (server/src/security/ratelimit.rs). Instants are whole nanoseconds, as the
    clock of the language counts them; tokens and seconds are exact reals. */
module RateLimit {
  import opened Basics

  /** f64::EPSILON, the tolerance of evict. */
  const EPSILON: real := 1.0 / 4503599627370496.0

  const KEYS_CAP: nat := 50_000
  const MAX_RETRY_AFTER: real := 3600.0

  type Instant = int

  const NANOS_PER_SECOND: real := 1_000_000_000.0

  datatype Bucket = Bucket(tokens: real, lastRefill: Instant)

  datatype Config = Config(ratePerSec: real, capacity: nat, keysCap: nat)

  /** The clamps of TokenBucket::new. */
  function New(ratePerMinute: nat, burst: nat): (c: Config)
    ensures c.ratePerSec > 0.0
  {
    Config(Max(ratePerMinute, 1) as real / 60.0, Max(burst, 1), KEYS_CAP)
  }

  predicate Whole(x: real) {
    x == x.Floor as real
  }

  /** The rate is a whole number per minute, and everything is at least one. */
  predicate ValidConfig(c: Config) {
    c.ratePerSec >= 1.0 / 60.0 && Whole(c.ratePerSec * 60.0) && c.capacity >= 1 && c.keysCap >= 1
  }

  lemma {:induction false} NewIsValid(ratePerMinute: nat, burst: nat)
    ensures ValidConfig(New(ratePerMinute, burst))
  {
    assert Max(ratePerMinute, 1) as real / 60.0 * 60.0 == Max(ratePerMinute, 1) as real;
  }

  // ---------- Specification ----------

  type Buckets = map<string, Bucket>

  datatype Answer = Admitted | Refused(retryAfter: real)

  function MinReal(a: real, b: real): real {
    if a <= b then a else b
  }

  function Seconds(nanos: int): real {
    nanos as real / NANOS_PER_SECOND
  }

  /** Instant::duration_since saturates at zero. */
  function Elapsed(now: Instant, since: Instant): real {
    if now <= since then 0.0 else Seconds(now - since)
  }

  /** What the time since the last refill brings. */
  function Gain(c: Config, now: Instant, since: Instant): real {
    Elapsed(now, since) * c.ratePerSec
  }

  /** Tokens at `now`, before the capacity is applied. */
  function Refilled(c: Config, b: Bucket, now: Instant): real {
    b.tokens + Gain(c, now, b.lastRefill)
  }

  /** Tokens available to a key: an unknown key has a full bucket. */
  function Level(c: Config, b: Option<Bucket>, now: Instant): real {
    if b.None? then c.capacity as real else MinReal(Refilled(c, b.value, now), c.capacity as real)
  }

  function Lookup(s: Buckets, key: string): Option<Bucket> {
    if key in s then Some(s[key]) else None
  }

  /** One check of a single bucket. */
  function Take(c: Config, b: Option<Bucket>, now: Instant): (Bucket, Answer)
    requires c.ratePerSec > 0.0
  {
    var level := Level(c, b, now);
    if level >= 1.0 then (Bucket(level - 1.0, now), Admitted)
    else (Bucket(level, now), Refused(MinReal((1.0 - level) / c.ratePerSec, MAX_RETRY_AFTER)))
  }

  /** What evict keeps: the buckets that lack more than the tolerance. */
  function Retained(c: Config, s: Buckets, now: Instant): Buckets {
    s - (set k | k in s && Refilled(c, s[k], now) >= c.capacity as real - EPSILON)
  }

  function Evict(c: Config, s: Buckets, now: Instant): Buckets {
    var kept := Retained(c, s, now);
    if |kept| >= c.keysCap then map[] else kept
  }

  /** The eviction before a check falls back to clearing everything. */
  predicate Resets(c: Config, s: Buckets, now: Instant) {
    |s| >= c.keysCap && |Retained(c, s, now)| >= c.keysCap
  }

  function BeforeCheck(c: Config, s: Buckets, now: Instant): Buckets {
    if |s| >= c.keysCap then Evict(c, s, now) else s
  }

  function Check(c: Config, s: Buckets, key: string, now: Instant): (Buckets, Answer)
    requires c.ratePerSec > 0.0
  {
    var kept := BeforeCheck(c, s, now);
    var (b, answer) := Take(c, Lookup(kept, key), now);
    (kept[key := b], answer)
  }

  /** The limiter itself. */
  class TokenBucket {
    const config: Config
    var buckets: Buckets

    constructor (ratePerMinute: nat, burst: nat)
      ensures config == New(ratePerMinute, burst) && ValidConfig(config) && buckets == map[]
      ensures config.ratePerSec * 60.0 == (if ratePerMinute >= 1 then ratePerMinute else 1) as real
      ensures config.capacity == (if burst >= 1 then burst else 1) && config.keysCap == 50_000
    {
      config := New(ratePerMinute, burst);
      buckets := map[];
      NewIsValid(ratePerMinute, burst);
    }

    method CheckKey(key: string, now: Instant) returns (answer: Answer)
      requires ValidConfig(config)
      modifies this
      ensures (buckets, answer) == Check(config, old(buckets), key, now)
      ensures |buckets| <= config.keysCap
    {
      KeysStayBounded(config, buckets, key, now);
      if |buckets| >= config.keysCap {
        EvictFull(now);
      }
      var capacity := config.capacity as real;
      var bucket := if key in buckets then buckets[key] else Bucket(capacity, now);
      var tokens := MinReal(bucket.tokens + Elapsed(now, bucket.lastRefill) * config.ratePerSec, capacity);
      if tokens >= 1.0 {
        buckets := buckets[key := Bucket(tokens - 1.0, now)];
        return Admitted;
      }
      buckets := buckets[key := Bucket(tokens, now)];
      answer := Refused(MinReal((1.0 - tokens) / config.ratePerSec, MAX_RETRY_AFTER));
    }

    method Available(key: string, now: Instant) returns (tokens: real)
      ensures tokens == Level(config, Lookup(buckets, key), now)
    {
      if key !in buckets {
        return config.capacity as real;
      }
      var bucket := buckets[key];
      tokens := MinReal(bucket.tokens + Elapsed(now, bucket.lastRefill) * config.ratePerSec, config.capacity as real);
    }

    method EvictFull(now: Instant)
      modifies this
      ensures buckets == Evict(config, old(buckets), now)
    {
      buckets := buckets - (set k | k in buckets && Refilled(config, buckets[k],
        now) >= config.capacity as real - EPSILON);
      if |buckets| >= config.keysCap {
        buckets := map[];
      }
    }
  }

  // ---------- Memory is bounded ----------

  /** After every check at most keysCap keys are tracked, whatever the map held before. */
  lemma {:induction false} KeysStayBounded(c: Config, s: Buckets, key: string, now: Instant)
    requires ValidConfig(c)
    ensures |Check(c, s, key, now).0| <= c.keysCap
  {
    var kept := BeforeCheck(c, s, now);
    assert |kept| < c.keysCap;
    var b := Take(c, Lookup(kept, key), now).0;
    assert kept[key := b].Keys == kept.Keys + {key};
    assert |kept[key := b]| == |kept[key := b].Keys|;
  }

  // ---------- Levels lie on a grid ----------

  /** One nanosecond refills a multiple of this part of a token, at any rate. */
  const GRID: real := 60_000_000_000.0

  predicate OnGrid(tokens: real) {
    Whole(tokens * GRID)
  }

  /** No bucket is overdrawn, and every level is a whole number of grid steps. */
  ghost predicate Sane(s: Buckets) {
    forall k :: k in s ==> s[k].tokens >= 0.0 && OnGrid(s[k].tokens)
  }

  lemma {:induction false} WholeIs(x: real, n: int)
    requires x == n as real
    ensures Whole(x)
  {
  }

  lemma {:induction false} ProductIs(m: int, n: int)
    ensures (m * n) as real == m as real * n as real
    decreases if m < 0 then -m else m
  {
    if m > 0 {
      ProductIs(m - 1, n);
      assert m * n == (m - 1) * n + n;
      assert m as real * n as real == (m - 1) as real * n as real + n as real;
    } else if m < 0 {
      ProductIs(m + 1, n);
      assert m * n == (m + 1) * n - n;
      assert m as real * n as real == (m + 1) as real * n as real - n as real;
    }
  }

  lemma {:induction false} WholeSum(x: real, y: real)
    requires Whole(x) && Whole(y)
    ensures Whole(x + y) && Whole(x - y)
  {
    WholeIs(x + y, x.Floor + y.Floor);
    WholeIs(x - y, x.Floor - y.Floor);
  }

  lemma {:induction false} GridSum(x: real, y: real)
    requires OnGrid(x) && OnGrid(y)
    ensures OnGrid(x + y) && OnGrid(x - y)
  {
    WholeSum(x * GRID, y * GRID);
    assert (x + y) * GRID == x * GRID + y * GRID && (x - y) * GRID == x * GRID - y * GRID;
  }

  lemma {:induction false} WholeIsOnGrid(n: int)
    ensures OnGrid(n as real)
  {
    assert n as real * GRID == (n * 60_000_000_000) as real;
  }

  lemma {:induction false} GainInSteps(nanos: real, rate: real)
    ensures nanos / NANOS_PER_SECOND * rate * GRID == nanos * (rate * 60.0)
  {
    var secs := nanos / NANOS_PER_SECOND;
    assert secs * rate * GRID == (secs * GRID) * rate;
    assert secs * GRID == nanos * 60.0;
    assert (nanos * 60.0) * rate == nanos * (rate * 60.0);
  }

  lemma {:induction false} StepsAreOnGrid(nanos: int, perMinute: int, rate: real, gain: real)
    requires rate * 60.0 == perMinute as real && gain == nanos as real / NANOS_PER_SECOND * rate
    ensures OnGrid(gain)
  {
    GainInSteps(nanos as real, rate);
    ProductIs(nanos, perMinute);
    WholeIs(gain * GRID, nanos * perMinute);
  }

  /** What a stretch of nanoseconds refills. */
  lemma {:induction false} GainIsOnGrid(c: Config, now: Instant, since: Instant)
    requires ValidConfig(c)
    ensures OnGrid(Gain(c, now, since))
  {
    var nanos := if now > since then now - since else 0;
    StepsAreOnGrid(nanos, (c.ratePerSec * 60.0).Floor, c.ratePerSec, Gain(c, now, since));
  }

  /** A level on the grid that falls short of the capacity falls short by more than the tolerance. */
  lemma {:induction false} GridGap(tokens: real, capacity: nat)
    requires OnGrid(tokens) && tokens < capacity as real
    ensures tokens < capacity as real - EPSILON
  {
    WholeIsOnGrid(capacity);
    assert (tokens * GRID).Floor < (capacity as real * GRID).Floor;
  }

  lemma {:induction false} ElapsedGain(c: Config, b: Bucket, t: Instant, u: Instant)
    requires c.ratePerSec > 0.0 && t <= u
    ensures 0.0 <= Elapsed(t, b.lastRefill) * c.ratePerSec <= Elapsed(u, b.lastRefill) * c.ratePerSec
    ensures Refilled(c, b, t) <= Refilled(c, b, u) <= Refilled(c, b, t) + Seconds(u - t) * c.ratePerSec
    ensures b.tokens <= Refilled(c, b, t) && Seconds(u - t) * c.ratePerSec >= 0.0
  {
    var e, f, d := Elapsed(t, b.lastRefill), Elapsed(u, b.lastRefill), Seconds(u - t);
    assert 0.0 <= e <= f <= e + d;
    assert e * c.ratePerSec >= 0.0;
    assert (f - e) * c.ratePerSec >= 0.0;
    assert (d - (f - e)) * c.ratePerSec >= 0.0;
  }

  lemma {:induction false} RefilledIsSane(c: Config, b: Bucket, now: Instant)
    requires ValidConfig(c) && b.tokens >= 0.0 && OnGrid(b.tokens)
    ensures Refilled(c, b, now) >= 0.0 && OnGrid(Refilled(c, b, now))
  {
    hide OnGrid;
    ElapsedGain(c, b, now, now);
    GainIsOnGrid(c, now, b.lastRefill);
    GridSum(b.tokens, Gain(c, now, b.lastRefill));
  }

  lemma {:induction false} LevelIsSane(c: Config, s: Buckets, key: string, now: Instant)
    requires ValidConfig(c) && Sane(s)
    ensures Level(c, Lookup(s, key), now) >= 0.0 && OnGrid(Level(c, Lookup(s, key), now))
  {
    hide Refilled, OnGrid;
    WholeIsOnGrid(c.capacity);
    if key in s {
      RefilledIsSane(c, s[key], now);
    }
  }

  lemma {:induction false} KeptIsSane(c: Config, s: Buckets, now: Instant)
    requires Sane(s)
    ensures Sane(BeforeCheck(c, s, now))
  {
  }

  /** Every check keeps the levels sane; a limiter starts with none. */
  lemma {:induction false} ChecksKeepSane(c: Config, s: Buckets, key: string, now: Instant)
    requires ValidConfig(c) && Sane(s)
    ensures Sane(Check(c, s, key, now).0)
  {
    var kept := BeforeCheck(c, s, now);
    KeptIsSane(c, s, now);
    LevelIsSane(c, kept, key, now);
    WholeIsOnGrid(1);
    hide Level, BeforeCheck, OnGrid;
    GridSum(Level(c, Lookup(kept, key), now), 1.0);
  }

  // ---------- Eviction drops exactly the full buckets ----------

  /** The tolerance in evict never matters: what is dropped has refilled to its capacity. */
  lemma {:induction false} OnlyFullAreDropped(c: Config, s: Buckets, key: string, now: Instant)
    requires ValidConfig(c) && Sane(s) && key in s
    ensures key !in Retained(c, s, now) <==> Refilled(c, s[key], now) >= c.capacity as real
  {
    RefilledIsSane(c, s[key], now);
    hide Refilled;
    if Refilled(c, s[key], now) < c.capacity as real {
      GridGap(Refilled(c, s[key], now), c.capacity);
    }
  }

  /** An eviction that does not clear the map changes no level, now or later. */
  lemma {:induction false} EvictionKeepsLevels(c: Config, s: Buckets, key: string, now: Instant, later: Instant)
    requires ValidConfig(c) && Sane(s) && !Resets(c, s, now) && now <= later
    ensures Level(c, Lookup(BeforeCheck(c, s, now), key), later) == Level(c, Lookup(s, key), later)
  {
    if key in s {
      OnlyFullAreDropped(c, s, key, now);
      ElapsedGain(c, s[key], now, later);
    }
  }

  // ---------- Runs ----------

  /** A check of `key` at time `at`. */
  datatype Request = Request(key: string, at: Instant)

  predicate InOrder(from: Instant, ops: seq<Request>, until: Instant)
    decreases |ops|
  {
    if ops == [] then from <= until else from <= ops[0].at && InOrder(ops[0].at, ops[1..], until)
  }

  function After(c: Config, s: Buckets, ops: seq<Request>): Buckets
    requires c.ratePerSec > 0.0
    decreases |ops|
  {
    if ops == [] then s else After(c, Check(c, s, ops[0].key, ops[0].at).0, ops[1..])
  }

  function Answers(c: Config, s: Buckets, ops: seq<Request>): seq<Answer>
    requires c.ratePerSec > 0.0
    decreases |ops|
  {
    if ops == [] then [] else
      var (s', answer) := Check(c, s, ops[0].key, ops[0].at);
      [answer] + Answers(c, s', ops[1..])
  }

  /** How many requests of `key` are admitted. */
  function AdmittedCount(c: Config, s: Buckets, ops: seq<Request>, key: string): nat
    requires c.ratePerSec > 0.0
    decreases |ops|
  {
    if ops == [] then 0 else
      var (s', answer) := Check(c, s, ops[0].key, ops[0].at);
      (if ops[0].key == key && answer == Admitted then 1 else 0) + AdmittedCount(c, s', ops[1..], key)
  }

  predicate NeverResets(c: Config, s: Buckets, ops: seq<Request>)
    requires c.ratePerSec > 0.0
    decreases |ops|
  {
    ops != [] ==>
      && !Resets(c, s, ops[0].at)
      && NeverResets(c, Check(c, s, ops[0].key, ops[0].at).0, ops[1..])
  }

  /** A check takes one token from its own key if it is admitted, and touches no other key. */
  lemma {:induction false} AfterCheck(c: Config, s: Buckets, checked: string, key: string, now: Instant)
    requires c.ratePerSec > 0.0
    ensures var (s', answer) := Check(c, s, checked, now);
            Level(c, Lookup(s', key), now)
            == Level(c, Lookup(BeforeCheck(c, s, now), key), now)
               - if checked == key && answer == Admitted then 1.0 else 0.0
  {
  }

  // ---------- Retry-After is exact ----------

  lemma {:induction false} QuotientBound(a: real, r: real, d: real)
    requires r > 0.0
    ensures d * r >= a <==> d >= a / r
  {
    assert a / r * r == a;
    if d >= a / r {
      assert (d - a / r) * r >= 0.0;
    } else {
      assert (a / r - d) * r > 0.0;
    }
  }

  /** A bucket left with `level` tokens admits its next check exactly after the time one token needs. */
  lemma {:induction false} AdmittedAfter(c: Config, level: real, now: Instant, nanos: nat)
    requires ValidConfig(c) && 0.0 <= level < 1.0
    ensures 0.0 < (1.0 - level) / c.ratePerSec <= 60.0
    ensures Level(c, Some(Bucket(level, now)), now + nanos) >= 1.0
       <==> Seconds(nanos) >= (1.0 - level) / c.ratePerSec
  {
    QuotientBound(1.0 - level, c.ratePerSec, 60.0);
    QuotientBound(1.0 - level, c.ratePerSec, 0.0);
    QuotientBound(1.0 - level, c.ratePerSec, Seconds(nanos));
    assert Refilled(c, Bucket(level, now), now + nanos) == level + Seconds(nanos) * c.ratePerSec;
  }

  /** Checks of other keys change no later level of a key. */
  lemma {:induction false} OthersKeepLevel(
      c: Config, s: Buckets, ops: seq<Request>, key: string, from: Instant, until: Instant)
    requires ValidConfig(c) && Sane(s) && InOrder(from, ops, until) && NeverResets(c, s, ops)
    requires forall i :: 0 <= i < |ops| ==> ops[i].key != key
    ensures Sane(After(c, s, ops)) && from <= until
    ensures Level(c, Lookup(After(c, s, ops), key), until) == Level(c, Lookup(s, key), until)
    decreases |ops|
  {
    if ops != [] {
      var s' := Check(c, s, ops[0].key, ops[0].at).0;
      assert ops[0].key != key;
      assert Lookup(s', key) == Lookup(BeforeCheck(c, s, ops[0].at), key);
      ChecksKeepSane(c, s, ops[0].key, ops[0].at);
      hide Level, Check, BeforeCheck, Sane;
      OthersKeepLevel(c, s', ops[1..], key, ops[0].at, until);
      EvictionKeepsLevels(c, s, key, ops[0].at, until);
    }
  }

  lemma {:induction false} RefusedLevel(c: Config, s: Buckets, key: string, now: Instant)
    requires ValidConfig(c) && Sane(s) && Check(c, s, key, now).1.Refused?
    ensures var (s', answer) := Check(c, s, key, now);
            && Sane(s') && key in s' && s'[key].lastRefill == now && 0.0 <= s'[key].tokens < 1.0
            && answer.retryAfter == MinReal((1.0 - s'[key].tokens) / c.ratePerSec, MAX_RETRY_AFTER)
  {
    KeptIsSane(c, s, now);
    LevelIsSane(c, BeforeCheck(c, s, now), key, now);
    ChecksKeepSane(c, s, key, now);
    hide Level, BeforeCheck, Sane;
  }

  /** A check is admitted exactly when the key's level before it, eviction or not, is a whole token. */
  lemma {:induction false} AdmittedIffToken(c: Config, s: Buckets, key: string, now: Instant)
    requires ValidConfig(c) && Sane(s) && !Resets(c, s, now)
    ensures Check(c, s, key, now).1 == Admitted <==> Level(c, Lookup(s, key), now) >= 1.0
  {
    EvictionKeepsLevels(c, s, key, now, now);
    hide Level, BeforeCheck, Sane, Resets;
  }

  /** A refusal names exactly the least delay after which the next check of the key is admitted, whatever
      other keys are checked in between and whether or not buckets are evicted. The one-hour bound never
      bites because the clamps of New keep every wait within a minute. */
  lemma {:induction false} RetryAfterIsLeast(
      c: Config, s: Buckets, key: string, now: Instant, others: seq<Request>, nanos: nat)
    requires ValidConfig(c) && Sane(s) && Check(c, s, key, now).1.Refused?
    requires InOrder(now, others, now + nanos) && forall i :: 0 <= i < |others| ==> others[i].key != key
    requires var s' := Check(c, s, key, now).0;
             NeverResets(c, s', others) && !Resets(c, After(c, s', others), now + nanos)
    ensures var (s', answer) := Check(c, s, key, now);
            && 0.0 < answer.retryAfter <= 60.0
            && (Check(c, After(c, s', others), key, now + nanos).1 == Admitted
                <==> Seconds(nanos) >= answer.retryAfter)
  {
    var (s', answer) := Check(c, s, key, now);
    RefusedLevel(c, s, key, now);
    AdmittedAfter(c, s'[key].tokens, now, nanos);
    hide Level, Check, BeforeCheck, Sane, Resets;
    OthersKeepLevel(c, s', others, key, now, now + nanos);
    AdmittedIffToken(c, After(c, s', others), key, now + nanos);
    assert s'[key] == Bucket(s'[key].tokens, now);
  }

  // ---------- The rate bound ----------

  function Ahead(from: Instant, to: Instant): nat {
    if from <= to then to - from else 0
  }

  /** How far the times of the checks step back in all. A check reads the clock before it waits for the lock,
      so the times need not ascend. */
  function Backward(from: Instant, ops: seq<Request>, until: Instant): nat
    decreases |ops|
  {
    if ops == [] then Ahead(until, from) else Ahead(ops[0].at, from) + Backward(ops[0].at, ops[1..], until)
  }

  lemma {:induction false} OrderedNeverSteps(from: Instant, ops: seq<Request>, until: Instant)
    requires InOrder(from, ops, until)
    ensures Backward(from, ops, until) == 0
    decreases |ops|
  {
    if ops != [] {
      OrderedNeverSteps(ops[0].at, ops[1..], until);
    }
  }

  lemma {:induction false} TimeAdvances(from: Instant, ops: seq<Request>, until: Instant)
    ensures until - from + Backward(from, ops, until) >= 0
    decreases |ops|
  {
    if ops != [] {
      TimeAdvances(ops[0].at, ops[1..], until);
    }
  }

  lemma {:induction false} LevelGrowth(c: Config, b: Option<Bucket>, t: Instant, u: Instant)
    requires c.ratePerSec > 0.0
    ensures Level(c, b, u) <= Level(c, b, t) + Seconds(Ahead(t, u)) * c.ratePerSec
  {
    var bucket := if b.Some? then b.value else Bucket(0.0, t);
    if t <= u {
      ElapsedGain(c, bucket, t, u);
    } else {
      ElapsedGain(c, bucket, u, t);
      SecondsGain(0, c.ratePerSec);
    }
    hide Refilled, Seconds;
  }

  lemma {:induction false} SecondsAdd(a: int, b: int, rate: real)
    ensures Seconds(a + b) * rate == Seconds(a) * rate + Seconds(b) * rate
  {
    assert Seconds(a + b) == Seconds(a) + Seconds(b);
  }

  lemma {:induction false} SecondsGain(a: nat, rate: real)
    requires rate > 0.0
    ensures Seconds(a) * rate >= 0.0
  {
  }

  /** Over any stretch of a run without a full reset the admitted requests of a key are at most what it
      had at the start plus the refill over the stretch; time that is stepped back refills twice. */
  lemma {:induction false} RateBound(
      c: Config, s: Buckets, ops: seq<Request>, key: string, from: Instant, until: Instant)
    requires ValidConfig(c) && Sane(s) && NeverResets(c, s, ops)
    ensures AdmittedCount(c, s, ops, key) as real
         <= Level(c, Lookup(s, key), from) + Seconds(until - from + Backward(from, ops, until)) * c.ratePerSec
    decreases |ops|
  {
    hide Level, Check, BeforeCheck, Resets, Sane, Seconds;
    LevelIsSane(c, s, key, from);
    if ops == [] {
      assert until - from + Backward(from, ops, until) == Ahead(from, until);
      SecondsGain(Ahead(from, until), c.ratePerSec);
    } else {
      var now := ops[0].at;
      var s' := Check(c, s, ops[0].key, now).0;
      LevelGrowth(c, Lookup(s, key), from, now);
      EvictionKeepsLevels(c, s, key, now, now);
      ChecksKeepSane(c, s, ops[0].key, now);
      AfterCheck(c, s, ops[0].key, key, now);
      RateBound(c, s', ops[1..], key, now, until);
      var rest := until - now + Backward(now, ops[1..], until);
      assert until - from + Backward(from, ops, until) == Ahead(from, now) + rest;
      SecondsAdd(Ahead(from, now), rest, c.ratePerSec);
    }
  }

  lemma {:induction false} LevelIsCapped(c: Config, b: Option<Bucket>, now: Instant)
    ensures Level(c, b, now) <= c.capacity as real
  {
  }

  lemma {:induction false} CappedBound(
      c: Config, s: Buckets, ops: seq<Request>, key: string, from: Instant, until: Instant)
    requires ValidConfig(c) && Sane(s) && NeverResets(c, s, ops)
    ensures AdmittedCount(c, s, ops, key) as real
         <= c.capacity as real + Seconds(until - from + Backward(from, ops, until)) * c.ratePerSec
  {
    LevelIsCapped(c, Lookup(s, key), from);
    RateBound(c, s, ops, key, from, until);
    hide *;
  }

  /** The bound of the design: in any interval of a run at most capacity plus rate times duration, where the
      duration counts the time stepped back as well; when the times ascend it is the length of the interval. */
  lemma {:induction false} BurstPlusRate(
      ratePerMinute: nat, burst: nat, before: seq<Request>, ops: seq<Request>, key: string,
      from: Instant, until: Instant)
    requires NeverResets(New(ratePerMinute, burst), After(New(ratePerMinute, burst), map[], before), ops)
    ensures var c := New(ratePerMinute, burst);
            var duration := until - from + Backward(from, ops, until);
            && AdmittedCount(c, After(c, map[], before), ops, key) as real
               <= c.capacity as real + Seconds(duration) * c.ratePerSec
            && duration >= 0 && (InOrder(from, ops, until) ==> duration == until - from)
  {
    var c := New(ratePerMinute, burst);
    NewIsValid(ratePerMinute, burst);
    hide New, Check, BeforeCheck, Resets;
    RunsStaySane(c, map[], before);
    hide *;
    CappedBound(c, After(c, map[], before), ops, key, from, until);
    TimeAdvances(from, ops, until);
    if InOrder(from, ops, until) {
      OrderedNeverSteps(from, ops, until);
    }
  }

  const SECOND: Instant := 1_000_000_000

  /** A check that comes with an older time sets the refill back: with one token a second and room for one,
      three checks are admitted within a second. */
  lemma {:induction false} SteppingBackRefillsTwice()
    ensures var c := New(60, 1);
            var ops := [Request("k", 0), Request("k", SECOND), Request("k", 0), Request("k", SECOND)];
            && NeverResets(c, map[], ops) && Backward(0, ops, SECOND) == SECOND
            && AdmittedCount(c, map[], ops, "k") == 3
  {
    var c := New(60, 1);
    var ops := [Request("k", 0), Request("k", SECOND), Request("k", 0), Request("k", SECOND)];
    var o1, o2, o3 := ops[1..], ops[2..], ops[3..];
    assert o1[1..] == o2 && o2[1..] == o3 && o3[1..] == [];
    assert Backward(0, ops, SECOND) == Ahead(0, 0) + Backward(0, o1, SECOND);
    assert Backward(0, o1, SECOND) == Ahead(SECOND, 0) + Backward(SECOND, o2, SECOND);
    assert Backward(SECOND, o2, SECOND) == Ahead(0, SECOND) + Backward(0, o3, SECOND);
    assert Backward(0, o3, SECOND) == Ahead(SECOND, 0) + Backward(SECOND, [], SECOND);
    FirstCheck(c, 0);
    NextCheck(c, 0, SECOND);
    NextCheck(c, SECOND, 0);
    hide Check, Resets, Backward;
    var e, f := map["k" := Bucket(0.0, 0)], map["k" := Bucket(0.0, SECOND)];
    FourSteps(c, ops, e, f);
  }

  lemma {:induction false} FirstCheck(c: Config, now: Instant)
    requires c == New(60, 1)
    ensures Check(c, map[], "k", now) == (map["k" := Bucket(0.0, now)], Admitted) && !Resets(c, map[], now)
  {
  }

  lemma {:induction false} NextCheck(c: Config, since: Instant, now: Instant)
    requires c == New(60, 1) && (now == since + SECOND || now <= since)
    ensures var s := map["k" := Bucket(0.0, since)];
            && !Resets(c, s, now) && Check(c, s, "k", now).0 == map["k" := Bucket(0.0, now)]
            && (Check(c, s, "k", now).1 == Admitted <==> now == since + SECOND)
  {
    var s := map["k" := Bucket(0.0, since)];
    assert c.ratePerSec == 1.0 && |s| == 1;
    assert Refilled(c, s["k"], now) == if now <= since then 0.0 else 1.0;
    assert s["k" := Bucket(0.0, now)] == map["k" := Bucket(0.0, now)];
  }

  lemma {:induction false} FourSteps(c: Config, ops: seq<Request>, e: Buckets, f: Buckets)
    requires c.ratePerSec > 0.0
    requires ops == [Request("k", 0), Request("k", SECOND), Request("k", 0), Request("k", SECOND)]
    requires !Resets(c, map[], 0) && Check(c, map[], "k", 0) == (e, Admitted)
    requires !Resets(c, e, SECOND) && Check(c, e, "k", SECOND) == (f, Admitted)
    requires !Resets(c, f, 0) && Check(c, f, "k", 0).0 == e && Check(c, f, "k", 0).1 != Admitted
    ensures NeverResets(c, map[], ops) && AdmittedCount(c, map[], ops, "k") == 3
  {
    hide Check, Resets;
    var o1, o2, o3 := ops[1..], ops[2..], ops[3..];
    assert o1[1..] == o2 && o2[1..] == o3 && o3[1..] == [];
    assert NeverResets(c, f, []) && AdmittedCount(c, f, [], "k") == 0;
    assert NeverResets(c, e, o3) && AdmittedCount(c, e, o3, "k") == 1;
    assert NeverResets(c, f, o2) && AdmittedCount(c, f, o2, "k") == 1;
    assert NeverResets(c, e, o1) && AdmittedCount(c, e, o1, "k") == 2;
  }

  lemma {:induction false} RunsStaySane(c: Config, s: Buckets, ops: seq<Request>)
    requires ValidConfig(c) && Sane(s)
    ensures Sane(After(c, s, ops))
    decreases |ops|
  {
    if ops != [] {
      ChecksKeepSane(c, s, ops[0].key, ops[0].at);
      RunsStaySane(c, Check(c, s, ops[0].key, ops[0].at).0, ops[1..]);
    }
  }

  // ---------- Forgetting a bucket is invisible exactly when it is full ----------

  /** The answers of one bucket to checks at the given times. */
  function BucketAnswers(c: Config, b: Option<Bucket>, times: seq<Instant>): seq<Answer>
    requires c.ratePerSec > 0.0
    decreases |times|
  {
    if times == [] then [] else
      var (b', answer) := Take(c, b, times[0]);
      [answer] + BucketAnswers(c, Some(b'), times[1..])
  }

  predicate Ascending(from: Instant, times: seq<Instant>)
    decreases |times|
  {
    times != [] ==> from <= times[0] && Ascending(times[0], times[1..])
  }

  function Burst(n: nat, at: Instant): seq<Instant> {
    if n == 0 then [] else [at] + Burst(n - 1, at)
  }

  function AllAdmitted(n: nat): seq<Answer> {
    if n == 0 then [] else [Admitted] + AllAdmitted(n - 1)
  }

  /** n checks at one instant are all admitted exactly when n tokens are available. */
  lemma {:induction false} BurstNeedsTokens(c: Config, b: Option<Bucket>, n: nat, at: Instant)
    requires ValidConfig(c) && Level(c, b, at) >= 0.0
    ensures BucketAnswers(c, b, Burst(n, at)) == AllAdmitted(n) <==> Level(c, b, at) >= n as real
    ensures Ascending(at, Burst(n, at))
    decreases n
  {
    if n > 0 {
      var (b', answer) := Take(c, b, at);
      assert Burst(n, at)[1..] == Burst(n - 1, at);
      assert Burst(n, at)[0] == at;
      BurstNeedsTokens(c, Some(b'), n - 1, at);
      var rest := BucketAnswers(c, Some(b'), Burst(n - 1, at));
      assert BucketAnswers(c, b, Burst(n, at)) == [answer] + rest;
      assert ([answer] + rest)[0] == answer && ([answer] + rest)[1..] == rest;
      assert ([Admitted] + AllAdmitted(n - 1))[0] == Admitted;
      assert ([Admitted] + AllAdmitted(n - 1))[1..] == AllAdmitted(n - 1);
    }
  }

  /** A new key may make as many checks at once as the burst allows, and no more; at least one. */
  lemma {:induction false} NewKeyHasBurst(ratePerMinute: nat, burst: nat, n: nat, at: Instant)
    ensures BucketAnswers(New(ratePerMinute, burst), None, Burst(n, at)) == AllAdmitted(n)
       <==> n <= if burst >= 1 then burst else 1
  {
    NewIsValid(ratePerMinute, burst);
    BurstNeedsTokens(New(ratePerMinute, burst), None, n, at);
  }

  /** A key without tokens is admitted again exactly when a minute's share of the rate has passed. */
  lemma {:induction false} RateIsPerMinute(ratePerMinute: nat, burst: nat, last: Instant, now: Instant)
    requires last <= now
    ensures Take(New(ratePerMinute, burst), Some(Bucket(0.0, last)), now).1 == Admitted
       <==> (now - last) * (if ratePerMinute >= 1 then ratePerMinute else 1) >= 60_000_000_000
  {
    var c := New(ratePerMinute, burst);
    var rate := if ratePerMinute >= 1 then ratePerMinute else 1;
    NewIsValid(ratePerMinute, burst);
    assert Gain(c, now, last) == ((now - last) * rate) as real / 60_000_000_000.0 by {
      assert c.ratePerSec == rate as real / 60.0;
      GainOfMinute(now - last, rate);
    }
    assert c.capacity >= 1;
  }

  lemma {:induction false} GainOfMinute(nanos: int, rate: nat)
    ensures Seconds(nanos) * (rate as real / 60.0) == (nanos * rate) as real / 60_000_000_000.0
  {
    assert (nanos * rate) as real == nanos as real * rate as real;
  }

  /** Forgetting a bucket is invisible: every later sequence of checks gets the same answers. */
  ghost predicate Forgettable(c: Config, b: Bucket, now: Instant)
    requires c.ratePerSec > 0.0
  {
    forall times | Ascending(now, times) :: BucketAnswers(c, Some(b), times) == BucketAnswers(c, None, times)
  }

  lemma {:induction false} FullIsForgettable(c: Config, b: Bucket, now: Instant, times: seq<Instant>)
    requires ValidConfig(c) && Ascending(now, times) && Refilled(c, b, now) >= c.capacity as real
    ensures BucketAnswers(c, Some(b), times) == BucketAnswers(c, None, times)
  {
    hide Refilled;
    if times != [] {
      ElapsedGain(c, b, now, times[0]);
      assert Level(c, Some(b), times[0]) == Level(c, None, times[0]);
    }
  }

  /** Dropping a bucket at `now` is invisible if and only if it has refilled to its capacity:
      otherwise `capacity` checks at once tell. */
  lemma {:induction false} ForgettableIffFull(c: Config, b: Bucket, now: Instant)
    requires ValidConfig(c) && b.tokens >= 0.0
    ensures Forgettable(c, b, now) <==> Refilled(c, b, now) >= c.capacity as real
  {
    if Refilled(c, b, now) >= c.capacity as real {
      forall times | Ascending(now, times)
        ensures BucketAnswers(c, Some(b), times) == BucketAnswers(c, None, times)
      {
        FullIsForgettable(c, b, now, times);
      }
    } else {
      ElapsedGain(c, b, now, now);
      BurstNeedsTokens(c, Some(b), c.capacity, now);
      BurstNeedsTokens(c, None, c.capacity, now);
    }
  }

  // ---------- The capped map simulates an unbounded one ----------

  /** The answers of a map that never evicts. */
  function UncappedAnswers(c: Config, u: Buckets, ops: seq<Request>): seq<Answer>
    requires c.ratePerSec > 0.0
    decreases |ops|
  {
    if ops == [] then [] else
      var (b, answer) := Take(c, Lookup(u, ops[0].key), ops[0].at);
      [answer] + UncappedAnswers(c, u[ops[0].key := b], ops[1..])
  }

  /** The capped map is the unbounded one without some buckets that are full by now. */
  ghost predicate Simulates(c: Config, s: Buckets, u: Buckets, now: Instant) {
    && (forall k :: k in s ==> k in u && u[k] == s[k])
    && (forall k :: k in u && k !in s ==> Refilled(c, u[k], now) >= c.capacity as real)
  }

  lemma {:induction false} EvictionKeepsSimulation(c: Config, s: Buckets, u: Buckets, from: Instant, now: Instant)
    requires ValidConfig(c) && Sane(s) && from <= now && Simulates(c, s, u, from) && !Resets(c, s, now)
    ensures Simulates(c, BeforeCheck(c, s, now), u, now)
  {
    hide Refilled, Sane;
    var kept := BeforeCheck(c, s, now);
    forall k | k in u && k !in kept ensures Refilled(c, u[k], now) >= c.capacity as real {
      if k in s {
        OnlyFullAreDropped(c, s, k, now);
      } else {
        ElapsedGain(c, u[k], from, now);
      }
    }
  }

  lemma {:induction false} TakeKeepsSimulation(c: Config, s: Buckets, u: Buckets, key: string, now: Instant)
    requires ValidConfig(c) && Simulates(c, s, u, now)
    ensures var (b, answer) := Take(c, Lookup(s, key), now);
            Take(c, Lookup(u, key), now) == (b, answer) && Simulates(c, s[key := b], u[key := b], now)
  {
    assert Level(c, Lookup(s, key), now) == Level(c, Lookup(u, key), now);
  }

  lemma {:induction false} SimulationAnswers(
      c: Config, s: Buckets, u: Buckets, ops: seq<Request>, from: Instant, until: Instant)
    requires ValidConfig(c) && Sane(s) && InOrder(from, ops, until) && Simulates(c, s, u, from)
    requires NeverResets(c, s, ops)
    ensures Answers(c, s, ops) == UncappedAnswers(c, u, ops)
    decreases |ops|
  {
    if ops != [] {
      EvictionKeepsSimulation(c, s, u, from, ops[0].at);
      TakeKeepsSimulation(c, BeforeCheck(c, s, ops[0].at), u, ops[0].key, ops[0].at);
      ChecksKeepSane(c, s, ops[0].key, ops[0].at);
      hide Simulates, Sane, Take, BeforeCheck, Resets;
      var b := Take(c, Lookup(u, ops[0].key), ops[0].at).0;
      SimulationAnswers(
        c, Check(c, s, ops[0].key, ops[0].at).0, u[ops[0].key := b], ops[1..], ops[0].at, until);
    }
  }

  /** As long as the map is never cleared, the capped map gives every check of every run the answer of a
      map that forgets nothing. */
  lemma {:induction false} EvictionIsInvisible(
      ratePerMinute: nat, burst: nat, ops: seq<Request>, from: Instant, until: Instant)
    requires var c := New(ratePerMinute, burst);
             InOrder(from, ops, until) && NeverResets(c, map[], ops)
    ensures var c := New(ratePerMinute, burst);
            Answers(c, map[], ops) == UncappedAnswers(c, map[], ops)
  {
    NewIsValid(ratePerMinute, burst);
    SimulationAnswers(New(ratePerMinute, burst), map[], map[], ops, from, until);
  }
}
