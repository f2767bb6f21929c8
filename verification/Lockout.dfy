/** The failure lockout (server/src/security/lockout.rs). Times are integers on a monotone clock. */
module Lockout {
  import opened Basics

  const KEYS_CAP: nat := 50_000

  datatype FailureState = FailureState(count: nat, firstAt: int, blockedUntil: Option<int>)

  datatype Config = Config(threshold: nat, window: nat, block: nat, keysCap: nat)

  /** The clamp of FailureGuard::new. */
  function New(threshold: nat, window: nat, block: nat): Config {
    Config(Max(threshold, 1), window, block, KEYS_CAP)
  }

  type States = map<string, FailureState>

  datatype Verdict = Clear | Blocked(retryAfter: int)

  // ---------- Specification ----------

  predicate BlockedAt(st: FailureState, now: int) {
    st.blockedUntil.Some? && st.blockedUntil.value > now
  }

  function Remove(s: States, key: string): States {
    s - {key}
  }

  function Check(c: Config, s: States, key: string, now: int): (States, Verdict) {
    if key !in s then (s, Clear)
    else if BlockedAt(s[key], now) then (s, Blocked(s[key].blockedUntil.value - now))
    else if s[key].blockedUntil.Some? || now - s[key].firstAt >= c.window then (Remove(s, key), Clear)
    else (s, Clear)
  }

  /** What the retain of record_failure keeps. */
  function BlockedOnly(s: States, now: int): States {
    s - (set k | k in s && !BlockedAt(s[k], now))
  }

  /** At the cap, a failure first drops every key that is not blocked. */
  function BeforeFailure(c: Config, s: States, now: int): States {
    if |s| >= c.keysCap then BlockedOnly(s, now) else s
  }

  /** The key's counter as a failure at `now` finds it: absent and expired counters start over. */
  function Counter(c: Config, s: States, key: string, now: int): FailureState {
    if key !in s then FailureState(0, now, None)
    else if now - s[key].firstAt >= c.window then s[key].(count := 0, firstAt := now)
    else s[key]
  }

  function Fail(c: Config, s: States, key: string, now: int): (States, bool) {
    var kept := BeforeFailure(c, s, now);
    var st := Counter(c, kept, key, now);
    if st.count + 1 >= c.threshold then (kept[key := FailureState(0, now, Some(now + c.block))], true)
    else (kept[key := st.(count := st.count + 1)], false)
  }

  /** The guard itself. */
  class FailureGuard {
    const config: Config
    var states: States

    constructor (threshold: nat, window: nat, block: nat)
      ensures config.threshold == (if threshold == 0 then 1 else threshold) && config.keysCap == 50_000
      ensures config.window == window && config.block == block && states == map[]
    {
      config := New(threshold, window, block);
      states := map[];
    }

    method CheckKey(key: string, now: int) returns (verdict: Verdict)
      modifies this
      ensures (states, verdict) == Check(config, old(states), key, now)
    {
      if key !in states {
        return Clear;
      }
      var state := states[key];
      if state.blockedUntil.Some? {
        if state.blockedUntil.value > now {
          return Blocked(state.blockedUntil.value - now);
        }
        states := Remove(states, key);
      } else if now - state.firstAt >= config.window {
        states := Remove(states, key);
      }
      verdict := Clear;
    }

    method RecordFailure(key: string, now: int) returns (triggered: bool)
      modifies this
      ensures (states, triggered) == Fail(config, old(states), key, now)
    {
      hide BlockedOnly, BlockedAt;
      if |states| >= config.keysCap {
        states := BlockedOnly(states, now);
      }
      var state := if key in states then states[key] else FailureState(0, now, None);
      if now - state.firstAt >= config.window {
        state := state.(count := 0, firstAt := now);
      }
      state := state.(count := state.count + 1);
      triggered := state.count >= config.threshold;
      if triggered {
        state := FailureState(0, now, Some(now + config.block));
      }
      states := states[key := state];
    }

    method RecordSuccess(key: string)
      modifies this
      ensures key !in states
      ensures forall k :: k != key ==>
                (k in states <==> k in old(states)) && (k in states ==> states[k] == old(states)[k])
    {
      states := Remove(states, key);
    }
  }

  // ---------- Runs ----------

  datatype Op =
    | CheckOp(key: string, at: int)
    | FailOp(key: string, at: int)
    | SuccessOp(key: string, at: int)

  function Step(c: Config, s: States, op: Op): States {
    match op
    case CheckOp(key, at) => Check(c, s, key, at).0
    case FailOp(key, at) => Fail(c, s, key, at).0
    case SuccessOp(key, _) => Remove(s, key)
  }

  /** The states after a run that starts with none. */
  function After(c: Config, ops: seq<Op>): States {
    if ops == [] then map[] else Step(c, After(c, ops[..|ops| - 1]), ops[|ops| - 1])
  }

  /** The last operation of a run starts a block. */
  predicate Triggers(c: Config, ops: seq<Op>)
    requires ops != []
  {
    var last := ops[|ops| - 1];
    last.FailOp? && Fail(c, After(c, ops[..|ops| - 1]), last.key, last.at).1
  }

  predicate InOrder(ops: seq<Op>) {
    forall i, j :: 0 <= i < j < |ops| ==> ops[i].at <= ops[j].at
  }

  function Failures(ops: seq<Op>, key: string): nat {
    if ops == [] then 0 else
      Failures(ops[..|ops| - 1], key) + if ops[|ops| - 1] == FailOp(key, ops[|ops| - 1].at) then 1 else 0
  }

  // ---------- Every block is backed by failures ----------

  /** From position j on there are exactly n failures of the key and no success, and every failure lies
      in the window that opened at `anchor`. */
  ghost predicate Streak(c: Config, ops: seq<Op>, key: string, j: nat, n: nat, anchor: int) {
    && j <= |ops| && Failures(ops[j..], key) == n
    && (forall i :: j <= i < |ops| && ops[i].key == key ==> !ops[i].SuccessOp?)
    && (forall i :: j <= i < |ops| && ops[i].key == key && ops[i].FailOp? ==>
          ops[i].at == anchor || anchor <= ops[i].at < anchor + c.window)
  }

  /** What a run guarantees about a stored counter. */
  ghost predicate Sound(c: Config, ops: seq<Op>, key: string, st: FailureState) {
    && st.count < c.threshold
    && (exists j :: Streak(c, ops, key, j, st.count, st.firstAt))
    && (ops != [] ==> st.firstAt <= ops[|ops| - 1].at)
    && (ops != [] && st.blockedUntil.Some? ==> st.blockedUntil.value <= ops[|ops| - 1].at + c.block)
  }

  lemma {:induction false} StreakExtends(c: Config, ops: seq<Op>, op: Op, key: string, j: nat, n: nat, anchor: int)
    requires Streak(c, ops, key, j, n, anchor) && !(op.SuccessOp? && op.key == key)
    requires op.FailOp? && op.key == key ==> op.at == anchor || anchor <= op.at < anchor + c.window
    ensures Streak(c, ops + [op], key, j, if op.FailOp? && op.key == key then n + 1 else n, anchor)
  {
    assert (ops + [op])[j..] == ops[j..] + [op];
    assert (ops[j..] + [op])[..|ops[j..]|] == ops[j..];
  }

  lemma {:induction false} StreakStarts(c: Config, ops: seq<Op>, key: string, at: int)
    ensures Streak(c, ops, key, |ops|, 0, at)
  {
  }

  lemma {:induction false} UntouchedIsSound(c: Config, ops: seq<Op>, op: Op, key: string, st: FailureState)
    requires Sound(c, ops, key, st) && (ops != [] ==> ops[|ops| - 1].at <= op.at)
    requires ops != [] && (op.key == key ==> op.CheckOp?)
    ensures Sound(c, ops + [op], key, st)
  {
    var j :| Streak(c, ops, key, j, st.count, st.firstAt);
    StreakExtends(c, ops, op, key, j, st.count, st.firstAt);
  }

  ghost predicate AllSound(c: Config, ops: seq<Op>) {
    && (ops == [] ==> After(c, ops) == map[])
    && forall k :: k in After(c, ops) ==> Sound(c, ops, k, After(c, ops)[k])
  }

  /** The counter that a failure finds is sound for the run so far, as of the time of the failure. */
  lemma {:induction false} CounterStreak(c: Config, ops: seq<Op>, key: string, now: int)
    requires c.threshold >= 1 && AllSound(c, ops) && (ops != [] ==> ops[|ops| - 1].at <= now)
    ensures var st := Counter(c, BeforeFailure(c, After(c, ops), now), key, now);
            && st.count < c.threshold
            && (now == st.firstAt || st.firstAt <= now < st.firstAt + c.window)
            && (st.blockedUntil.Some? ==> st.blockedUntil.value <= now + c.block)
            && exists j :: Streak(c, ops, key, j, st.count, st.firstAt)
  {
    StreakStarts(c, ops, key, now);
  }

  ghost predicate Backed(c: Config, ops: seq<Op>, key: string) {
    exists j, anchor :: Streak(c, ops, key, j, c.threshold, anchor)
  }

  lemma {:induction false} BumpIsSound(c: Config, ops: seq<Op>, key: string, now: int, st: FailureState, j: nat)
    requires c.threshold >= 1 && st.count < c.threshold && Streak(c, ops, key, j, st.count, st.firstAt)
    requires now == st.firstAt || st.firstAt <= now < st.firstAt + c.window
    requires st.blockedUntil.Some? ==> st.blockedUntil.value <= now + c.block
    ensures var next := ops + [FailOp(key, now)];
            && (st.count + 1 < c.threshold ==> Sound(c, next, key, st.(count := st.count + 1)))
            && (st.count + 1 == c.threshold ==>
                  Backed(c, next, key) && Sound(c, next, key, FailureState(0, now, Some(now + c.block))))
  {
    var op := FailOp(key, now);
    StreakExtends(c, ops, op, key, j, st.count, st.firstAt);
    StreakStarts(c, ops + [op], key, now);
  }

  lemma {:induction false} FailureIsSound(c: Config, ops: seq<Op>, key: string, now: int)
    requires c.threshold >= 1 && AllSound(c, ops) && (ops != [] ==> ops[|ops| - 1].at <= now)
    ensures var (s, triggered) := Fail(c, After(c, ops), key, now);
            && Sound(c, ops + [FailOp(key, now)], key, s[key])
            && (triggered ==> Backed(c, ops + [FailOp(key, now)], key))
  {
    hide AllSound, After, BeforeFailure, Counter, Streak, Sound, Backed;
    var st := Counter(c, BeforeFailure(c, After(c, ops), now), key, now);
    CounterStreak(c, ops, key, now);
    var j :| Streak(c, ops, key, j, st.count, st.firstAt);
    BumpIsSound(c, ops, key, now, st, j);
  }

  /** One more operation keeps every stored counter sound, and a trigger has a full streak behind it. */
  lemma {:induction false} SoundStep(c: Config, ops: seq<Op>, op: Op)
    requires c.threshold >= 1 && AllSound(c, ops) && (ops != [] ==> ops[|ops| - 1].at <= op.at)
    ensures AllSound(c, ops + [op])
    ensures Triggers(c, ops + [op]) ==> Backed(c, ops + [op], op.key)
  {
    var s, next := After(c, ops), ops + [op];
    assert next[..|next| - 1] == ops;
    var s' := Step(c, s, op);
    assert After(c, next) == s';
    if op.FailOp? {
      FailureIsSound(c, ops, op.key, op.at);
    }
    forall k | k in s' ensures Sound(c, next, k, s'[k]) {
      if op.CheckOp? || k != op.key {
        UntouchedIsSound(c, ops, op, k, s[k]);
      }
    }
  }

  lemma {:induction false} RunIsSound(c: Config, ops: seq<Op>)
    requires c.threshold >= 1 && InOrder(ops)
    ensures AllSound(c, ops)
  {
    if ops != [] {
      var n := |ops| - 1;
      RunIsSound(c, ops[..n]);
      SoundStep(c, ops[..n], ops[n]);
      assert ops == ops[..n] + [ops[n]];
    }
  }

  /** Over every run, a block that starts is backed by exactly `threshold` failures of that key, the last
      one included, inside one window and with no success of the key in between. */
  lemma {:induction false} BlockIsBacked(c: Config, ops: seq<Op>)
    requires c.threshold >= 1 && InOrder(ops) && ops != [] && Triggers(c, ops)
    ensures Backed(c, ops, ops[|ops| - 1].key)
  {
    var n := |ops| - 1;
    RunIsSound(c, ops[..n]);
    SoundStep(c, ops[..n], ops[n]);
    assert ops == ops[..n] + [ops[n]];
  }

  /** Between calls every stored count is below the threshold. */
  lemma {:induction false} CountsStayBelow(c: Config, ops: seq<Op>, key: string)
    requires c.threshold >= 1 && InOrder(ops) && key in After(c, ops)
    ensures After(c, ops)[key].count < c.threshold
  {
    RunIsSound(c, ops);
  }

  // ---------- Blocks last ----------

  function Continue(c: Config, s: States, ops: seq<Op>): States
    decreases |ops|
  {
    if ops == [] then s else Continue(c, Step(c, s, ops[0]), ops[1..])
  }

  /** Neither eviction nor checks nor further failures of any key end a block early: until its end, only
      a success of the key itself can. */
  lemma {:induction false} BlockLasts(c: Config, s: States, ops: seq<Op>, key: string, from: int, until: int, now: int)
    requires c.threshold >= 1 && InOrder(ops)
    requires forall i :: 0 <= i < |ops| ==> from <= ops[i].at <= now && ops[i] != SuccessOp(key, ops[i].at)
    requires now < until <= from + c.block
    requires key in s && s[key].blockedUntil.Some? && s[key].blockedUntil.value >= until
    ensures var s' := Continue(c, s, ops);
            key in s' && BlockedAt(s'[key], now) && s'[key].blockedUntil.value >= until
    decreases |ops|
  {
    if ops != [] {
      var s' := Step(c, s, ops[0]);
      assert key in s' && s'[key].blockedUntil.Some? && s'[key].blockedUntil.value >= until;
      BlockLasts(c, s', ops[1..], key, from, until, now);
    }
  }

  /** A block that a run has started holds for its whole length against any continuation without a
      success of that key: every check before its end is refused. */
  lemma {:induction false} TriggeredBlockHolds(c: Config, ops: seq<Op>, later: seq<Op>, now: int)
    requires c.threshold >= 1 && ops != [] && Triggers(c, ops) && InOrder(ops) && InOrder(later)
    requires var last := ops[|ops| - 1];
             && last.at <= now < last.at + c.block
             && forall i :: 0 <= i < |later| ==>
                  last.at <= later[i].at <= now && later[i] != SuccessOp(last.key, later[i].at)
    ensures var last := ops[|ops| - 1];
            var verdict := Check(c, Continue(c, After(c, ops), later), last.key, now).1;
            verdict.Blocked? && verdict.retryAfter >= last.at + c.block - now
  {
    var last := ops[|ops| - 1];
    BlockLasts(c, After(c, ops), later, last.key, last.at, last.at + c.block, now);
  }

  // ---------- When a check is refused, and for how long ----------

  /** The n-th operation of the run starts a block of the key, and no success of the key follows. */
  ghost predicate Stands(c: Config, ops: seq<Op>, key: string, n: nat) {
    && 0 < n <= |ops| && Triggers(c, ops[..n]) && ops[n - 1].key == key
    && forall i :: n <= i < |ops| ==> ops[i] != SuccessOp(key, ops[i].at)
  }

  /** The last such block of the run, by the position of the operation that starts it. */
  ghost function LastBlock(c: Config, ops: seq<Op>, key: string): (n: nat)
    ensures n <= |ops|
  {
    if ops == [] then 0
    else
      var last := ops[|ops| - 1];
      if last == SuccessOp(key, last.at) then 0
      else if Triggers(c, ops) && last.key == key then |ops|
      else LastBlock(c, ops[..|ops| - 1], key)
  }

  lemma {:induction false} StandsLater(c: Config, ops: seq<Op>, key: string, m: nat)
    requires ops != [] && m < |ops|
    ensures var init, last := ops[..|ops| - 1], ops[|ops| - 1];
            Stands(c, ops, key, m) <==> Stands(c, init, key, m) && last != SuccessOp(key, last.at)
  {
    var init, last := ops[..|ops| - 1], ops[|ops| - 1];
    assert ops[..m] == init[..m];
    hide Triggers;
    if Stands(c, init, key, m) && last != SuccessOp(key, last.at) {
      forall i | m <= i < |ops| ensures ops[i] != SuccessOp(key, ops[i].at) {
        assert i < |init| ==> ops[i] == init[i];
      }
    }
  }

  lemma {:induction false} StandsNow(c: Config, ops: seq<Op>, key: string)
    requires ops != []
    ensures Stands(c, ops, key, |ops|) <==> Triggers(c, ops) && ops[|ops| - 1].key == key
    ensures ops[|ops| - 1].SuccessOp? ==> !Triggers(c, ops)
    ensures forall m: nat :: Stands(c, ops, key, m) ==> m <= |ops|
  {
    assert ops[..|ops|] == ops;
    assert ops[|ops| - 1].SuccessOp? ==> !Triggers(c, ops);
    hide Triggers;
  }

  lemma {:induction false} NoneStandAtFirst(c: Config, key: string)
    ensures forall m: nat :: !Stands(c, [], key, m)
  {
  }

  lemma {:induction false} LastBlockStands(c: Config, ops: seq<Op>, key: string)
    ensures var n := LastBlock(c, ops, key);
            (n > 0 ==> Stands(c, ops, key, n)) && forall m: nat :: Stands(c, ops, key, m) ==> m <= n
    decreases |ops|
  {
    hide Stands, Triggers;
    if ops == [] {
      NoneStandAtFirst(c, key);
    } else {
      var init, last := ops[..|ops| - 1], ops[|ops| - 1];
      var n := LastBlock(c, ops, key);
      LastBlockStands(c, init, key);
      StandsNow(c, ops, key);
      forall m: nat | Stands(c, ops, key, m) ensures m <= n {
        assert m <= |ops|;
        if m < |ops| {
          StandsLater(c, ops, key, m);
        }
      }
      if 0 < n < |ops| {
        StandsLater(c, ops, key, n);
      }
    }
  }

  function BlockEnd(s: States, key: string): Option<int> {
    if key in s then s[key].blockedUntil else None
  }

  /** The end of the last block of the run. */
  ghost function LastEnd(c: Config, ops: seq<Op>, key: string): Option<int> {
    var n := LastBlock(c, ops, key);
    if n == 0 then None else Some(ops[n - 1].at + c.block)
  }

  /** What is stored about the end of a block: nothing else than the last block of the run, and it is stored
      as long as that block lasts. */
  ghost predicate Recorded(c: Config, ops: seq<Op>, key: string) {
    var stored, end := BlockEnd(After(c, ops), key), LastEnd(c, ops, key);
    && (stored.Some? ==> stored == end)
    && (end.Some? && ops != [] && ops[|ops| - 1].at < end.value ==> stored.Some?)
  }

  lemma {:induction false} LastEndSnoc(c: Config, init: seq<Op>, last: Op, key: string)
    ensures LastEnd(c, init + [last], key)
         == if last == SuccessOp(key, last.at) then None
            else if Triggers(c, init + [last]) && last.key == key then Some(last.at + c.block)
            else LastEnd(c, init, key)
  {
    var ops := init + [last];
    assert ops[..|init|] == init && ops[|init|] == last;
    hide Triggers;
    var n := LastBlock(c, init, key);
    assert n > 0 ==> ops[n - 1] == init[n - 1];
  }

  /** A step leaves the end of a block alone, drops it once it is over, or starts a new block; a success of the
      key drops it. */
  lemma {:induction false} StepMovesEnd(c: Config, init: seq<Op>, last: Op, key: string)
    ensures var s, t := After(c, init), After(c, init + [last]);
            if last == SuccessOp(key, last.at) then BlockEnd(t, key) == None
            else if Triggers(c, init + [last]) && last.key == key then BlockEnd(t, key) == Some(last.at + c.block)
            else
              && (BlockEnd(t, key).Some? ==> BlockEnd(t, key) == BlockEnd(s, key))
              && (BlockEnd(s, key).Some? && last.at < BlockEnd(s, key).value ==> BlockEnd(t, key).Some?)
  {
    assert (init + [last])[..|init|] == init;
    if last.FailOp? {
      FailMovesEnd(c, After(c, init), last.key, last.at, key);
      hide Fail;
    } else if last.CheckOp? {
      hide Fail;
    }
  }

  lemma {:induction false} FailMovesEnd(c: Config, s: States, failed: string, at: int, key: string)
    ensures var (t, triggered) := Fail(c, s, failed, at);
            if triggered && failed == key then BlockEnd(t, key) == Some(at + c.block)
            else
              && (BlockEnd(t, key).Some? ==> BlockEnd(t, key) == BlockEnd(s, key))
              && (BlockEnd(s, key).Some? && at < BlockEnd(s, key).value ==> BlockEnd(t, key).Some?)
  {
  }

  lemma {:induction false} StepRecords(c: Config, init: seq<Op>, last: Op, key: string)
    requires Recorded(c, init, key) && (init != [] ==> init[|init| - 1].at <= last.at)
    ensures Recorded(c, init + [last], key)
  {
    var ops := init + [last];
    assert ops[|ops| - 1] == last;
    LastEndSnoc(c, init, last, key);
    StepMovesEnd(c, init, last, key);
    assert init == [] ==> LastEnd(c, init, key) == None;
    hide After, Triggers, LastEnd, BlockEnd;
  }

  lemma {:induction false} RunRecords(c: Config, ops: seq<Op>, key: string)
    requires InOrder(ops)
    ensures Recorded(c, ops, key)
    decreases |ops|
  {
    if ops != [] {
      var init, last := ops[..|ops| - 1], ops[|ops| - 1];
      RunRecords(c, init, key);
      StepRecords(c, init, last, key);
      assert init + [last] == ops;
    }
  }

  lemma {:induction false} CheckReadsEnd(c: Config, s: States, key: string, now: int)
    ensures var verdict, end := Check(c, s, key, now).1, BlockEnd(s, key);
            && (verdict.Blocked? <==> end.Some? && now < end.value)
            && (verdict.Blocked? ==> verdict.retryAfter == end.value - now)
  {
  }

  lemma {:induction false} StandsInRange(c: Config, ops: seq<Op>, key: string, m: nat)
    requires Stands(c, ops, key, m)
    ensures 0 < m <= |ops|
  {
  }

  /** Over every run in order: a check at `now` is refused if and only if the run has started a block of the key
      that lasts beyond `now`, with no later success of the key; it is told to wait for exactly the rest of the
      last such block. */
  lemma {:induction false} RefusedIffBlockStands(c: Config, ops: seq<Op>, key: string, now: int)
    requires InOrder(ops) && (ops != [] ==> ops[|ops| - 1].at <= now)
    ensures var verdict := Check(c, After(c, ops), key, now).1;
            && (verdict.Blocked? <==> exists n: nat :: Stands(c, ops, key, n) && now < ops[n - 1].at + c.block)
            && (verdict.Blocked? ==>
                  exists n: nat :: Stands(c, ops, key, n) && (forall m: nat :: Stands(c, ops, key, m) ==> m <= n)
                    && verdict.retryAfter == ops[n - 1].at + c.block - now)
  {
    RunRecords(c, ops, key);
    LastBlockStands(c, ops, key);
    CheckReadsEnd(c, After(c, ops), key, now);
    var n := LastBlock(c, ops, key);
    hide After, LastBlock, Check, BlockEnd;
    forall m: nat | Stands(c, ops, key, m) && now < ops[m - 1].at + c.block
      ensures n > 0 && now < ops[n - 1].at + c.block
    {
      StandsInRange(c, ops, key, m);
      assert m <= n && (m < n ==> ops[m - 1].at <= ops[n - 1].at);
    }
    hide Stands;
  }

  // ---------- When a block must start ----------

  /** The key's counter is still there when a failure at `at` looks for it: an eviction spares it only while
      the key is blocked. */
  predicate Spared(c: Config, s: States, key: string, at: int) {
    key in s && (|s| < c.keysCap || BlockedAt(s[key], at))
  }

  /** The operation drops the stored counter of the key: a success, a check after the block or the window has
      ended, or a failure of any key that evicts. */
  predicate Clears(c: Config, s: States, op: Op, key: string)
    requires key in s
  {
    match op
    case SuccessOp(k, _) => k == key
    case CheckOp(k, at) =>
      k == key && !BlockedAt(s[key], at) && (s[key].blockedUntil.Some? || at - s[key].firstAt >= c.window)
    case FailOp(_, at) => !Spared(c, s, key, at)
  }

  predicate NeverClears(c: Config, s: States, ops: seq<Op>, key: string)
    decreases |ops|
  {
    key in s && (ops != [] ==> !Clears(c, s, ops[0], key) && NeverClears(c, Step(c, s, ops[0]), ops[1..], key))
  }

  lemma {:induction false} CountingContinues(c: Config, s: States, ops: seq<Op>, key: string)
    requires NeverClears(c, s, ops, key)
    requires forall i :: 0 <= i < |ops| ==> ops[i].at < s[key].firstAt + c.window
    requires s[key].count + Failures(ops, key) < c.threshold
    ensures var s' := Continue(c, s, ops);
            key in s' && s'[key] == s[key].(count := s[key].count + Failures(ops, key))
    decreases |ops|
  {
    if ops != [] {
      FailuresHead(ops, key);
      var s' := Step(c, s, ops[0]);
      assert s'[key].firstAt == s[key].firstAt && s'[key].blockedUntil == s[key].blockedUntil;
      CountingContinues(c, s', ops[1..], key);
    }
  }

  lemma {:induction false} FailuresHead(ops: seq<Op>, key: string)
    requires ops != []
    ensures Failures(ops, key) == (if ops[0] == FailOp(key, ops[0].at) then 1 else 0) + Failures(ops[1..], key)
  {
    if |ops| > 1 {
      assert ops[..|ops| - 1][1..] == ops[1..][..|ops| - 2];
      FailuresHead(ops[..|ops| - 1], key);
    }
  }

  /** When a stored counter blocks: a failure within the window of its anchor that still finds the counter
      does exactly if it is the threshold-th one counted from the anchor; any other failure starts the count
      over and blocks only if a single failure is enough. The counter may be left over from a block. */
  lemma {:induction false} BlocksIffThreshold(c: Config, s: States, ops: seq<Op>, key: string, at: int)
    requires c.threshold >= 1 && NeverClears(c, s, ops, key)
    requires forall i :: 0 <= i < |ops| ==> ops[i].at < s[key].firstAt + c.window
    requires s[key].count + Failures(ops, key) < c.threshold
    ensures var s' := Continue(c, s, ops);
            Fail(c, s', key, at).1
            <==> if at < s[key].firstAt + c.window && (|s'| < c.keysCap || BlockedAt(s[key], at))
                 then s[key].count + Failures(ops, key) == c.threshold - 1
                 else c.threshold == 1
  {
    CountingContinues(c, s, ops, key);
  }

  /** A failure that finds no current counter becomes the anchor: when the key has none, when its counter is
      evicted, or when its window is over. A leftover block stays as it was. */
  lemma {:induction false} FailureAnchors(c: Config, s: States, key: string, at: int)
    requires c.threshold >= 2 && (Spared(c, s, key, at) ==> at >= s[key].firstAt + c.window)
    ensures var (s', triggered) := Fail(c, s, key, at);
            !triggered && key in s'
            && s'[key] == FailureState(1, at, if Spared(c, s, key, at) then s[key].blockedUntil else None)
  {
    SparedIsKept(c, s, key, at);
  }

  lemma {:induction false} SparedIsKept(c: Config, s: States, key: string, at: int)
    ensures key in BeforeFailure(c, s, at) <==> Spared(c, s, key, at)
    ensures Spared(c, s, key, at) ==> BeforeFailure(c, s, at)[key] == s[key]
  {
  }

  /** A key without a counter, before it is blocked: the next failure blocks if and only if it lies within
      one window of the first, is the threshold-th since, and does not evict. */
  lemma {:induction false} ThresholdTriggers(c: Config, s: States, ops: seq<Op>, key: string, at: int)
    requires key !in s && ops != [] && ops[0].FailOp? && ops[0].key == key
    requires NeverClears(c, Step(c, s, ops[0]), ops[1..], key)
    requires forall i :: 0 <= i < |ops| ==> ops[i].at < ops[0].at + c.window
    requires Failures(ops, key) < c.threshold
    ensures var s' := Continue(c, s, ops);
            Fail(c, s', key, at).1
            <==> at < ops[0].at + c.window && |s'| < c.keysCap && Failures(ops, key) == c.threshold - 1
  {
    FailuresHead(ops, key);
    FailureAnchors(c, s, key, ops[0].at);
    BlocksIffThreshold(c, Step(c, s, ops[0]), ops[1..], key, at);
  }

  // ---------- Two blocks share no failure ----------

  lemma {:induction false} AfterContinues(c: Config, a: seq<Op>, b: seq<Op>)
    ensures After(c, a + b) == Continue(c, After(c, a), b)
    decreases |b|
  {
    if b == [] {
      assert a + b == a;
    } else {
      AfterSnoc(c, a, b[0], Step(c, After(c, a), b[0]));
      AfterContinues(c, a + [b[0]], b[1..]);
      assert a + [b[0]] + b[1..] == a + b;
    }
  }

  /** What is counted for a key. */
  function CountOf(s: States, key: string): nat {
    if key in s then s[key].count else 0
  }

  /** A count grows by at most one with each failure of its key. */
  lemma {:induction false} CountGrows(c: Config, s: States, ops: seq<Op>, key: string)
    ensures CountOf(Continue(c, s, ops), key) <= CountOf(s, key) + Failures(ops, key)
    decreases |ops|
  {
    if ops != [] {
      FailuresHead(ops, key);
      CountGrows(c, Step(c, s, ops[0]), ops[1..], key);
    }
  }

  /** A failure that blocks leaves a count of zero, anchored at its own time. */
  lemma {:induction false} BlockAnchors(c: Config, s: States, key: string, at: int)
    requires Fail(c, s, key, at).1
    ensures Fail(c, s, key, at).0[key] == FailureState(0, at, Some(at + c.block))
  {
  }

  /** Between two failures that block the same key lie enough failures for the second block, which the first
      has not used. */
  lemma {:induction false} BlocksShareNoFailure(c: Config, before: seq<Op>, first: Op, between: seq<Op>, second: Op)
    requires first.key == second.key
    requires Triggers(c, before + [first]) && Triggers(c, before + [first] + between + [second])
    ensures Failures(between + [second], second.key) >= c.threshold
  {
    hide After, Triggers, Failures, Fail, Continue;
    var start := before + [first];
    TriggersAt(c, before, first);
    BlockAnchors(c, After(c, before), first.key, first.at);
    TriggersAt(c, start + between, second);
    AfterContinues(c, start, between);
    var s := After(c, start);
    assert CountOf(s, first.key) == 0;
    CountGrows(c, s, between, first.key);
    TriggerNeedsCount(c, Continue(c, s, between), first.key, second.at);
    FailuresLast(between, first.key, second.at);
  }

  lemma {:induction false} TriggersAt(c: Config, ops: seq<Op>, op: Op)
    requires Triggers(c, ops + [op])
    ensures op.FailOp? && Fail(c, After(c, ops), op.key, op.at).1
    ensures After(c, ops + [op]) == Fail(c, After(c, ops), op.key, op.at).0
  {
    assert (ops + [op])[..|ops|] == ops;
  }

  lemma {:induction false} FailuresLast(ops: seq<Op>, key: string, at: int)
    ensures Failures(ops + [FailOp(key, at)], key) == Failures(ops, key) + 1
  {
    assert (ops + [FailOp(key, at)])[..|ops|] == ops;
  }

  lemma {:induction false} TriggerNeedsCount(c: Config, s: States, key: string, at: int)
    requires Fail(c, s, key, at).1
    ensures CountOf(s, key) + 1 >= c.threshold
  {
  }

  // ---------- A map full of blocked keys ----------

  /** When all keys the map can hold but one are blocked, no other key can be blocked: its counter is evicted
      before it could grow. */
  lemma {:induction false} NoRoomNoBlock(c: Config, s: States, key: string, at: int)
    requires c.threshold >= 2 && c.keysCap >= 1 && |BlockedOnly(s, at)| >= c.keysCap - 1
    requires key in s ==> !BlockedAt(s[key], at)
    ensures !Fail(c, s, key, at).1
  {
    if |s| < c.keysCap && key in s {
      assert key !in BlockedOnly(s, at);
      SubmapSize(BlockedOnly(s, at), s, key);
    }
  }

  lemma {:induction false} SubmapSize(a: States, s: States, key: string)
    requires a.Keys <= s.Keys && key in s && key !in a
    ensures |a| < |s|
  {
    assert |a.Keys| == |a| && |s.Keys| == |s|;
    SubsetSize(a.Keys, s.Keys - {key});
  }

  lemma {:induction false} SubsetSize(a: set<string>, b: set<string>)
    requires a <= b
    ensures |a| <= |b|
  {
    assert b == a + (b - a);
  }

  /** What is blocked at `now` stays so through operations up to then, if none is a success. */
  lemma {:induction false} StepKeepsBlocked(c: Config, s: States, op: Op, from: int, now: int)
    requires !op.SuccessOp? && from <= op.at <= now < from + c.block
    ensures |BlockedOnly(Step(c, s, op), now)| >= |BlockedOnly(s, now)|
  {
    var a, b := BlockedOnly(s, now), BlockedOnly(Step(c, s, op), now);
    forall k | k in a.Keys ensures k in b.Keys {
      StepKeepsBlockedKey(c, s, op, from, now, k);
    }
    assert |a.Keys| == |a| && |b.Keys| == |b|;
    SubsetSize(a.Keys, b.Keys);
  }

  lemma {:induction false} StepKeepsBlockedKey(c: Config, s: States, op: Op, from: int, now: int, key: string)
    requires !op.SuccessOp? && from <= op.at <= now < from + c.block && key in s && BlockedAt(s[key], now)
    ensures var s' := Step(c, s, op); key in s' && BlockedAt(s'[key], now)
  {
  }

  /** So while such a map stands, no failure of a key that is not blocked starts a block, however many of them
      lie within a window. */
  lemma {:induction false} FullMapBlocksNoOne(
      c: Config, s: States, ops: seq<Op>, key: string, from: int, now: int)
    requires c.threshold >= 2 && c.keysCap >= 1 && |BlockedOnly(s, now)| >= c.keysCap - 1
    requires forall i :: 0 <= i < |ops| ==> !ops[i].SuccessOp? && from <= ops[i].at <= now
    requires now < from + c.block && (key in s ==> !BlockedAt(s[key], from))
    ensures var s' := Continue(c, s, ops);
            && (key in s' ==> !BlockedAt(s'[key], from))
            && forall at :: from <= at <= now ==> !Fail(c, s', key, at).1
    decreases |ops|
  {
    if ops == [] {
      forall at | from <= at <= now ensures !Fail(c, s, key, at).1 {
        MoreBlockedBefore(s, at, now);
        NoRoomNoBlock(c, s, key, at);
      }
    } else {
      StepKeepsBlocked(c, s, ops[0], from, now);
      MoreBlockedBefore(s, ops[0].at, now);
      StepKeepsUnblocked(c, s, ops[0], key, from);
      hide Step, Fail, BlockedOnly;
      FullMapBlocksNoOne(c, Step(c, s, ops[0]), ops[1..], key, from, now);
    }
  }

  lemma {:induction false} MoreBlockedBefore(s: States, at: int, now: int)
    requires at <= now
    ensures |BlockedOnly(s, at)| >= |BlockedOnly(s, now)|
  {
    var a, b := BlockedOnly(s, now), BlockedOnly(s, at);
    assert |a.Keys| == |a| && |b.Keys| == |b|;
    SubsetSize(a.Keys, b.Keys);
  }

  lemma {:induction false} StepKeepsUnblocked(c: Config, s: States, op: Op, key: string, from: int)
    requires c.threshold >= 2 && c.keysCap >= 1 && from <= op.at && |BlockedOnly(s, op.at)| >= c.keysCap - 1
    requires key in s ==> !BlockedAt(s[key], from)
    ensures var s' := Step(c, s, op); key in s' ==> !BlockedAt(s'[key], from)
  {
    if op.FailOp? && op.key == key {
      NoRoomNoBlock(c, s, key, op.at);
      hide BlockedOnly;
    }
  }

  /** n different keys. */
  function Name(i: nat): (s: string)
    ensures |s| == i
  {
    seq(i, j => 'x')
  }

  /** Two failures at time 0 for each of n keys. */
  function Fill(n: nat): seq<Op> {
    if n == 0 then [] else Fill(n - 1) + [FailOp(Name(n - 1), 0)] + [FailOp(Name(n - 1), 0)]
  }

  ghost predicate Filled(s: States, n: nat) {
    && |s| == n
    && (forall k :: k in s ==> |k| < n && k == Name(|k|) && BlockedAt(s[k], 0))
  }

  lemma {:induction false} FillBlocks(c: Config, n: nat)
    requires c == New(2, 60, 30) && n < c.keysCap
    ensures Filled(After(c, Fill(n)), n)
  {
    if n > 0 {
      FillBlocks(c, n - 1);
      var s, name := After(c, Fill(n - 1)), Name(n - 1);
      var one := s[name := FailureState(1, 0, None)];
      var two := s[name := FailureState(0, 0, Some(30))];
      OneMoreFilled(s, n);
      hide Filled;
      assert name !in s && |s| == n - 1;
      hide Fill, After, BeforeFailure, Name, Step;
      TwoFailures(c, s, name);
      AfterSnoc(c, Fill(n - 1), FailOp(name, 0), one);
      AfterSnoc(c, Fill(n - 1) + [FailOp(name, 0)], FailOp(name, 0), two);
      FillIs(n);
    }
  }

  lemma {:induction false} OneMoreFilled(s: States, n: nat)
    requires n > 0 && Filled(s, n - 1)
    ensures Name(n - 1) !in s && |s| == n - 1 && Filled(s[Name(n - 1) := FailureState(0, 0, Some(30))], n)
  {
    var two := s[Name(n - 1) := FailureState(0, 0, Some(30))];
    assert |two| == |s| + 1;
  }

  lemma {:induction false} FillIs(n: nat)
    requires n > 0
    ensures Fill(n) == Fill(n - 1) + [FailOp(Name(n - 1), 0)] + [FailOp(Name(n - 1), 0)]
  {
  }

  lemma {:induction false} TwoFailures(c: Config, s: States, name: string)
    requires c == New(2, 60, 30) && |s| + 1 < c.keysCap && name !in s
    ensures var one := s[name := FailureState(1, 0, None)];
            && Step(c, s, FailOp(name, 0)) == one
            && Step(c, one, FailOp(name, 0)) == s[name := FailureState(0, 0, Some(30))]
  {
    var one := s[name := FailureState(1, 0, None)];
    assert |one| == |s| + 1;
    assert one[name := FailureState(0, 0, Some(30))] == s[name := FailureState(0, 0, Some(30))];
  }

  lemma {:induction false} NoTriggerAfter(c: Config, start: seq<Op>, ops: seq<Op>, key: string)
    requires c.threshold >= 2 && c.keysCap >= 1 && c.block > 0
    requires var s := After(c, start); key !in s && |BlockedOnly(s, 0)| >= c.keysCap - 1
    requires forall op :: op in ops ==> op == FailOp(key, 0)
    ensures !Triggers(c, start + ops + [FailOp(key, 0)])
  {
    hide After, Continue, Fail, BlockedOnly;
    assert forall i :: 0 <= i < |ops| ==> ops[i] in ops;
    FullMapBlocksNoOne(c, After(c, start), ops, key, 0, 0);
    AfterContinues(c, start, ops);
    assert (start + ops + [FailOp(key, 0)])[..|start + ops|] == start + ops;
  }

  /** A run of the guard in which any number of failures of a key at one instant block nothing: all other
      places of the map are taken by blocked keys. */
  lemma {:induction false} FullMapRun(tries: nat)
    ensures var c := New(2, 60, 30);
            !Triggers(c, Fill(c.keysCap - 1) + Repeated("y", tries) + [FailOp("y", 0)])
  {
    var c := New(2, 60, 30);
    FillBlocks(c, c.keysCap - 1);
    FilledIsBlocked(After(c, Fill(c.keysCap - 1)), c.keysCap - 1);
    RepeatedIs("y", tries);
    hide After, Fill, BlockedOnly, Repeated, Filled, Triggers;
    NoTriggerAfter(c, Fill(c.keysCap - 1), Repeated("y", tries), "y");
  }

  lemma {:induction false} FilledIsBlocked(s: States, n: nat)
    requires Filled(s, n)
    ensures "y" !in s && |BlockedOnly(s, 0)| == n
  {
    assert "y"[0] != Name(1)[0];
    assert BlockedOnly(s, 0) == s;
  }

  function Repeated(key: string, n: nat): seq<Op> {
    if n == 0 then [] else [FailOp(key, 0)] + Repeated(key, n - 1)
  }

  lemma {:induction false} RepeatedIs(key: string, n: nat)
    ensures forall op :: op in Repeated(key, n) ==> op == FailOp(key, 0)
  {
    if n > 0 {
      RepeatedIs(key, n - 1);
    }
  }

  /** The window does not slide: it stays at its anchor, so three failures within less than a window need
      not block when the first of them was counted in an older window. */
  lemma {:induction false} WindowDoesNotSlide()
    ensures var c := Config(3, 60, 30, KEYS_CAP);
            var ops := [FailOp("k", 0), FailOp("k", 50), FailOp("k", 70), FailOp("k", 75)];
            && InOrder(ops) && !Triggers(c, ops)
            && Failures(ops[1..], "k") == c.threshold && ops[3].at - ops[1].at < c.window
  {
    var ops := [FailOp("k", 0), FailOp("k", 50), FailOp("k", 70), FailOp("k", 75)];
    hide Triggers, Failures, After;
    assert ops[1..] == [FailOp("k", 50), FailOp("k", 70), FailOp("k", 75)];
    ThreeFailures(ops[1..]);
    CountStartsOver(Config(3, 60, 30, KEYS_CAP), ops);
  }

  lemma {:induction false} CountStartsOver(c: Config, ops: seq<Op>)
    requires c == Config(3, 60, 30, KEYS_CAP) && |ops| == 4 && ops[0] == FailOp("k", 0)
    requires ops[1] == FailOp("k", 50) && ops[2] == FailOp("k", 70) && ops[3] == FailOp("k", 75)
    ensures !Triggers(c, ops)
  {
    assert After(c, ops[..0]) == map[];
    hide After, Triggers;
    AfterSnoc(c, ops[..0], ops[0], map["k" := FailureState(1, 0, None)]);
    assert ops[..0] + [ops[0]] == ops[..1];
    AfterSnoc(c, ops[..1], ops[1], map["k" := FailureState(2, 0, None)]);
    assert ops[..1] + [ops[1]] == ops[..2];
    AfterSnoc(c, ops[..2], ops[2], map["k" := FailureState(1, 70, None)]);
    assert ops[..2] + [ops[2]] == ops[..3];
    SecondDoesNotTrigger(c, ops);
  }

  lemma {:induction false} SecondDoesNotTrigger(c: Config, ops: seq<Op>)
    requires c == Config(3, 60, 30, KEYS_CAP) && |ops| == 4 && ops[3] == FailOp("k", 75)
    requires After(c, ops[..3]) == map["k" := FailureState(1, 70, None)]
    ensures !Triggers(c, ops)
  {
  }

  /** The anchor survives a block that no check has cleared: after a block by three failures, three more
      within less than a window do not block, because the window of the blocking failure ends in between. */
  lemma {:induction false} AnchorSurvivesBlock()
    ensures var c := Config(3, 60, 30, KEYS_CAP);
            var ops := [FailOp("k", 0), FailOp("k", 1), FailOp("k", 2), FailOp("k", 40), FailOp("k", 50),
              FailOp("k", 63)];
            && InOrder(ops) && Triggers(c, ops[..3]) && !Triggers(c, ops)
            && Failures(ops[3..], "k") == c.threshold && ops[5].at - ops[3].at < c.window
  {
    var ops := [FailOp("k", 0), FailOp("k", 1), FailOp("k", 2), FailOp("k", 40), FailOp("k", 50), FailOp("k", 63)];
    hide Triggers, Failures, After;
    assert ops[3..] == [FailOp("k", 40), FailOp("k", 50), FailOp("k", 63)];
    ThreeFailures(ops[3..]);
    assert ops[..3] == [FailOp("k", 0), FailOp("k", 1), FailOp("k", 2)];
    BlockAtTwo(Config(3, 60, 30, KEYS_CAP), ops[..3]);
    CountsFromTwo(Config(3, 60, 30, KEYS_CAP), ops);
  }

  lemma {:induction false} CountsFromTwo(c: Config, ops: seq<Op>)
    requires c == Config(3, 60, 30, KEYS_CAP) && |ops| == 6
    requires After(c, ops[..3]) == map["k" := FailureState(0, 2, Some(32))]
    requires ops[3] == FailOp("k", 40) && ops[4] == FailOp("k", 50) && ops[5] == FailOp("k", 63)
    ensures !Triggers(c, ops)
  {
    hide After, Triggers;
    AfterSnoc(c, ops[..3], ops[3], map["k" := FailureState(1, 2, Some(32))]);
    assert ops[..3] + [ops[3]] == ops[..4];
    AfterSnoc(c, ops[..4], ops[4], map["k" := FailureState(2, 2, Some(32))]);
    assert ops[..4] + [ops[4]] == ops[..5];
    NoTrigger(c, ops);
  }

  lemma {:induction false} BlockAtTwo(c: Config, o3: seq<Op>)
    requires c == Config(3, 60, 30, KEYS_CAP) && o3 == [FailOp("k", 0), FailOp("k", 1), FailOp("k", 2)]
    ensures Triggers(c, o3) && After(c, o3) == map["k" := FailureState(0, 2, Some(32))]
  {
    var o1 := [FailOp("k", 0)];
    var o2 := o1 + [FailOp("k", 1)];
    assert After(c, []) == map[];
    hide After;
    AfterSnoc(c, [], FailOp("k", 0), map["k" := FailureState(1, 0, None)]);
    AfterSnoc(c, o1, FailOp("k", 1), map["k" := FailureState(2, 0, None)]);
    AfterSnoc(c, o2, FailOp("k", 2), map["k" := FailureState(0, 2, Some(32))]);
    assert o3 == o2 + [FailOp("k", 2)] && o3[..2] == o2;
  }

  lemma {:induction false} NoTrigger(c: Config, ops: seq<Op>)
    requires c == Config(3, 60, 30, KEYS_CAP) && |ops| == 6 && ops[5] == FailOp("k", 63)
    requires After(c, ops[..5]) == map["k" := FailureState(2, 2, Some(32))]
    ensures !Triggers(c, ops)
  {
  }

  lemma {:induction false} ThreeFailures(ops: seq<Op>)
    requires |ops| == 3 && forall op :: op in ops ==> op == FailOp("k", op.at)
    ensures Failures(ops, "k") == 3
  {
    FailuresHead(ops, "k");
    FailuresHead(ops[1..], "k");
    FailuresHead(ops[1..][1..], "k");
  }

  lemma {:induction false} AfterSnoc(c: Config, ops: seq<Op>, op: Op, s: States)
    requires Step(c, After(c, ops), op) == s
    ensures After(c, ops + [op]) == s
  {
    assert (ops + [op])[..|ops|] == ops;
  }
}
