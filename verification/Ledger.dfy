/** Charging by token tiers (server/src/billing/ladder.rs). */
module Ladder {
  /** Thresholds that the total exceeds. */
  function Crossed(total: nat, ladder: seq<nat>): (n: nat)
    ensures n <= |ladder|
  {
    if ladder == [] then 0 else (if total > ladder[0] then 1 else 0) + Crossed(total, ladder[1..])
  }

  function BilledUses(total: nat, ladder: seq<nat>): (uses: nat)
    ensures 1 <= uses <= |ladder| + 1
  {
    Crossed(total, ladder) + 1
  }

  predicate Increasing(ladder: seq<nat>) {
    forall i, j :: 0 <= i < j < |ladder| ==> ladder[i] < ladder[j]
  }

  /** On a strictly increasing ladder, k + 1 uses are billed exactly for totals in tier k: above the
      first k thresholds and not above the next one. */
  lemma {:induction false} Tier(total: nat, ladder: seq<nat>, k: nat)
    requires Increasing(ladder) && k <= |ladder|
    ensures BilledUses(total, ladder) == k + 1
       <==> (k == 0 || ladder[k - 1] < total) && (k == |ladder| || total <= ladder[k])
    decreases |ladder|
  {
    if ladder != [] {
      if total <= ladder[0] {
        NoneCrossed(total, ladder);
      } else if k > 0 {
        Tier(total, ladder[1..], k - 1);
      }
    }
  }

  lemma {:induction false} NoneCrossed(total: nat, ladder: seq<nat>)
    requires forall i :: 0 <= i < |ladder| ==> total <= ladder[i]
    ensures Crossed(total, ladder) == 0
  {
    if ladder != [] {
      NoneCrossed(total, ladder[1..]);
    }
  }
}

/** The admission rule (server/src/billing/quota.rs). */
module Quota {
  import opened Basics

  datatype Plan = Plan(enabled: bool, limit5h: Option<nat>, limitWeek: Option<nat>, limitMonth: Option<nat>)

  datatype Entitlement = Entitlement(
    user: nat, plan: nat, active: bool, expiresAt: int, total: Option<nat>, used: nat)

  datatype WindowUsage = WindowUsage(used5h: nat, usedWeek: nat, usedMonth: nat)

  datatype Denial =
    | NoEntitlement
    | UsesExhausted(total: nat, used: nat)
    | Window5h(limit: nat, used: nat)
    | WindowWeek(limit: nat, used: nat)
    | WindowMonth(limit: nat, used: nat)

  predicate Full(limit: Option<nat>, used: nat) {
    limit.Some? && used >= limit.value
  }

  /** None when the request is allowed. */
  function Decide(plan: Plan, ent: Entitlement, w: WindowUsage): Option<Denial> {
    if Full(ent.total, ent.used) then Some(UsesExhausted(ent.total.value, ent.used))
    else if Full(plan.limit5h, w.used5h) then Some(Window5h(plan.limit5h.value, w.used5h))
    else if Full(plan.limitWeek, w.usedWeek) then Some(WindowWeek(plan.limitWeek.value, w.usedWeek))
    else if Full(plan.limitMonth, w.usedMonth) then Some(WindowMonth(plan.limitMonth.value, w.usedMonth))
    else None
  }
}

/** The two billing tables and the transactions on them (server/src/billing/store.rs). Transactions run
    one after the other; a row's id is its position in the table, and times are microseconds. */
module Ledger {
  import opened Basics
  import opened Quota
  import Ladder

  const MINUTE: int := 60_000_000
  const HOUR: int := 60 * MINUTE
  const DAY: int := 24 * HOUR
  const TURN_WINDOW: int := 15 * MINUTE
  const TURN_MAX_REQUESTS: nat := 12
  const I64_MAX: nat := 0x7FFF_FFFF_FFFF_FFFF

  datatype Status = Reserved | Answered | UpstreamError | Aborted

  /** The columns of usage_events that billing reads. */
  datatype Row = Row(
    user: nat, ent: Option<nat>, turn: Option<string>, status: Status,
    input: Option<nat>, output: Option<nat>, billed: nat, createdAt: int)

  datatype State = State(rows: seq<Row>, ents: map<nat, Entitlement>, plans: map<nat, Plan>)

  datatype Settlement = Settlement(status: Status, input: nat, output: nat)

  datatype Outcome = Granted(eventId: nat, ent: nat, charged: bool) | Denied(denial: Denial)

  function AsI64(value: nat): nat {
    if value <= I64_MAX then value else I64_MAX
  }

  function OrZero(n: Option<nat>): nat {
    if n.Some? then n.value else 0
  }

  function Tokens(r: Row): nat {
    OrZero(r.input) + OrZero(r.output)
  }

  // ---------- Reading ----------

  /** An entitlement that find_entitlement_tx may return. */
  predicate Effective(s: State, user: nat, e: nat, now: int) {
    && e in s.ents
    && s.ents[e].user == user && s.ents[e].active && s.ents[e].expiresAt > now
    && s.ents[e].plan in s.plans && s.plans[s.ents[e].plan].enabled
    && !Full(s.ents[e].total, s.ents[e].used)
  }

  /** The result of find_entitlement_tx: an effective entitlement that expires first, if there is any.
      The query leaves open which one of several that expire together. */
  ghost predicate IsPick(s: State, user: nat, now: int, pick: Option<nat>) {
    match pick
    case None => forall e :: e in s.ents ==> !Effective(s, user, e, now)
    case Some(e) =>
      && Effective(s, user, e, now)
      && forall f :: f in s.ents && Effective(s, user, f, now) ==> s.ents[e].expiresAt <= s.ents[f].expiresAt
  }

  /** Billed uses of the first n rows inside a sliding window. */
  function WindowUsed(rows: seq<Row>, n: nat, user: nat, now: int, span: int): nat
    requires n <= |rows|
  {
    if n == 0 then 0 else
      WindowUsed(rows, n - 1, user, now, span)
      + if rows[n - 1].user == user && rows[n - 1].createdAt > now - span then rows[n - 1].billed else 0
  }

  function Windows(rows: seq<Row>, user: nat, now: int): WindowUsage {
    WindowUsage(
      WindowUsed(rows, |rows|, user, now, 5 * HOUR),
      WindowUsed(rows, |rows|, user, now, 7 * DAY),
      WindowUsed(rows, |rows|, user, now, 30 * DAY))
  }

  // ---------- reserve ----------

  predicate RecentInTurn(r: Row, user: nat, turn: string, now: int) {
    r.user == user && r.turn == Some(turn) && r.createdAt > now - TURN_WINDOW
  }

  /** The first recent row of the turn among the first n rows. */
  function RecentHead(rows: seq<Row>, n: nat, user: nat, turn: string, now: int): (h: Option<nat>)
    requires n <= |rows|
    ensures h.Some? ==> h.value < n && RecentInTurn(rows[h.value], user, turn, now)
  {
    if n == 0 then None
    else if RecentHead(rows, n - 1, user, turn, now).Some? then RecentHead(rows, n - 1, user, turn, now)
    else if RecentInTurn(rows[n - 1], user, turn, now) then Some(n - 1) else None
  }

  function RecentCount(rows: seq<Row>, n: nat, user: nat, turn: string, now: int): (count: nat)
    requires n <= |rows|
    ensures count <= n
  {
    if n == 0 then 0 else
      RecentCount(rows, n - 1, user, turn, now)
      + if RecentInTurn(rows[n - 1], user, turn, now) then 1 else 0
  }

  /** The entitlement of a turn that may go on for free. */
  function FreeRide(s: State, user: nat, turn: Option<string>, now: int): Option<nat> {
    if turn.None? then None else
      var head := RecentHead(s.rows, |s.rows|, user, turn.value, now);
      if head.Some? && RecentCount(s.rows, |s.rows|, user, turn.value, now) < TURN_MAX_REQUESTS
      then s.rows[head.value].ent else None
  }

  function NewRow(user: nat, ent: nat, turn: Option<string>, billed: nat, now: int): Row {
    Row(user, Some(ent), turn, Reserved, None, None, billed, now)
  }

  function Charge(s: State, e: nat): State
    requires e in s.ents
  {
    s.(ents := s.ents[e := s.ents[e].(used := s.ents[e].used + 1)])
  }

  function Reserve(s: State, user: nat, turn: Option<string>, now: int, pick: Option<nat>): (State, Outcome)
    requires pick.Some? ==> Effective(s, user, pick.value, now)
  {
    var free := FreeRide(s, user, turn, now);
    if free.Some? then
      (s.(rows := s.rows + [NewRow(user, free.value, turn, 0, now)]), Granted(|s.rows|, free.value, false))
    else if pick.None? then (s, Denied(NoEntitlement))
    else
      var e := pick.value;
      var denial := Decide(s.plans[s.ents[e].plan], s.ents[e], Windows(s.rows, user, now));
      if denial.Some? then (s, Denied(denial.value))
      else (Charge(s, e).(rows := s.rows + [NewRow(user, e, turn, 1, now)]), Granted(|s.rows|, e, true))
  }

  /** The row is one of the turn from the last quarter of an hour. */
  predicate LatelyInTurn(r: Row, user: nat, turn: string, now: int) {
    r.user == user && r.turn == Some(turn) && now - r.createdAt < 900_000_000
  }

  /** Those among the first n rows. */
  function Lately(rows: seq<Row>, n: nat, user: nat, turn: string, now: int): set<nat>
    requires n <= |rows|
  {
    set i: nat | i < n && LatelyInTurn(rows[i], user, turn, now)
  }

  lemma {:induction false} RecentCountIs(rows: seq<Row>, n: nat, user: nat, turn: string, now: int)
    requires n <= |rows|
    ensures RecentCount(rows, n, user, turn, now) == |Lately(rows, n, user, turn, now)|
  {
    var lately := Lately(rows, n, user, turn, now);
    if n == 0 {
      assert lately == {};
    } else {
      RecentCountIs(rows, n - 1, user, turn, now);
      assert lately
          == Lately(rows, n - 1, user, turn, now)
             + if LatelyInTurn(rows[n - 1], user, turn, now) then {n - 1} else {};
    }
  }

  lemma {:induction false} RecentHeadIs(rows: seq<Row>, n: nat, user: nat, turn: string, now: int)
    requires n <= |rows|
    ensures var h := RecentHead(rows, n, user, turn, now);
            forall i :: 0 <= i < (if h.Some? then h.value else n) ==> !LatelyInTurn(rows[i], user, turn, now)
  {
    if n > 0 {
      RecentHeadIs(rows, n - 1, user, turn, now);
    }
  }

  /** The oldest request of the turn within the last quarter of an hour, the turn having made fewer than
      twelve since, is on an entitlement. */
  ghost predicate RidesFree(s: State, user: nat, turn: string, now: int, first: nat) {
    && first < |s.rows| && LatelyInTurn(s.rows[first], user, turn, now) && s.rows[first].ent.Some?
    && (forall i :: 0 <= i < first ==> !LatelyInTurn(s.rows[i], user, turn, now))
    && |Lately(s.rows, |s.rows|, user, turn, now)| < 12
  }

  lemma {:induction false} FreeRideIs(s: State, user: nat, turn: string, now: int)
    ensures var free := FreeRide(s, user, Some(turn), now);
            && (free.Some? <==> exists first: nat :: RidesFree(s, user, turn, now, first))
            && forall first: nat :: RidesFree(s, user, turn, now, first) ==> free == s.rows[first].ent
  {
    RecentCountIs(s.rows, |s.rows|, user, turn, now);
    RecentHeadIs(s.rows, |s.rows|, user, turn, now);
    var h := RecentHead(s.rows, |s.rows|, user, turn, now);
    hide RecentHead, RecentCount;
    if FreeRide(s, user, Some(turn), now).Some? {
      assert RidesFree(s, user, turn, now, h.value);
    }
    forall first: nat | RidesFree(s, user, turn, now, first) ensures h == Some(first) {
      assert LatelyInTurn(s.rows[first], user, turn, now);
    }
  }

  /** What a reservation does: a request of a turn that rides free is put on the turn's entitlement and moves no
      counter, whatever is left of it; any other one is put on the entitlement found, is billed one use and
      moves that counter by one, or is denied and changes nothing. */
  lemma {:induction false} ReservationIs(s: State, user: nat, turn: Option<string>, now: int, pick: Option<nat>)
    requires pick.Some? ==> Effective(s, user, pick.value, now)
    ensures var (t, outcome) := Reserve(s, user, turn, now, pick);
            var free := turn.Some? && exists first: nat :: RidesFree(s, user, turn.value, now, first);
            && (outcome.Granted? && !outcome.charged <==> free)
            && (outcome.Denied? ==> t == s)
            && (outcome.Granted? ==>
                  && t.plans == s.plans && outcome.eventId == |s.rows|
                  && |t.rows| == |s.rows| + 1 && t.rows[..|s.rows|] == s.rows
                  && var row := t.rows[|s.rows|];
                  && row.user == user && row.turn == turn && row.createdAt == now && row.ent == Some(outcome.ent)
                  && row.status == Reserved && row.input == None && row.output == None
                  && row.billed == (if free then 0 else 1))
            && (outcome.Granted? && free ==>
                  && t.ents == s.ents
                  && forall first: nat :: RidesFree(s, user, turn.value, now, first) ==>
                       s.rows[first].ent == Some(outcome.ent))
            && (outcome.Granted? && !free ==>
                  && pick == Some(outcome.ent) && t.ents.Keys == s.ents.Keys
                  && t.ents[outcome.ent] == s.ents[outcome.ent].(used := s.ents[outcome.ent].used + 1)
                  && forall e :: e in s.ents && e != outcome.ent ==> t.ents[e] == s.ents[e])
  {
    if turn.Some? {
      FreeRideIs(s, user, turn.value, now);
    }
    hide RidesFree, Decide;
  }

  // ---------- settle ----------

  /** Row i belongs to the turn of row id; a row without a turn id is a turn of its own. */
  predicate SameTurn(rows: seq<Row>, id: nat, i: nat)
    requires id < |rows| && i < |rows|
  {
    rows[i].user == rows[id].user && if rows[id].turn.None? then i == id else rows[i].turn == rows[id].turn
  }

  /** The first row of the turn of row id. */
  function Head(rows: seq<Row>, id: nat): (h: nat)
    requires id < |rows|
    ensures h <= id && SameTurn(rows, id, h)
    ensures forall i :: 0 <= i < h ==> !SameTurn(rows, id, i)
  {
    FirstFrom(rows, id, 0)
  }

  function FirstFrom(rows: seq<Row>, id: nat, i: nat): (h: nat)
    requires id < |rows| && i <= id
    ensures i <= h <= id && SameTurn(rows, id, h)
    ensures forall j :: i <= j < h ==> !SameTurn(rows, id, j)
    decreases id - i
  {
    if SameTurn(rows, id, i) then i else FirstFrom(rows, id, i + 1)
  }

  /** Rows that belong to the same turns. */
  ghost predicate SameShape(a: seq<Row>, b: seq<Row>) {
    |a| == |b| && forall i :: 0 <= i < |a| ==> a[i].user == b[i].user && a[i].turn == b[i].turn
  }

  lemma {:induction false} SameShapeTurns(a: seq<Row>, b: seq<Row>, id: nat)
    requires SameShape(a, b) && id < |a|
    ensures forall i :: 0 <= i < |a| ==> (SameTurn(a, id, i) <==> SameTurn(b, id, i))
    ensures Head(a, id) == Head(b, id)
  {
    assert forall i :: 0 <= i < |a| ==> (SameTurn(a, id, i) <==> SameTurn(b, id, i));
  }

  predicate HasStatus(rows: seq<Row>, id: nat, status: Status)
    requires id < |rows|
  {
    exists i :: 0 <= i < |rows| && SameTurn(rows, id, i) && rows[i].status == status
  }

  function TurnTokens(rows: seq<Row>, id: nat, n: nat): nat
    requires id < |rows| && n <= |rows|
  {
    if n == 0 then 0 else
      TurnTokens(rows, id, n - 1) + if SameTurn(rows, id, n - 1) then Tokens(rows[n - 1]) else 0
  }

  /** What the turn of row id costs once nothing is in flight. */
  function TurnCharge(rows: seq<Row>, id: nat, ladder: seq<nat>): nat
    requires id < |rows|
  {
    if HasStatus(rows, id, Answered) || HasStatus(rows, id, Aborted)
    then Ladder.BilledUses(TurnTokens(rows, id, |rows|), ladder) else 0
  }

  /** The charge that recompute_turn_charge puts on the head row. */
  function Desired(rows: seq<Row>, id: nat, ladder: seq<nat>): nat
    requires id < |rows|
  {
    if HasStatus(rows, id, Reserved) then Max(rows[Head(rows, id)].billed, 1)
    else TurnCharge(rows, id, ladder)
  }

  /** The rows with the turn's charge on its head and none on its other rows. */
  function Rebilled(rows: seq<Row>, id: nat, charge: nat): (r: seq<Row>)
    requires id < |rows|
    ensures |r| == |rows|
  {
    var h := Head(rows, id);
    seq(|rows|, i requires 0 <= i < |rows| =>
      if i == h then rows[i].(billed := charge)
      else if SameTurn(rows, id, i) then rows[i].(billed := 0) else rows[i])
  }

  /** The entitlements after the head's charge changed from `was` to `charge`; never below zero. */
  function Patched(ents: map<nat, Entitlement>, ent: Option<nat>, was: nat, charge: nat): map<nat, Entitlement> {
    if ent.Some? && ent.value in ents && was != charge
    then ents[ent.value := ents[ent.value].(used := Max(ents[ent.value].used + charge - was, 0))]
    else ents
  }

  function Recompute(s: State, id: nat, ladder: seq<nat>): State
    requires id < |s.rows|
  {
    var head := s.rows[Head(s.rows, id)];
    var charge := Desired(s.rows, id, ladder);
    s.(rows := Rebilled(s.rows, id, charge), ents := Patched(s.ents, head.ent, head.billed, charge))
  }

  function Finished(r: Row, how: Settlement): Row {
    r.(status := how.status, input := Some(AsI64(how.input)), output := Some(AsI64(how.output)))
  }

  /** None: there is no reserved row with this id, nothing changes. */
  function Settle(s: State, id: nat, how: Settlement, ladder: seq<nat>): (State, Option<nat>) {
    if id >= |s.rows| || s.rows[id].status != Reserved then (s, None)
    else
      var marked := s.(rows := s.rows[id := Finished(s.rows[id], how)]);
      (Recompute(marked, id, ladder), Some(Desired(marked.rows, id, ladder)))
  }
}
