/** The order in which the requests of a turn are settled does not matter. */
module Confluence {
  import opened Basics
  import opened Quota
  import opened Ledger
  import opened Reconciliation
  import Ladder

  /** One settlement for every row of the turn. */
  type Plan = nat -> Settlement

  function SettleAll(s: State, ids: seq<nat>, how: Plan, ladder: seq<nat>): State
    decreases |ids|
  {
    if ids == [] then s else SettleAll(Settle(s, ids[0], how(ids[0]), ladder).0, ids[1..], how, ladder)
  }

  /** The rows after the reserved rows in `done` have been settled, before any charge is moved. */
  function Marked(rows: seq<Row>, done: set<nat>, how: Plan): (r: seq<Row>)
    ensures |r| == |rows|
  {
    seq(|rows|, i requires 0 <= i < |rows| =>
      if i in done && rows[i].status == Reserved then Finished(rows[i], how(i)) else rows[i])
  }

  ghost predicate SomeSettled(rows: seq<Row>, t: nat, done: set<nat>)
    requires t < |rows|
  {
    exists i :: 0 <= i < |rows| && i in done && SameTurn(rows, t, i) && rows[i].status == Reserved
  }

  /** The state after exactly the rows in `done` have been settled, in whatever order. */
  ghost function Partial(s: State, t: nat, done: set<nat>, how: Plan, ladder: seq<nat>): State
    requires t < |s.rows|
  {
    if SomeSettled(s.rows, t, done) then Recompute(s.(rows := Marked(s.rows, done, how)), t, ladder) else s
  }

  // ---------- Facts about turns ----------

  lemma {:induction false} TurnMates(rows: seq<Row>, t: nat, id: nat)
    requires t < |rows| && id < |rows| && SameTurn(rows, t, id)
    ensures forall i :: 0 <= i < |rows| ==> (SameTurn(rows, t, i) <==> SameTurn(rows, id, i))
    ensures Head(rows, t) == Head(rows, id)
  {
    assert forall i :: 0 <= i < |rows| ==> (SameTurn(rows, t, i) <==> SameTurn(rows, id, i));
  }

  lemma {:induction false} TokensSame(a: seq<Row>, b: seq<Row>, t: nat, id: nat, n: nat)
    requires |a| == |b| && t < |a| && id < |b| && n <= |a|
    requires forall i :: 0 <= i < |a| ==> (SameTurn(a, t, i) <==> SameTurn(b, id, i))
    requires forall i :: 0 <= i < |a| ==> a[i].input == b[i].input && a[i].output == b[i].output
    ensures TurnTokens(a, t, n) == TurnTokens(b, id, n)
  {
    if n > 0 {
      TokensSame(a, b, t, id, n - 1);
    }
  }

  /** What a turn costs depends on its statuses and tokens only. */
  lemma {:induction false} ChargeSame(a: seq<Row>, b: seq<Row>, t: nat, id: nat, ladder: seq<nat>)
    requires |a| == |b| && t < |a| && id < |b|
    requires forall i :: 0 <= i < |a| ==> (SameTurn(a, t, i) <==> SameTurn(b, id, i))
    requires forall i :: 0 <= i < |a| ==>
               a[i].input == b[i].input && a[i].output == b[i].output && a[i].status == b[i].status
    ensures forall st :: HasStatus(a, t, st) <==> HasStatus(b, id, st)
    ensures TurnCharge(a, t, ladder) == TurnCharge(b, id, ladder)
  {
    TokensSame(a, b, t, id, |a|);
    forall st ensures HasStatus(a, t, st) <==> HasStatus(b, id, st) {
      if HasStatus(a, t, st) {
        var i :| 0 <= i < |a| && SameTurn(a, t, i) && a[i].status == st;
        assert SameTurn(b, id, i);
      }
      if HasStatus(b, id, st) {
        var i :| 0 <= i < |b| && SameTurn(b, id, i) && b[i].status == st;
        assert SameTurn(a, t, i);
      }
    }
  }

  // ---------- One more settlement ----------

  lemma {:induction false} RepeatedIsSilent(s: State, t: nat, done: set<nat>, id: nat, how: Plan, ladder: seq<nat>)
    requires t < |s.rows| && id < |s.rows| && SameTurn(s.rows, t, id)
    requires forall i :: how(i).status != Reserved
    requires id in done || s.rows[id].status != Reserved
    ensures Settle(Partial(s, t, done, how, ladder), id, how(id), ladder).0 == Partial(s, t, done, how, ladder)
    ensures Partial(s, t, done + {id}, how, ladder) == Partial(s, t, done, how, ladder)
  {
    assert Marked(s.rows, done + {id}, how) == Marked(s.rows, done, how);
    var p := Partial(s, t, done, how, ladder);
    if SomeSettled(s.rows, t, done) {
      assert p.rows[id].status != Reserved;
      assert SomeSettled(s.rows, t, done + {id});
    } else {
      assert !(id in done && s.rows[id].status == Reserved);
      assert !SomeSettled(s.rows, t, done + {id});
    }
  }

  ghost predicate InTurn(rows: seq<Row>, t: nat, done: set<nat>)
    requires t < |rows|
  {
    forall i :: i in done ==> i < |rows| && SameTurn(rows, t, i)
  }

  /** The rows when one more reserved row is settled: the same as settling it together with the others. */
  lemma {:induction false} MarkedStep(s: State, t: nat, done: set<nat>, id: nat, how: Plan, ladder: seq<nat>)
    requires t < |s.rows| && id < |s.rows| && SameTurn(s.rows, t, id) && InTurn(s.rows, t, done)
    requires id !in done && s.rows[id].status == Reserved && forall i :: how(i).status != Reserved
    ensures var p := Partial(s, t, done, how, ladder);
            var rows := p.rows[id := Finished(p.rows[id], how(id))];
            var all := Marked(s.rows, done + {id}, how);
            && SameShape(rows, all) && |rows| == |s.rows| && p.rows[id].status == Reserved
            && (forall i :: 0 <= i < |rows| ==> rows[i] == all[i].(billed := rows[i].billed))
            && (forall i :: 0 <= i < |rows| && !SameTurn(s.rows, t, i) ==> rows[i] == all[i])
  {
    PartialRows(s, t, done, how, ladder);
    hide Partial;
  }

  /** In a partial state only the charges of the turn's own rows may differ from the marked rows. */
  lemma {:induction false} PartialRows(s: State, t: nat, done: set<nat>, how: Plan, ladder: seq<nat>)
    requires t < |s.rows| && InTurn(s.rows, t, done)
    ensures var p := Partial(s, t, done, how, ladder);
            var marked := Marked(s.rows, done, how);
            && |p.rows| == |s.rows| && p.plans == s.plans
            && (forall i :: 0 <= i < |s.rows| ==> p.rows[i] == marked[i].(billed := p.rows[i].billed))
            && (forall i :: 0 <= i < |s.rows| && !SameTurn(s.rows, t, i) ==> p.rows[i] == s.rows[i])
  {
    var marked := Marked(s.rows, done, how);
    SameShapeTurns(s.rows, marked, t);
    if !SomeSettled(s.rows, t, done) {
      forall i | 0 <= i < |s.rows| ensures marked[i] == s.rows[i] {
        if i in done {
          assert SameTurn(s.rows, t, i);
        }
      }
    }
  }

  /** The head's charge in a partial state with something still in flight. */
  lemma {:induction false} PartialHead(s: State, t: nat, done: set<nat>, id: nat, how: Plan, ladder: seq<nat>)
    requires t < |s.rows| && id < |s.rows| && SameTurn(s.rows, t, id)
    requires id !in done && s.rows[id].status == Reserved && Covered(s)
    ensures var p := Partial(s, t, done, how, ladder);
            var h := Head(s.rows, t);
            var was, now := s.rows[h].billed, p.rows[h].billed;
            && now == (if SomeSettled(s.rows, t, done) then Max(was, 1) else was)
            && p.rows[h].ent == s.rows[h].ent
            && p.ents == Patched(s.ents, s.rows[h].ent, was, now)
  {
    var marked := Marked(s.rows, done, how);
    SameShapeTurns(s.rows, marked, t);
    assert SameTurn(marked, t, id) && marked[id].status == Reserved;
    assert HasStatus(marked, t, Reserved);
  }

  /** Moving the charge twice is moving it once: the clamp at zero stays idle. */
  lemma {:induction false} PatchTwice(s: State, h: nat, mid: nat, last: nat)
    requires Covered(s) && h < |s.rows| && (mid == s.rows[h].billed || mid >= s.rows[h].billed)
    ensures Patched(Patched(s.ents, s.rows[h].ent, s.rows[h].billed, mid), s.rows[h].ent, mid, last)
         == Patched(s.ents, s.rows[h].ent, s.rows[h].billed, last)
  {
    if s.rows[h].ent.Some? {
      BilledRow(s.rows, |s.rows|, h);
      var e := s.rows[h].ent.value;
      var ent := s.ents[e];
      assert ent.(used := ent.used) == ent;
      assert s.ents[e := ent] == s.ents;
    }
  }

  /** Recomputing a turn from rows that differ only in what the turn's rows are billed: the charge
      differs only while something is in flight. */
  lemma {:induction false} RebilledSame(a: seq<Row>, b: seq<Row>, t: nat, id: nat, ladder: seq<nat>)
    requires SameShape(a, b) && t < |a| && id < |b| && SameTurn(a, t, id)
    requires forall i :: 0 <= i < |a| ==> a[i] == b[i].(billed := a[i].billed)
    requires forall i :: 0 <= i < |a| && !SameTurn(a, t, i) ==> a[i] == b[i]
    requires HasStatus(a, t, Reserved) ==> Max(a[Head(a, t)].billed, 1) == Max(b[Head(a, t)].billed, 1)
    ensures Head(a, t) == Head(b, id) && Desired(a, t, ladder) == Desired(b, id, ladder)
    ensures forall charge :: Rebilled(a, t, charge) == Rebilled(b, id, charge)
  {
    SameShapeTurns(a, b, t);
    SameShapeTurns(a, b, id);
    TurnMates(a, t, id);
    ChargeSame(a, b, t, id, ladder);
    hide TurnCharge;
    forall charge ensures Rebilled(a, t, charge) == Rebilled(b, id, charge) {
      assert forall i :: 0 <= i < |a| ==> (SameTurn(a, t, i) <==> SameTurn(b, id, i));
    }
  }

  lemma {:induction false} SettleStep(s: State, t: nat, done: set<nat>, id: nat, how: Plan, ladder: seq<nat>)
    requires t < |s.rows| && id < |s.rows| && SameTurn(s.rows, t, id) && InTurn(s.rows, t, done) && Covered(s)
    requires id !in done && s.rows[id].status == Reserved && forall i :: how(i).status != Reserved
    ensures Settle(Partial(s, t, done, how, ladder), id, how(id), ladder).0
         == Partial(s, t, done + {id}, how, ladder)
  {
    var p := Partial(s, t, done, how, ladder);
    var rows := p.rows[id := Finished(p.rows[id], how(id))];
    var all := Marked(s.rows, done + {id}, how);
    var h := Head(s.rows, t);
    MarkedStep(s, t, done, id, how, ladder);
    PartialHead(s, t, done, id, how, ladder);
    PartialRows(s, t, done, how, ladder);
    SameShapeTurns(all, s.rows, t);
    assert SomeSettled(s.rows, t, done + {id});
    RebilledSame(all, rows, t, id, ladder);
    PatchTwice(s, h, p.rows[h].billed, Desired(all, t, ladder));
    assert all[h].billed == s.rows[h].billed && all[h].ent == s.rows[h].ent;
    assert rows[h].billed == p.rows[h].billed && rows[h].ent == p.rows[h].ent;
    RecomputeSame(s, p, t, id, all, rows, ladder);
    hide Partial, Marked, Recompute, Covered, SomeSettled, SameTurn;
    PartialIs(s, t, done + {id}, how, ladder);
  }

  lemma {:induction false} RecomputeSame(
      s: State, p: State, t: nat, id: nat, all: seq<Row>, rows: seq<Row>, ladder: seq<nat>)
    requires t < |all| && id < |rows| && p.plans == s.plans
    requires Head(all, t) == Head(rows, id) && Desired(all, t, ladder) == Desired(rows, id, ladder)
    requires forall charge :: Rebilled(all, t, charge) == Rebilled(rows, id, charge)
    requires var h := Head(all, t);
             Patched(p.ents, rows[h].ent, rows[h].billed, Desired(all, t, ladder))
             == Patched(s.ents, all[h].ent, all[h].billed, Desired(all, t, ladder))
    ensures Recompute(p.(rows := rows), id, ladder) == Recompute(s.(rows := all), t, ladder)
  {
    hide Desired, Rebilled, Patched, SameTurn;
  }

  lemma {:induction false} PartialIs(s: State, t: nat, done: set<nat>, how: Plan, ladder: seq<nat>)
    requires t < |s.rows| && SomeSettled(s.rows, t, done)
    ensures Partial(s, t, done, how, ladder) == Recompute(s.(rows := Marked(s.rows, done, how)), t, ladder)
  {
  }

  lemma {:induction false} SettleAllPartial(
      s: State, t: nat, done: set<nat>, ids: seq<nat>, how: Plan, ladder: seq<nat>)
    requires t < |s.rows| && Covered(s) && InTurn(s.rows, t, done) && forall i :: how(i).status != Reserved
    requires forall k :: 0 <= k < |ids| ==> ids[k] < |s.rows| && SameTurn(s.rows, t, ids[k])
    ensures SettleAll(Partial(s, t, done, how, ladder), ids, how, ladder)
         == Partial(s, t, done + Elements(ids), how, ladder)
    decreases |ids|
  {
    if ids == [] {
      assert done + Elements(ids) == done;
    } else {
      if ids[0] in done || s.rows[ids[0]].status != Reserved {
        RepeatedIsSilent(s, t, done, ids[0], how, ladder);
      } else {
        SettleStep(s, t, done, ids[0], how, ladder);
      }
      SettleAllPartial(s, t, done + {ids[0]}, ids[1..], how, ladder);
      assert done + Elements(ids) == done + {ids[0]} + Elements(ids[1..]);
    }
  }

  function Elements(ids: seq<nat>): set<nat> {
    set k | 0 <= k < |ids| :: ids[k]
  }

  // ---------- The settled turn ----------

  /** The rows with every request of the turn of row t settled, before any charge is moved. */
  function Closed(rows: seq<Row>, t: nat, how: Plan): (r: seq<Row>)
    requires t < |rows|
    ensures |r| == |rows|
  {
    seq(|rows|, i requires 0 <= i < |rows| =>
      if SameTurn(rows, t, i) && rows[i].status == Reserved then Finished(rows[i], how(i)) else rows[i])
  }

  lemma {:induction false} ClosedShape(rows: seq<Row>, t: nat, how: Plan)
    requires t < |rows|
    ensures SameShape(rows, Closed(rows, t, how))
  {
    var closed := Closed(rows, t, how);
    forall i | 0 <= i < |rows| ensures closed[i].user == rows[i].user && closed[i].turn == rows[i].turn {
      var settled := Finished(rows[i], how(i));
      assert closed[i] == if SameTurn(rows, t, i) && rows[i].status == Reserved then settled else rows[i];
    }
  }

  /** The turn of row t with every request settled: the charge is on the first row, none on the others,
      and the counter of the first row's entitlement has moved by the difference. */
  function Settled(s: State, t: nat, how: Plan, ladder: seq<nat>): State
    requires t < |s.rows|
  {
    var h := Head(s.rows, t);
    var charge := TurnCharge(Closed(s.rows, t, how), t, ladder);
    State(
      Rebilled(Closed(s.rows, t, how), t, charge),
      Patched(s.ents, s.rows[h].ent, s.rows[h].billed, charge),
      s.plans)
  }

  lemma {:induction false} AllSettled(s: State, t: nat, done: set<nat>, how: Plan, ladder: seq<nat>)
    requires t < |s.rows| && InTurn(s.rows, t, done) && SomeSettled(s.rows, t, done)
    requires forall i :: how(i).status != Reserved
    requires forall i :: 0 <= i < |s.rows| && SameTurn(s.rows, t, i) && s.rows[i].status == Reserved ==> i in done
    ensures Partial(s, t, done, how, ladder) == Settled(s, t, how, ladder)
  {
    var closed := Closed(s.rows, t, how);
    assert Marked(s.rows, done, how) == closed;
    SameShapeTurns(s.rows, closed, t);
    assert !HasStatus(closed, t, Reserved);
  }

  /** Settlement is confluent: whatever the order of the calls and however often they are repeated, once
      every reserved row of the turn has been settled the books are in one and the same state. */
  lemma {:induction false} SettlementIsConfluent(s: State, t: nat, ids: seq<nat>, how: Plan, ladder: seq<nat>)
    requires t < |s.rows| && Covered(s) && forall i :: how(i).status != Reserved
    requires HasStatus(s.rows, t, Reserved)
    requires forall k :: 0 <= k < |ids| ==> ids[k] < |s.rows| && SameTurn(s.rows, t, ids[k])
    requires forall i :: 0 <= i < |s.rows| && SameTurn(s.rows, t, i) && s.rows[i].status == Reserved ==> i in ids
    ensures SettleAll(s, ids, how, ladder) == Settled(s, t, how, ladder)
  {
    SettleAllPartial(s, t, {}, ids, how, ladder);
    assert {} + Elements(ids) == Elements(ids);
    assert Partial(s, t, {}, how, ladder) == s;
    assert forall i: nat :: i in Elements(ids) <==> i in ids;
    hide Partial, SettleAll, Settled, Covered, Elements;
    var i :| 0 <= i < |s.rows| && SameTurn(s.rows, t, i) && s.rows[i].status == Reserved;
    assert i in Elements(ids);
    AllSettled(s, t, Elements(ids), how, ladder);
  }

  /** Every row of the turn failed upstream. */
  predicate AllFailed(rows: seq<Row>, t: nat)
    requires t < |rows|
  {
    forall i :: 0 <= i < |rows| && SameTurn(rows, t, i) ==> rows[i].status == UpstreamError
  }

  lemma {:induction false} ChargeOfClosed(rows: seq<Row>, t: nat, ladder: seq<nat>)
    requires t < |rows| && forall i :: 0 <= i < |rows| && SameTurn(rows, t, i) ==> rows[i].status != Reserved
    ensures TurnCharge(rows, t, ladder)
         == if AllFailed(rows, t) then 0 else Ladder.BilledUses(TurnTokens(rows, t, |rows|), ladder)
  {
    if !AllFailed(rows, t) {
      var i :| 0 <= i < |rows| && SameTurn(rows, t, i) && rows[i].status != UpstreamError;
      assert HasStatus(rows, t, rows[i].status);
    }
  }

  /** The charge of a settled turn: nothing is in flight, the first row carries 0 when every request failed
      upstream and otherwise the tier of the turn's total tokens, and the other rows carry nothing. */
  lemma {:induction false} SettledCharge(s: State, t: nat, how: Plan, ladder: seq<nat>)
    requires t < |s.rows| && forall i :: how(i).status != Reserved
    ensures var rows := Settled(s, t, how, ladder).rows;
            && SameShape(s.rows, rows) && !HasStatus(rows, t, Reserved)
            && (forall i :: 0 <= i < |rows| && SameTurn(rows, t, i) && i != Head(rows, t) ==> rows[i].billed == 0)
            && rows[Head(rows, t)].billed
               == if AllFailed(rows, t) then 0 else Ladder.BilledUses(TurnTokens(rows, t, |rows|), ladder)
  {
    var closed := Closed(s.rows, t, how);
    var rows := Settled(s, t, how, ladder).rows;
    SameShapeTurns(s.rows, closed, t);
    SameShapeTurns(closed, rows, t);
    ChargeOfClosed(closed, t, ladder);
    TokensSame(closed, rows, t, t, |rows|);
    hide TurnCharge, TurnTokens;
    assert AllFailed(closed, t) <==> AllFailed(rows, t);
  }

  // ---------- What a turn is billed ----------

  /** The row belongs to this turn of this user. */
  predicate OfTurn(r: Row, user: nat, turn: string) {
    r.user == user && r.turn == Some(turn)
  }

  /** The tokens that a row stands for in the end: those of its settlement, each figure clipped to 64 bits,
      or those it stores when it was settled before. */
  function Reported(r: Row, how: Settlement): nat {
    if r.status == Reserved then
      (if how.input < I64_MAX then how.input else I64_MAX) + (if how.output < I64_MAX then how.output else I64_MAX)
    else
      (match r.input case Some(n) => n case None => 0) + (match r.output case Some(n) => n case None => 0)
  }

  function TurnReported(rows: seq<Row>, user: nat, turn: string, how: Plan, n: nat): nat
    requires n <= |rows|
  {
    if n == 0 then 0 else
      TurnReported(rows, user, turn, how, n - 1)
      + if OfTurn(rows[n - 1], user, turn) then Reported(rows[n - 1], how(n - 1)) else 0
  }

  /** A settled row keeps its figures, one that was reserved has those of its settlement. */
  predicate Stores(now: Row, was: Row, how: Settlement) {
    if was.status == Reserved then
      && now.status == how.status
      && now.input == Some(if how.input < I64_MAX then how.input else I64_MAX)
      && now.output == Some(if how.output < I64_MAX then how.output else I64_MAX)
    else now.status == was.status && now.input == was.input && now.output == was.output
  }

  /** The head is billed k + 1 uses exactly for totals in tier k of the ladder. */
  ghost predicate InTier(billed: nat, total: nat, ladder: seq<nat>) {
    forall k: nat :: k <= |ladder| ==>
      (billed == k + 1 <==> (k == 0 || ladder[k - 1] < total) && (k == |ladder| || total <= ladder[k]))
  }

  lemma {:induction false} TiersBill(total: nat, ladder: seq<nat>)
    requires Ladder.Increasing(ladder)
    ensures InTier(Ladder.BilledUses(total, ladder), total, ladder)
  {
    forall k: nat | k <= |ladder|
      ensures Ladder.BilledUses(total, ladder) == k + 1
         <==> (k == 0 || ladder[k - 1] < total) && (k == |ladder| || total <= ladder[k])
    {
      Ladder.Tier(total, ladder, k);
    }
  }

  lemma {:induction false} TokensReported(
      a: seq<Row>, b: seq<Row>, user: nat, turn: string, t: nat, how: Plan, n: nat)
    requires SameShape(a, b) && t < |a| && OfTurn(a[t], user, turn) && n <= |a|
    requires forall i :: 0 <= i < |a| && OfTurn(a[i], user, turn) ==> Stores(b[i], a[i], how(i))
    ensures TurnTokens(b, t, n) == TurnReported(a, user, turn, how, n)
  {
    if n > 0 {
      TokensReported(a, b, user, turn, t, how, n - 1);
    }
  }

  /** What the settlements of a turn leave in its rows. */
  lemma {:induction false} SettledFigures(s: State, t: nat, how: Plan, ladder: seq<nat>)
    requires t < |s.rows|
    ensures var rows := Settled(s, t, how, ladder).rows;
            && SameShape(s.rows, rows)
            && (forall i :: 0 <= i < |rows| && SameTurn(s.rows, t, i) ==> Stores(rows[i], s.rows[i], how(i)))
            && (forall i :: 0 <= i < |rows| && !SameTurn(s.rows, t, i) ==> rows[i] == s.rows[i])
  {
    var closed := Closed(s.rows, t, how);
    ClosedShape(s.rows, t, how);
    SameShapeTurns(s.rows, closed, t);
  }

  lemma {:induction false} FirstIsHead(rows: seq<Row>, first: nat)
    requires first < |rows|
    requires forall i :: 0 <= i < first ==> !SameTurn(rows, first, i)
    ensures Head(rows, first) == first
  {
  }

  /** The row is the first one of the turn. */
  ghost predicate LeadsTurn(rows: seq<Row>, user: nat, turn: string, first: nat) {
    && first < |rows| && OfTurn(rows[first], user, turn)
    && forall i :: 0 <= i < first ==> !OfTurn(rows[i], user, turn)
  }

  /** The calls settle requests of the turn, among them every one that is in flight. */
  ghost predicate SettlesTurn(rows: seq<Row>, user: nat, turn: string, ids: seq<nat>) {
    && (exists i :: 0 <= i < |rows| && OfTurn(rows[i], user, turn) && rows[i].status == Reserved)
    && (forall id :: id in ids ==> id < |rows| && OfTurn(rows[id], user, turn))
    && (forall i :: 0 <= i < |rows| && OfTurn(rows[i], user, turn) && rows[i].status == Reserved ==> i in ids)
  }

  ghost predicate AllFailedOf(rows: seq<Row>, user: nat, turn: string) {
    forall i :: 0 <= i < |rows| && OfTurn(rows[i], user, turn) ==> rows[i].status == UpstreamError
  }

  lemma {:induction false} TurnSettles(
      s: State, user: nat, turn: string, first: nat, ids: seq<nat>, how: Plan, ladder: seq<nat>)
    requires Covered(s) && forall i :: how(i).status != Reserved
    requires LeadsTurn(s.rows, user, turn, first) && SettlesTurn(s.rows, user, turn, ids)
    ensures SettleAll(s, ids, how, ladder) == Settled(s, first, how, ladder)
    ensures Head(s.rows, first) == first
    ensures forall i :: 0 <= i < |s.rows| ==> (SameTurn(s.rows, first, i) <==> OfTurn(s.rows[i], user, turn))
  {
    assert forall i :: 0 <= i < |s.rows| ==> (SameTurn(s.rows, first, i) <==> OfTurn(s.rows[i], user, turn));
    forall k | 0 <= k < |ids| ensures ids[k] < |s.rows| && SameTurn(s.rows, first, ids[k]) {
      assert ids[k] in ids;
    }
    hide SettleAll, Settled, Covered, OfTurn;
    SettlementIsConfluent(s, first, ids, how, ladder);
  }

  /** Once its reserved rows have been settled, in any order, a turn is billed the tier of all the tokens its
      requests reported, input and output, on its first row and nothing on the others; nothing at all when
      every request failed upstream. Each row keeps the figures of its own settlement, and the rows of
      other turns stay as they were. */
  lemma {:induction false} TurnIsBilledByTokens(
      s: State, user: nat, turn: string, first: nat, ids: seq<nat>, how: Plan, ladder: seq<nat>)
    requires Covered(s) && Ladder.Increasing(ladder) && forall i :: how(i).status != Reserved
    requires LeadsTurn(s.rows, user, turn, first) && SettlesTurn(s.rows, user, turn, ids)
    ensures var rows := SettleAll(s, ids, how, ladder).rows;
            && |rows| == |s.rows|
            && (forall i :: 0 <= i < |rows| && OfTurn(s.rows[i], user, turn) ==> Stores(rows[i], s.rows[i], how(i)))
            && (forall i :: 0 <= i < |rows| && OfTurn(s.rows[i], user, turn) && i != first ==> rows[i].billed == 0)
            && (forall i :: 0 <= i < |rows| && !OfTurn(s.rows[i], user, turn) ==> rows[i] == s.rows[i])
            && if AllFailedOf(rows, user, turn) then rows[first].billed == 0
               else InTier(rows[first].billed, TurnReported(s.rows, user, turn, how, |rows|), ladder)
  {
    TurnSettles(s, user, turn, first, ids, how, ladder);
    var rows := Settled(s, first, how, ladder).rows;
    SettledFigures(s, first, how, ladder);
    SettledCharge(s, first, how, ladder);
    hide Settled, SettleAll, Covered, InTier, TurnTokens, Stores, SettlesTurn;
    SameShapeTurns(s.rows, rows, first);
    TokensReported(s.rows, rows, user, turn, first, how, |rows|);
    TiersBill(TurnTokens(rows, first, |rows|), ladder);
    assert AllFailed(rows, first) <==> AllFailedOf(rows, user, turn);
  }

  /** A request without turn id is billed the tier of its own tokens when it is settled, and nothing when it
      failed upstream. */
  lemma {:induction false} LoneRowIsBilledByTokens(s: State, id: nat, how: Settlement, ladder: seq<nat>)
    requires Ladder.Increasing(ladder) && how.status != Reserved
    requires id < |s.rows| && s.rows[id].turn.None? && s.rows[id].status == Reserved
    ensures var (t, charged) := Settle(s, id, how, ladder);
            && |t.rows| == |s.rows| && Stores(t.rows[id], s.rows[id], how) && charged == Some(t.rows[id].billed)
            && (forall i :: 0 <= i < |s.rows| && i != id ==> t.rows[i] == s.rows[i])
            && if how.status == UpstreamError then t.rows[id].billed == 0
               else InTier(t.rows[id].billed, Reported(s.rows[id], how), ladder)
  {
    var marked := s.rows[id := Finished(s.rows[id], how)];
    SettledTurn(s, id, how, ladder);
    SameShapeTurns(s.rows, marked, id);
    assert forall i :: 0 <= i < |marked| ==> (SameTurn(marked, id, i) <==> i == id);
    FirstIsHead(s.rows, id);
    LoneTokens(marked, id, |marked|);
    ChargeOfClosed(marked, id, ladder);
    TiersBill(Tokens(marked[id]), ladder);
    hide InTier;
  }

  lemma {:induction false} LoneTokens(rows: seq<Row>, id: nat, n: nat)
    requires id < |rows| && n <= |rows| && forall i :: 0 <= i < |rows| ==> (SameTurn(rows, id, i) <==> i == id)
    ensures TurnTokens(rows, id, n) == if id < n then Tokens(rows[id]) else 0
  {
    if n > 0 {
      LoneTokens(rows, id, n - 1);
    }
  }

  /** A row that is not reserved is not settled. Otherwise the answer is what the turn is then billed on its
      first row; while another of its requests is in flight, that is what it was billed before, but at least
      one use. */
  lemma {:induction false} AnswerIsTurnsBill(
      s: State, user: nat, turn: string, first: nat, id: nat, how: Settlement, ladder: seq<nat>)
    requires LeadsTurn(s.rows, user, turn, first) && id < |s.rows| && OfTurn(s.rows[id], user, turn)
    ensures var (t, charged) := Settle(s, id, how, ladder);
            if s.rows[id].status != Reserved then t == s && charged == None
            else
              && |t.rows| == |s.rows| && charged == Some(t.rows[first].billed) && Stores(t.rows[id], s.rows[id], how)
              && (forall i :: 0 <= i < |s.rows| && OfTurn(s.rows[i], user, turn) && i != first ==>
                    t.rows[i].billed == 0)
              && ((exists i :: 0 <= i < |s.rows| && OfTurn(s.rows[i], user, turn) && i != id
                              && s.rows[i].status == Reserved) ==>
                    t.rows[first].billed == (if s.rows[first].billed >= 1 then s.rows[first].billed else 1))
  {
    if s.rows[id].status == Reserved {
      assert forall i :: 0 <= i < |s.rows| ==> (SameTurn(s.rows, id, i) <==> OfTurn(s.rows[i], user, turn));
      assert Head(s.rows, id) == first;
      var marked := s.rows[id := Finished(s.rows[id], how)];
      SettledTurn(s, id, how, ladder);
      SameShapeTurns(s.rows, marked, id);
      hide Settle, Head;
      if i :| 0 <= i < |s.rows| && OfTurn(s.rows[i], user, turn) && i != id && s.rows[i].status == Reserved {
        assert SameTurn(marked, id, i) && marked[i].status == Reserved;
      }
    }
  }

  // ---------- Settlements of several turns ----------

  /** What a settlement does to the rows: those of its turn change, by the turn alone. */
  lemma {:induction false} SettledTurn(s: State, id: nat, how: Settlement, ladder: seq<nat>)
    requires id < |s.rows| && s.rows[id].status == Reserved
    ensures var t := Settle(s, id, how, ladder).0;
            var marked := s.rows[id := Finished(s.rows[id], how)];
            var h := Head(s.rows, id);
            var charge := Desired(marked, id, ladder);
            && |t.rows| == |s.rows| && SameShape(s.rows, t.rows) && SameShape(s.rows, marked) && t.plans == s.plans
            && t.ents == Patched(s.ents, s.rows[h].ent, s.rows[h].billed, charge)
            && forall k :: 0 <= k < |s.rows| ==>
                 t.rows[k] == if !SameTurn(s.rows, id, k) then s.rows[k]
                              else marked[k].(billed := if k == h then charge else 0)
  {
    var marked := s.rows[id := Finished(s.rows[id], how)];
    assert SameShape(s.rows, marked);
    SameShapeTurns(s.rows, marked, id);
    hide Desired;
  }

  lemma {:induction false} TokensLocal(a: seq<Row>, b: seq<Row>, id: nat, n: nat)
    requires SameShape(a, b) && id < |a| && n <= |a|
    requires forall k :: 0 <= k < |a| && SameTurn(a, id, k) ==> a[k] == b[k]
    ensures TurnTokens(a, id, n) == TurnTokens(b, id, n)
  {
    SameShapeTurns(a, b, id);
    if n > 0 {
      TokensLocal(a, b, id, n - 1);
    }
  }

  /** What a turn is to be charged depends on its own rows only. */
  lemma {:induction false} DesiredLocal(a: seq<Row>, b: seq<Row>, id: nat, ladder: seq<nat>)
    requires SameShape(a, b) && id < |a|
    requires forall k :: 0 <= k < |a| && SameTurn(a, id, k) ==> a[k] == b[k]
    ensures Desired(a, id, ladder) == Desired(b, id, ladder)
  {
    SameShapeTurns(a, b, id);
    TokensLocal(a, b, id, |a|);
    forall st ensures HasStatus(a, id, st) <==> HasStatus(b, id, st) {
      if HasStatus(a, id, st) {
        var k :| 0 <= k < |a| && SameTurn(a, id, k) && a[k].status == st;
        assert SameTurn(b, id, k) && b[k].status == st;
      }
      if HasStatus(b, id, st) {
        var k :| 0 <= k < |b| && SameTurn(b, id, k) && b[k].status == st;
        assert SameTurn(a, id, k) && a[k].status == st;
      }
    }
  }

  lemma {:induction false} BilledTwoRows(rows: seq<Row>, n: nat, a: nat, b: nat, e: nat)
    requires a < n <= |rows| && b < n && a != b && rows[a].ent == Some(e) && rows[b].ent == Some(e)
    ensures rows[a].billed + rows[b].billed <= Billed(rows, n, e)
  {
    if a < n - 1 && b < n - 1 {
      BilledTwoRows(rows, n - 1, a, b, e);
    } else if a < n - 1 {
      BilledRow(rows, n - 1, a);
    } else {
      BilledRow(rows, n - 1, b);
    }
  }

  lemma {:induction false} PatchIsSum(ents: map<nat, Entitlement>, e: nat, was: nat, charge: nat)
    requires e in ents && was <= ents[e].used + charge
    ensures Patched(ents, Some(e), was, charge) == ents[e := ents[e].(used := ents[e].used + charge - was)]
  {
    assert ents[e].(used := ents[e].used) == ents[e];
    assert ents[e := ents[e]] == ents;
  }

  /** The counters are patched by sums, in either order. */
  lemma {:induction false} PatchesCommute(s: State, a: nat, b: nat, chargeA: nat, chargeB: nat)
    requires Covered(s) && a < |s.rows| && b < |s.rows| && a != b
    ensures var x, y := s.rows[a], s.rows[b];
            Patched(Patched(s.ents, x.ent, x.billed, chargeA), y.ent, y.billed, chargeB)
            == Patched(Patched(s.ents, y.ent, y.billed, chargeB), x.ent, x.billed, chargeA)
  {
    var x, y := s.rows[a], s.rows[b];
    if x.ent.Some? && y.ent.Some? {
      var e, f := x.ent.value, y.ent.value;
      BilledRow(s.rows, |s.rows|, a);
      BilledRow(s.rows, |s.rows|, b);
      if e == f {
        BilledTwoRows(s.rows, |s.rows|, a, b, e);
      }
      PatchIsSum(s.ents, e, x.billed, chargeA);
      PatchIsSum(s.ents, f, y.billed, chargeB);
      var first, second := Patched(s.ents, Some(e), x.billed, chargeA), Patched(s.ents, Some(f), y.billed, chargeB);
      PatchIsSum(first, f, y.billed, chargeB);
      PatchIsSum(second, e, x.billed, chargeA);
    }
  }

  lemma {:induction false} TurnsApart(rows: seq<Row>, i: nat, j: nat)
    requires i < |rows| && j < |rows| && !SameTurn(rows, i, j)
    ensures forall k :: 0 <= k < |rows| ==> !(SameTurn(rows, i, k) && SameTurn(rows, j, k))
    ensures Head(rows, i) != Head(rows, j)
  {
    assert SameTurn(rows, i, Head(rows, i)) && SameTurn(rows, j, Head(rows, j));
  }

  /** After a settlement in another turn, a settlement does what it would have done before. */
  lemma {:induction false} SecondSettlement(
      s: State, i: nat, j: nat, how: Plan, ladder: seq<nat>)
    requires i < |s.rows| && j < |s.rows| && !SameTurn(s.rows, i, j)
    requires s.rows[i].status == Reserved && s.rows[j].status == Reserved
    ensures var t := Settle(s, i, how(i), ladder).0;
            var u := Settle(t, j, how(j), ladder).0;
            var v := Settle(s, j, how(j), ladder).0;
            var h := Head(s.rows, j);
            var charge := Desired(s.rows[j := Finished(s.rows[j], how(j))], j, ladder);
            && |u.rows| == |s.rows| && u.plans == s.plans && |v.rows| == |s.rows|
            && u.ents == Patched(t.ents, s.rows[h].ent, s.rows[h].billed, charge)
            && forall k :: 0 <= k < |s.rows| ==>
                 u.rows[k] == if SameTurn(s.rows, j, k) then v.rows[k] else t.rows[k]
  {
    var t := Settle(s, i, how(i), ladder).0;
    SettledTurn(s, i, how(i), ladder);
    SettledTurn(s, j, how(j), ladder);
    TurnsApart(s.rows, i, j);
    assert SameTurn(s.rows, j, j) && t.rows[j] == s.rows[j];
    SettledTurn(t, j, how(j), ladder);
    SameShapeTurns(s.rows, t.rows, j);
    hide Settle, Patched, Desired;
    var before, after := s.rows[j := Finished(s.rows[j], how(j))], t.rows[j := Finished(t.rows[j], how(j))];
    assert SameShape(before, after) && SameShape(s.rows, before);
    SameShapeTurns(s.rows, before, j);
    DesiredLocal(before, after, j, ladder);
    assert t.rows[Head(s.rows, j)] == s.rows[Head(s.rows, j)];
  }

  lemma {:induction false} TurnsCommute(s: State, i: nat, j: nat, how: Plan, ladder: seq<nat>)
    requires Covered(s) && i < |s.rows| && j < |s.rows| && !SameTurn(s.rows, i, j)
    requires s.rows[i].status == Reserved && s.rows[j].status == Reserved
    ensures Settle(Settle(s, i, how(i), ladder).0, j, how(j), ladder).0
         == Settle(Settle(s, j, how(j), ladder).0, i, how(i), ladder).0
  {
    var a := Settle(s, i, how(i), ladder).0;
    var b := Settle(s, j, how(j), ladder).0;
    var ab, ba := Settle(a, j, how(j), ladder).0, Settle(b, i, how(i), ladder).0;
    assert !SameTurn(s.rows, j, i);
    TurnsApart(s.rows, i, j);
    SettledTurn(s, i, how(i), ladder);
    SettledTurn(s, j, how(j), ladder);
    SecondSettlement(s, i, j, how, ladder);
    SecondSettlement(s, j, i, how, ladder);
    hide Settle, Desired, Patched, Covered, SameTurn;
    assert ab.rows == ba.rows;
    PatchesCommute(
      s, Head(s.rows, i), Head(s.rows, j), Desired(s.rows[i := Finished(s.rows[i], how(i))], i, ladder),
      Desired(s.rows[j := Finished(s.rows[j], how(j))], j, ladder));
  }

  lemma {:induction false} MatesCommute(s: State, i: nat, j: nat, how: Plan, ladder: seq<nat>)
    requires Covered(s) && i < |s.rows| && j < |s.rows| && SameTurn(s.rows, i, j)
    requires forall k :: how(k).status != Reserved
    ensures Settle(Settle(s, i, how(i), ladder).0, j, how(j), ladder).0
         == Settle(Settle(s, j, how(j), ladder).0, i, how(i), ladder).0
  {
    assert SameTurn(s.rows, i, i) && Partial(s, i, {}, how, ladder) == s;
    SettleAllPartial(s, i, {}, [i, j], how, ladder);
    SettleAllPartial(s, i, {}, [j, i], how, ladder);
    hide Partial, Settle, Elements;
    TwoOfThem(s, i, j, how, ladder);
    TwoOfThem(s, j, i, how, ladder);
    ElementsOfTwo(i, j);
  }

  lemma {:induction false} ElementsOfTwo(i: nat, j: nat)
    ensures Elements([i, j]) == Elements([j, i])
  {
    assert Elements([i, j]) == {i, j} by {
      assert [i, j][0] == i && [i, j][1] == j;
    }
    assert Elements([j, i]) == {i, j} by {
      assert [j, i][0] == j && [j, i][1] == i;
    }
  }

  lemma {:induction false} TwoOfThem(s: State, i: nat, j: nat, how: Plan, ladder: seq<nat>)
    ensures SettleAll(s, [i, j], how, ladder) == Settle(Settle(s, i, how(i), ladder).0, j, how(j), ladder).0
  {
    assert [i, j][1..] == [j] && [j][1..] == [];
    hide Settle;
    assert SettleAll(s, [i, j], how, ladder) == SettleAll(Settle(s, i, how(i), ladder).0, [j], how, ladder);
  }

  /** A row keeps its status through a settlement of another. */
  lemma {:induction false} OthersKeepStatus(s: State, i: nat, j: nat, how: Settlement, ladder: seq<nat>)
    requires i != j
    ensures var t := Settle(s, i, how, ladder).0;
            |t.rows| == |s.rows| && (j < |s.rows| ==> t.rows[j].status == s.rows[j].status)
  {
    if i < |s.rows| && s.rows[i].status == Reserved {
      SettledTurn(s, i, how, ladder);
    }
  }

  /** Any two settlements commute, in one turn or in two, of one entitlement or of two. */
  lemma {:induction false} SettlementsCommute(s: State, i: nat, j: nat, how: Plan, ladder: seq<nat>)
    requires Covered(s) && forall k :: how(k).status != Reserved
    ensures Settle(Settle(s, i, how(i), ladder).0, j, how(j), ladder).0
         == Settle(Settle(s, j, how(j), ladder).0, i, how(i), ladder).0
  {
    if i != j {
      OthersKeepStatus(s, i, j, how(i), ladder);
      OthersKeepStatus(s, j, i, how(j), ladder);
      if i < |s.rows| && j < |s.rows| && s.rows[i].status == Reserved && s.rows[j].status == Reserved {
        hide Settle;
        if SameTurn(s.rows, i, j) {
          MatesCommute(s, i, j, how, ladder);
        } else {
          TurnsCommute(s, i, j, how, ladder);
        }
      } else {
        hide Recompute, Desired, Covered;
      }
    }
  }

  lemma {:induction false} SettleKeepsCovered(s: State, id: nat, how: Settlement, ladder: seq<nat>)
    requires Covered(s)
    ensures Covered(Settle(s, id, how, ladder).0)
  {
    if s.ents != map[] {
      var e :| e in s.ents;
      SettleBalances(s, id, how, ladder, e);
    } else if id < |s.rows| && s.rows[id].status == Reserved {
      SettledTurn(s, id, how, ladder);
      assert s.rows[Head(s.rows, id)].ent.None?;
    }
  }

  /** Settling a row first that is settled later changes nothing. */
  lemma {:induction false} SettledSooner(s: State, ids: seq<nat>, x: nat, how: Plan, ladder: seq<nat>)
    requires Covered(s) && x in ids && forall k :: how(k).status != Reserved
    ensures SettleAll(s, ids, how, ladder) == SettleAll(Settle(s, x, how(x), ladder).0, ids, how, ladder)
    decreases |ids|
  {
    var y, rest := ids[0], ids[1..];
    if y == x {
      SettledTwice(s, x, how(x), ladder);
    } else {
      SettlementsCommute(s, x, y, how, ladder);
      SettleKeepsCovered(s, y, how(y), ladder);
      hide Settle, Covered;
      SettledSooner(Settle(s, y, how(y), ladder).0, rest, x, how, ladder);
    }
  }

  lemma {:induction false} SettledTwice(s: State, x: nat, how: Settlement, ladder: seq<nat>)
    requires how.status != Reserved
    ensures var t := Settle(s, x, how, ladder).0;
            Settle(t, x, how, ladder).0 == t && (x < |t.rows| ==> t.rows[x].status != Reserved)
  {
    if x < |s.rows| && s.rows[x].status == Reserved {
      SettledTurn(s, x, how, ladder);
      assert SameTurn(s.rows, x, x);
    }
  }

  function Dropped(ids: seq<nat>, x: nat): (r: seq<nat>)
    ensures |r| <= |ids| && forall y: nat :: y in r <==> y in ids && y != x
  {
    if ids == [] then [] else (if ids[0] == x then [] else [ids[0]]) + Dropped(ids[1..], x)
  }

  /** Calls for a row that is not reserved do nothing. */
  lemma {:induction false} SilentCalls(s: State, ids: seq<nat>, x: nat, how: Plan, ladder: seq<nat>)
    requires x < |s.rows| ==> s.rows[x].status != Reserved
    ensures SettleAll(s, ids, how, ladder) == SettleAll(s, Dropped(ids, x), how, ladder)
    decreases |ids|
  {
    if ids != [] {
      var y, rest := ids[0], ids[1..];
      if y == x {
        assert Settle(s, x, how(x), ladder).0 == s;
        assert Dropped(ids, x) == Dropped(rest, x);
        SilentCalls(s, rest, x, how, ladder);
      } else {
        OthersKeepStatus(s, y, x, how(y), ladder);
        assert Dropped(ids, x)[1..] == Dropped(rest, x);
        SilentCalls(Settle(s, y, how(y), ladder).0, rest, x, how, ladder);
      }
    }
  }

  lemma {:induction false} FirstIsIn(ids: seq<nat>)
    ensures ids != [] ==> ids[0] in ids
  {
  }

  /** The books depend on which rows have been settled and on nothing else: any two sequences of calls for
      the same rows, of any turns, users and entitlements and with any repetitions, lead to the same state. */
  lemma {:induction false} OrderNeverMatters(s: State, a: seq<nat>, b: seq<nat>, how: Plan, ladder: seq<nat>)
    requires Covered(s) && forall k :: how(k).status != Reserved
    requires forall x: nat :: x in a <==> x in b
    ensures SettleAll(s, a, how, ladder) == SettleAll(s, b, how, ladder)
    decreases |a|
  {
    if a == [] {
      FirstIsIn(b);
    } else {
      var x, rest := a[0], a[1..];
      var t := Settle(s, x, how(x), ladder).0;
      SettledSooner(s, b, x, how, ladder);
      SettledTwice(s, x, how(x), ladder);
      SettleKeepsCovered(s, x, how(x), ladder);
      hide Settle, Covered;
      SilentCalls(t, rest, x, how, ladder);
      SilentCalls(t, b, x, how, ladder);
      assert forall y: nat :: y in a <==> y == x || y in rest;
      OrderNeverMatters(t, Dropped(rest, x), Dropped(b, x), how, ladder);
    }
  }
}
