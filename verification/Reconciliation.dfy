/** The entitlement counters and the usage rows keep the same books, over every run of transactions. */
module Reconciliation {
  import opened Basics
  import opened Quota
  import opened Ledger

  // ---------- Runs ----------

  datatype Op =
    | ReserveOp(user: nat, turn: Option<string>, now: int, pick: Option<nat>)
    | SettleOp(id: nat, how: Settlement, now: int)
    /** Granting, revoking or expiring entitlements and changing plans, leaving the counters alone. */
    | AdminOp(ents: map<nat, Entitlement>, plans: map<nat, Plan>)
    /** Deleting an entitlement: its rows stay, without a reference to it. */
    | DeleteOp(ent: nat)

  ghost predicate CanStep(s: State, op: Op) {
    match op
    case ReserveOp(user, turn, now, pick) => IsPick(s, user, now, pick)
    case SettleOp(_, _, _) => true
    case AdminOp(ents, _) => forall e :: e in s.ents ==> e in ents && ents[e].used == s.ents[e].used
    case DeleteOp(_) => true
  }

  function Unlinked(rows: seq<Row>, e: nat): seq<Row> {
    seq(|rows|, i requires 0 <= i < |rows| => if rows[i].ent == Some(e) then rows[i].(ent := None) else rows[i])
  }

  ghost function Step(s: State, op: Op, ladder: seq<nat>): State
    requires CanStep(s, op)
  {
    match op
    case ReserveOp(user, turn, now, pick) => Reserve(s, user, turn, now, pick).0
    case SettleOp(id, how, _) => Settle(s, id, how, ladder).0
    case AdminOp(ents, plans) => s.(ents := ents, plans := plans)
    case DeleteOp(e) => s.(rows := Unlinked(s.rows, e), ents := s.ents - {e})
  }

  ghost predicate CanRun(s: State, ops: seq<Op>, ladder: seq<nat>)
    decreases |ops|
  {
    ops != [] ==> CanStep(s, ops[0]) && CanRun(Step(s, ops[0], ladder), ops[1..], ladder)
  }

  ghost function Run(s: State, ops: seq<Op>, ladder: seq<nat>): State
    requires CanRun(s, ops, ladder)
    decreases |ops|
  {
    if ops == [] then s else Run(Step(s, ops[0], ladder), ops[1..], ladder)
  }

  // ---------- The books ----------

  /** Uses billed to entitlement e on the first n rows. */
  function Billed(rows: seq<Row>, n: nat, e: nat): nat
    requires n <= |rows|
  {
    if n == 0 then 0 else
      Billed(rows, n - 1, e) + if rows[n - 1].ent == Some(e) then rows[n - 1].billed else 0
  }

  function SumBilled(s: State, e: nat): nat {
    Billed(s.rows, |s.rows|, e)
  }

  /** Charges of e on rows of the turn of row id other than its head: what a settlement writes off. */
  function OffHead(rows: seq<Row>, id: nat, n: nat, e: nat): nat
    requires id < |rows| && n <= |rows|
  {
    if n == 0 then 0 else
      OffHead(rows, id, n - 1, e)
      + if SameTurn(rows, id, n - 1) && n - 1 != Head(rows, id) && rows[n - 1].ent == Some(e)
        then rows[n - 1].billed else 0
  }

  /** What one step zeroes on non-head rows of e without giving it back to the counter. */
  function WrittenOffBy(s: State, op: Op, e: nat): nat {
    if op.SettleOp? && op.id < |s.rows| && s.rows[op.id].status == Reserved
    then OffHead(s.rows, op.id, |s.rows|, e) else 0
  }

  ghost function WrittenOff(s: State, ops: seq<Op>, ladder: seq<nat>, e: nat): nat
    requires CanRun(s, ops, ladder)
    decreases |ops|
  {
    if ops == [] then 0 else
      WrittenOffBy(s, ops[0], e) + WrittenOff(Step(s, ops[0], ladder), ops[1..], ladder, e)
  }

  /** Rows refer to stored entitlements, and every counter covers what its rows are billed. */
  ghost predicate Covered(s: State) {
    && (forall i :: 0 <= i < |s.rows| && s.rows[i].ent.Some? ==> s.rows[i].ent.value in s.ents)
    && forall e :: e in s.ents ==> SumBilled(s, e) <= s.ents[e].used
  }

  // ---------- Sums under the row updates ----------

  lemma {:induction false} BilledSame(a: seq<Row>, b: seq<Row>, n: nat, e: nat)
    requires n <= |a| && n <= |b|
    requires forall i :: 0 <= i < n ==>
               (a[i].ent == Some(e) <==> b[i].ent == Some(e)) && (a[i].ent == Some(e) ==> a[i].billed == b[i].billed)
    ensures Billed(a, n, e) == Billed(b, n, e)
  {
    if n > 0 {
      BilledSame(a, b, n - 1, e);
    }
  }

  lemma {:induction false} BilledNone(rows: seq<Row>, n: nat, e: nat)
    requires n <= |rows| && forall i :: 0 <= i < n ==> rows[i].ent != Some(e)
    ensures Billed(rows, n, e) == 0
  {
    if n > 0 {
      BilledNone(rows, n - 1, e);
    }
  }

  lemma {:induction false} BilledRow(rows: seq<Row>, n: nat, i: nat)
    requires i < n <= |rows| && rows[i].ent.Some?
    ensures rows[i].billed <= Billed(rows, n, rows[i].ent.value)
  {
    if i < n - 1 {
      BilledRow(rows, n - 1, i);
    }
  }

  lemma {:induction false} BilledRebilled(rows: seq<Row>, id: nat, charge: nat, n: nat, e: nat)
    requires id < |rows| && n <= |rows|
    ensures var h := Head(rows, id);
            Billed(Rebilled(rows, id, charge), n, e) + OffHead(rows, id, n, e)
            == Billed(rows, n, e) + if h < n && rows[h].ent == Some(e) then charge - rows[h].billed else 0
  {
    if n > 0 {
      BilledRebilled(rows, id, charge, n - 1, e);
    }
  }

  lemma {:induction false} OffHeadSame(a: seq<Row>, b: seq<Row>, id: nat, n: nat, e: nat)
    requires id < |a| && n <= |a| && |a| == |b|
    requires forall i :: 0 <= i < |a| ==>
               && a[i].user == b[i].user && a[i].turn == b[i].turn && a[i].ent == b[i].ent && a[i].billed == b[i].billed
    ensures Head(a, id) == Head(b, id) && OffHead(a, id, n, e) == OffHead(b, id, n, e)
  {
    assert forall i :: 0 <= i < |a| ==> (SameTurn(a, id, i) <==> SameTurn(b, id, i));
    if n > 0 {
      OffHeadSame(a, b, id, n - 1, e);
    }
  }

  // ---------- Conservation ----------

  lemma {:induction false} ReserveBalances(
      s: State, user: nat, turn: Option<string>, now: int, pick: Option<nat>, e: nat)
    requires Covered(s) && IsPick(s, user, now, pick) && e in s.ents
    ensures var t := Reserve(s, user, turn, now, pick).0;
            Covered(t) && e in t.ents && t.ents[e].used - SumBilled(t, e) == s.ents[e].used - SumBilled(s, e)
  {
    var t := Reserve(s, user, turn, now, pick).0;
    forall f | f in s.ents
      ensures t.ents[f].used - SumBilled(t, f) == s.ents[f].used - SumBilled(s, f)
    {
      BilledSame(s.rows, t.rows, |s.rows|, f);
    }
  }

  /** The same for one entitlement, before it is known that the others stay covered. */
  lemma {:induction false} SettleMoves(s: State, id: nat, how: Settlement, ladder: seq<nat>, f: nat)
    requires Covered(s) && f in s.ents && id < |s.rows|
    ensures var marked := s.(rows := s.rows[id := Finished(s.rows[id], how)]);
            var t := Recompute(marked, id, ladder);
            f in t.ents && t.ents[f].used - SumBilled(t, f)
                           == s.ents[f].used - SumBilled(s, f) + OffHead(s.rows, id, |s.rows|, f)
  {
    var marked := s.(rows := s.rows[id := Finished(s.rows[id], how)]);
    var charge := Desired(marked.rows, id, ladder);
    ClampIsIdle(s, id, how);
    BilledSame(s.rows, marked.rows, |s.rows|, f);
    OffHeadSame(s.rows, marked.rows, id, |s.rows|, f);
    BilledRebilled(marked.rows, id, charge, |s.rows|, f);
    hide Desired, Billed, OffHead, Rebilled;
  }

  /** A settlement moves the head's charge and its counter by the same amount; the clamp at zero never
      takes effect. What it zeroes on other rows is written off. */
  lemma {:induction false} SettleBalances(s: State, id: nat, how: Settlement, ladder: seq<nat>, e: nat)
    requires Covered(s) && e in s.ents
    ensures var t := Settle(s, id, how, ladder).0;
            && Covered(t) && t.ents.Keys == s.ents.Keys
            && t.ents[e].used - SumBilled(t, e)
               == s.ents[e].used - SumBilled(s, e) + WrittenOffBy(s, SettleOp(id, how, 0), e)
  {
    if id < |s.rows| && s.rows[id].status == Reserved {
      var marked := s.(rows := s.rows[id := Finished(s.rows[id], how)]);
      ClampIsIdle(s, id, how);
      forall f | f in s.ents
        ensures Recompute(marked, id, ladder).ents[f].used - SumBilled(Recompute(marked, id, ladder), f)
             == s.ents[f].used - SumBilled(s, f) + OffHead(s.rows, id, |s.rows|, f)
      {
        SettleMoves(s, id, how, ladder, f);
      }
      hide Desired, OffHead, SumBilled;
    }
  }

  /** The counter patched by a settlement holds at least the charge that is taken back. */
  lemma {:induction false} ClampIsIdle(s: State, id: nat, how: Settlement)
    requires Covered(s) && id < |s.rows|
    ensures var marked := s.rows[id := Finished(s.rows[id], how)];
            var head := marked[Head(marked, id)];
            && (head.ent.Some? ==> head.ent.value in s.ents && head.billed <= s.ents[head.ent.value].used)
            && head == (if Head(marked, id) == id then Finished(s.rows[id], how) else s.rows[Head(marked, id)])
  {
    var marked := s.rows[id := Finished(s.rows[id], how)];
    var h := Head(marked, id);
    if s.rows[h].ent.Some? {
      BilledRow(s.rows, |s.rows|, h);
    }
  }

  lemma {:induction false} AdminBalances(s: State, op: Op, e: nat)
    requires Covered(s) && CanStep(s, op) && (op.AdminOp? || op.DeleteOp?) && e in s.ents
    ensures var t := Step(s, op, []);
            && Covered(t)
            && (e in t.ents ==> t.ents[e].used - SumBilled(t, e) == s.ents[e].used - SumBilled(s, e))
  {
    var t := Step(s, op, []);
    forall f | f in t.ents ensures SumBilled(t, f) == SumBilled(s, f) && SumBilled(s, f) <= t.ents[f].used {
      BilledSame(s.rows, t.rows, |s.rows|, f);
      if f !in s.ents {
        BilledNone(s.rows, |s.rows|, f);
      }
    }
  }

  ghost predicate NeverDeletes(ops: seq<Op>, e: nat) {
    forall i :: 0 <= i < |ops| ==> ops[i] != DeleteOp(e)
  }

  lemma {:induction false} StepBalances(s: State, op: Op, ladder: seq<nat>, e: nat)
    requires Covered(s) && CanStep(s, op) && e in s.ents && op != DeleteOp(e)
    ensures var t := Step(s, op, ladder);
            && Covered(t) && e in t.ents
            && t.ents[e].used - SumBilled(t, e) == s.ents[e].used - SumBilled(s, e) + WrittenOffBy(s, op, e)
  {
    match op
    case ReserveOp(user, turn, now, pick) => ReserveBalances(s, user, turn, now, pick, e);
    case SettleOp(id, how, _) => SettleBalances(s, id, how, ladder, e);
    case AdminOp(_, _) => AdminBalances(s, op, e);
    case DeleteOp(_) => AdminBalances(s, op, e);
  }

  /** Ledger reconciliation: over every run the counter of an entitlement moves exactly with what its
      rows are billed, plus what settlements have written off on non-head rows. */
  lemma {:induction false} Reconciled(s: State, ops: seq<Op>, ladder: seq<nat>, e: nat)
    requires Covered(s) && CanRun(s, ops, ladder) && e in s.ents && NeverDeletes(ops, e)
    ensures var t := Run(s, ops, ladder);
            && Covered(t) && e in t.ents
            && t.ents[e].used - s.ents[e].used
               == SumBilled(t, e) - SumBilled(s, e) + WrittenOff(s, ops, ladder, e)
    decreases |ops|
  {
    if ops != [] {
      StepBalances(s, ops[0], ladder, e);
      assert NeverDeletes(ops[1..], e) by {
        forall i | 0 <= i < |ops[1..]| ensures ops[1..][i] != DeleteOp(e) {
          assert ops[1..][i] == ops[i + 1];
        }
      }
      Reconciled(Step(s, ops[0], ladder), ops[1..], ladder, e);
    }
  }

  // ---------- What is written off are the repeated charges of a turn ----------

  /** Row i opens its turn. */
  predicate Opens(rows: seq<Row>, i: nat)
    requires i < |rows|
  {
    rows[i].turn.None? || forall j :: 0 <= j < i ==> rows[j].user != rows[i].user || rows[j].turn != rows[i].turn
  }

  /** Uses billed to e on the first n rows that do not open their turn. */
  function LateBilled(rows: seq<Row>, n: nat, e: nat): nat
    requires n <= |rows|
  {
    if n == 0 then 0 else
      LateBilled(rows, n - 1, e)
      + if !Opens(rows, n - 1) && rows[n - 1].ent == Some(e) then rows[n - 1].billed else 0
  }

  /** The step charges e for a request of a turn that has rows already: the turn's free window is over. */
  predicate Recharges(s: State, op: Op, e: nat) {
    && op.ReserveOp? && op.turn.Some? && op.pick == Some(e) && Effective(s, op.user, e, op.now)
    && (var (_, outcome) := Reserve(s, op.user, op.turn, op.now, op.pick);
        outcome.Granted? && outcome.charged)
    && exists j :: 0 <= j < |s.rows| && s.rows[j].user == op.user && s.rows[j].turn == op.turn
  }

  ghost function RechargeCount(s: State, ops: seq<Op>, ladder: seq<nat>, e: nat): nat
    requires CanRun(s, ops, ladder)
    decreases |ops|
  {
    if ops == [] then 0 else
      (if Recharges(s, ops[0], e) then 1 else 0)
      + RechargeCount(Step(s, ops[0], ladder), ops[1..], ladder, e)
  }

  lemma {:induction false} HeadOpens(rows: seq<Row>, id: nat, i: nat)
    requires id < |rows| && i < |rows| && SameTurn(rows, id, i)
    ensures i == Head(rows, id) <==> Opens(rows, i)
  {
    var h := Head(rows, id);
    if h < i {
      assert rows[h].user == rows[i].user && rows[h].turn == rows[i].turn;
    } else if h == i && rows[id].turn.Some? {
      forall j | 0 <= j < i ensures rows[j].user != rows[i].user || rows[j].turn != rows[i].turn {
        assert !SameTurn(rows, id, j);
      }
    }
  }

  lemma {:induction false} SameTurnsOpen(a: seq<Row>, b: seq<Row>, i: nat)
    requires i < |a| && i < |b|
    requires forall j :: 0 <= j <= i ==> a[j].user == b[j].user && a[j].turn == b[j].turn
    ensures Opens(a, i) <==> Opens(b, i)
  {
    assert a[i].user == b[i].user && a[i].turn == b[i].turn;
  }

  lemma {:induction false} LateSame(a: seq<Row>, b: seq<Row>, n: nat, e: nat)
    requires n <= |a| && n <= |b|
    requires forall i :: 0 <= i < n ==>
               && a[i].user == b[i].user && a[i].turn == b[i].turn
               && (a[i].ent == Some(e) <==> b[i].ent == Some(e)) && (a[i].ent == Some(e) ==> a[i].billed == b[i].billed)
    ensures LateBilled(a, n, e) == LateBilled(b, n, e)
  {
    if n > 0 {
      LateSame(a, b, n - 1, e);
      SameTurnsOpen(a, b, n - 1);
    }
  }

  lemma {:induction false} LateRebilled(rows: seq<Row>, id: nat, charge: nat, n: nat, e: nat)
    requires id < |rows| && n <= |rows|
    ensures LateBilled(Rebilled(rows, id, charge), n, e) + OffHead(rows, id, n, e) == LateBilled(rows, n, e)
  {
    if n > 0 {
      LateRebilled(rows, id, charge, n - 1, e);
      SameTurnsOpen(rows, Rebilled(rows, id, charge), n - 1);
      if SameTurn(rows, id, n - 1) {
        HeadOpens(rows, id, n - 1);
      }
    }
  }

  lemma {:induction false} StepLate(s: State, op: Op, ladder: seq<nat>, e: nat)
    requires CanStep(s, op) && op != DeleteOp(e)
    ensures var t := Step(s, op, ladder);
            LateBilled(t.rows, |t.rows|, e) + WrittenOffBy(s, op, e)
            == LateBilled(s.rows, |s.rows|, e) + if Recharges(s, op, e) then 1 else 0
  {
    var t := Step(s, op, ladder);
    if op.SettleOp? {
      if op.id < |s.rows| && s.rows[op.id].status == Reserved {
        var marked := s.rows[op.id := Finished(s.rows[op.id], op.how)];
        LateSame(s.rows, marked, |s.rows|, e);
        OffHeadSame(s.rows, marked, op.id, |s.rows|, e);
        LateRebilled(marked, op.id, Desired(marked, op.id, ladder), |s.rows|, e);
      }
    } else {
      LateSame(s.rows, t.rows, |s.rows|, e);
      if op.ReserveOp? && |t.rows| > |s.rows| {
        LateNew(s, op, ladder, e);
      }
    }
  }

  lemma {:induction false} LateNew(s: State, op: Op, ladder: seq<nat>, e: nat)
    requires CanStep(s, op) && op.ReserveOp? && |Step(s, op, ladder).rows| > |s.rows|
    ensures var t := Step(s, op, ladder);
            (if !Opens(t.rows, |s.rows|) && t.rows[|s.rows|].ent == Some(e) then t.rows[|s.rows|].billed else 0)
            == if Recharges(s, op, e) then 1 else 0
  {
    var t := Step(s, op, ladder);
    var n := |s.rows|;
    assert forall j :: 0 <= j < n ==> t.rows[j] == s.rows[j];
    assert Opens(t.rows, n) ==
      (op.turn.None? || forall j :: 0 <= j < n ==> s.rows[j].user != op.user || s.rows[j].turn != op.turn);
  }

  /** Written-off uses and the charges still on later rows of a turn are together exactly the charges made
      for turns that had rows already; without any such charge nothing is ever written off. */
  lemma {:induction false} WriteOffsAreRecharges(s: State, ops: seq<Op>, ladder: seq<nat>, e: nat)
    requires CanRun(s, ops, ladder) && NeverDeletes(ops, e)
    ensures var t := Run(s, ops, ladder);
            WrittenOff(s, ops, ladder, e) + LateBilled(t.rows, |t.rows|, e)
            == LateBilled(s.rows, |s.rows|, e) + RechargeCount(s, ops, ladder, e)
    decreases |ops|
  {
    if ops != [] {
      StepLate(s, ops[0], ladder, e);
      assert NeverDeletes(ops[1..], e) by {
        forall i | 0 <= i < |ops[1..]| ensures ops[1..][i] != DeleteOp(e) {
          assert ops[1..][i] == ops[i + 1];
        }
      }
      WriteOffsAreRecharges(Step(s, ops[0], ladder), ops[1..], ladder, e);
    }
  }

  /** A row that does not open its turn carries a charge only while it is in flight. */
  ghost predicate LateInFlight(rows: seq<Row>) {
    forall i :: 0 <= i < |rows| && !Opens(rows, i) && rows[i].billed > 0 ==> rows[i].status == Reserved
  }

  lemma {:induction false} SettleKeepsLate(s: State, id: nat, how: Settlement, ladder: seq<nat>)
    requires LateInFlight(s.rows)
    ensures LateInFlight(Settle(s, id, how, ladder).0.rows)
  {
    if id < |s.rows| && s.rows[id].status == Reserved {
      var marked := s.rows[id := Finished(s.rows[id], how)];
      var rows := Rebilled(marked, id, Desired(marked, id, ladder));
      forall i | 0 <= i < |rows| && !Opens(rows, i) && rows[i].billed > 0 ensures rows[i].status == Reserved {
        SameTurnsOpen(s.rows, rows, i);
        SameTurnsOpen(marked, rows, i);
        if SameTurn(marked, id, i) {
          HeadOpens(marked, id, i);
        } else {
          assert i != id && rows[i] == s.rows[i];
        }
      }
    }
  }

  lemma {:induction false} StepKeepsLate(s: State, op: Op, ladder: seq<nat>)
    requires CanStep(s, op) && LateInFlight(s.rows)
    ensures LateInFlight(Step(s, op, ladder).rows)
  {
    if op.SettleOp? {
      SettleKeepsLate(s, op.id, op.how, ladder);
    } else {
      var rows := Step(s, op, ladder).rows;
      forall i | 0 <= i < |rows| && !Opens(rows, i) && rows[i].billed > 0 ensures rows[i].status == Reserved {
        if i < |s.rows| {
          SameTurnsOpen(s.rows, rows, i);
        }
      }
    }
  }

  lemma {:induction false} RunKeepsLate(s: State, ops: seq<Op>, ladder: seq<nat>)
    requires CanRun(s, ops, ladder) && LateInFlight(s.rows)
    ensures LateInFlight(Run(s, ops, ladder).rows)
    decreases |ops|
  {
    if ops != [] {
      StepKeepsLate(s, ops[0], ladder);
      RunKeepsLate(Step(s, ops[0], ladder), ops[1..], ladder);
    }
  }

  lemma {:induction false} NoneLate(rows: seq<Row>, n: nat, e: nat)
    requires n <= |rows| && LateInFlight(rows) && forall i :: 0 <= i < |rows| ==> rows[i].status != Reserved
    ensures LateBilled(rows, n, e) == 0
  {
    if n > 0 {
      NoneLate(rows, n - 1, e);
    }
  }

  /** From an empty table, a counter equals the uses billed on the entitlement's rows, plus the repeated
      charges, less those still on a row. Once nothing is in flight none are left on a row, so the counter
      exceeds the rows by exactly the repeated charges, and the two agree if and only if there was none. */
  lemma {:induction false} CounterFromScratch(s: State, ops: seq<Op>, ladder: seq<nat>, e: nat)
    requires s.rows == [] && CanRun(s, ops, ladder) && e in s.ents && NeverDeletes(ops, e)
    ensures e in Run(s, ops, ladder).ents
    ensures var t := Run(s, ops, ladder);
            var gained := t.ents[e].used - s.ents[e].used;
            && gained == SumBilled(t, e) + RechargeCount(s, ops, ladder, e) - LateBilled(t.rows, |t.rows|, e)
            && ((forall i :: 0 <= i < |t.rows| ==> t.rows[i].status != Reserved) ==>
                  && gained == SumBilled(t, e) + RechargeCount(s, ops, ladder, e)
                  && (gained == SumBilled(t, e) <==> RechargeCount(s, ops, ladder, e) == 0))
  {
    var t := Run(s, ops, ladder);
    Reconciled(s, ops, ladder, e);
    WriteOffsAreRecharges(s, ops, ladder, e);
    RunKeepsLate(s, ops, ladder);
    if forall i :: 0 <= i < |t.rows| ==> t.rows[i].status != Reserved {
      NoneLate(t.rows, |t.rows|, e);
    }
  }

  // A turn that outgrows its free window: two requests, more than fifteen minutes apart.

  const HOLDER := Entitlement(0, 0, true, DAY, None, 0)
  const DONE := Settlement(Answered, 1, 1)
  const LATER: int := 16 * MINUTE

  function Unlimited(rows: seq<Row>, used: nat): State {
    State(rows, map[0 := HOLDER.(used := used)], map[0 := Plan(true, None, None, None)])
  }

  function Request(billed: nat, now: int): Row {
    NewRow(0, 0, Some("a"), billed, now)
  }

  lemma {:induction false} BothAreCharged()
    ensures Reserve(Unlimited([], 0), 0, Some("a"), 0, Some(0)).0 == Unlimited([Request(1, 0)], 1)
    ensures Reserve(Unlimited([Request(1, 0)], 1), 0, Some("a"), LATER, Some(0)).0
         == Unlimited([Request(1, 0), Request(1, LATER)], 2)
  {
    assert RecentHead([Request(1, 0)], 1, 0, "a", LATER) == None;
    assert [] + [Request(1, 0)] == [Request(1, 0)];
    assert [Request(1, 0)] + [Request(1, LATER)] == [Request(1, 0), Request(1, LATER)];
  }

  /** The second settlement bills one use for the whole turn and zeroes the repeated charge. */
  lemma {:induction false} BothAreSettled()
    ensures var rows := [Request(1, 0), Request(1, LATER)];
            var first := [Finished(Request(1, 0), DONE), Request(0, LATER)];
            && Settle(Unlimited(rows, 2), 0, DONE, []).0 == Unlimited(first, 2)
            && Settle(Unlimited(first, 2), 1, DONE, []).0
               == Unlimited([Finished(Request(1, 0), DONE), Finished(Request(0, LATER), DONE)], 2)
  {
    var a, b := Finished(Request(1, 0), DONE), Finished(Request(0, LATER), DONE);
    TurnOfTwo([a, Request(1, LATER)], 0);
    TurnOfTwo([a, b], 1);
    assert [Request(1, 0), Request(1, LATER)][0 := a] == [a, Request(1, LATER)];
    assert [a, Request(0, LATER)][1 := b] == [a, b];
    hide HasStatus;
    assert Rebilled([a, Request(1, LATER)], 0, 1) == [a, Request(0, LATER)];
    assert Rebilled([a, b], 1, 1) == [a, b];
  }

  lemma {:induction false} TurnOfTwo(rows: seq<Row>, id: nat)
    requires |rows| == 2 && id < 2 && rows[0].billed == 1
    requires forall i :: 0 <= i < 2 ==> rows[i].user == 0 && rows[i].turn == Some("a")
    requires rows[0].status == Answered && (rows[1].status == Reserved || rows[1].status == Answered)
    ensures Head(rows, id) == 0 && Desired(rows, id, []) == 1
    ensures SameTurn(rows, id, 0) && SameTurn(rows, id, 1)
  {
    assert SameTurn(rows, id, 0) && SameTurn(rows, id, 1);
  }

  /** The counter then stands at two although the rows are billed one use, with nothing in flight. */
  lemma {:induction false} OutgrownTurnCountsTwice(ops: seq<Op>)
    requires ops == [
      ReserveOp(0, Some("a"), 0, Some(0)), ReserveOp(0, Some("a"), LATER, Some(0)),
      SettleOp(0, DONE, LATER), SettleOp(1, DONE, LATER)]
    ensures CanRun(Unlimited([], 0), ops, [])
    ensures var t := Run(Unlimited([], 0), ops, []);
            && 0 in t.ents && t.ents[0].used == 2 && SumBilled(t, 0) == 1
            && forall i :: 0 <= i < |t.rows| ==> t.rows[i].status != Reserved
  {
    BothAreCharged();
    BothAreSettled();
    hide Reserve, Settle;
    var o1, o2, o3 := ops[1..], ops[2..], ops[3..];
    assert o1[1..] == o2 && o2[1..] == o3 && o3[1..] == [];
    var a, b := Finished(Request(1, 0), DONE), Finished(Request(0, LATER), DONE);
    var s1, s2 := Unlimited([Request(1, 0)], 1), Unlimited([Request(1, 0), Request(1, LATER)], 2);
    var s3, s4 := Unlimited([a, Request(0, LATER)], 2), Unlimited([a, b], 2);
    assert CanRun(s4, [], []) && Run(s4, [], []) == s4;
    assert CanRun(s3, o3, []) && Run(s3, o3, []) == s4;
    assert CanRun(s2, o2, []) && Run(s2, o2, []) == s4;
    assert CanRun(s1, o1, []) && Run(s1, o1, []) == s4;
    assert Billed([a, b], 1, 0) == 1;
  }
}
