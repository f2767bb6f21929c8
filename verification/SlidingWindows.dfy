/** Sliding windows: the limits hold at every instant of every run, and the quota view reports them
    truthfully. */
module SlidingWindows {
  import opened Basics
  import opened Quota
  import opened Ledger
  import opened Reconciliation
  import Ladder

  datatype Window = FiveHour | Week | Month

  function Span(w: Window): int {
    match w case FiveHour => 5 * HOUR case Week => 7 * DAY case Month => 30 * DAY
  }

  function LimitOf(plan: Plan, w: Window): Option<nat> {
    match w case FiveHour => plan.limit5h case Week => plan.limitWeek case Month => plan.limitMonth
  }

  function Used(rows: seq<Row>, user: nat, now: int, w: Window): nat {
    WindowUsed(rows, |rows|, user, now, Span(w))
  }

  /** A row whose charge counts in the window. */
  predicate Counts(r: Row, user: nat, now: int, span: int) {
    r.user == user && r.createdAt > now - span && r.billed > 0
  }

  /** Charged rows of a user inside a window, among the first n. */
  function Charged(rows: seq<Row>, n: nat, user: nat, now: int, span: int): nat
    requires n <= |rows|
  {
    if n == 0 then 0 else
      Charged(rows, n - 1, user, now, span) + if Counts(rows[n - 1], user, now, span) then 1 else 0
  }

  // ---------- Safety ----------

  /** Every entitlement of the user is on a plan that limits the window, by at most `limit`. */
  ghost predicate Limited(s: State, user: nat, w: Window, limit: nat) {
    forall e :: e in s.ents && s.ents[e].user == user && s.ents[e].plan in s.plans ==>
      var l := LimitOf(s.plans[s.ents[e].plan], w); l.Some? && l.value <= limit
  }

  /** The plans keep the limit and the clock does not go back. Requests may carry any turn ids. */
  ghost predicate Regular(
      s: State, ops: seq<Op>, ladder: seq<nat>, user: nat, w: Window, limit: nat, from: int)
    requires CanRun(s, ops, ladder)
    decreases |ops|
  {
    && Limited(s, user, w, limit)
    && (ops != [] ==>
          && from <= Clock(ops[0], from)
          && Regular(Step(s, ops[0], ladder), ops[1..], ladder, user, w, limit, Clock(ops[0], from)))
  }

  /** The time of a step. Administrative changes touch no charge and need none. */
  function Clock(op: Op, from: int): int {
    if op.ReserveOp? || op.SettleOp? then op.now else from
  }

  /** Rows stand in the order of their creation, and none is billed more than the highest tier. */
  ghost predicate Kept(rows: seq<Row>, ladder: seq<nat>, now: int) {
    && (forall i, j :: 0 <= i < j < |rows| ==> rows[i].createdAt <= rows[j].createdAt)
    && (forall i :: 0 <= i < |rows| ==> rows[i].createdAt <= now && rows[i].billed <= |ladder| + 1)
  }

  ghost predicate TurnCharged(rows: seq<Row>, id: nat)
    requires id < |rows|
  {
    exists j :: 0 <= j < |rows| && SameTurn(rows, id, j) && rows[j].billed > 0
  }

  /** Settling the row bills a turn that carries no charge, on a head that lies in the window. */
  ghost predicate Revives(rows: seq<Row>, id: nat, how: Settlement, user: nat, now: int, span: int) {
    && id < |rows| && rows[id].status == Reserved && rows[id].user == user
    && rows[Head(rows, id)].createdAt > now - span
    && !TurnCharged(rows, id)
    && var marked := rows[id := Finished(rows[id], how)];
       HasStatus(marked, id, Reserved) || HasStatus(marked, id, Answered) || HasStatus(marked, id, Aborted)
  }

  // Counting charged rows

  /** Later, the same rows charge no more. */
  lemma {:induction false} ChargedShrinks(a: seq<Row>, b: seq<Row>, n: nat, user: nat, now: int, then_: int, span: int)
    requires n <= |a| && n <= |b| && now <= then_
    requires forall i :: 0 <= i < n ==>
               && a[i].user == b[i].user && a[i].createdAt == b[i].createdAt
               && (a[i].user == user && b[i].billed > 0 ==> a[i].billed > 0)
    ensures Charged(b, n, user, then_, span) <= Charged(a, n, user, now, span)
  {
    if n > 0 {
      ChargedShrinks(a, b, n - 1, user, now, then_, span);
    }
  }

  /** Row h may come to count, in exchange for row j. */
  lemma {:induction false} ChargedMoves(
      a: seq<Row>, b: seq<Row>, n: nat, h: nat, j: nat, user: nat, now: int, span: int)
    requires n <= |a| && n <= |b| && j != h && h < |a| && j < |a| && h < |b| && j < |b|
    requires forall i :: 0 <= i < n && i != h && Counts(b[i], user, now, span) ==> Counts(a[i], user, now, span)
    requires Counts(a[j], user, now, span) && !Counts(b[j], user, now, span)
    ensures Charged(b, n, user, now, span) + (if j < n then 1 else 0)
         <= Charged(a, n, user, now, span) + (if h < n then 1 else 0)
  {
    if n > 0 {
      ChargedMoves(a, b, n - 1, h, j, user, now, span);
    }
  }

  /** Row h comes to count and no other row changes. */
  lemma {:induction false} ChargedGrows(a: seq<Row>, b: seq<Row>, n: nat, h: nat, user: nat, now: int, span: int)
    requires n <= |a| && n <= |b| && h < |a| && h < |b| && !Counts(a[h], user, now, span)
    requires forall i :: 0 <= i < n && i != h ==> (Counts(b[i], user, now, span) <==> Counts(a[i], user, now, span))
    ensures Charged(b, n, user, now, span)
         == Charged(a, n, user, now, span) + if h < n && Counts(b[h], user, now, span) then 1 else 0
  {
    if n > 0 {
      ChargedGrows(a, b, n - 1, h, user, now, span);
    }
  }

  lemma {:induction false} ChargedWithinUsed(rows: seq<Row>, n: nat, user: nat, now: int, span: int, most: nat)
    requires n <= |rows|
    requires forall i :: 0 <= i < n && rows[i].user == user ==> rows[i].billed <= most
    ensures Charged(rows, n, user, now, span) <= WindowUsed(rows, n, user, now, span)
         <= Charged(rows, n, user, now, span) * most
  {
    if n > 0 {
      ChargedWithinUsed(rows, n - 1, user, now, span, most);
      assert (Charged(rows, n - 1, user, now, span) + 1) * most == Charged(rows, n - 1, user, now, span) * most + most;
    }
  }

  // One settlement

  /** What a settlement does to the rows: the head carries the charge, the others of the turn carry none. */
  lemma {:induction false} SettledRows(s: State, id: nat, how: Settlement, ladder: seq<nat>)
    requires id < |s.rows| && s.rows[id].status == Reserved
    ensures var rows := Settle(s, id, how, ladder).0.rows;
            var marked := s.rows[id := Finished(s.rows[id], how)];
            var h := Head(s.rows, id);
            && |rows| == |s.rows| && SameShape(s.rows, rows)
            && (forall i :: 0 <= i < |rows| ==> rows[i].createdAt == s.rows[i].createdAt)
            && (forall i :: 0 <= i < |rows| ==> rows[i].status == marked[i].status)
            && (forall i :: 0 <= i < |rows| && i != h ==>
                  rows[i].billed == if SameTurn(s.rows, id, i) then 0 else s.rows[i].billed)
            && rows[h].billed == Desired(marked, id, ladder)
            && rows[h].billed <= Max(s.rows[h].billed, |ladder| + 1)
            && (rows[h].billed > 0 <==>
                  HasStatus(marked, id, Reserved) || HasStatus(marked, id, Answered) || HasStatus(marked, id, Aborted))
  {
    var marked := s.rows[id := Finished(s.rows[id], how)];
    assert SameShape(s.rows, marked);
    SameShapeTurns(s.rows, marked, id);
  }

  /** A settlement raises the number of charged rows in a window if and only if it revives a turn; it then
      raises it by one. */
  lemma {:induction false} SettlementRaisesIff(
      s: State, id: nat, how: Settlement, ladder: seq<nat>, user: nat, now: int, span: int)
    requires forall i, j :: 0 <= i < j < |s.rows| ==> s.rows[i].createdAt <= s.rows[j].createdAt
    ensures var rows := Settle(s, id, how, ladder).0.rows;
            var was := Charged(s.rows, |s.rows|, user, now, span);
            var next := Charged(rows, |rows|, user, now, span);
            && (next > was <==> Revives(s.rows, id, how, user, now, span))
            && next <= was + 1
  {
    var rows := Settle(s, id, how, ladder).0.rows;
    if id < |s.rows| && s.rows[id].status == Reserved {
      SettledRows(s, id, how, ladder);
      var h := Head(s.rows, id);
      hide Settle, HasStatus;
      if !TurnCharged(s.rows, id) {
        assert SameTurn(s.rows, id, h) && !Counts(s.rows[h], user, now, span);
        ChargedGrows(s.rows, rows, |rows|, h, user, now, span);
      } else {
        var j :| 0 <= j < |s.rows| && SameTurn(s.rows, id, j) && s.rows[j].billed > 0;
        TurnMovesToHead(s.rows, rows, id, j, user, now, span);
      }
    }
  }

  /** In a turn that carries a charge, the charge can only move to an older row. */
  lemma {:induction false} TurnMovesToHead(
      a: seq<Row>, b: seq<Row>, id: nat, j: nat, user: nat, now: int, span: int)
    requires SameShape(a, b) && id < |a| && j < |a| && SameTurn(a, id, j) && a[j].billed > 0
    requires forall i, k :: 0 <= i < k < |a| ==> a[i].createdAt <= a[k].createdAt
    requires forall i :: 0 <= i < |a| ==> a[i].createdAt == b[i].createdAt
    requires forall i :: 0 <= i < |a| && i != Head(a, id) ==>
               b[i].billed == if SameTurn(a, id, i) then 0 else a[i].billed
    ensures Charged(b, |b|, user, now, span) <= Charged(a, |a|, user, now, span)
  {
    var h := Head(a, id);
    assert h <= j && a[h].createdAt <= a[j].createdAt && a[h].user == a[j].user;
    if j != h && Counts(b[h], user, now, span) {
      ChargedMoves(a, b, |a|, h, j, user, now, span);
    } else {
      PointwiseShrinks(a, b, |a|, user, now, span);
    }
  }

  lemma {:induction false} PointwiseShrinks(a: seq<Row>, b: seq<Row>, n: nat, user: nat, now: int, span: int)
    requires n <= |a| && n <= |b|
    requires forall i :: 0 <= i < n && Counts(b[i], user, now, span) ==> Counts(a[i], user, now, span)
    ensures Charged(b, n, user, now, span) <= Charged(a, n, user, now, span)
  {
    if n > 0 {
      PointwiseShrinks(a, b, n - 1, user, now, span);
    }
  }

  // Every step

  lemma {:induction false} ReserveKeeps(s: State, op: Op, ladder: seq<nat>, now: int)
    requires op.ReserveOp? && CanStep(s, op) && now <= op.now && Kept(s.rows, ladder, now)
    ensures Kept(Step(s, op, ladder).rows, ladder, op.now)
  {
  }

  lemma {:induction false} SettleKeeps(s: State, id: nat, how: Settlement, ladder: seq<nat>, now: int)
    requires Kept(s.rows, ladder, now)
    ensures Kept(Settle(s, id, how, ladder).0.rows, ladder, now)
  {
    var rows := Settle(s, id, how, ladder).0.rows;
    if id < |s.rows| && s.rows[id].status == Reserved {
      SettledRows(s, id, how, ladder);
      hide Settle, Desired;
    }
  }

  lemma {:induction false} StepKeeps(s: State, op: Op, ladder: seq<nat>, now: int)
    requires CanStep(s, op) && Kept(s.rows, ladder, now) && now <= Clock(op, now)
    ensures Kept(Step(s, op, ladder).rows, ladder, Clock(op, now))
  {
    if op.ReserveOp? {
      ReserveKeeps(s, op, ladder, now);
    } else if op.SettleOp? {
      SettleKeeps(s, op.id, op.how, ladder, now);
    }
  }

  /** A reservation is charged only where the limit leaves room. */
  lemma {:induction false} ReserveStaysWithin(
      s: State, op: Op, ladder: seq<nat>, user: nat, w: Window, limit: nat, now: int)
    requires op.ReserveOp? && CanStep(s, op) && now <= op.now && Kept(s.rows, ladder, now) && Limited(s, user, w, limit)
    requires Charged(s.rows, |s.rows|, user, now, Span(w)) <= limit
    ensures var t := Step(s, op, ladder); Charged(t.rows, |t.rows|, user, op.now, Span(w)) <= limit
  {
    var t := Reserve(s, op.user, op.turn, op.now, op.pick).0;
    var n := |s.rows|;
    ChargedShrinks(s.rows, t.rows, n, user, now, op.now, Span(w));
    if |t.rows| > n && op.user == user && t.rows[n].billed > 0 {
      ChargedWithinUsed(s.rows, n, user, op.now, Span(w), |ladder| + 1);
      ChargedShrinks(s.rows, t.rows, n, user, op.now, op.now, Span(w));
      var plan := s.plans[s.ents[op.pick.value].plan];
      assert LimitOf(plan, w).Some?;
      assert !Full(LimitOf(plan, w), Used(s.rows, user, op.now, w));
    }
  }

  lemma {:induction false} AdminStaysWithin(s: State, op: Op, ladder: seq<nat>, user: nat, span: int, now: int)
    requires (op.AdminOp? || op.DeleteOp?) && CanStep(s, op)
    ensures var t := Step(s, op, ladder);
            Charged(t.rows, |t.rows|, user, now, span) <= Charged(s.rows, |s.rows|, user, now, span)
  {
    var t := Step(s, op, ladder);
    ChargedShrinks(s.rows, t.rows, |s.rows|, user, now, now, span);
  }

  /** The step is a settlement that revives a turn although the window is full. */
  ghost predicate Overruns(s: State, op: Op, user: nat, span: int, limit: nat) {
    && op.SettleOp? && Revives(s.rows, op.id, op.how, user, op.now, span)
    && Charged(s.rows, |s.rows|, user, op.now, span) == limit
  }

  /** The only step that takes a window over its limit is one that revives a turn when the window is full. */
  lemma {:induction false} StepWithinIff(
      s: State, op: Op, ladder: seq<nat>, user: nat, w: Window, limit: nat, now: int)
    requires CanStep(s, op) && Kept(s.rows, ladder, now) && Limited(s, user, w, limit)
    requires now <= Clock(op, now)
    requires Charged(s.rows, |s.rows|, user, now, Span(w)) <= limit
    ensures var t := Step(s, op, ladder);
            Charged(t.rows, |t.rows|, user, Clock(op, now), Span(w)) <= limit
            <==> !Overruns(s, op, user, Span(w), limit)
  {
    if op.ReserveOp? {
      ReserveStaysWithin(s, op, ladder, user, w, limit, now);
    } else if op.SettleOp? {
      ChargedShrinks(s.rows, s.rows, |s.rows|, user, now, op.now, Span(w));
      SettlementRaisesIff(s, op.id, op.how, ladder, user, op.now, Span(w));
    } else {
      AdminStaysWithin(s, op, ladder, user, Span(w), now);
    }
  }

  // Every run

  /** At every instant of the run at most `limit` charged rows of the user lie in the window. Between two
      steps rows only leave it, so the instants of the steps decide. */
  ghost predicate Within(s: State, ops: seq<Op>, ladder: seq<nat>, user: nat, w: Window, limit: nat, from: int)
    requires CanRun(s, ops, ladder)
    decreases |ops|
  {
    && Charged(s.rows, |s.rows|, user, from, Span(w)) <= limit
    && (ops != [] ==> Within(Step(s, ops[0], ladder), ops[1..], ladder, user, w, limit, Clock(ops[0], from)))
  }

  ghost predicate NeverOverruns(s: State, ops: seq<Op>, ladder: seq<nat>, user: nat, w: Window, limit: nat, from: int)
    requires CanRun(s, ops, ladder)
    decreases |ops|
  {
    ops != [] ==>
      && !Overruns(s, ops[0], user, Span(w), limit)
      && NeverOverruns(Step(s, ops[0], ladder), ops[1..], ladder, user, w, limit, Clock(ops[0], from))
  }

  lemma {:induction false} RunWithinIff(
      s: State, ops: seq<Op>, ladder: seq<nat>, user: nat, w: Window, limit: nat, from: int)
    requires CanRun(s, ops, ladder) && Regular(s, ops, ladder, user, w, limit, from) && Kept(s.rows, ladder, from)
    requires Charged(s.rows, |s.rows|, user, from, Span(w)) <= limit
    ensures Within(s, ops, ladder, user, w, limit, from) <==> NeverOverruns(s, ops, ladder, user, w, limit, from)
    decreases |ops|
  {
    hide Charged, Overruns, Kept, Limited, Step;
    if ops != [] {
      var op := ops[0];
      var t := Step(s, op, ladder);
      StepWithinIff(s, op, ladder, user, w, limit, from);
      StepKeeps(s, op, ladder, from);
      if !Overruns(s, op, user, Span(w), limit) {
        RunWithinIff(t, ops[1..], ladder, user, w, limit, Clock(op, from));
      }
    }
  }

  /** Sliding-window safety with any turn ids: a run from an empty table stays within the limit at every
      instant if and only if no settlement bills a turn without charge, whose head lies in the window, while
      the window is full. */
  lemma {:induction false} WithinLimitIff(
      s: State, ops: seq<Op>, ladder: seq<nat>, user: nat, w: Window, limit: nat, from: int)
    requires s.rows == [] && CanRun(s, ops, ladder) && Regular(s, ops, ladder, user, w, limit, from)
    ensures Within(s, ops, ladder, user, w, limit, from) <==> NeverOverruns(s, ops, ladder, user, w, limit, from)
  {
    RunWithinIff(s, ops, ladder, user, w, limit, from);
  }

  // A guard at reservation

  /** A free request joins only a turn that carries a charge. */
  ghost predicate JoinsCharged(s: State, op: Op, user: nat) {
    op.ReserveOp? && op.user == user && FreeRide(s, user, op.turn, op.now).Some? ==>
      exists j :: 0 <= j < |s.rows| && s.rows[j].user == user && s.rows[j].turn == op.turn && s.rows[j].billed > 0
  }

  ghost predicate AlwaysJoinsCharged(s: State, ops: seq<Op>, ladder: seq<nat>, user: nat)
    requires CanRun(s, ops, ladder)
    decreases |ops|
  {
    ops != [] ==>
      && JoinsCharged(s, ops[0], user)
      && AlwaysJoinsCharged(Step(s, ops[0], ladder), ops[1..], ladder, user)
  }

  /** Requests without turn id never ride for free, so they meet the guard. */
  lemma {:induction false} PlainRequestsJoinCharged(s: State, ops: seq<Op>, ladder: seq<nat>, user: nat)
    requires CanRun(s, ops, ladder)
    requires forall op :: op in ops && op.ReserveOp? && op.user == user ==> op.turn.None?
    ensures AlwaysJoinsCharged(s, ops, ladder, user)
    decreases |ops|
  {
    if ops != [] {
      PlainRequestsJoinCharged(Step(s, ops[0], ladder), ops[1..], ladder, user);
    }
  }

  /** Every turn of the user with a request in flight carries a charge. */
  ghost predicate FlightsCharged(rows: seq<Row>, user: nat) {
    forall i :: 0 <= i < |rows| && rows[i].user == user && rows[i].status == Reserved ==> TurnCharged(rows, i)
  }

  lemma {:induction false} SettleKeepsFlights(s: State, id: nat, how: Settlement, ladder: seq<nat>, user: nat)
    requires FlightsCharged(s.rows, user)
    ensures FlightsCharged(Settle(s, id, how, ladder).0.rows, user)
  {
    var rows := Settle(s, id, how, ladder).0.rows;
    if id < |s.rows| && s.rows[id].status == Reserved {
      SettledRows(s, id, how, ladder);
      var marked := s.rows[id := Finished(s.rows[id], how)];
      var h := Head(s.rows, id);
      forall i | 0 <= i < |rows| && rows[i].user == user && rows[i].status == Reserved ensures TurnCharged(rows, i) {
        FlightStaysCharged(s.rows, marked, rows, id, h, i);
      }
    }
  }

  lemma {:induction false} FlightStaysCharged(a: seq<Row>, marked: seq<Row>, b: seq<Row>, id: nat, h: nat, i: nat)
    requires SameShape(a, b) && SameShape(a, marked) && id < |a| && i < |a| && h == Head(a, id)
    requires forall k :: 0 <= k < |a| && k != h ==> b[k].billed == if SameTurn(a, id, k) then 0 else a[k].billed
    requires HasStatus(marked, id, Reserved) ==> b[h].billed > 0
    requires marked[i].status == Reserved && (!SameTurn(a, id, i) ==> TurnCharged(a, i))
    ensures TurnCharged(b, i)
  {
    if SameTurn(a, id, i) {
      assert SameTurn(marked, id, i) && SameTurn(b, i, h);
    } else {
      var j :| 0 <= j < |a| && SameTurn(a, i, j) && a[j].billed > 0;
      assert !SameTurn(a, id, j) && SameTurn(b, i, j) && j != h;
    }
  }

  lemma {:induction false} ReserveKeepsFlights(s: State, op: Op, ladder: seq<nat>, user: nat)
    requires op.ReserveOp? && CanStep(s, op) && FlightsCharged(s.rows, user) && JoinsCharged(s, op, user)
    ensures FlightsCharged(Step(s, op, ladder).rows, user)
  {
    var rows := Step(s, op, ladder).rows;
    var n := |s.rows|;
    forall i | 0 <= i < |rows| && rows[i].user == user && rows[i].status == Reserved ensures TurnCharged(rows, i) {
      if i < n {
        var j :| 0 <= j < n && SameTurn(s.rows, i, j) && s.rows[j].billed > 0;
        assert SameTurn(rows, i, j);
      } else if rows[n].billed > 0 {
        assert SameTurn(rows, n, n);
      } else {
        var j :| 0 <= j < n && s.rows[j].user == user && s.rows[j].turn == op.turn && s.rows[j].billed > 0;
        assert SameTurn(rows, n, j);
      }
    }
  }

  lemma {:induction false} AdminKeepsFlights(s: State, op: Op, ladder: seq<nat>, user: nat)
    requires (op.AdminOp? || op.DeleteOp?) && CanStep(s, op) && FlightsCharged(s.rows, user)
    ensures FlightsCharged(Step(s, op, ladder).rows, user)
  {
    var rows := Step(s, op, ladder).rows;
    forall i | 0 <= i < |rows| && rows[i].user == user && rows[i].status == Reserved ensures TurnCharged(rows, i) {
      var j :| 0 <= j < |s.rows| && SameTurn(s.rows, i, j) && s.rows[j].billed > 0;
      assert SameTurn(rows, i, j);
    }
  }

  lemma {:induction false} FlightsNeverOverrun(
      s: State, ops: seq<Op>, ladder: seq<nat>, user: nat, w: Window, limit: nat, from: int)
    requires CanRun(s, ops, ladder) && AlwaysJoinsCharged(s, ops, ladder, user) && FlightsCharged(s.rows, user)
    ensures NeverOverruns(s, ops, ladder, user, w, limit, from)
    decreases |ops|
  {
    if ops != [] {
      var op := ops[0];
      if op.ReserveOp? {
        ReserveKeepsFlights(s, op, ladder, user);
      } else if op.SettleOp? {
        SettleKeepsFlights(s, op.id, op.how, ladder, user);
      } else {
        AdminKeepsFlights(s, op, ladder, user);
      }
      FlightsNeverOverrun(Step(s, op, ladder), ops[1..], ladder, user, w, limit, Clock(op, from));
    }
  }

  /** A run that stays within the limit ends with at most `limit` charged rows in the window; so it bills at
      most limit times the highest tier, and at most the limit itself when there are no tiers. */
  lemma {:induction false} WithinBounds(
      s: State, ops: seq<Op>, ladder: seq<nat>, user: nat, w: Window, limit: nat, from: int, until: int)
    requires CanRun(s, ops, ladder) && Regular(s, ops, ladder, user, w, limit, from) && Kept(s.rows, ladder, from)
    requires Within(s, ops, ladder, user, w, limit, from) && EndsBy(ops, from, until)
    ensures var rows := Run(s, ops, ladder).rows;
            && Charged(rows, |rows|, user, until, Span(w)) <= limit
            && Used(rows, user, until, w) <= limit * (|ladder| + 1)
            && (ladder == [] ==> Used(rows, user, until, w) <= limit)
    decreases |ops|
  {
    if ops == [] {
      ChargedShrinks(s.rows, s.rows, |s.rows|, user, from, until, Span(w));
      BilledBound(s.rows, ladder, user, w, limit, from, until);
    } else {
      StepKeeps(s, ops[0], ladder, from);
      hide Kept, Charged, Used, Step;
      WithinBounds(Step(s, ops[0], ladder), ops[1..], ladder, user, w, limit, Clock(ops[0], from), until);
    }
  }

  predicate EndsBy(ops: seq<Op>, from: int, until: int)
    decreases |ops|
  {
    if ops == [] then from <= until else EndsBy(ops[1..], Clock(ops[0], from), until)
  }

  lemma {:induction false} BilledBound(
      rows: seq<Row>, ladder: seq<nat>, user: nat, w: Window, limit: nat, from: int, now: int)
    requires Kept(rows, ladder, from) && Charged(rows, |rows|, user, now, Span(w)) <= limit
    ensures Used(rows, user, now, w) <= limit * (|ladder| + 1)
    ensures ladder == [] ==> Used(rows, user, now, w) <= limit
  {
    var charged := Charged(rows, |rows|, user, now, Span(w));
    ChargedWithinUsed(rows, |rows|, user, now, Span(w), |ladder| + 1);
    hide *;
    ProductGrows(charged, limit, |ladder| + 1);
  }

  /** Sliding-window safety, guarded at reservation: if free requests join only turns that carry a charge,
      then at every instant of every run, with any turn ids, a limited window holds at most `limit` charged
      rows of the user and bills at most limit times the highest tier. Requests without turn id never ride
      for free. */
  lemma {:induction false} WindowNeverOverrun(
      s: State, ops: seq<Op>, ladder: seq<nat>, user: nat, w: Window, limit: nat, from: int, until: int)
    requires s.rows == [] && CanRun(s, ops, ladder) && Regular(s, ops, ladder, user, w, limit, from)
    requires AlwaysJoinsCharged(s, ops, ladder, user) && EndsBy(ops, from, until)
    ensures Within(s, ops, ladder, user, w, limit, from)
    ensures var rows := Run(s, ops, ladder).rows;
            && Charged(rows, |rows|, user, until, Span(w)) <= limit
            && Used(rows, user, until, w) <= limit * (|ladder| + 1)
            && (ladder == [] ==> Used(rows, user, until, w) <= limit)
  {
    FlightsNeverOverrun(s, ops, ladder, user, w, limit, from);
    WithinLimitIff(s, ops, ladder, user, w, limit, from);
    WithinBounds(s, ops, ladder, user, w, limit, from, until);
  }

  lemma {:induction false} ProductGrows(a: nat, b: nat, c: nat)
    requires a <= b
    ensures a * c <= b * c && b * 1 == b
  {
    assert (b - a) * c >= 0;
  }

  // A run in which turn ids let the bound be exceeded: five transactions of one user.

  const TIGHT := Plan(true, Some(1), None, None)
  const FAILED := Settlement(UpstreamError, 0, 0)
  const WORKED := Settlement(Answered, 1, 1)
  const FAILED_ROW := Finished(NewRow(0, 0, Some("a"), 1, 0), FAILED).(billed := 0)
  const OTHER_ROW := NewRow(0, 0, Some("b"), 1, 1)
  const LATE_ROW := NewRow(0, 0, Some("a"), 0, 2)

  function Books(rows: seq<Row>, used: nat): State {
    State(rows, map[0 := HOLDER.(used := used)], map[0 := TIGHT])
  }

  lemma {:induction false} FirstTurnFails()
    ensures var s := Reserve(Books([], 0), 0, Some("a"), 0, Some(0)).0;
            s == Books([NewRow(0, 0, Some("a"), 1, 0)], 1)
            && Settle(s, 0, FAILED, []).0 == Books([FAILED_ROW], 0)
  {
    var s := Reserve(Books([], 0), 0, Some("a"), 0, Some(0)).0;
    var m := s.rows[0 := Finished(s.rows[0], FAILED)];
    assert |m| == 1 && Head(m, 0) == 0 && m[0].status == UpstreamError;
    assert !HasStatus(m, 0, Reserved) && !HasStatus(m, 0, Answered) && !HasStatus(m, 0, Aborted);
  }

  lemma {:induction false} SecondTurnIsCharged()
    ensures Reserve(Books([FAILED_ROW], 0), 0, Some("b"), 1, Some(0)).0 == Books([FAILED_ROW, OTHER_ROW], 1)
  {
    assert RecentHead([FAILED_ROW], 1, 0, "b", 1) == None;
    assert WindowUsed([FAILED_ROW], 1, 0, 1, 5 * HOUR) == 0;
  }

  lemma {:induction false} FirstTurnGoesOn()
    ensures Reserve(Books([FAILED_ROW, OTHER_ROW], 1), 0, Some("a"), 2, Some(0)).0
         == Books([FAILED_ROW, OTHER_ROW, LATE_ROW], 1)
  {
    assert RecentHead([FAILED_ROW, OTHER_ROW], 1, 0, "a", 2) == Some(0);
  }

  lemma {:induction false} FirstTurnSucceeds()
    ensures Used(Settle(Books([FAILED_ROW, OTHER_ROW, LATE_ROW], 1), 2, WORKED, []).0.rows, 0, 3, FiveHour) == 2
  {
    var n := [FAILED_ROW, OTHER_ROW, Finished(LATE_ROW, WORKED)];
    assert [FAILED_ROW, OTHER_ROW, LATE_ROW][2 := Finished(LATE_ROW, WORKED)] == n;
    assert SameTurn(n, 2, 0) && Head(n, 2) == 0 && !SameTurn(n, 2, 1) && SameTurn(n, 2, 2);
    assert !HasStatus(n, 2, Reserved) && HasStatus(n, 2, Answered);
    var done := Rebilled(n, 2, 1);
    assert done[0].billed == 1 && done[1] == OTHER_ROW && done[2].billed == 0;
    assert WindowUsed(done, 1, 0, 3, 5 * HOUR) == 1 && WindowUsed(done, 2, 0, 3, 5 * HOUR) == 2;
  }

  /** With turn ids the bound can be exceeded: a turn whose only request failed is billed nothing, which
      makes room for another turn; if the first turn then goes on, as it may for free, and succeeds, its
      head is billed after all. With a limit of one use, two are billed in one window. */
  lemma {:induction false} TurnIdsCanExceedTheLimit(ops: seq<Op>)
    requires ops == [
      ReserveOp(0, Some("a"), 0, Some(0)), SettleOp(0, FAILED, 0), ReserveOp(0, Some("b"), 1, Some(0)),
      ReserveOp(0, Some("a"), 2, Some(0)), SettleOp(2, WORKED, 3)]
    ensures CanRun(Books([], 0), ops, []) && Limited(Books([], 0), 0, FiveHour, 1)
    ensures Used(Run(Books([], 0), ops, []).rows, 0, 3, FiveHour) == 2
  {
    FirstTurnFails();
    SecondTurnIsCharged();
    FirstTurnGoesOn();
    FirstTurnSucceeds();
    hide Reserve, Settle, Used;
    var o1, o2, o3, o4 := ops[1..], ops[2..], ops[3..], ops[4..];
    assert o1[1..] == o2 && o2[1..] == o3 && o3[1..] == o4 && o4[1..] == [];
    var s := Settle(Books([FAILED_ROW, OTHER_ROW, LATE_ROW], 1), 2, WORKED, []).0;
    assert CanRun(s, [], []) && Run(s, [], []) == s;
    assert CanRun(Books([FAILED_ROW, OTHER_ROW, LATE_ROW], 1), o4, []);
    assert CanRun(Books([FAILED_ROW, OTHER_ROW], 1), o3, []);
    assert CanRun(Books([FAILED_ROW], 0), o2, []);
    assert Run(Books([FAILED_ROW, OTHER_ROW, LATE_ROW], 1), o4, []) == s;
    assert Run(Books([FAILED_ROW, OTHER_ROW], 1), o3, []) == s;
    assert Run(Books([FAILED_ROW], 0), o2, []) == s;
    var s1 := Books([NewRow(0, 0, Some("a"), 1, 0)], 1);
    assert CanRun(s1, o1, []) && Run(s1, o1, []) == s;
  }

  // ---------- The quota view ----------

  datatype WindowView = WindowView(
    key: Window, limit: Option<nat>, used: nat, remaining: Option<nat>, resetsAt: Option<int>)

  /** build_view without the descriptive columns; no windows when no entitlement is effective. */
  datatype QuotaView = QuotaView(entitlement: Option<nat>, windows: seq<WindowView>)

  /** The creation time of the oldest row that counts in the window, among the first n. */
  function FirstCounted(rows: seq<Row>, n: nat, user: nat, now: int, span: int): Option<int>
    requires n <= |rows|
  {
    if n == 0 then None else
      var first := FirstCounted(rows, n - 1, user, now, span);
      var r := rows[n - 1];
      if Counts(r, user, now, span) && (first.None? || r.createdAt < first.value) then Some(r.createdAt) else first
  }

  function ViewOf(s: State, user: nat, now: int, plan: Plan, w: Window): WindowView {
    var used := Used(s.rows, user, now, w);
    var limit := LimitOf(plan, w);
    var first := FirstCounted(s.rows, |s.rows|, user, now, Span(w));
    WindowView(w, limit, used,
      if limit.None? then None else Some(Max(limit.value - used, 0)),
      if first.None? then None else Some(first.value + Span(w)))
  }

  function View(s: State, user: nat, now: int, pick: Option<nat>): QuotaView
    requires pick.Some? ==> Effective(s, user, pick.value, now)
  {
    if pick.None? then QuotaView(None, []) else
      var plan := s.plans[s.ents[pick.value].plan];
      QuotaView(pick, [ViewOf(s, user, now, plan, FiveHour), ViewOf(s, user, now, plan, Week), ViewOf(s, user, now,
        plan, Month)])
  }

  /** The view and the gate agree: with an effective entitlement, a request that opens a turn is granted
      exactly when every limited window shows something remaining. */
  lemma {:induction false} ViewMatchesGate(s: State, user: nat, turn: Option<string>, now: int, pick: Option<nat>)
    requires IsPick(s, user, now, pick) && FreeRide(s, user, turn, now).None?
    ensures var view := View(s, user, now, pick);
            Reserve(s, user, turn, now, pick).1.Granted?
            <==> view.entitlement.Some?
                 && forall v :: v in view.windows && v.remaining.Some? ==> v.remaining.value > 0
  {
    if pick.Some? {
      var view := View(s, user, now, pick);
      var a, b, c := view.windows[0], view.windows[1], view.windows[2];
      assert view.windows == [a, b, c];
      assert a in view.windows && b in view.windows && c in view.windows;
      var plan := s.plans[s.ents[pick.value].plan];
      assert a.remaining.Some? ==> (a.remaining.value > 0 <==> !Full(plan.limit5h, a.used));
      assert b.remaining.Some? ==> (b.remaining.value > 0 <==> !Full(plan.limitWeek, b.used));
      assert c.remaining.Some? ==> (c.remaining.value > 0 <==> !Full(plan.limitMonth, c.used));
    }
  }

  // What `remaining` promises

  /** The books after n charged requests of the user at one instant. */
  function Again(s: State, user: nat, now: int, e: nat, n: nat): (t: State)
    requires e in s.ents
    ensures t.plans == s.plans && t.ents == s.ents[e := s.ents[e].(used := s.ents[e].used + n)]
  {
    if n == 0 then s else
      var t := Again(s, user, now, e, n - 1);
      Charge(t, e).(rows := t.rows + [NewRow(user, e, None, 1, now)])
  }

  lemma {:induction false} UsedPrefix(rows: seq<Row>, r: Row, n: nat, user: nat, now: int, span: int)
    requires n <= |rows|
    ensures WindowUsed(rows + [r], n, user, now, span) == WindowUsed(rows, n, user, now, span)
  {
    if n > 0 {
      UsedPrefix(rows, r, n - 1, user, now, span);
    }
  }

  lemma {:induction false} AgainUses(s: State, user: nat, now: int, e: nat, n: nat, span: int)
    requires e in s.ents && span > 0
    ensures var t := Again(s, user, now, e, n);
            WindowUsed(t.rows, |t.rows|, user, now, span) == WindowUsed(s.rows, |s.rows|, user, now, span) + n
  {
    if n > 0 {
      AgainUses(s, user, now, e, n - 1, span);
      var t := Again(s, user, now, e, n - 1);
      UsedPrefix(t.rows, NewRow(user, e, None, 1, now), |t.rows|, user, now, span);
    }
  }

  /** A window that showed more than n remaining is not full after n more uses. */
  lemma {:induction false} RemainingIsRoom(s: State, user: nat, now: int, plan: Plan, e: nat, w: Window, n: nat)
    requires e in s.ents
    ensures var v, t := ViewOf(s, user, now, plan, w), Again(s, user, now, e, n);
            (v.remaining.Some? ==> v.remaining.value > n) <==> !Full(LimitOf(plan, w), Used(t.rows, user, now, w))
  {
    AgainUses(s, user, now, e, n, Span(w));
    hide WindowUsed, FirstCounted, Again;
  }

  /** What a window shows as remaining is a number of requests: as long as the entitlement itself is not used
      up, the (n + 1)-th of several requests without turn id at one instant is granted exactly when every
      limited window showed more than n remaining. */
  lemma {:induction false} RemainingIsRequests(s: State, user: nat, now: int, e: nat, n: nat)
    requires Effective(s, user, e, now) && (s.ents[e].total.None? || s.ents[e].used + n < s.ents[e].total.value)
    ensures var t := Again(s, user, now, e, n);
            var (next, outcome) := Reserve(t, user, None, now, Some(e));
            && (outcome.Granted?
                <==> forall v :: v in View(s, user, now, Some(e)).windows && v.remaining.Some? ==>
                       v.remaining.value > n)
            && (outcome.Granted? ==> next == Again(s, user, now, e, n + 1))
  {
    var view, plan := View(s, user, now, Some(e)), s.plans[s.ents[e].plan];
    var a, b, c := view.windows[0], view.windows[1], view.windows[2];
    assert view.windows == [a, b, c];
    assert a in view.windows && b in view.windows && c in view.windows;
    RemainingIsRoom(s, user, now, plan, e, FiveHour, n);
    RemainingIsRoom(s, user, now, plan, e, Week, n);
    RemainingIsRoom(s, user, now, plan, e, Month, n);
    hide WindowUsed, ViewOf, Full;
  }

  function DenialFor(v: WindowView): Denial
    requires v.limit.Some?
  {
    match v.key
    case FiveHour => Window5h(v.limit.value, v.used)
    case Week => WindowWeek(v.limit.value, v.used)
    case Month => WindowMonth(v.limit.value, v.used)
  }

  /** The i-th window is the first one in which nothing remains. */
  ghost predicate FirstSpent(view: QuotaView, i: int) {
    && 0 <= i < |view.windows| && view.windows[i].remaining == Some(0)
    && forall j :: 0 <= j < i ==> view.windows[j].remaining != Some(0)
  }

  /** A denial names the first window of the view in which nothing remains, with the limit and the use
      that the view shows; without an effective entitlement it says so. */
  lemma {:induction false} DenialNamesFirstSpent(s: State, user: nat, turn: Option<string>, now: int, pick: Option<nat>)
    requires IsPick(s, user, now, pick)
    ensures var view := View(s, user, now, pick);
            var outcome := Reserve(s, user, turn, now, pick).1;
            && (outcome.Denied? && pick.None? ==> outcome.denial == NoEntitlement)
            && (outcome.Denied? && pick.Some? ==>
                  exists i :: FirstSpent(view,
                    i) && view.windows[i].limit.Some? && outcome.denial == DenialFor(view.windows[i]))
  {
    var outcome := Reserve(s, user, turn, now, pick).1;
    if outcome.Denied? && pick.Some? {
      var view := View(s, user, now, pick);
      var i := match outcome.denial case Window5h(_, _) => 0 case WindowWeek(_, _) => 1 case _ => 2;
      var a, b, c := view.windows[0], view.windows[1], view.windows[2];
      var plan := s.plans[s.ents[pick.value].plan];
      assert a.remaining == Some(0) <==> Full(plan.limit5h, a.used);
      assert b.remaining == Some(0) <==> Full(plan.limitWeek, b.used);
      assert c.remaining == Some(0) <==> Full(plan.limitMonth, c.used);
      assert FirstSpent(view, i);
    }
  }

  /** An exhausted experience pack is never reported as such by the gate: such entitlements are skipped
      when one is looked up, so the answer is NoEntitlement. */
  lemma {:induction false} ExhaustedReadsAsNone(s: State, user: nat, turn: Option<string>, now: int, pick: Option<nat>)
    requires IsPick(s, user, now, pick)
    ensures var outcome := Reserve(s, user, turn, now, pick).1;
            outcome.Denied? ==> !outcome.denial.UsesExhausted?
  {
  }

  lemma {:induction false} FirstIsLeast(rows: seq<Row>, n: nat, user: nat, now: int, span: int)
    requires n <= |rows|
    ensures var first := FirstCounted(rows, n, user, now, span);
            && (first.None? ==> forall i :: 0 <= i < n ==> !Counts(rows[i], user, now, span))
            && (first.Some? ==>
                  && (forall i :: 0 <= i < n && Counts(rows[i], user, now, span) ==> first.value <= rows[i].createdAt)
                  && exists i :: 0 <= i < n && Counts(rows[i], user, now, span) && rows[i].createdAt == first.value)
  {
    if n > 0 {
      FirstIsLeast(rows, n - 1, user, now, span);
    }
  }

  /** Between two instants the sum loses exactly the rows that leave the window. */
  lemma {:induction false} UsedLater(rows: seq<Row>, n: nat, user: nat, now: int, then_: int, span: int)
    requires n <= |rows| && now <= then_
    ensures WindowUsed(rows, n, user, then_, span) <= WindowUsed(rows, n, user, now, span)
    ensures WindowUsed(rows, n, user, then_, span) == WindowUsed(rows, n, user, now, span)
       <==> forall i :: 0 <= i < n && Counts(rows[i], user, now, span) ==> Counts(rows[i], user, then_, span)
  {
    if n > 0 {
      UsedLater(rows, n - 1, user, now, then_, span);
    }
  }

  /** resets_at is exactly the first instant at which the window's used count drops if nothing new is
      recorded; without a reset time nothing counts in the window. */
  lemma {:induction false} ResetIsFirstDrop(s: State, user: nat, now: int, plan: Plan, w: Window, t: int)
    requires now <= t
    ensures var view := ViewOf(s, user, now, plan, w);
            && (view.resetsAt.None? ==> view.used == 0)
            && (view.resetsAt.Some? ==> now < view.resetsAt.value)
            && (Used(s.rows, user, t, w) < view.used <==> view.resetsAt.Some? && view.resetsAt.value <= t)
  {
    FirstIsLeast(s.rows, |s.rows|, user, now, Span(w));
    UsedLater(s.rows, |s.rows|, user, now, t, Span(w));
    if FirstCounted(s.rows, |s.rows|, user, now, Span(w)).None? {
      NothingCounts(s.rows, |s.rows|, user, now, Span(w));
    }
  }

  lemma {:induction false} NothingCounts(rows: seq<Row>, n: nat, user: nat, now: int, span: int)
    requires n <= |rows| && forall i :: 0 <= i < n ==> !Counts(rows[i], user, now, span)
    ensures WindowUsed(rows, n, user, now, span) == 0
  {
    if n > 0 {
      NothingCounts(rows, n - 1, user, now, span);
    }
  }
}
