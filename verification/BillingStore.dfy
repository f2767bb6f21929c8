/** The billing transactions as the server runs them, row by row (server/src/billing/store.rs). */
module BillingStore {
  import opened Basics
  import opened Quota
  import opened Ledger
  import opened SlidingWindows
  import Ladder

  /** Some entitlement is always there to be picked, or none is effective. */
  lemma {:induction false} PickExists(s: State, user: nat, now: int, among: set<nat>) returns (pick: Option<nat>)
    requires among <= s.ents.Keys
    ensures match pick
            case None => forall e :: e in among ==> !Effective(s, user, e, now)
            case Some(e) =>
              && Effective(s, user, e, now)
              && forall f :: f in among && Effective(s, user, f, now) ==> s.ents[e].expiresAt <= s.ents[f].expiresAt
    decreases |among|
  {
    pick := None;
    if among != {} {
      var e :| e in among;
      pick := PickExists(s, user, now, among - {e});
      if Effective(s, user, e, now) && (pick.None? || s.ents[e].expiresAt < s.ents[pick.value].expiresAt) {
        pick := Some(e);
      }
    }
  }

  class Store {
    var rows: seq<Row>
    var ents: map<nat, Entitlement>
    var plans: map<nat, Plan>

    constructor (ents: map<nat, Entitlement>, plans: map<nat, Plan>)
      ensures Books() == State([], ents, plans)
    {
      rows, this.ents, this.plans := [], ents, plans;
    }

    ghost function Books(): State
      reads this
    {
      State(rows, ents, plans)
    }

    /** find_entitlement_tx: an effective entitlement that expires first. */
    method FindEntitlement(user: nat, now: int) returns (pick: Option<nat>)
      ensures IsPick(Books(), user, now, pick)
    {
      pick := None;
      var todo := ents.Keys;
      while todo != {}
        invariant todo <= ents.Keys
        invariant match pick
                  case None => forall e :: e in ents.Keys - todo ==> !Effective(Books(), user, e, now)
                  case Some(e) =>
                    && Effective(Books(), user, e, now)
                    && forall f :: f in ents.Keys - todo && Effective(Books(), user, f, now) ==>
                         ents[e].expiresAt <= ents[f].expiresAt
        decreases |todo|
      {
        var e :| e in todo;
        todo := todo - {e};
        var row := ents[e];
        if row.user == user && row.active && row.expiresAt > now && row.plan in plans && plans[row.plan].enabled
           && (row.total.None? || row.used < row.total.value)
        {
          if pick.None? || row.expiresAt < ents[pick.value].expiresAt {
            pick := Some(e);
          }
        }
      }
    }

    /** window_usage_tx: reserved rows count as well. */
    method WindowUsageOf(user: nat, now: int) returns (w: WindowUsage)
      ensures w == Windows(rows, user, now)
    {
      var used5h, usedWeek, usedMonth := 0, 0, 0;
      var n := 0;
      while n < |rows|
        invariant 0 <= n <= |rows|
        invariant used5h == WindowUsed(rows, n, user, now, 5 * HOUR)
        invariant usedWeek == WindowUsed(rows, n, user, now, 7 * DAY)
        invariant usedMonth == WindowUsed(rows, n, user, now, 30 * DAY)
      {
        var row := rows[n];
        if row.user == user {
          if row.createdAt > now - 5 * HOUR { used5h := used5h + row.billed; }
          if row.createdAt > now - 7 * DAY { usedWeek := usedWeek + row.billed; }
          if row.createdAt > now - 30 * DAY { usedMonth := usedMonth + row.billed; }
        }
        n := n + 1;
      }
      w := WindowUsage(used5h, usedWeek, usedMonth);
    }

    /** The turn head query of reserve: the first recent row of the turn and how many there are. */
    method TurnHead(user: nat, turn: string, now: int) returns (head: Option<nat>, seen: nat)
      ensures head == RecentHead(rows, |rows|, user, turn, now)
      ensures seen == RecentCount(rows, |rows|, user, turn, now)
    {
      head, seen := None, 0;
      var n := 0;
      while n < |rows|
        invariant 0 <= n <= |rows|
        invariant head == RecentHead(rows, n, user, turn, now)
        invariant seen == RecentCount(rows, n, user, turn, now)
      {
        if RecentInTurn(rows[n], user, turn, now) {
          if head.None? {
            head := Some(n);
          }
          seen := seen + 1;
        }
        n := n + 1;
      }
    }

    /** reserve */
    method ReserveRequest(user: nat, turn: Option<string>, now: int) returns (outcome: Outcome)
      modifies this
      ensures exists pick :: IsPick(old(Books()), user, now, pick)
                          && (Books(), outcome) == Reserve(old(Books()), user, turn, now, pick)
    {
      ghost var before := Books();
      if turn.Some? {
        var head, seen := TurnHead(user, turn.value, now);
        if head.Some? && seen < TURN_MAX_REQUESTS && rows[head.value].ent.Some? {
          var ent := rows[head.value].ent.value;
          outcome := Granted(|rows|, ent, false);
          rows := rows + [NewRow(user, ent, turn, 0, now)];
          ghost var any := PickExists(before, user, now, before.ents.Keys);
          assert IsPick(before, user, now, any) && (Books(), outcome) == Reserve(before, user, turn, now, any);
          return;
        }
      }
      assert FreeRide(before, user, turn, now).None?;
      var entitlement := FindEntitlement(user, now);
      if entitlement.None? {
        outcome := Denied(NoEntitlement);
        assert (Books(), outcome) == Reserve(before, user, turn, now, entitlement);
        return;
      }
      var e := entitlement.value;
      var windows := WindowUsageOf(user, now);
      var denial := Decide(plans[ents[e].plan], ents[e], windows);
      if denial.Some? {
        outcome := Denied(denial.value);
        assert (Books(), outcome) == Reserve(before, user, turn, now, entitlement);
        return;
      }
      ents := ents[e := ents[e].(used := ents[e].used + 1)];
      outcome := Granted(|rows|, e, true);
      rows := rows + [NewRow(user, e, turn, 1, now)];
      assert (Books(), outcome) == Reserve(before, user, turn, now, entitlement);
    }

    /** settle: a row is settled once; the whole turn is then charged afresh. */
    method SettleEvent(id: nat, how: Settlement, ladder: seq<nat>) returns (charged: Option<nat>)
      modifies this
      ensures (Books(), charged) == Settle(old(Books()), id, how, ladder)
    {
      if id >= |rows| || rows[id].status != Reserved {
        return None;
      }
      rows := rows[id := Finished(rows[id], how)];
      var charge := RecomputeTurnCharge(id, ladder);
      charged := Some(charge);
    }

    /** recompute_turn_charge */
    method RecomputeTurnCharge(id: nat, ladder: seq<nat>) returns (desired: nat)
      requires id < |rows|
      modifies this
      ensures desired == Desired(old(rows), id, ladder)
      ensures Books() == Recompute(old(Books()), id, ladder)
    {
      hide TurnTokens, HasStatus, Head;
      var first, inFlight, answered, aborted, total := ReadTurn(id);
      desired :=
        if inFlight then Max(rows[first].billed, 1)
        else if answered then Ladder.BilledUses(total, ladder)
        else if aborted then Max(Ladder.BilledUses(total, ladder), 1)
        else 0;
      var was := rows[first].billed;
      if was != desired {
        var ent := rows[first].ent;
        rows := rows[first := rows[first].(billed := desired)];
        if ent.Some? && ent.value in ents {
          ents := ents[ent.value := ents[ent.value].(used := Max(ents[ent.value].used + desired - was, 0))];
        }
      }
      SameShapeTurns(old(rows), rows, id);
      ZeroOthers(id, first);
      assert rows == Rebilled(old(rows), id, desired);
    }

    /** The row query of recompute_turn_charge and the four figures taken from it. */
    method ReadTurn(id: nat) returns (first: nat, inFlight: bool, answered: bool, aborted: bool, total: nat)
      requires id < |rows|
      ensures first == Head(rows, id)
      ensures inFlight == HasStatus(rows, id, Reserved)
      ensures answered == HasStatus(rows, id, Answered)
      ensures aborted == HasStatus(rows, id, Aborted)
      ensures total == TurnTokens(rows, id, |rows|)
    {
      first := 0;
      var found := false;
      inFlight, answered, aborted, total := false, false, false, 0;
      var n := 0;
      while n < |rows|
        invariant 0 <= n <= |rows|
        invariant inFlight == exists i :: 0 <= i < n && SameTurn(rows, id, i) && rows[i].status == Reserved
        invariant answered == exists i :: 0 <= i < n && SameTurn(rows, id, i) && rows[i].status == Answered
        invariant aborted == exists i :: 0 <= i < n && SameTurn(rows, id, i) && rows[i].status == Aborted
        invariant total == TurnTokens(rows, id, n)
        invariant found ==> first < n && SameTurn(rows, id, first)
        invariant forall i :: 0 <= i < (if found then first else n) ==> !SameTurn(rows, id, i)
      {
        if SameTurn(rows, id, n) {
          if !found {
            first, found := n, true;
          }
          inFlight := inFlight || rows[n].status == Reserved;
          answered := answered || rows[n].status == Answered;
          aborted := aborted || rows[n].status == Aborted;
          total := total + Tokens(rows[n]);
        }
        n := n + 1;
      }
      assert SameTurn(rows, id, id);
    }

    /** The last update of recompute_turn_charge: no charge on the other rows of the turn. */
    method ZeroOthers(id: nat, first: nat)
      requires id < |rows| && first == Head(rows, id)
      modifies this`rows
      ensures |rows| == |old(rows)|
      ensures forall i :: 0 <= i < |rows| ==>
                rows[i] == if SameTurn(old(rows), id, i) && i != first then old(rows)[i].(billed := 0) else old(rows)[i]
    {
      var n := 0;
      while n < |rows|
        invariant 0 <= n <= |rows| == |old(rows)|
        invariant forall i :: n <= i < |rows| ==> rows[i] == old(rows)[i]
        invariant forall i :: 0 <= i < n ==>
          rows[i] == if SameTurn(old(rows), id, i) && i != first then old(rows)[i].(billed := 0) else old(rows)[i]
        invariant rows[id].user == old(rows)[id].user && rows[id].turn == old(rows)[id].turn
      {
        if n != first && rows[n].billed != 0 && SameTurn(rows, id, n) {
          rows := rows[n := rows[n].(billed := 0)];
        }
        n := n + 1;
      }
    }

    /** quota_view: the figures come from the same queries as the admission decision. */
    method QuotaViewOf(user: nat, now: int) returns (view: QuotaView)
      ensures exists pick :: IsPick(Books(), user, now, pick) && view == View(Books(), user, now, pick)
    {
      var effective := FindEntitlement(user, now);
      assert IsPick(Books(), user, now, effective);
      var windows := WindowUsageOf(user, now);
      if effective.None? {
        view := QuotaView(None, []);
        assert view == View(Books(), user, now, effective);
        return;
      }
      var plan := plans[ents[effective.value].plan];
      var first5h := FirstOf(user, now, FiveHour);
      var firstWeek := FirstOf(user, now, Week);
      var firstMonth := FirstOf(user, now, Month);
      view := QuotaView(effective, [
        BuildWindow(plan, FiveHour, windows.used5h, first5h),
        BuildWindow(plan, Week, windows.usedWeek, firstWeek),
        BuildWindow(plan, Month, windows.usedMonth, firstMonth)]);
      assert view == View(Books(), user, now, effective);
    }

    /** One column of window_resets_tx. */
    method FirstOf(user: nat, now: int, w: Window) returns (first: Option<int>)
      ensures first == FirstCounted(rows, |rows|, user, now, Span(w))
    {
      first := None;
      var n := 0;
      while n < |rows|
        invariant 0 <= n <= |rows|
        invariant first == FirstCounted(rows, n, user, now, Span(w))
      {
        if Counts(rows[n], user, now, Span(w)) && (first.None? || rows[n].createdAt < first.value) {
          first := Some(rows[n].createdAt);
        }
        n := n + 1;
      }
    }

    /** One row of build_view. */
    static function BuildWindow(plan: Plan, w: Window, used: nat, first: Option<int>): WindowView {
      var limit := LimitOf(plan, w);
      WindowView(w, limit, used,
        if limit.None? then None else Some(Max(limit.value - used, 0)),
        if first.None? then None else Some(first.value + Span(w)))
    }
  }
}
