/** The front end's view of a session: the message tree with one chosen version per level
    (web/src/lib/messages.js). */
module SessionView {
  import opened Basics
  import opened Messages
  import opened SessionTree

  datatype Node = Node(message: Message, childIds: seq<MessageId>, currentChildIndex: int)

  datatype View = View(nodes: map<MessageId, Node>, rootBranchIds: seq<MessageId>, rootBranchIndex: int)

  // ---------- Specification ----------

  function TimeOf(ms: seq<Message>, id: MessageId): int {
    var m := Find(ms, id);
    if m.Some? then m.value.createdAt else 0
  }

  /** Insertion behind all ids that are not later, which keeps the sort stable. */
  function Insert(ms: seq<Message>, sorted: seq<MessageId>, id: MessageId): seq<MessageId> {
    if sorted == [] || TimeOf(ms, sorted[|sorted| - 1]) <= TimeOf(ms, id) then sorted + [id]
    else Insert(ms, sorted[..|sorted| - 1], id) + [sorted[|sorted| - 1]]
  }

  function ByTime(ms: seq<Message>, ids: seq<MessageId>): seq<MessageId> {
    if ids == [] then [] else Insert(ms, ByTime(ms, ids[..|ids| - 1]), ids[|ids| - 1])
  }

  /** The ids of the first n messages whose parent is the given stored message. */
  function Children(ms: seq<Message>, n: nat, id: MessageId): seq<MessageId>
    requires n <= |ms|
  {
    if n == 0 then [] else
      Children(ms, n - 1, id) + if ms[n - 1].parent == Some(id) && Stored(ms, id) then [ms[n - 1].id] else []
  }

  predicate IsRoot(ms: seq<Message>, m: Message) {
    m.parent.None? || !Stored(ms, m.parent.value)
  }

  function Roots(ms: seq<Message>, n: nat): seq<MessageId>
    requires n <= |ms|
  {
    if n == 0 then [] else Roots(ms, n - 1) + if IsRoot(ms, ms[n - 1]) then [ms[n - 1].id] else []
  }

  /** The view shows the messages with their versions in order of time; the pointers may stand anywhere. */
  ghost predicate Shows(v: View, ms: seq<Message>) {
    && (forall id :: id in v.nodes <==> Stored(ms, id))
    && (forall id :: id in v.nodes ==>
          && Find(ms, id) == Some(v.nodes[id].message)
          && v.nodes[id].childIds == ByTime(ms, Children(ms, |ms|, id)))
    && v.rootBranchIds == ByTime(ms, Roots(ms, |ms|))
  }

  predicate PointerOk(index: int, ids: seq<MessageId>) {
    if ids == [] then index == 0 else 0 <= index < |ids|
  }

  /** Every pointer is in range. */
  ghost predicate InRange(v: View) {
    && PointerOk(v.rootBranchIndex, v.rootBranchIds)
    && forall id :: id in v.nodes ==> PointerOk(v.nodes[id].currentChildIndex, v.nodes[id].childIds)
  }

  function At(ids: seq<MessageId>, index: int): Option<MessageId> {
    if 0 <= index < |ids| then Some(ids[index]) else None
  }

  ghost predicate LeadsTo(v: View, id: MessageId, child: MessageId) {
    id in v.nodes && At(v.nodes[id].childIds, v.nodes[id].currentChildIndex) == Some(child)
  }

  /** The pointers lead along the ids, and all pointers off the way are on the first version. */
  ghost predicate PointsAlong(v: View, path: seq<MessageId>) {
    && (forall i :: 0 < i < |path| ==> LeadsTo(v, path[i - 1], path[i]))
    && (forall id :: id in v.nodes && (path == [] || id !in path[..|path| - 1]) ==> v.nodes[id].currentChildIndex == 0)
    && if path != [] && path[0] in v.rootBranchIds then At(v.rootBranchIds, v.rootBranchIndex) == Some(path[0])
       else v.rootBranchIndex == 0
  }

  /** Where getActiveChain goes from `cur`, having visited `seen`. */
  function Descend(v: View, cur: Option<MessageId>, seen: set<MessageId>): seq<Message>
    decreases v.nodes.Keys - seen
  {
    if cur.None? || cur.value !in v.nodes || cur.value in seen then [] else
      var node := v.nodes[cur.value];
      [node.message] + Descend(v, At(node.childIds, node.currentChildIndex), seen + {cur.value})
  }

  function ActiveChainOf(v: View): seq<Message> {
    Descend(v, At(v.rootBranchIds, v.rootBranchIndex), {})
  }

  // ---------- Sorting keeps the ids ----------

  lemma {:induction false} InsertKeeps(ms: seq<Message>, sorted: seq<MessageId>, id: MessageId)
    ensures multiset(Insert(ms, sorted, id)) == multiset(sorted) + multiset{id}
  {
    if sorted != [] {
      assert sorted == sorted[..|sorted| - 1] + [sorted[|sorted| - 1]];
      if TimeOf(ms, sorted[|sorted| - 1]) > TimeOf(ms, id) {
        InsertKeeps(ms, sorted[..|sorted| - 1], id);
      }
    }
  }

  /** The versions of a level are its children, whatever their times. */
  lemma {:induction false} ByTimeKeeps(ms: seq<Message>, ids: seq<MessageId>)
    ensures multiset(ByTime(ms, ids)) == multiset(ids) && |ByTime(ms, ids)| == |ids|
  {
    if ids != [] {
      ByTimeKeeps(ms, ids[..|ids| - 1]);
      InsertKeeps(ms, ByTime(ms, ids[..|ids| - 1]), ids[|ids| - 1]);
      assert ids == ids[..|ids| - 1] + [ids[|ids| - 1]];
      assert |multiset(ByTime(ms, ids))| == |multiset(ids)|;
    }
  }

  /** The ids among these that were created at the given time, in order. */
  function CreatedAt(ms: seq<Message>, ids: seq<MessageId>, time: int): seq<MessageId> {
    if ids == [] then [] else
      CreatedAt(ms, ids[..|ids| - 1], time)
      + if TimeOf(ms, ids[|ids| - 1]) == time then [ids[|ids| - 1]] else []
  }

  ghost predicate InOrder(ms: seq<Message>, ids: seq<MessageId>) {
    forall i, j :: 0 <= i < j < |ids| ==> TimeOf(ms, ids[i]) <= TimeOf(ms, ids[j])
  }

  lemma {:induction false} CreatedSnoc(ms: seq<Message>, ids: seq<MessageId>, id: MessageId, time: int)
    ensures CreatedAt(ms, ids + [id], time) == CreatedAt(ms, ids, time) + if TimeOf(ms, id) == time then [id] else []
  {
    assert (ids + [id])[..|ids|] == ids;
  }

  lemma {:induction false} InsertIsStable(ms: seq<Message>, sorted: seq<MessageId>, id: MessageId, time: int)
    ensures CreatedAt(ms, Insert(ms, sorted, id), time)
         == CreatedAt(ms, sorted, time) + if TimeOf(ms, id) == time then [id] else []
  {
    hide TimeOf;
    CreatedSnoc(ms, sorted, id, time);
    if sorted != [] && TimeOf(ms, sorted[|sorted| - 1]) > TimeOf(ms, id) {
      var last := sorted[|sorted| - 1];
      InsertIsStable(ms, sorted[..|sorted| - 1], id, time);
      CreatedSnoc(ms, Insert(ms, sorted[..|sorted| - 1], id), last, time);
    }
  }

  lemma {:induction false} InsertKeepsOrder(ms: seq<Message>, sorted: seq<MessageId>, id: MessageId)
    requires InOrder(ms, sorted)
    ensures InOrder(ms, Insert(ms, sorted, id))
  {
    hide TimeOf;
    if sorted != [] && TimeOf(ms, sorted[|sorted| - 1]) > TimeOf(ms, id) {
      var front := sorted[..|sorted| - 1];
      InsertKeepsOrder(ms, front, id);
      InsertKeeps(ms, front, id);
      forall x | x in Insert(ms, front, id) ensures TimeOf(ms, x) <= TimeOf(ms, sorted[|sorted| - 1]) {
        assert x in multiset(Insert(ms, front, id));
        assert x in front || x == id;
      }
    }
  }

  /** Sorting by time orders the ids and leaves ids of the same time in their order. */
  lemma {:induction false} ByTimeSorts(ms: seq<Message>, ids: seq<MessageId>, time: int)
    ensures InOrder(ms, ByTime(ms, ids))
    ensures CreatedAt(ms, ByTime(ms, ids), time) == CreatedAt(ms, ids, time)
  {
    if ids != [] {
      var front := ids[..|ids| - 1];
      ByTimeSorts(ms, front, time);
      InsertKeepsOrder(ms, ByTime(ms, front), ids[|ids| - 1]);
      InsertIsStable(ms, ByTime(ms, front), ids[|ids| - 1], time);
    }
  }

  lemma {:induction false} ByTimeMembers(ms: seq<Message>, ids: seq<MessageId>, id: MessageId)
    ensures id in ByTime(ms, ids) <==> id in ids
  {
    ByTimeKeeps(ms, ids);
    assert id in multiset(ByTime(ms, ids)) <==> id in multiset(ids);
  }

  lemma {:induction false} ChildrenAre(ms: seq<Message>, n: nat, id: MessageId, child: MessageId)
    requires n <= |ms|
    ensures child in Children(ms, n, id)
       <==> Stored(ms, id) && exists i :: 0 <= i < n && ms[i].id == child && ms[i].parent == Some(id)
  {
    if n > 0 {
      ChildrenAre(ms, n - 1, id, child);
    }
  }

  lemma {:induction false} RootsAre(ms: seq<Message>, n: nat, root: MessageId)
    requires n <= |ms|
    ensures root in Roots(ms, n) <==> exists i :: 0 <= i < n && ms[i].id == root && IsRoot(ms, ms[i])
  {
    if n > 0 {
      RootsAre(ms, n - 1, root);
    }
  }

  // ---------- The chain shown extends the server's path ----------

  /** Below a message, the view points to one of its children, or it has none. */
  lemma {:induction false} NextIsChild(v: View, ms: seq<Message>, id: MessageId)
    requires Shows(v, ms) && InRange(v) && UniqueIds(ms) && Stored(ms, id)
    ensures id in v.nodes && Find(ms, id) == Some(v.nodes[id].message)
    ensures var next := At(v.nodes[id].childIds, v.nodes[id].currentChildIndex);
            if next.None? then Children(ms, |ms|, id) == []
            else Stored(ms, next.value) && Find(ms, next.value).value.parent == Some(id)
  {
    var node := v.nodes[id];
    hide Insert, TimeOf;
    ByTimeKeeps(ms, Children(ms, |ms|, id));
    if node.childIds != [] {
      var child := node.childIds[node.currentChildIndex];
      ByTimeMembers(ms, Children(ms, |ms|, id), child);
      ChildrenAre(ms, |ms|, id, child);
      var i :| 0 <= i < |ms| && ms[i].id == child && ms[i].parent == Some(id);
      FindUnique(ms, i);
    }
  }

  /** Every message of c but the first is a child of the one before it. */
  ghost predicate Linked(c: seq<Message>) {
    forall i :: 0 < i < |c| ==> c[i].parent == Some(c[i - 1].id)
  }

  ghost predicate EndsAtLeaf(ms: seq<Message>, c: seq<Message>) {
    c != [] && Children(ms, |ms|, c[|c| - 1].id) == []
  }

  lemma {:induction false} LinkedCons(ms: seq<Message>, m: Message, c: seq<Message>)
    requires Linked(c) && (c != [] ==> c[0].parent == Some(m.id))
    ensures Linked([m] + c)
    ensures EndsAtLeaf(ms, c) ==> EndsAtLeaf(ms, [m] + c)
  {
    hide Children;
  }

  lemma {:induction false} RankBelow(ms: seq<Message>, rank: MessageId -> nat, id: MessageId)
    requires Ranked(ms, rank) && Stored(ms, id)
    ensures forall child :: Stored(ms, child) && Find(ms, child).value.parent == Some(id) ==> rank(id) < rank(child)
  {
  }

  lemma {:induction false} DescendStep(v: View, id: MessageId, seen: set<MessageId>)
    requires id in v.nodes && id !in seen
    ensures Descend(v, Some(id), seen)
         == [v.nodes[id].message] + Descend(v, At(v.nodes[id].childIds, v.nodes[id].currentChildIndex), seen + {id})
  {
  }

  /** From a message, with only lower-ranked messages visited, the descent is parent-linked and ends at a
      message without children. */
  lemma {:induction false} DescendToLeaf(
      v: View, ms: seq<Message>, rank: MessageId -> nat, id: MessageId, seen: set<MessageId>)
    requires Shows(v, ms) && InRange(v) && UniqueIds(ms) && Ranked(ms, rank) && Stored(ms, id)
    requires forall k :: k in seen ==> rank(k) < rank(id)
    ensures var c := Descend(v, Some(id), seen);
            EndsAtLeaf(ms, c) && Linked(c) && Find(ms, id) == Some(c[0])
    decreases v.nodes.Keys - seen
  {
    NextIsChild(v, ms, id);
    DescendStep(v, id, seen);
    FindIs(ms, id);
    RankBelow(ms, rank, id);
    hide Shows, InRange, UniqueIds, Ranked, Children, At, Find, Descend, Linked, EndsAtLeaf;
    var m := v.nodes[id].message;
    var next := At(v.nodes[id].childIds, v.nodes[id].currentChildIndex);
    if next.Some? {
      assert rank(id) < rank(next.value);
      DescendToLeaf(v, ms, rank, next.value, seen + {id});
      FindIs(ms, next.value);
      LinkedCons(ms, m, Descend(v, next, seen + {id}));
    } else {
      DescendNowhere(v, seen + {id});
      LinkedOne(ms, m);
    }
  }

  lemma {:induction false} DescendNowhere(v: View, seen: set<MessageId>)
    ensures Descend(v, None, seen) == []
  {
  }

  lemma {:induction false} LinkedOne(ms: seq<Message>, m: Message)
    ensures Linked([m]) && (Children(ms, |ms|, m.id) == [] ==> EndsAtLeaf(ms, [m]))
  {
  }

  lemma {:induction false} DescendAlong(v: View, path: seq<Message>, i: nat, seen: set<MessageId>)
    requires UniqueIds(path)
    requires forall m :: m in path ==> m.id in v.nodes && v.nodes[m.id].message == m
    requires forall j :: 0 < j < |path| ==> LeadsTo(v, path[j - 1].id, path[j].id)
    requires i < |path| && forall j :: i <= j < |path| ==> path[j].id !in seen
    ensures path[i..] <= Descend(v, Some(path[i].id), seen)
    decreases |path| - i
  {
    assert path[i] in path;
    DescendStep(v, path[i].id, seen);
    if i + 1 < |path| {
      assert LeadsTo(v, path[i].id, path[i + 1].id);
      hide Descend, At;
      DescendAlong(v, path, i + 1, seen + {path[i].id});
      assert path[i..] == [path[i]] + path[i + 1..];
    } else {
      assert path[i..] == [path[i]];
    }
  }

  function Ids(path: seq<Message>): seq<MessageId> {
    seq(|path|, i requires 0 <= i < |path| => path[i].id)
  }

  /** The message the pointers are set towards: the server's active message, else the last of the list. */
  function EndOf(ms: seq<Message>, active: Option<MessageId>): Option<MessageId> {
    if active.Some? || ms == [] then active else Some(ms[|ms| - 1].id)
  }

  /** What walking up from `end` collects, root side first. A cycle of parents ends the walk. */
  ghost predicate IsWalk(ms: seq<Message>, path: seq<MessageId>, end: Option<MessageId>) {
    if end.None? || !Stored(ms, end.value) then path == []
    else
      && path != [] && path[|path| - 1] == end.value
      && (forall i :: 0 <= i < |path| ==> Stored(ms, path[i]))
      && (forall i, j :: 0 <= i < j < |path| ==> path[i] != path[j])
      && (forall i :: 0 < i < |path| ==> Find(ms, path[i]).value.parent == Some(path[i - 1]))
      && (IsRoot(ms, Find(ms, path[0]).value) || Find(ms, path[0]).value.parent.value in path)
  }

  /** What building a view promises: every message with all its versions, all pointers in range, and the
      pointers set along the way to the active message. */
  ghost predicate Built(v: View, ms: seq<Message>, active: Option<MessageId>) {
    && Shows(v, ms) && InRange(v)
    && exists path :: IsWalk(ms, path, EndOf(ms, active)) && PointsAlong(v, path)
  }

  lemma {:induction false} WalkRises(
      ms: seq<Message>, rank: MessageId -> nat, path: seq<MessageId>, end: MessageId, k: nat)
    requires Ranked(ms, rank) && Stored(ms, end) && IsWalk(ms, path, Some(end)) && k < |path|
    ensures rank(path[0]) <= rank(path[k])
  {
    if k > 0 {
      WalkRises(ms, rank, path, end, k - 1);
      assert Stored(ms, path[k]) && Stored(ms, path[k - 1]);
    }
  }

  /** Without cycles of parents the walk collects exactly the server's path. */
  lemma {:induction false} WalkIsPath(ms: seq<Message>, path: seq<MessageId>, end: MessageId)
    requires Good(ms) && Stored(ms, end) && IsWalk(ms, path, Some(end))
    ensures path == Ids(PathTo(ms, end))
  {
    var rank :| Ranked(ms, rank);
    var first := Find(ms, path[0]).value;
    assert Stored(ms, path[0]);
    forall k | 0 <= k < |path| && !IsRoot(ms, first) ensures path[k] != first.parent.value {
      WalkRises(ms, rank, path, end, k);
    }
    var p := seq(|path|, i requires 0 <= i < |path| => Find(ms, path[i]).value);
    forall i | 0 <= i < |path| ensures p[i].id == path[i] {
      FindIs(ms, path[i]);
    }
    assert IsChain(ms, p, end);
    ChainUnique(ms, p, PathTo(ms, end), end);
  }

  lemma {:induction false} RootIsShown(v: View, ms: seq<Message>, root: Message)
    requires Shows(v, ms) && Find(ms, root.id) == Some(root) && IsRoot(ms, root)
    ensures root.id in v.rootBranchIds
  {
    FindIs(ms, root.id);
    var i :| 0 <= i < |ms| && ms[i] == root;
    RootsAre(ms, |ms|, root.id);
    ByTimeMembers(ms, Roots(ms, |ms|), root.id);
  }

  lemma {:induction false} PointsFromRoot(v: View, ms: seq<Message>, path: seq<Message>, end: MessageId)
    requires Shows(v, ms) && IsChain(ms, path, end) && PointsAlong(v, Ids(path))
    ensures At(v.rootBranchIds, v.rootBranchIndex) == Some(path[0].id)
    ensures forall j :: 0 < j < |path| ==> LeadsTo(v, path[j - 1].id, path[j].id)
    ensures forall m :: m in path ==> m.id in v.nodes && v.nodes[m.id].message == m
  {
    assert Find(ms, path[0].id) == Some(path[0]);
    RootIsShown(v, ms, path[0]);
    var ids := Ids(path);
    forall m | m in path ensures m.id in v.nodes && v.nodes[m.id].message == m {
      var i :| 0 <= i < |path| && path[i] == m;
      assert Find(ms, path[i].id) == Some(path[i]);
    }
    hide Shows, Find, LeadsTo, At;
    forall j | 0 < j < |path| ensures LeadsTo(v, path[j - 1].id, path[j].id) {
      assert LeadsTo(v, ids[j - 1], ids[j]);
    }
  }

  /** The chain shown begins with exactly the server's active path and then descends to a leaf. */
  lemma {:induction false} ViewExtendsServerPath(v: View, ms: seq<Message>, active: MessageId)
    requires Good(ms) && Stored(ms, active) && Built(v, ms, Some(active))
    ensures var chain := ActiveChainOf(v);
            ActivePath(ms, Some(active)) <= chain && Linked(chain) && EndsAtLeaf(ms, chain)
  {
    var ids :| IsWalk(ms, ids, Some(active)) && PointsAlong(v, ids);
    hide Shows, InRange, PointsAlong, IsWalk, EndsAtLeaf, Linked, Ranked, UniqueIds, Descend, LeadsTo, Find, At;
    WalkIsPath(ms, ids, active);
    var path := PathTo(ms, active);
    ActivePathIsSimple(ms, active);
    PointsFromRoot(v, ms, path, active);
    var rank :| Ranked(ms, rank);
    DescendAlong(v, path, 0, {});
    assert path[0..] == path;
    DescendToLeaf(v, ms, rank, path[0].id, {});
  }

  // ---------- Versions ----------

  /** The remainder operator of the language, which truncates toward zero. */
  function Rem(a: int, n: int): int
    requires n > 0
  {
    if a >= 0 then a % n else -((-a) % n)
  }

  /** (((index + dir) % n) + n) % n */
  function Turned(index: int, dir: int, n: int): int
    requires n > 0
  {
    Rem(Rem(index + dir, n) + n, n)
  }

  function Navigate(v: View, id: MessageId, dir: int): View {
    if id !in v.nodes then v else
      var parent := v.nodes[id].message.parent;
      if parent.None? || parent.value !in v.nodes then
        if |v.rootBranchIds| < 2 then v
        else v.(rootBranchIndex := Turned(v.rootBranchIndex, dir, |v.rootBranchIds|))
      else
        var p := v.nodes[parent.value];
        if |p.childIds| < 2 then v
        else v.(nodes := v.nodes[parent.value := p.(currentChildIndex := Turned(p.currentChildIndex, dir,
          |p.childIds|))])
  }

  lemma {:induction false} MultipleIsLarge(d: int, n: int)
    requires n > 0 && d >= 1
    ensures d * n >= n
  {
    if d > 1 {
      MultipleIsLarge(d - 1, n);
    }
  }

  lemma {:induction false} MultipleIsFar(d: int, n: int)
    requires n > 0 && d <= -1
    ensures d * n <= -n
    decreases -d
  {
    if d < -1 {
      MultipleIsFar(d + 1, n);
    }
  }

  lemma {:induction false} SmallMultiple(d: int, n: int)
    requires n > 0 && -n < d * n < n
    ensures d == 0
  {
    if d > 0 {
      MultipleIsLarge(d, n);
    } else if d < 0 {
      MultipleIsFar(d, n);
    }
  }

  lemma {:induction false} RemainderIs(x: int, y: int, n: int, a: int)
    requires n > 0 && 0 <= a < n && x == y * n + a
    ensures x % n == a
  {
    assert (x / n - y) * n == a - x % n;
    SmallMultiple(x / n - y, n);
  }

  /** Turning is adding modulo n, for either sign. */
  lemma {:induction false} TurnedIsSum(index: int, dir: int, n: int)
    requires n > 0
    ensures Turned(index, dir, n) == (index + dir) % n
    ensures 0 <= Turned(index, dir, n) < n
  {
    var x := index + dir;
    var r := x % n;
    assert x == x / n * n + r;
    if x >= 0 {
      RemainderIs(r + n, 1, n, r);
    } else {
      var m := (-x) % n;
      assert -x == (-x) / n * n + m;
      if m == 0 {
        RemainderIs(n, 1, n, 0);
        assert x == -((-x) / n) * n + 0;
        RemainderIs(x, -((-x) / n), n, 0);
      } else {
        assert x == (-((-x) / n) - 1) * n + (n - m);
        RemainderIs(x, -((-x) / n) - 1, n, n - m);
        RemainderIs(n - m, 0, n, n - m);
      }
    }
  }

  lemma {:induction false} SumBack(index: int, dir: int, n: int, q: int, r: int)
    requires 0 <= index < n && index + dir == q * n + r
    ensures (r - dir) % n == index
  {
    assert r - dir == -q * n + index;
    RemainderIs(r - dir, -q, n, index);
  }

  lemma {:induction false} TurnBack(index: int, dir: int, n: int)
    requires n > 0 && 0 <= index < n
    ensures Turned(Turned(index, dir, n), -dir, n) == index
  {
    hide Turned;
    var r := (index + dir) % n;
    TurnedIsSum(index, dir, n);
    TurnedIsSum(r, -dir, n);
    SumBack(index, dir, n, (index + dir) / n, r);
  }

  lemma {:induction false} NavigateRoots(v: View, ms: seq<Message>, id: MessageId, dir: int)
    requires Shows(v, ms) && InRange(v) && id in v.nodes && |v.rootBranchIds| >= 2
    requires var parent := v.nodes[id].message.parent; parent.None? || parent.value !in v.nodes
    ensures var w := Navigate(v, id, dir);
            Shows(w, ms) && InRange(w) && Navigate(w, id, -dir) == v
  {
    TurnedIsSum(v.rootBranchIndex, dir, |v.rootBranchIds|);
    TurnBack(v.rootBranchIndex, dir, |v.rootBranchIds|);
    hide Turned, ByTime, Children, Roots, Find;
  }

  /** Moving the pointer of one message shows the same messages. */
  lemma {:induction false} PointerMoves(v: View, w: View, ms: seq<Message>, parent: MessageId, index: int)
    requires Shows(v, ms) && InRange(v) && parent in v.nodes && PointerOk(index, v.nodes[parent].childIds)
    requires w == v.(nodes := v.nodes[parent := v.nodes[parent].(currentChildIndex := index)])
    ensures Shows(w, ms) && InRange(w)
  {
    hide ByTime, Children, Roots, Find, PointerOk;
  }

  lemma {:induction false} NavigateChild(v: View, ms: seq<Message>, id: MessageId, parent: MessageId, dir: int)
    requires Shows(v, ms) && InRange(v) && id in v.nodes && v.nodes[id].message.parent == Some(parent)
    requires parent in v.nodes && |v.nodes[parent].childIds| >= 2
    ensures var w := Navigate(v, id, dir);
            Shows(w, ms) && InRange(w) && Navigate(w, id, -dir) == v
  {
    var p := v.nodes[parent];
    assert PointerOk(p.currentChildIndex, p.childIds);
    TurnedIsSum(p.currentChildIndex, dir, |p.childIds|);
    TurnBack(p.currentChildIndex, dir, |p.childIds|);
    hide Turned, Shows, InRange;
    var w := Navigate(v, id, dir);
    PointerMoves(v, w, ms, parent, Turned(p.currentChildIndex, dir, |p.childIds|));
    assert w.nodes[parent := p] == v.nodes;
  }

  /** Choosing another version keeps the view of the messages and all pointers in range, and going back by
      the same number of versions restores the view. */
  lemma {:induction false} NavigateAndBack(v: View, ms: seq<Message>, id: MessageId, dir: int)
    requires Shows(v, ms) && InRange(v)
    ensures var w := Navigate(v, id, dir);
            Shows(w, ms) && InRange(w) && Navigate(w, id, -dir) == v
  {
    hide Shows, InRange, Turned;
    if id in v.nodes {
      var parent := v.nodes[id].message.parent;
      if parent.None? || parent.value !in v.nodes {
        if |v.rootBranchIds| >= 2 {
          NavigateRoots(v, ms, id, dir);
        }
      } else if |v.nodes[parent.value].childIds| >= 2 {
        NavigateChild(v, ms, id, parent.value, dir);
      }
    }
  }

  /** Choosing shows, on the level of the message, the version that stands `dir` places further in order of
      time, going round at either end; no other pointer moves. */
  lemma {:induction false} NavigateGoesRound(v: View, ms: seq<Message>, id: MessageId, dir: int)
    requires Shows(v, ms) && InRange(v) && Stored(ms, id)
    ensures var w := Navigate(v, id, dir);
            var m := Find(ms, id).value;
            if IsRoot(ms, m) then
              var ids := ByTime(ms, Roots(ms, |ms|));
              && w.nodes == v.nodes && w.rootBranchIds == v.rootBranchIds
              && (ids != [] ==> At(w.rootBranchIds, w.rootBranchIndex) == Some(ids[(v.rootBranchIndex + dir) % |ids|]))
            else
              var p := m.parent.value;
              var ids := ByTime(ms, Children(ms, |ms|, p));
              && w.rootBranchIds == v.rootBranchIds && w.rootBranchIndex == v.rootBranchIndex
              && w.nodes - {p} == v.nodes - {p} && p in v.nodes && p in w.nodes
              && w.nodes[p].message == v.nodes[p].message && w.nodes[p].childIds == v.nodes[p].childIds
              && (ids != [] ==>
                    At(w.nodes[p].childIds, w.nodes[p].currentChildIndex)
                    == Some(ids[(v.nodes[p].currentChildIndex + dir) % |ids|]))
  {
    hide Turned, ByTime, Children, Roots, Find;
    var m := Find(ms, id).value;
    assert id in v.nodes && v.nodes[id].message == m;
    if IsRoot(ms, m) {
      if |v.rootBranchIds| >= 2 {
        TurnedIsSum(v.rootBranchIndex, dir, |v.rootBranchIds|);
      } else if |v.rootBranchIds| == 1 {
        OneVersion(v.rootBranchIndex, dir);
      }
    } else {
      var p := v.nodes[m.parent.value];
      assert PointerOk(p.currentChildIndex, p.childIds);
      if |p.childIds| >= 2 {
        TurnedIsSum(p.currentChildIndex, dir, |p.childIds|);
      } else if |p.childIds| == 1 {
        OneVersion(p.currentChildIndex, dir);
      }
    }
  }

  lemma {:induction false} OneVersion(index: int, dir: int)
    ensures (index + dir) % 1 == 0
  {
  }

  // ---------- After any navigation ----------

  /** A choice of another version: at a message, by a number of versions. */
  datatype Move = Move(id: MessageId, dir: int)

  function NavigateAll(v: View, moves: seq<Move>): View
    decreases |moves|
  {
    if moves == [] then v else NavigateAll(Navigate(v, moves[0].id, moves[0].dir), moves[1..])
  }

  lemma {:induction false} NavigationShows(v: View, ms: seq<Message>, moves: seq<Move>)
    requires Shows(v, ms) && InRange(v)
    ensures var w := NavigateAll(v, moves); Shows(w, ms) && InRange(w)
    decreases |moves|
  {
    hide Shows, InRange, Navigate;
    if moves != [] {
      NavigateAndBack(v, ms, moves[0].id, moves[0].dir);
      NavigationShows(Navigate(v, moves[0].id, moves[0].dir), ms, moves[1..]);
    }
  }

  /** A view of a tree with messages points to a root. */
  lemma {:induction false} PointsToRoot(v: View, ms: seq<Message>)
    requires Good(ms) && ms != [] && Shows(v, ms) && InRange(v)
    ensures var root := At(v.rootBranchIds, v.rootBranchIndex);
            root.Some? && Stored(ms, root.value) && IsRoot(ms, Find(ms, root.value).value)
  {
    FindUnique(ms, 0);
    var p := PathTo(ms, ms[0].id);
    assert Find(ms, p[0].id) == Some(p[0]);
    RootIsShown(v, ms, p[0]);
    var root := v.rootBranchIds[v.rootBranchIndex];
    ByTimeMembers(ms, Roots(ms, |ms|), root);
    RootsAre(ms, |ms|, root);
    var i :| 0 <= i < |ms| && ms[i].id == root && IsRoot(ms, ms[i]);
    FindUnique(ms, i);
  }

  /** Whatever versions have been chosen, the chain shown runs from a root along parent links to a message
      without children. */
  lemma {:induction false} ChainAfterNavigation(v: View, ms: seq<Message>, moves: seq<Move>)
    requires Good(ms) && ms != [] && Shows(v, ms) && InRange(v)
    ensures var chain := ActiveChainOf(NavigateAll(v, moves));
            EndsAtLeaf(ms, chain) && Linked(chain) && IsRoot(ms, chain[0])
  {
    var w := NavigateAll(v, moves);
    NavigationShows(v, ms, moves);
    hide Shows, InRange, EndsAtLeaf, Linked, Ranked, Descend, Find, At, IsRoot, UniqueIds;
    PointsToRoot(w, ms);
    var rank :| Ranked(ms, rank);
    DescendToLeaf(w, ms, rank, At(w.rootBranchIds, w.rootBranchIndex).value, {});
  }

  // ---------- The view object ----------

  ghost predicate Holds(nodes: map<MessageId, Node>, ms: seq<Message>) {
    && (forall id :: id in nodes <==> Stored(ms, id))
    && forall id :: id in nodes ==> Find(ms, id) == Some(nodes[id].message)
  }

  /** The nodes after the children of the first n messages have been attached, still in list order. */
  ghost predicate Attached(nodes: map<MessageId, Node>, ms: seq<Message>, n: nat)
    requires n <= |ms|
  {
    && Holds(nodes, ms)
    && forall id :: id in nodes ==> nodes[id].childIds == Children(ms, n, id) && nodes[id].currentChildIndex == 0
  }

  method NewNodes(ms: seq<Message>) returns (nodes: map<MessageId, Node>)
    ensures Attached(nodes, ms, 0)
  {
    nodes := map[];
    for k := 0 to |ms|
      invariant Holds(nodes, ms[..k])
      invariant forall id :: id in nodes ==> nodes[id].childIds == [] && nodes[id].currentChildIndex == 0
    {
      nodes := nodes[ms[k].id := Node(ms[k], [], 0)];
      assert ms[..k + 1] == ms[..k] + [ms[k]];
      forall id ensures Find(ms[..k + 1], id) == if ms[k].id == id then Some(ms[k]) else Find(ms[..k], id) {
        FindSnoc(ms[..k], ms[k], id);
      }
    }
    assert ms[..|ms|] == ms;
  }

  method Attach(nodes: map<MessageId, Node>, ms: seq<Message>)
    returns (attached: map<MessageId, Node>, roots: seq<MessageId>)
    requires Attached(nodes, ms, 0)
    ensures Attached(attached, ms, |ms|) && roots == Roots(ms, |ms|)
  {
    attached, roots := nodes, [];
    for k := 0 to |ms|
      invariant Attached(attached, ms, k) && roots == Roots(ms, k)
    {
      var m := ms[k];
      hide Find;
      if m.parent.Some? && m.parent.value in attached {
        var p := attached[m.parent.value];
        attached := attached[m.parent.value := p.(childIds := p.childIds + [m.id])];
      } else {
        roots := roots + [m.id];
      }
    }
  }

  ghost predicate Sorted(
      nodes: map<MessageId, Node>, before: map<MessageId, Node>, ms: seq<Message>, left: set<MessageId>) {
    && nodes.Keys == before.Keys
    && forall id :: id in nodes ==>
         nodes[id] == (if id in left then before[id] else before[id].(childIds := ByTime(ms, before[id].childIds)))
  }

  method SortChildren(nodes: map<MessageId, Node>, ms: seq<Message>) returns (sorted: map<MessageId, Node>)
    ensures Sorted(sorted, nodes, ms, {})
  {
    sorted := nodes;
    var left := nodes.Keys;
    while left != {}
      invariant left <= nodes.Keys && Sorted(sorted, nodes, ms, left)
    {
      hide ByTime;
      var id :| id in left;
      sorted := sorted[id := sorted[id].(childIds := ByTime(ms, sorted[id].childIds))];
      left := left - {id};
    }
  }

  /** up was collected walking from `end` towards the root, and the walk stands at cur. */
  ghost predicate Climbs(ms: seq<Message>, up: seq<MessageId>, end: Option<MessageId>, cur: Option<MessageId>) {
    && (forall i :: 0 <= i < |up| ==> Stored(ms, up[i]))
    && (forall i, j :: 0 <= i < j < |up| ==> up[i] != up[j])
    && (forall i :: 0 < i < |up| ==> Find(ms, up[i - 1]).value.parent == Some(up[i]))
    && if up == [] then cur == end else end == Some(up[0]) && cur == Find(ms, up[|up| - 1]).value.parent
  }

  lemma {:induction false} ClimbStep(ms: seq<Message>, up: seq<MessageId>, end: Option<MessageId>, cur: MessageId)
    requires Climbs(ms, up, end, Some(cur)) && Stored(ms, cur) && cur !in up
    ensures Climbs(ms, up + [cur], end, Find(ms, cur).value.parent)
  {
    hide Find;
  }

  lemma {:induction false} ClimbedIsWalk(
      ms: seq<Message>, up: seq<MessageId>, end: Option<MessageId>, cur: Option<MessageId>, path: seq<MessageId>)
    requires Climbs(ms, up, end, cur) && (cur.None? || !Stored(ms, cur.value) || cur.value in up)
    requires |path| == |up| && forall i :: 0 <= i < |up| ==> path[i] == up[|up| - 1 - i]
    ensures IsWalk(ms, path, end)
  {
    hide Find;
    if up != [] {
      assert path[|path| - 1] == up[0] && path[0] == up[|up| - 1];
      forall i, j | 0 <= i < j < |path| ensures path[i] != path[j] {
        assert up[|up| - 1 - j] != up[|up| - 1 - i];
      }
      if cur.Some? && cur.value in up {
        var i :| 0 <= i < |up| && up[i] == cur.value;
        assert path[|up| - 1 - i] == cur.value;
      }
    }
  }

  /** The way from `end` up to a message without a stored parent, root side first. */
  method WalkUp(nodes: map<MessageId, Node>, ms: seq<Message>, end: Option<MessageId>) returns (path: seq<MessageId>)
    requires Holds(nodes, ms)
    ensures IsWalk(ms, path, end)
  {
    hide Climbs, IsWalk, Find;
    var up: seq<MessageId> := [];
    var seen: set<MessageId> := {};
    var cur := end;
    ClimbStart(ms, end);
    while cur.Some? && cur.value in nodes && cur.value !in seen
      invariant Climbs(ms, up, end, cur)
      invariant forall id :: id in seen <==> id in up
      decreases nodes.Keys - seen
    {
      ClimbStep(ms, up, end, cur.value);
      seen := seen + {cur.value};
      up := up + [cur.value];
      cur := nodes[cur.value].message.parent;
    }
    path := seq(|up|, i requires 0 <= i < |up| => up[|up| - 1 - i]);
    ClimbedIsWalk(ms, up, end, cur, path);
  }

  lemma {:induction false} ClimbStart(ms: seq<Message>, end: Option<MessageId>)
    ensures Climbs(ms, [], end, end)
  {
  }

  /** A message shows up among the versions below its parent. */
  lemma {:induction false} ChildIsShown(v: View, ms: seq<Message>, child: MessageId, id: MessageId)
    requires Shows(v, ms) && Stored(ms, child) && Find(ms, child).value.parent == Some(id) && Stored(ms, id)
    ensures id in v.nodes && child in v.nodes[id].childIds
  {
    FindIs(ms, child);
    var i :| 0 <= i < |ms| && ms[i] == Find(ms, child).value;
    ChildrenAre(ms, |ms|, id, child);
    ByTimeMembers(ms, Children(ms, |ms|, id), child);
  }

  lemma {:induction false} PointStep(v: View, w: View, path: seq<MessageId>, i: nat, index: int)
    requires 0 < i < |path| && PointsAlong(v, path[..i])
    requires forall j, k :: 0 <= j < k < |path| ==> path[j] != path[k]
    requires path[i - 1] in v.nodes && At(v.nodes[path[i - 1]].childIds, index) == Some(path[i])
    requires w == v.(nodes := v.nodes[path[i - 1] := v.nodes[path[i - 1]].(currentChildIndex := index)])
    ensures PointsAlong(w, path[..i + 1])
  {
    var short, long := path[..i], path[..i + 1];
    forall j | 0 < j < |long| ensures LeadsTo(w, long[j - 1], long[j]) {
      assert j < i ==> LeadsTo(v, short[j - 1], short[j]);
    }
    assert long[..|long| - 1] == short && short[..|short| - 1] == path[..i - 1];
    assert short == path[..i - 1] + [path[i - 1]];
    assert long[0] == short[0];
  }

  /** The pointer stays at the first version when the id is none of the versions. */
  function PointerTo(ids: seq<MessageId>, id: MessageId): int {
    if id in ids then IndexOf(ids, id) else 0
  }

  ghost predicate FirstVersions(nodes: map<MessageId, Node>) {
    forall id :: id in nodes ==> nodes[id].currentChildIndex == 0
  }

  /** The view with the pointer of one message moved. */
  function Pointed(v: View, parent: MessageId, index: int): View
    requires parent in v.nodes
  {
    v.(nodes := v.nodes[parent := v.nodes[parent].(currentChildIndex := index)])
  }

  lemma {:induction false} PointRoot(v: View, ms: seq<Message>, path: seq<MessageId>)
    requires Shows(v.(rootBranchIndex := 0), ms) && FirstVersions(v.nodes)
    requires v.rootBranchIndex == if path == [] then 0 else PointerTo(v.rootBranchIds, path[0])
    ensures Shows(v, ms) && InRange(v) && PointsAlong(v, if path == [] then [] else path[..1])
  {
    hide ByTime, Children, Roots, Find, LeadsTo;
  }

  lemma {:induction false} PointLevel(v: View, ms: seq<Message>, end: Option<MessageId>, path: seq<MessageId>, i: nat)
    requires Shows(v, ms) && InRange(v) && IsWalk(ms, path, end)
    requires 0 < i < |path| && PointsAlong(v, path[..i])
    ensures path[i - 1] in v.nodes && path[i] in v.nodes[path[i - 1]].childIds
    ensures var w := Pointed(v, path[i - 1], IndexOf(v.nodes[path[i - 1]].childIds, path[i]));
            Shows(w, ms) && InRange(w) && PointsAlong(w, path[..i + 1])
  {
    assert Stored(ms, path[i]) && Stored(ms, path[i - 1]);
    ChildIsShown(v, ms, path[i], path[i - 1]);
    assert forall j, k :: 0 <= j < k < |path| ==> path[j] != path[k];
    hide Shows, InRange, PointsAlong, IsWalk, Find;
    var ci := IndexOf(v.nodes[path[i - 1]].childIds, path[i]);
    var w := Pointed(v, path[i - 1], ci);
    PointerMoves(v, w, ms, path[i - 1], ci);
    PointStep(v, w, path, i, ci);
  }

  /** Sets the pointers of the levels that the path passes. */
  method PointAlong(
      nodes: map<MessageId, Node>, rootBranchIds: seq<MessageId>, ms: seq<Message>, ghost end: Option<MessageId>,
      path: seq<MessageId>)
    returns (pointed: map<MessageId, Node>, rootBranchIndex: int)
    requires Shows(View(nodes, rootBranchIds, 0), ms) && IsWalk(ms, path, end)
    requires FirstVersions(nodes)
    ensures var v := View(pointed, rootBranchIds, rootBranchIndex);
            Shows(v, ms) && InRange(v) && PointsAlong(v, path)
  {
    hide Shows, InRange, PointsAlong, IsWalk, Find, FirstVersions;
    pointed, rootBranchIndex := nodes, 0;
    if path == [] {
      PointRoot(View(pointed, rootBranchIds, rootBranchIndex), ms, path);
      return;
    }
    var ri := IndexOf(rootBranchIds, path[0]);
    if ri < |rootBranchIds| {
      rootBranchIndex := ri;
    }
    PointRoot(View(pointed, rootBranchIds, rootBranchIndex), ms, path);
    for i := 1 to |path|
      invariant Shows(View(pointed, rootBranchIds, rootBranchIndex), ms)
      invariant InRange(View(pointed, rootBranchIds, rootBranchIndex))
      invariant PointsAlong(View(pointed, rootBranchIds, rootBranchIndex), path[..i])
    {
      PointLevel(View(pointed, rootBranchIds, rootBranchIndex), ms, end, path, i);
      var parent := pointed[path[i - 1]];
      var ci := IndexOf(parent.childIds, path[i]);
      if ci < |parent.childIds| {
        pointed := pointed[path[i - 1] := parent.(currentChildIndex := ci)];
      }
    }
    assert path[..|path|] == path;
  }

  lemma {:induction false} SortedShows(sorted: map<MessageId, Node>, attached: map<MessageId, Node>, ms: seq<Message>)
    requires Attached(attached, ms, |ms|) && Sorted(sorted, attached, ms, {})
    ensures Holds(sorted, ms) && Shows(View(sorted, ByTime(ms, Roots(ms, |ms|)), 0), ms)
    ensures FirstVersions(sorted)
  {
    hide ByTime, Children, Roots, Find;
  }

  class BranchView {
    var nodes: map<MessageId, Node>
    var rootBranchIds: seq<MessageId>
    var rootBranchIndex: int

    ghost function State(): View
      reads this
    {
      View(nodes, rootBranchIds, rootBranchIndex)
    }

    /** buildSessionView */
    constructor (ms: seq<Message>, active: Option<MessageId>)
      ensures Built(State(), ms, active)
    {
      var empty := NewNodes(ms);
      var attached, roots := Attach(empty, ms);
      var sorted := SortChildren(attached, ms);
      SortedShows(sorted, attached, ms);
      hide Attached, Sorted, Holds, FirstVersions, Shows, InRange, PointsAlong, IsWalk, ByTime, Roots;
      var branches := ByTime(ms, roots);
      var path := WalkUp(sorted, ms, EndOf(ms, active));
      var pointed, index := PointAlong(sorted, branches, ms, EndOf(ms, active), path);
      nodes, rootBranchIds, rootBranchIndex := pointed, branches, index;
    }

    /** getActiveChain */
    method ActiveChain() returns (chain: seq<Message>)
      ensures chain == ActiveChainOf(State())
    {
      chain := [];
      var cur := At(rootBranchIds, rootBranchIndex);
      var seen: set<MessageId> := {};
      while cur.Some? && cur.value in nodes && cur.value !in seen
        invariant chain + Descend(State(), cur, seen) == ActiveChainOf(State())
        decreases nodes.Keys - seen
      {
        seen := seen + {cur.value};
        var node := nodes[cur.value];
        chain := chain + [node.message];
        cur := At(node.childIds, node.currentChildIndex);
      }
    }

    /** navigateBranch */
    method NavigateBranch(id: MessageId, dir: int := 1)
      modifies this
      ensures State() == Navigate(old(State()), id, dir)
    {
      if id !in nodes {
        return;
      }
      var parentId := nodes[id].message.parent;
      if parentId.None? || parentId.value !in nodes {
        var n := |rootBranchIds|;
        if n < 2 {
          return;
        }
        rootBranchIndex := Rem(Rem(rootBranchIndex + dir, n) + n, n);
      } else {
        var parent := nodes[parentId.value];
        var n := |parent.childIds|;
        if n < 2 {
          return;
        }
        nodes := nodes[parentId.value := parent.(currentChildIndex := Rem(Rem(parent.currentChildIndex + dir,
          n) + n, n))];
      }
    }
  }
}
