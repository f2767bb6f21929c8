/** The message tree of one session and the walk that defines its active path
    (src/kernel/plugin/storage/core/chain.rs, src/kernel/plugin/storage/mem.rs). */
module SessionTree {
  import opened Basics
  import opened Messages

  // ---------- Looking messages up ----------

  /** The entry of the id-to-message map built from a list: a later message wins. */
  function Find(ms: seq<Message>, id: MessageId): Option<Message> {
    if ms == [] then None
    else if ms[|ms| - 1].id == id then Some(ms[|ms| - 1]) else Find(ms[..|ms| - 1], id)
  }

  predicate Stored(ms: seq<Message>, id: MessageId) {
    Find(ms, id).Some?
  }

  ghost predicate UniqueIds(ms: seq<Message>) {
    forall i, j :: 0 <= i < j < |ms| ==> ms[i].id != ms[j].id
  }

  /** No stored message has this id or names it as its parent. */
  ghost predicate Fresh(ms: seq<Message>, id: MessageId) {
    forall m :: m in ms ==> m.id != id && m.parent != Some(id)
  }

  /** Every message lies above its stored parent. */
  ghost predicate Ranked(ms: seq<Message>, rank: MessageId -> nat) {
    forall id :: Stored(ms, id) ==>
      var m := Find(ms, id).value;
      m.parent.Some? && Stored(ms, m.parent.value) ==> rank(m.parent.value) < rank(id)
  }

  ghost predicate Acyclic(ms: seq<Message>) {
    exists rank :: Ranked(ms, rank)
  }

  lemma {:induction false} FindSnoc(ms: seq<Message>, m: Message, id: MessageId)
    ensures Find(ms + [m], id) == if m.id == id then Some(m) else Find(ms, id)
  {
    assert (ms + [m])[..|ms|] == ms;
  }

  lemma {:induction false} FindIs(ms: seq<Message>, id: MessageId)
    ensures Find(ms, id).Some? ==> Find(ms, id).value in ms && Find(ms, id).value.id == id
    ensures Find(ms, id).None? ==> forall m :: m in ms ==> m.id != id
  {
    if ms != [] {
      assert ms == ms[..|ms| - 1] + [ms[|ms| - 1]];
      FindIs(ms[..|ms| - 1], id);
    }
  }

  lemma {:induction false} FindUnique(ms: seq<Message>, i: nat)
    requires UniqueIds(ms) && i < |ms|
    ensures Find(ms, ms[i].id) == Some(ms[i])
  {
    if i < |ms| - 1 {
      FindUnique(ms[..|ms| - 1], i);
    }
  }

  // ---------- Paths ----------

  /** p leads from a message without a stored parent along parent links to `end`. */
  ghost predicate IsChain(ms: seq<Message>, p: seq<Message>, end: MessageId) {
    && p != [] && p[|p| - 1].id == end
    && (forall i :: 0 <= i < |p| ==> Find(ms, p[i].id) == Some(p[i]))
    && (forall i :: 0 < i < |p| ==> p[i].parent == Some(p[i - 1].id))
    && (p[0].parent.None? || !Stored(ms, p[0].parent.value))
  }

  /** There is at most one such path, whatever the shape of the tree. */
  lemma {:induction false} ChainUnique(ms: seq<Message>, p: seq<Message>, q: seq<Message>, end: MessageId)
    requires IsChain(ms, p, end) && IsChain(ms, q, end)
    ensures p == q
    decreases |p|
  {
    var m, n := |p| - 1, |q| - 1;
    assert p[m] == q[n];
    assert m > 0 ==> Find(ms, p[m - 1].id).Some?;
    assert n > 0 ==> Find(ms, q[n - 1].id).Some?;
    if m > 0 && n > 0 {
      ChainUnique(ms, p[..m], q[..n], p[m - 1].id);
      assert p == p[..m] + [p[m]] && q == q[..n] + [q[n]];
    }
  }

  ghost function PathBy(ms: seq<Message>, rank: MessageId -> nat, id: MessageId): (p: seq<Message>)
    requires Ranked(ms, rank) && Stored(ms, id)
    ensures IsChain(ms, p, id)
    decreases rank(id)
  {
    FindIs(ms, id);
    var m := Find(ms, id).value;
    if m.parent.Some? && Stored(ms, m.parent.value) then PathBy(ms, rank, m.parent.value) + [m] else [m]
  }

  /** The path that ends at a stored message. */
  ghost function PathTo(ms: seq<Message>, id: MessageId): (p: seq<Message>)
    requires Acyclic(ms) && Stored(ms, id)
    ensures IsChain(ms, p, id)
  {
    var rank :| Ranked(ms, rank);
    PathBy(ms, rank, id)
  }

  /** What read_path returns: all messages when no stored message is marked active. */
  ghost function ActivePath(ms: seq<Message>, active: Option<MessageId>): seq<Message>
    requires Acyclic(ms)
  {
    if active.None? || !Stored(ms, active.value) then ms else PathTo(ms, active.value)
  }

  lemma {:induction false} PathIs(ms: seq<Message>, p: seq<Message>, end: MessageId)
    requires Acyclic(ms) && IsChain(ms, p, end)
    ensures Stored(ms, end) && ActivePath(ms, Some(end)) == p
  {
    assert Find(ms, p[|p| - 1].id).Some?;
    ChainUnique(ms, p, PathTo(ms, end), end);
  }

  /** Ranks rise along a path, so a path never visits a message twice. */
  lemma {:induction false} ChainRises(
      ms: seq<Message>, rank: MessageId -> nat, p: seq<Message>, end: MessageId, i: nat, j: nat)
    requires Ranked(ms, rank) && IsChain(ms, p, end) && i < j < |p|
    ensures rank(p[i].id) < rank(p[j].id)
    decreases j
  {
    assert Find(ms, p[j].id) == Some(p[j]) && Find(ms, p[j - 1].id).Some?;
    if i < j - 1 {
      ChainRises(ms, rank, p, end, i, j - 1);
    }
  }

  /** The active path is duplicate-free, parent-linked, begins at a message with no stored parent and ends
      at the active message. */
  lemma {:induction false} ActivePathIsSimple(ms: seq<Message>, end: MessageId)
    requires Acyclic(ms) && Stored(ms, end)
    ensures var p := ActivePath(ms, Some(end)); IsChain(ms, p, end) && UniqueIds(p)
  {
    var p := PathTo(ms, end);
    var rank :| Ranked(ms, rank);
    forall i, j | 0 <= i < j < |p| ensures p[i].id != p[j].id {
      ChainRises(ms, rank, p, end, i, j);
    }
  }

  function Reversed(s: seq<Message>): seq<Message> {
    if s == [] then [] else Reversed(s[1..]) + [s[0]]
  }

  lemma {:induction false} ReversedSnoc(s: seq<Message>, m: Message)
    ensures Reversed(s + [m]) == [m] + Reversed(s)
  {
    if s != [] {
      assert (s + [m])[1..] == s[1..] + [m];
      ReversedSnoc(s[1..], m);
    }
  }

  /** active_chain. The walk keeps no set of visited messages: it ends because the tree is acyclic. */
  method ActiveChain(ms: seq<Message>, active: Option<MessageId>) returns (chain: seq<Message>)
    requires Acyclic(ms)
    ensures chain == ActivePath(ms, active)
  {
    if active.None? || !Stored(ms, active.value) {
      return ms;
    }
    ghost var goal := PathTo(ms, active.value);
    ghost var left := |goal|;
    chain := [];
    var cur := active;
    while cur.Some? && Stored(ms, cur.value)
      invariant 0 <= left <= |goal| && Reversed(chain) == goal[left..]
      invariant left > 0 ==> cur == Some(goal[left - 1].id) && Stored(ms, goal[left - 1].id)
      invariant left == 0 ==> cur == goal[0].parent
      decreases left
    {
      var m := Find(ms, cur.value).value;
      assert left > 0 && m == goal[left - 1];
      ReversedSnoc(chain, m);
      cur := m.parent;
      chain := chain + [m];
      left := left - 1;
    }
    chain := Reversed(chain);
  }

  // ---------- The operations on one session ----------

  datatype Session = Session(messages: seq<Message>, active: Option<MessageId>)

  datatype TreeError = NotOnPath | NotUser | NoSuchMessage | NoSuchTail

  ghost function Path(s: Session): seq<Message>
    requires Acyclic(s.messages)
  {
    ActivePath(s.messages, s.active)
  }

  /** The edited copy that derive_branch stores. */
  function EditedCopy(original: Message, newId: MessageId, text: string, now: int): Message
    requires original.kind.User?
  {
    Message(newId, original.parent, original.kind.(text := text, displayText := None), now)
  }

  function Position(path: seq<Message>, id: MessageId): (p: nat)
    ensures p <= |path| && (p < |path| ==> path[p].id == id)
    ensures forall i :: 0 <= i < p ==> path[i].id != id
  {
    if path == [] || path[0].id == id then 0 else 1 + Position(path[1..], id)
  }

  ghost function DeriveBranch(s: Session, id: MessageId, text: string, newId: MessageId, now: int)
    : (Session, Result<seq<Message>, TreeError>)
    requires Acyclic(s.messages)
  {
    var path := Path(s);
    var at := Position(path, id);
    if at == |path| then (s, Err(NotOnPath))
    else if !path[at].kind.User? then (s, Err(NotUser))
    else
      var copy := EditedCopy(path[at], newId, text, now);
      (Session(s.messages + [copy], Some(newId)), Ok(path[..at] + [copy]))
  }

  ghost function SwitchBranch(s: Session, id: MessageId): (Session, Result<seq<Message>, TreeError>)
    requires Acyclic(s.messages)
  {
    if !Stored(s.messages, id) then (s, Err(NoSuchMessage))
    else (s.(active := Some(id)), Ok(ActivePath(s.messages, Some(id))))
  }

  /** The list with the parent of its k-th message replaced. */
  function Reparented(ms: seq<Message>, k: nat, parent: MessageId): seq<Message>
    requires k < |ms|
  {
    ms[k := ms[k].(parent := Some(parent))]
  }

  /** splice_compaction: the tail hangs below the summary, which is stored after it. */
  function Splice(s: Session, summary: Message, tailStart: MessageId): (Session, Result<(), TreeError>) {
    var k := Position(s.messages, tailStart);
    if k == |s.messages| then (s, Err(NoSuchTail))
    else (s.(messages := Reparented(s.messages, k, summary.id) + [summary]), Ok(()))
  }

  // ---------- Every run keeps the tree acyclic ----------

  ghost predicate Good(ms: seq<Message>) {
    UniqueIds(ms) && Acyclic(ms)
  }

  lemma {:induction false} AppendKeepsGood(ms: seq<Message>, m: Message)
    requires Good(ms) && Fresh(ms, m.id) && m.parent != Some(m.id)
    ensures Good(ms + [m])
  {
    var rank :| Ranked(ms, rank);
    var top := if m.parent.Some? then rank(m.parent.value) + 1 else 0;
    var rank' := (id: MessageId) => if id == m.id then top else rank(id);
    forall id | Stored(ms + [m], id) ensures
      var x := Find(ms + [m], id).value;
      x.parent.Some? && Stored(ms + [m], x.parent.value) ==> rank'(x.parent.value) < rank'(id)
    {
      FindSnoc(ms, m, id);
      FindIs(ms, id);
      var x := Find(ms + [m], id).value;
      if x.parent.Some? {
        FindSnoc(ms, m, x.parent.value);
      }
    }
    assert Ranked(ms + [m], rank');
  }

  lemma {:induction false} FindReparented(ms: seq<Message>, k: nat, parent: MessageId, id: MessageId)
    requires UniqueIds(ms) && k < |ms|
    ensures Find(Reparented(ms, k, parent), id)
         == if id == ms[k].id then Some(ms[k].(parent := Some(parent))) else Find(ms, id)
  {
    var n := |ms| - 1;
    if k < n {
      FindReparented(ms[..n], k, parent, id);
      assert Reparented(ms, k, parent)[..n] == Reparented(ms[..n], k, parent);
    } else {
      FindIs(ms[..n], ms[k].id);
      assert Reparented(ms, k, parent)[..n] == ms[..n];
    }
  }

  /** After a splice a parent is stored behind its child, yet no cycle arises: the summary is a root. */
  lemma {:induction false} SpliceKeepsGood(ms: seq<Message>, k: nat, summary: Message)
    requires Good(ms) && k < |ms| && summary.parent.None? && !Stored(ms, summary.id)
    ensures Good(Reparented(ms, k, summary.id) + [summary])
  {
    FindIs(ms, summary.id);
    var rank :| Ranked(ms, rank);
    var spliced := Reparented(ms, k, summary.id);
    var rank' := (id: MessageId) => if id == summary.id then 0 else rank(id) + 1;
    forall id | Stored(spliced + [summary], id) ensures
      var x := Find(spliced + [summary], id).value;
      x.parent.Some? && Stored(spliced + [summary], x.parent.value) ==> rank'(x.parent.value) < rank'(id)
    {
      FindSnoc(spliced, summary, id);
      FindReparented(ms, k, summary.id, id);
      FindIs(ms, id);
      var x := Find(spliced + [summary], id).value;
      if x.parent.Some? {
        FindSnoc(spliced, summary, x.parent.value);
        FindReparented(ms, k, summary.id, x.parent.value);
        FindUnique(ms, k);
      }
    }
    assert Ranked(spliced + [summary], rank');
  }

  /** The writes of a session. New ids are fresh, and a summary is a root, as maybe_compact builds it. */
  datatype Op =
    | AppendOp(m: Message)
    | DeriveOp(id: MessageId, text: string, newId: MessageId, now: int)
    | SwitchOp(id: MessageId)
    | SpliceOp(summary: Message, tailStart: MessageId)
    | SetActiveOp(to: Option<MessageId>)

  ghost predicate CanStep(s: Session, op: Op) {
    match op
    case AppendOp(m) => Fresh(s.messages, m.id) && m.parent != Some(m.id)
    case DeriveOp(_, _, newId, _) => Fresh(s.messages, newId)
    case SpliceOp(summary, _) => summary.parent.None? && !Stored(s.messages, summary.id)
    case SwitchOp(_) => true
    case SetActiveOp(_) => true
  }

  ghost function Step(s: Session, op: Op): Session
    requires Good(s.messages)
  {
    match op
    case AppendOp(m) => s.(messages := s.messages + [m])
    case DeriveOp(id, text, newId, now) => DeriveBranch(s, id, text, newId, now).0
    case SwitchOp(id) => SwitchBranch(s, id).0
    case SpliceOp(summary, tailStart) => Splice(s, summary, tailStart).0
    case SetActiveOp(to) => s.(active := to)
  }

  lemma {:induction false} PathMember(s: Session, m: Message)
    requires Acyclic(s.messages) && m in Path(s)
    ensures m in s.messages
  {
    if s.active.Some? && Stored(s.messages, s.active.value) {
      var p := PathTo(s.messages, s.active.value);
      var i :| 0 <= i < |p| && p[i] == m;
      FindIs(s.messages, p[i].id);
    }
  }

  lemma {:induction false} StepKeepsGood(s: Session, op: Op)
    requires Good(s.messages) && CanStep(s, op)
    ensures Good(Step(s, op).messages)
  {
    match op
    case AppendOp(m) => AppendKeepsGood(s.messages, m);
    case DeriveOp(id, text, newId, now) =>
      var path := Path(s);
      var at := Position(path, id);
      if at < |path| && path[at].kind.User? {
        PathMember(s, path[at]);
        AppendKeepsGood(s.messages, EditedCopy(path[at], newId, text, now));
      }
    case SpliceOp(summary, tailStart) =>
      var k := Position(s.messages, tailStart);
      if k < |s.messages| {
        SpliceKeepsGood(s.messages, k, summary);
      }
    case SwitchOp(_) =>
    case SetActiveOp(_) =>
  }

  /** The writes of a run are legal one after the other; nothing is asked of the tree. */
  ghost predicate Legal(s: Session, ops: seq<Op>)
    requires Good(s.messages)
    decreases |ops|
  {
    ops != [] ==> CanStep(s, ops[0]) && (StepKeepsGood(s, ops[0]); Legal(Step(s, ops[0]), ops[1..]))
  }

  ghost function Run(s: Session, ops: seq<Op>): Session
    requires Good(s.messages) && Legal(s, ops)
    decreases |ops|
  {
    if ops == [] then s else (StepKeepsGood(s, ops[0]); Run(Step(s, ops[0]), ops[1..]))
  }

  /** Over every run from an empty session the tree stays acyclic with unique ids, so reading the active
      path terminates with a simple path from a root to the active message. */
  lemma {:induction false} RunKeepsTree(s: Session, ops: seq<Op>)
    requires Good(s.messages) && Legal(s, ops)
    ensures var t := Run(s, ops);
            && Good(t.messages)
            && (t.active.Some? && Stored(t.messages, t.active.value) ==>
                  IsChain(t.messages, Path(t), t.active.value) && UniqueIds(Path(t)))
    decreases |ops|
  {
    if ops != [] {
      StepKeepsGood(s, ops[0]);
      RunKeepsTree(Step(s, ops[0]), ops[1..]);
    } else if s.active.Some? && Stored(s.messages, s.active.value) {
      ActivePathIsSimple(s.messages, s.active.value);
    }
  }

  // ---------- Branching never loses history ----------

  /** A path survives the arrival of a message that nothing refers to. */
  lemma {:induction false} ChainSurvives(ms: seq<Message>, m: Message, p: seq<Message>, end: MessageId)
    requires IsChain(ms, p, end) && Fresh(ms, m.id)
    ensures IsChain(ms + [m], p, end)
  {
    forall i | 0 <= i < |p| ensures Find(ms + [m], p[i].id) == Some(p[i]) {
      FindSnoc(ms, m, p[i].id);
      FindIs(ms, p[i].id);
    }
    if p[0].parent.Some? {
      FindSnoc(ms, m, p[0].parent.value);
      FindIs(ms, p[0].id);
    }
  }

  lemma {:induction false} ChainExtends(ms: seq<Message>, m: Message, p: seq<Message>, end: MessageId)
    requires IsChain(ms, p, end) && Fresh(ms, m.id) && m.parent == Some(end)
    ensures IsChain(ms + [m], p + [m], m.id)
  {
    ChainSurvives(ms, m, p, end);
    FindSnoc(ms, m, m.id);
  }

  lemma {:induction false} ChainPrefix(ms: seq<Message>, p: seq<Message>, end: MessageId, n: nat)
    requires IsChain(ms, p, end) && 0 < n <= |p|
    ensures IsChain(ms, p[..n], p[n - 1].id)
  {
  }

  /** With an active path set, editing a user message on it keeps every stored message as it is and makes the
      path before the message plus one new message the active path: a user message with the new text, nothing
      else to display, the attachments and the parent of the message edited, and the given id and time.
      Switching to the former end brings the former path back. Off the path, or for any other kind of
      message, nothing changes. */
  lemma {:induction false} BranchingKeepsHistory(s: Session, id: MessageId, text: string, newId: MessageId, now: int)
    requires Good(s.messages) && Fresh(s.messages, newId)
    requires s.active.Some? && Stored(s.messages, s.active.value)
    ensures var path := Path(s);
            var at := Position(path, id);
            var (t, result) := DeriveBranch(s, id, text, newId, now);
            if at == |path| || !path[at].kind.User? then t == s && result.Err?
            else
              && Good(t.messages) && result.Ok? && Path(t) == result.value
              && |Path(t)| == at + 1 && Path(t)[..at] == path[..at]
              && var m := Path(t)[at];
              && m.id == newId && m.parent == path[at].parent && m.createdAt == now
              && m.kind.User? && m.kind.text == text && m.kind.displayText == None
              && m.kind.attachments == path[at].kind.attachments
              && t.messages == s.messages + [m]
              && (var (back, restored) := SwitchBranch(t, s.active.value);
                  restored == Ok(path) && Path(back) == path && back.messages == t.messages)
  {
    var path := Path(s);
    var at := Position(path, id);
    if at < |path| && path[at].kind.User? {
      var copy := EditedCopy(path[at], newId, text, now);
      var end := s.active.value;
      PathMember(s, path[at]);
      AppendKeepsGood(s.messages, copy);
      ChainSurvives(s.messages, copy, path, end);
      PathIs(s.messages + [copy], path, end);
      if at == 0 {
        FindSnoc(s.messages, copy, newId);
        if copy.parent.Some? {
          FindSnoc(s.messages, copy, copy.parent.value);
        }
        assert IsChain(s.messages + [copy], [copy], newId);
        assert path[..at] + [copy] == [copy];
      } else {
        ChainPrefix(s.messages, path, end, at);
        ChainExtends(s.messages, copy, path[..at], path[at - 1].id);
      }
      PathIs(s.messages + [copy], path[..at] + [copy], newId);
    }
  }
}
