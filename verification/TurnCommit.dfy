/** Writing a finished turn back to the store (the commit part of start_turn in
    src/kernel/agent/rpc/mod.rs, persist_turn_messages in src/kernel/agent/rpc/handlers.rs), with the
    context compaction of src/kernel/agent/loop_mod/mod.rs. */
module TurnCommit {
  import opened Basics
  import opened Messages
  import opened SessionTree
  import opened SessionStore

  datatype Compaction = Compaction(summary: Message, tailStart: MessageId, summarized: nat, tailEnd: MessageId)

  /** The conversation that maybe_compact leaves: the summary, then the kept tail hanging below it. */
  function Compacted(conversation: seq<Message>, keepFrom: nat, summary: Message): seq<Message>
    requires keepFrom < |conversation|
  {
    [summary] + Reparented(conversation[keepFrom..], 0, summary.id)
  }

  function CompactionOf(conversation: seq<Message>, keepFrom: nat, summary: Message): Compaction
    requires keepFrom < |conversation|
  {
    Compaction(summary, conversation[keepFrom].id, keepFrom, conversation[|conversation| - 1].id)
  }

  /** new_messages: what the turn has added. */
  function NewMessages(conversation: seq<Message>, preexisting: set<MessageId>): seq<Message> {
    if conversation == [] then [] else
      (if conversation[0].id in preexisting then [] else [conversation[0]])
      + NewMessages(conversation[1..], preexisting)
  }

  function Ids(ms: seq<Message>): set<MessageId> {
    set m | m in ms :: m.id
  }

  /** What persist_turn_messages stores: everything but the summary. */
  function Persisted(messages: seq<Message>, compaction: Option<Compaction>): seq<Message> {
    if messages == [] then [] else
      (if compaction.Some? && messages[0].id == compaction.value.summary.id then [] else [messages[0]])
      + Persisted(messages[1..], compaction)
  }

  /** The commit: persist, splice, advance the active path. */
  function Commit(s: Session, messages: seq<Message>, compaction: Option<Compaction>): Session {
    var persisted := Persisted(messages, compaction);
    var stored := s.(messages := s.messages + persisted);
    var spliced :=
      if compaction.Some? then Splice(stored, compaction.value.summary, compaction.value.tailStart).0 else stored;
    if compaction.Some? then spliced.(active := Some(compaction.value.tailEnd))
    else if persisted != [] then spliced.(active := Some(persisted[|persisted| - 1].id))
    else spliced
  }

  // ---------- The commit as the kernel runs it ----------

  /** The messages can be stored one after the other: each is new and refers only to earlier ones. */
  ghost predicate CanAppend(ms: seq<Message>, added: seq<Message>) {
    && (forall i :: 0 <= i < |added| ==> Fresh(ms, added[i].id))
    && (forall i, j :: 0 <= i < j < |added| ==> added[i].id != added[j].id)
    && (forall i, j :: 0 <= i <= j < |added| ==> added[i].parent != Some(added[j].id))
  }

  function AppendOps(added: seq<Message>): seq<Op> {
    if added == [] then [] else [AppendOp(added[0])] + AppendOps(added[1..])
  }

  lemma {:induction false} CanAppendRest(ms: seq<Message>, added: seq<Message>)
    requires CanAppend(ms, added) && added != []
    ensures Fresh(ms, added[0].id) && added[0].parent != Some(added[0].id)
    ensures CanAppend(ms + [added[0]], added[1..])
  {
    forall i | 0 <= i < |added| - 1 ensures Fresh(ms + [added[0]], added[1..][i].id) {
      assert Fresh(ms, added[i + 1].id) && added[0].id != added[i + 1].id && added[0].parent != Some(added[i + 1].id);
    }
  }

  /** Such messages are stored by a legal run of appends, which keeps the tree. */
  lemma {:induction false} AppendsAreLegal(s: Session, added: seq<Message>)
    requires Good(s.messages) && CanAppend(s.messages, added)
    ensures Legal(s, AppendOps(added)) && Run(s, AppendOps(added)) == s.(messages := s.messages + added)
    decreases |added|
  {
    if added == [] {
      assert s.messages + added == s.messages;
    } else {
      var op := AppendOp(added[0]);
      CanAppendRest(s.messages, added);
      assert CanStep(s, op);
      StepKeepsGood(s, op);
      hide CanAppend, Good, Fresh;
      AppendsAreLegal(Step(s, op), added[1..]);
      assert AppendOps(added)[1..] == AppendOps(added[1..]);
      assert s.messages + [added[0]] + added[1..] == s.messages + added;
    }
  }

  lemma {:induction false} PersistedStep(messages: seq<Message>, n: nat, compaction: Option<Compaction>)
    requires n < |messages|
    ensures Persisted(messages[n..], compaction)
         == (if compaction.Some? && messages[n].id == compaction.value.summary.id then [] else [messages[n]])
            + Persisted(messages[n + 1..], compaction)
  {
    assert messages[n..][1..] == messages[n + 1..];
  }

  lemma {:induction false} Regrouped(a: seq<Message>, b: seq<Message>, c: seq<Message>)
    ensures a + b + c == a + (b + c)
  {
  }

  /** persist_turn_messages; `skip` is the id of the summary, which the splice stores. */
  method PersistTurnMessages(
      store: MemoryStorage, key: SessionKey, messages: seq<Message>, skip: Option<MessageId>,
      ghost compaction: Option<Compaction>)
    returns (lastKept: Option<MessageId>)
    requires store.Valid() && key in store.sessions
    requires skip == if compaction.Some? then Some(compaction.value.summary.id) else None
    modifies store
    ensures store.Valid() && store.sessions == old(store.sessions)
    ensures var kept := Persisted(messages, compaction);
            && store.messages == old(store.messages)[key := old(store.messages)[key] + kept]
            && lastKept == if kept == [] then None else Some(kept[|kept| - 1].id)
  {
    hide Persisted;
    lastKept := None;
    ghost var kept := Persisted(messages, compaction);
    ghost var ms := store.messages[key];
    ghost var done: seq<Message> := [];
    assert ms + done == ms && messages[0..] == messages;
    var n := 0;
    while n < |messages|
      invariant 0 <= n <= |messages|
      invariant kept == done + Persisted(messages[n..], compaction)
      invariant store.Valid() && store.sessions == old(store.sessions)
      invariant store.messages == old(store.messages)[key := ms + done]
      invariant lastKept == if done == [] then None else Some(done[|done| - 1].id)
    {
      var msg := messages[n];
      PersistedStep(messages, n, compaction);
      if skip != Some(msg.id) {
        Regrouped(ms, done, [msg]);
        Regrouped(done, [msg], Persisted(messages[n + 1..], compaction));
        var _ := store.AppendMessage(key, msg);
        done := done + [msg];
        lastKept := Some(msg.id);
      }
      n := n + 1;
    }
    PersistedNone(compaction);
    assert messages[n..] == [] && done + [] == done;
  }

  lemma {:induction false} PersistedNone(compaction: Option<Compaction>)
    ensures Persisted([], compaction) == []
  {
  }

  /** The store updates of a finished turn, in their order. */
  method CommitTurn(store: MemoryStorage, key: SessionKey, messages: seq<Message>, compaction: Option<Compaction>)
    requires store.Valid() && key in store.sessions
    modifies store
    ensures store.Valid() && key in store.sessions
    ensures store.Becomes(key, Commit(old(store.At(key)), messages, compaction))
  {
    hide Good, CanAppend, Persisted, Stored, Position, Splice, Find, Fresh;
    var skip := if compaction.Some? then Some(compaction.value.summary.id) else None;
    ghost var s := store.At(key);
    ghost var kept := Persisted(messages, compaction);
    var persistedLast := PersistTurnMessages(store, key, messages, skip, compaction);
    assert store.At(key) == s.(messages := s.messages + kept);
    if compaction.Some? {
      var _ := store.SpliceCompaction(key, compaction.value.summary, compaction.value.tailStart);
    }
    var nextActive := if compaction.Some? then Some(compaction.value.tailEnd) else persistedLast;
    if nextActive.Some? {
      var _ := store.SetActivePath(key, nextActive);
    }
    assert store.At(key) == Commit(s, messages, compaction);
  }

  // ---------- The stored path is the conversation ----------

  /** The messages of a turn as the loop appends them: each below the one before, the first below `end`. */
  ghost predicate Follows(added: seq<Message>, end: MessageId) {
    && (added != [] ==> added[0].parent == Some(end))
    && forall i :: 0 < i < |added| ==> added[i].parent == Some(added[i - 1].id)
  }

  ghost predicate NewIn(ms: seq<Message>, added: seq<Message>) {
    && (forall i :: 0 <= i < |added| ==> Fresh(ms, added[i].id))
    && forall i, j :: 0 <= i < j < |added| ==> added[i].id != added[j].id
  }

  lemma {:induction false} NewInRest(ms: seq<Message>, added: seq<Message>)
    requires NewIn(ms, added) && added != [] && forall i :: 0 < i < |added| ==> added[0].parent != Some(added[i].id)
    ensures NewIn(ms + [added[0]], added[1..])
  {
    forall i | 0 <= i < |added[1..]| ensures Fresh(ms + [added[0]], added[1..][i].id) {
      assert Fresh(ms, added[i + 1].id);
    }
  }

  /** The end of a chain is stored, so no new message bears its id. */
  lemma {:induction false} EndIsNotNew(ms: seq<Message>, p: seq<Message>, end: MessageId, added: seq<Message>)
    requires IsChain(ms, p, end) && NewIn(ms, added)
    ensures forall i :: 0 <= i < |added| ==> added[i].id != end
  {
    FindIs(ms, end);
    assert Find(ms, p[|p| - 1].id).Some?;
    forall i | 0 <= i < |added| ensures added[i].id != end {
      assert Fresh(ms, added[i].id);
    }
  }

  lemma {:induction false} ExtendChain(ms: seq<Message>, p: seq<Message>, end: MessageId, added: seq<Message>)
    requires Good(ms) && IsChain(ms, p, end) && Follows(added, end) && NewIn(ms, added)
    ensures Good(ms + added) && IsChain(ms + added, p + added, (p + added)[|p + added| - 1].id)
    decreases |added|
  {
    if added == [] {
      assert ms + added == ms && p + added == p;
    } else {
      var m := added[0];
      EndIsNotNew(ms, p, end, added);
      NewInRest(ms, added);
      assert Fresh(ms, m.id);
      hide Good, NewIn, Find, Fresh;
      AppendKeepsGood(ms, m);
      ChainExtends(ms, m, p, end);
      hide IsChain;
      ExtendChain(ms + [m], p + [m], m.id, added[1..]);
      assert ms + [m] + added[1..] == ms + added && p + [m] + added[1..] == p + added;
    }
  }

  lemma {:induction false} StoredAt(ms: seq<Message>, id: MessageId)
    requires Stored(ms, id)
    ensures Position(ms, id) < |ms|
  {
    FindIs(ms, id);
    var i :| 0 <= i < |ms| && ms[i].id == id;
  }

  /** Splicing a summary in front of the j-th message of a path makes the summary and the re-parented tail
      a path. */
  lemma {:induction false} SpliceChain(ms: seq<Message>, p: seq<Message>, end: MessageId, j: nat, summary: Message)
    requires Good(ms) && IsChain(ms, p, end) && j < |p|
    requires summary.parent.None? && !Stored(ms, summary.id)
    ensures var k := Position(ms, p[j].id);
            && k < |ms|
            && (var t := Reparented(ms, k, summary.id) + [summary];
                && Good(t)
                && IsChain(t, [summary] + Reparented(p[j..], 0, summary.id), end))
  {
    assert Find(ms, p[j].id) == Some(p[j]);
    StoredAt(ms, p[j].id);
    var k := Position(ms, p[j].id);
    SpliceKeepsGood(ms, k, summary);
    PathIs(ms, p, end);
    ActivePathIsSimple(ms, end);
    FindUnique(ms, k);
    var spliced := Reparented(ms, k, summary.id);
    var t := spliced + [summary];
    var tail := Reparented(p[j..], 0, summary.id);
    var q := [summary] + tail;
    forall i | 0 <= i < |q| ensures Find(t, q[i].id) == Some(q[i]) {
      FindSnoc(spliced, summary, q[i].id);
      if i > 0 {
        assert Find(ms, p[j + i - 1].id) == Some(p[j + i - 1]);
        FindReparented(ms, k, summary.id, q[i].id);
      }
    }
    forall i | 0 < i < |q| ensures q[i].parent == Some(q[i - 1].id) {
      if i > 1 {
        assert q[i] == p[j + i - 1] && q[i - 1].id == p[j + i - 2].id;
      }
    }
  }

  lemma {:induction false} NewOfOld(old_: seq<Message>, rest: seq<Message>, pre: set<MessageId>)
    requires forall m :: m in old_ ==> m.id in pre
    ensures NewMessages(old_ + rest, pre) == NewMessages(rest, pre)
  {
    if old_ == [] {
      assert old_ + rest == rest;
    } else {
      assert (old_ + rest)[1..] == old_[1..] + rest;
      NewOfOld(old_[1..], rest, pre);
    }
  }

  lemma {:induction false} NewOfNew(added: seq<Message>, pre: set<MessageId>)
    requires forall m :: m in added ==> m.id !in pre
    ensures NewMessages(added, pre) == added
  {
    if added != [] {
      NewOfNew(added[1..], pre);
    }
  }

  lemma {:induction false} PersistAll(added: seq<Message>, compaction: Option<Compaction>)
    requires compaction.Some? ==> forall m :: m in added ==> m.id != compaction.value.summary.id
    ensures Persisted(added, compaction) == added
  {
    if added != [] {
      PersistAll(added[1..], compaction);
    }
  }

  /** How a turn stands when the loop returns: it started from the stored active path with the session-id
      message in front, and appended messages with new ids below its end. */
  ghost predicate TurnOf(s: Session, idNote: Message, added: seq<Message>) {
    && Good(s.messages)
    && s.active.Some? && Stored(s.messages, s.active.value)
    && NewIn(s.messages, added) && Follows(added, s.active.value)
    && idNote.id !in Ids(added)
  }

  lemma {:induction false} OldIds(s: Session, idNote: Message, added: seq<Message>)
    requires TurnOf(s, idNote, added)
    ensures forall m :: m in added ==> m.id !in Ids([idNote] + Path(s))
  {
    forall m | m in added ensures m.id !in Ids([idNote] + Path(s)) {
      assert m.id in Ids(added);
      var i :| 0 <= i < |added| && added[i] == m;
      assert Fresh(s.messages, added[i].id);
      forall x | x in [idNote] + Path(s) ensures x.id != m.id {
        if x in Path(s) {
          PathMember(s, x);
        }
      }
    }
  }

  lemma {:induction false} NewWithoutCompaction(old_: seq<Message>, added: seq<Message>)
    requires forall m :: m in added ==> m.id !in Ids(old_)
    ensures NewMessages(old_ + added, Ids(old_)) == added && Persisted(added, None) == added
  {
    NewOfOld(old_, added, Ids(old_));
    NewOfNew(added, Ids(old_));
    PersistAll(added, None);
  }

  lemma {:induction false} CommitPlain(s: Session, path: seq<Message>, added: seq<Message>)
    requires Good(s.messages) && s.active.Some? && IsChain(s.messages, path, s.active.value)
    requires NewIn(s.messages, added) && Follows(added, s.active.value) && Persisted(added, None) == added
    ensures var t := Commit(s, added, None);
            Good(t.messages) && Path(t) == path + added
  {
    ExtendChain(s.messages, path, s.active.value, added);
    var end := (path + added)[|path + added| - 1].id;
    PathIs(s.messages + added, path + added, end);
    assert s.messages + [] == s.messages;
    assert added != [] ==> (path + added)[|path + added| - 1] == added[|added| - 1];
    hide Good, IsChain, NewIn, Follows, Persisted, ActivePath;
    assert Commit(s, added, None) == Session(s.messages + added, Some(end));
  }

  /** Without compaction, reading the path back gives the old path followed by the new messages: the loop's
      conversation without the session-id message. */
  lemma {:induction false} CommitWithoutCompaction(s: Session, idNote: Message, added: seq<Message>)
    requires TurnOf(s, idNote, added)
    ensures var conversation := [idNote] + Path(s) + added;
            var news := NewMessages(conversation, Ids([idNote] + Path(s)));
            var t := Commit(s, news, None);
            && CanAppend(s.messages, Persisted(news, None))
            && Good(t.messages) && Path(t) == conversation[1..]
  {
    hide Find, IsChain, NewMessages, Persisted, Commit, Fresh, UniqueIds, Ranked, Follows, NewIn, Ids, CanAppend;
    var path := Path(s);
    OldIds(s, idNote, added);
    NewWithoutCompaction([idNote] + path, added);
    FollowsCanAppend(s.messages, added, s.active.value);
    CommitPlain(s, path, added);
    assert ([idNote] + path + added)[1..] == path + added;
  }

  lemma {:induction false} FollowsCanAppend(ms: seq<Message>, added: seq<Message>, end: MessageId)
    requires Follows(added, end) && NewIn(ms, added) && Stored(ms, end)
    ensures CanAppend(ms, added)
  {
    FindIs(ms, end);
    forall i, j | 0 <= i <= j < |added| ensures added[i].parent != Some(added[j].id) {
      assert Fresh(ms, added[j].id);
      if i > 0 {
        assert added[i].parent == Some(added[i - 1].id);
      }
    }
  }

  /** The part of a compacted conversation that is new: what has to be stored besides the summary. */
  function KeptNew(added: seq<Message>, pathLength: nat, keepFrom: nat, summaryId: MessageId): seq<Message>
    requires 1 <= keepFrom <= pathLength + |added|
  {
    if keepFrom <= pathLength then added else Reparented(added[keepFrom - 1 - pathLength..], 0, summaryId)
  }

  ghost predicate FreshSummary(s: Session, idNote: Message, added: seq<Message>, summary: Message)
    requires Acyclic(s.messages)
  {
    && summary.parent.None? && !Stored(s.messages, summary.id)
    && forall m :: m in [idNote] + Path(s) + added ==> m.id != summary.id
  }

  lemma {:induction false} KeptIds(added: seq<Message>, n: nat, keepFrom: nat, summaryId: MessageId, m: Message)
    requires 1 <= keepFrom <= n + |added| && m in KeptNew(added, n, keepFrom, summaryId)
    ensures exists x :: x in added && x.id == m.id
  {
    if keepFrom > n {
      var kept := KeptNew(added, n, keepFrom, summaryId);
      var i :| 0 <= i < |kept| && kept[i] == m;
      assert added[keepFrom - 1 - n + i] in added && added[keepFrom - 1 - n + i].id == m.id;
    }
  }

  lemma {:induction false} TailSplit(
      idNote: Message, path: seq<Message>, added: seq<Message>, keepFrom: nat, summaryId: MessageId)
    requires 1 <= keepFrom <= |path|
    ensures Reparented(([idNote] + path + added)[keepFrom..], 0, summaryId)
         == Reparented(path[keepFrom - 1..], 0, summaryId) + added
  {
    assert ([idNote] + path + added)[keepFrom..] == path[keepFrom - 1..] + added;
  }

  /** The new messages of a tail that reaches back into the old path. */
  lemma {:induction false} LongTail(
      idNote: Message, path: seq<Message>, added: seq<Message>, keepFrom: nat, summaryId: MessageId)
    requires 1 <= keepFrom <= |path| && forall m :: m in added ==> m.id !in Ids([idNote] + path)
    ensures NewMessages(Reparented(([idNote] + path + added)[keepFrom..], 0, summaryId), Ids([idNote] + path)) == added
  {
    var pre := Ids([idNote] + path);
    var oldTail := Reparented(path[keepFrom - 1..], 0, summaryId);
    forall m | m in oldTail ensures m.id in pre {
      var i :| 0 <= i < |oldTail| && oldTail[i] == m;
      assert path[keepFrom - 1 + i] in [idNote] + path && path[keepFrom - 1 + i].id == m.id;
    }
    NewOfOld(oldTail, added, pre);
    NewOfNew(added, pre);
    TailSplit(idNote, path, added, keepFrom, summaryId);
  }

  /** The new messages of a tail of new messages only. */
  lemma {:induction false} ShortTail(
      idNote: Message, path: seq<Message>, added: seq<Message>, keepFrom: nat, summaryId: MessageId)
    requires |path| < keepFrom <= |path| + |added| && forall m :: m in added ==> m.id !in Ids([idNote] + path)
    ensures var kept := KeptNew(added, |path|, keepFrom, summaryId);
            && Reparented(([idNote] + path + added)[keepFrom..], 0, summaryId) == kept
            && NewMessages(kept, Ids([idNote] + path)) == kept
  {
    var kept := KeptNew(added, |path|, keepFrom, summaryId);
    forall m | m in kept ensures m.id !in Ids([idNote] + path) {
      KeptIds(added, |path|, keepFrom, summaryId, m);
    }
    NewOfNew(kept, Ids([idNote] + path));
    assert ([idNote] + path + added)[keepFrom..] == added[keepFrom - 1 - |path|..];
  }

  lemma {:induction false} CompactedNew(
      idNote: Message, path: seq<Message>, added: seq<Message>, keepFrom: nat, summary: Message)
    requires 1 <= keepFrom <= |path| + |added| && forall m :: m in added ==> m.id !in Ids([idNote] + path)
    requires forall m :: m in [idNote] + path + added ==> m.id != summary.id
    ensures var conversation := [idNote] + path + added;
            var kept := KeptNew(added, |path|, keepFrom, summary.id);
            && NewMessages(Compacted(conversation, keepFrom, summary), Ids([idNote] + path)) == [summary] + kept
            && Persisted([summary] + kept, Some(CompactionOf(conversation, keepFrom, summary))) == kept
  {
    var conversation := [idNote] + path + added;
    var kept := KeptNew(added, |path|, keepFrom, summary.id);
    if keepFrom <= |path| {
      LongTail(idNote, path, added, keepFrom, summary.id);
    } else {
      ShortTail(idNote, path, added, keepFrom, summary.id);
    }
    forall x | x in [idNote] + path ensures x.id != summary.id {
      assert x in conversation;
    }
    forall m | m in kept ensures m.id != summary.id {
      KeptIds(added, |path|, keepFrom, summary.id, m);
      var x :| x in added && x.id == m.id;
      assert x in conversation;
    }
    PersistAll(kept, Some(CompactionOf(conversation, keepFrom, summary)));
    var tail := Reparented(conversation[keepFrom..], 0, summary.id);
    hide KeptNew, Reparented;
    assert ([summary] + tail)[1..] == tail && ([summary] + kept)[1..] == kept;
  }

  // ---------- The stored path after a compacted turn ----------

  lemma {:induction false} OrphanIsChain(ms: seq<Message>, m: Message)
    requires m.parent.Some? && !Stored(ms, m.parent.value) && m.parent != Some(m.id)
    ensures IsChain(ms + [m], [m], m.id)
  {
    FindSnoc(ms, m, m.id);
    FindSnoc(ms, m, m.parent.value);
  }

  /** A tail of new messages under a summary that is not stored yet is a path of its own. */
  lemma {:induction false} TailStandsAlone(ms: seq<Message>, tail: seq<Message>)
    requires Good(ms) && tail != [] && NewIn(ms, tail) && Follows(tail[1..], tail[0].id)
    requires tail[0].parent.Some? && !Stored(ms, tail[0].parent.value)
    requires forall m :: m in tail ==> tail[0].parent != Some(m.id)
    ensures Good(ms + tail) && IsChain(ms + tail, tail, tail[|tail| - 1].id)
  {
    var m := tail[0];
    hide Good, NewIn, Find, Fresh, Follows, IsChain;
    TailBegins(ms, tail);
    AppendKeepsGood(ms, m);
    ExtendChain(ms + [m], [m], m.id, tail[1..]);
    assert ms + [m] + tail[1..] == ms + tail && [m] + tail[1..] == tail;
  }

  lemma {:induction false} TailBegins(ms: seq<Message>, tail: seq<Message>)
    requires tail != [] && NewIn(ms, tail) && tail[0].parent.Some? && !Stored(ms, tail[0].parent.value)
    requires forall m :: m in tail ==> tail[0].parent != Some(m.id)
    ensures Fresh(ms, tail[0].id) && tail[0].parent != Some(tail[0].id) && NewIn(ms + [tail[0]], tail[1..])
    ensures IsChain(ms + [tail[0]], [tail[0]], tail[0].id)
  {
    assert Fresh(ms, tail[0].id) && tail[0] in tail;
    forall i | 0 < i < |tail| ensures tail[0].parent != Some(tail[i].id) {
      assert tail[i] in tail;
    }
    hide Find, Fresh;
    NewInRest(ms, tail);
    OrphanIsChain(ms, tail[0]);
  }

  lemma {:induction false} NotStoredAfter(ms: seq<Message>, added: seq<Message>, id: MessageId)
    requires !Stored(ms, id) && forall m :: m in added ==> m.id != id
    ensures !Stored(ms + added, id)
  {
    FindIs(ms, id);
    FindIs(ms + added, id);
  }

  /** What the commit leaves when the spliced list has been worked out. */
  lemma {:induction false} CommitIsSplice(s: Session, kept: seq<Message>, c: Compaction, p: seq<Message>, j: nat)
    requires Good(s.messages + kept) && IsChain(s.messages + kept, p, c.tailEnd) && j < |p| && p[j].id == c.tailStart
    requires c.summary.parent.None? && !Stored(s.messages + kept, c.summary.id)
    requires Persisted([c.summary] + kept, Some(c)) == kept
    ensures var t := Commit(s, [c.summary] + kept, Some(c));
            && Good(t.messages) && t.active == Some(c.tailEnd)
            && Path(t) == [c.summary] + Reparented(p[j..], 0, c.summary.id)
  {
    var ms := s.messages + kept;
    SpliceChain(ms, p, c.tailEnd, j, c.summary);
    var k := Position(ms, p[j].id);
    var spliced := Reparented(ms, k, c.summary.id) + [c.summary];
    PathIs(spliced, [c.summary] + Reparented(p[j..], 0, c.summary.id), c.tailEnd);
    hide Good, Acyclic, IsChain, Stored, ActivePath, Position, Persisted;
    assert Commit(s, [c.summary] + kept, Some(c)) == Session(spliced, Some(c.tailEnd));
  }

  lemma {:induction false} CommitLongTail(
      s: Session, path: seq<Message>, end: MessageId, added: seq<Message>, j: nat, c: Compaction)
    requires Good(s.messages) && IsChain(s.messages, path, end) && NewIn(s.messages, added) && Follows(added, end)
    requires j < |path| && c.tailStart == path[j].id && c.tailEnd == (path + added)[|path + added| - 1].id
    requires c.summary.parent.None? && !Stored(s.messages, c.summary.id)
    requires forall m :: m in added ==> m.id != c.summary.id
    requires Persisted([c.summary] + added, Some(c)) == added
    ensures var t := Commit(s, [c.summary] + added, Some(c));
            Good(t.messages) && Path(t) == [c.summary] + Reparented((path + added)[j..], 0, c.summary.id)
  {
    hide Good, IsChain, Stored, NewIn, Follows, Persisted, Commit, Reparented, Path;
    ExtendChain(s.messages, path, end, added);
    NotStoredAfter(s.messages, added, c.summary.id);
    CommitIsSplice(s, added, c, path + added, j);
  }

  lemma {:induction false} KeptIsNew(ms: seq<Message>, added: seq<Message>, from: nat, summaryId: MessageId)
    requires from < |added| && NewIn(ms, added) && Follows(added[1..], added[0].id)
    ensures var kept := Reparented(added[from..], 0, summaryId);
            NewIn(ms, kept) && Follows(kept[1..], kept[0].id)
  {
    var kept := Reparented(added[from..], 0, summaryId);
    forall i | 0 <= i < |kept| ensures Fresh(ms, kept[i].id) {
      assert Fresh(ms, added[from + i].id);
    }
    forall i | 0 <= i < |kept[1..]|
      ensures kept[1..][i].parent == Some(if i == 0 then kept[0].id else kept[1..][i - 1].id)
    {
      assert kept[1..][i] == added[1..][from + i];
    }
  }

  lemma {:induction false} KeptFacts(added: seq<Message>, from: nat, summaryId: MessageId)
    requires from < |added|
    ensures var kept := Reparented(added[from..], 0, summaryId);
            && |kept| > 0 && kept[0].id == added[from].id && kept[|kept| - 1].id == added[|added| - 1].id
            && kept[0].parent == Some(summaryId)
            && Reparented(kept, 0, summaryId) == kept && kept[0..] == kept
            && forall m :: m in kept ==> exists x :: x in added && x.id == m.id
  {
    var kept := Reparented(added[from..], 0, summaryId);
    forall m | m in kept ensures exists x :: x in added && x.id == m.id {
      var i :| 0 <= i < |kept| && kept[i] == m;
      assert added[from + i] in added && added[from + i].id == m.id;
    }
  }

  lemma {:induction false} CommitShortTail(s: Session, added: seq<Message>, from: nat, c: Compaction)
    requires Good(s.messages) && NewIn(s.messages, added) && from < |added| && Follows(added[1..], added[0].id)
    requires c.tailStart == added[from].id && c.tailEnd == added[|added| - 1].id
    requires c.summary.parent.None? && !Stored(s.messages, c.summary.id)
    requires forall m :: m in added ==> m.id != c.summary.id
    requires var kept := Reparented(added[from..], 0, c.summary.id); Persisted([c.summary] + kept, Some(c)) == kept
    ensures var kept := Reparented(added[from..], 0, c.summary.id);
            var t := Commit(s, [c.summary] + kept, Some(c));
            Good(t.messages) && Path(t) == [c.summary] + kept
  {
    var kept := Reparented(added[from..], 0, c.summary.id);
    KeptIsNew(s.messages, added, from, c.summary.id);
    KeptFacts(added, from, c.summary.id);
    hide Good, IsChain, Stored, NewIn, Follows, Persisted, Commit, Path, Reparented;
    TailStandsAlone(s.messages, kept);
    NotStoredAfter(s.messages, kept, c.summary.id);
    CommitIsSplice(s, kept, c, kept, 0);
  }

  /** The compacted conversation in terms of the old path and the new messages. */
  lemma {:induction false} CompactedParts(
      idNote: Message, path: seq<Message>, added: seq<Message>, keepFrom: nat, summary: Message)
    requires 1 <= keepFrom <= |path| + |added|
    ensures var conversation := [idNote] + path + added;
            var compacted := Compacted(conversation, keepFrom, summary);
            var c := CompactionOf(conversation, keepFrom, summary);
            var p, from := path + added, keepFrom - 1 - |path|;
            && c.summary == summary
            && (keepFrom <= |path| ==>
                  && compacted == [summary] + Reparented(p[keepFrom - 1..], 0, summary.id)
                  && c.tailStart == path[keepFrom - 1].id && c.tailEnd == p[|p| - 1].id)
            && (keepFrom > |path| ==>
                  && compacted == [summary] + Reparented(added[from..], 0, summary.id)
                  && c.tailStart == added[from].id && c.tailEnd == added[|added| - 1].id)
  {
    var conversation := [idNote] + path + added;
    assert conversation[keepFrom..] == (path + added)[keepFrom - 1..];
    if keepFrom > |path| {
      assert conversation[keepFrom..] == added[keepFrom - 1 - |path|..];
    }
  }

  lemma {:induction false} CommitCompacted(
      s: Session, idNote: Message, path: seq<Message>, end: MessageId, added: seq<Message>, keepFrom: nat,
      conversation: seq<Message>, summary: Message, c: Compaction)
    requires conversation == [idNote] + path + added && 1 <= keepFrom <= |path| + |added|
    requires c == CompactionOf(conversation, keepFrom, summary)
    requires Good(s.messages) && IsChain(s.messages, path, end) && NewIn(s.messages, added) && Follows(added, end)
    requires summary.parent.None? && !Stored(s.messages, summary.id)
    requires forall m :: m in conversation ==> m.id != summary.id
    requires forall m :: m in added ==> m.id !in Ids([idNote] + path) && m.id != summary.id
    ensures var compacted := Compacted(conversation, keepFrom, summary);
            var t := Commit(s, NewMessages(compacted, Ids([idNote] + path)), Some(c));
            && Good(t.messages) && Path(t) == compacted
  {
    hide Good, NewIn, Stored, NewMessages, Persisted, Commit, Ids, IsChain, Reparented, Compacted, CompactionOf, Path;
    CompactedNew(idNote, path, added, keepFrom, summary);
    CompactedParts(idNote, path, added, keepFrom, summary);
    if keepFrom <= |path| {
      hide Follows;
      CommitLongTail(s, path, end, added, keepFrom - 1, c);
    } else {
      CommitShortTail(s, added, keepFrom - 1 - |path|, c);
    }
  }

  /** With compaction, reading the path back gives exactly the loop's conversation: the summary and the kept
      tail. This holds wherever the tail begins, inside the old path or among the new messages. */
  lemma {:induction false} CommitWithCompaction(
      s: Session, idNote: Message, added: seq<Message>, keepFrom: nat, summary: Message)
    requires TurnOf(s, idNote, added) && FreshSummary(s, idNote, added, summary)
    requires 1 <= keepFrom <= |Path(s)| + |added|
    ensures var conversation := [idNote] + Path(s) + added;
            var compacted := Compacted(conversation, keepFrom, summary);
            var c := CompactionOf(conversation, keepFrom, summary);
            var news := NewMessages(compacted, Ids([idNote] + Path(s)));
            var t := Commit(s, news, Some(c));
            && Good(t.messages) && Path(t) == compacted
  {
    hide NewMessages, Persisted, Commit, Ids, IsChain, Reparented, Compacted, CompactionOf, Follows, NewIn;
    var path := Path(s);
    var conversation := [idNote] + path + added;
    assert forall m :: m in added ==> m in conversation;
    OldIds(s, idNote, added);
    CommitCompacted(s, idNote, path, s.active.value, added, keepFrom, conversation, summary,
                    CompactionOf(conversation, keepFrom, summary));
  }

  lemma {:induction false} KeptHas(added: seq<Message>, n: nat, keepFrom: nat, summaryId: MessageId, i: nat)
    requires 1 <= keepFrom <= n + |added| && i < |added|
    requires forall j, k :: 0 <= j < k < |added| ==> added[j].id != added[k].id
    ensures (exists m :: m in KeptNew(added, n, keepFrom, summaryId) && m.id == added[i].id)
       <==> keepFrom <= 1 + n + i
  {
    var kept := KeptNew(added, n, keepFrom, summaryId);
    var from := keepFrom - 1 - n;
    if keepFrom <= n {
      assert added[i] in kept;
    } else if from <= i {
      assert kept[i - from].id == added[i].id && kept[i - from] in kept;
    } else {
      forall m | m in kept ensures m.id != added[i].id {
        var k :| 0 <= k < |kept| && kept[k] == m;
        assert m.id == added[from + k].id;
      }
    }
  }

  /** A new message is stored by the commit exactly when it is in the kept tail. The older messages of a long
      turn are summarised without ever having been stored. */
  lemma {:induction false} CompactedAwayIsNotStored(
      s: Session, idNote: Message, added: seq<Message>, keepFrom: nat, summary: Message, i: nat)
    requires TurnOf(s, idNote, added) && FreshSummary(s, idNote, added, summary)
    requires 1 <= keepFrom <= |Path(s)| + |added| && i < |added|
    ensures var conversation := [idNote] + Path(s) + added;
            var news := NewMessages(Compacted(conversation, keepFrom, summary), Ids([idNote] + Path(s)));
            var t := Commit(s, news, Some(CompactionOf(conversation, keepFrom, summary)));
            Stored(t.messages, added[i].id) <==> keepFrom <= 1 + |Path(s)| + i
  {
    var path := Path(s);
    var conversation := [idNote] + path + added;
    assert added[i] in conversation && forall m :: m in added ==> m in conversation;
    FindIs(s.messages, added[i].id);
    assert Fresh(s.messages, added[i].id);
    OldIds(s, idNote, added);
    KeptHas(added, |path|, keepFrom, summary.id, i);
    hide NewMessages, Persisted, Commit, Ids, IsChain, Reparented, Compacted, Follows, NewIn, KeptNew, Find, Path;
    CompactedNew(idNote, path, added, keepFrom, summary);
    CommitStores(s, KeptNew(added, |path|, keepFrom, summary.id), CompactionOf(conversation, keepFrom, summary),
      added[i].id);
  }

  lemma {:induction false} OneMessageSession(s: Session, user: Message)
    requires s == Session([user], Some(user.id)) && user.parent.None?
    ensures Good(s.messages) && Stored(s.messages, user.id) && Path(s) == [user]
  {
    RootIsGood(user);
    FindSnoc([], user, user.id);
    assert [] + [user] == [user] && IsChain(s.messages, [user], user.id);
    PathIs(s.messages, [user], user.id);
  }

  /** The commit of a compacted turn meets the conditions under which the store accepts it. */
  lemma {:induction false} CompactedCanCommit(
      s: Session, idNote: Message, added: seq<Message>, keepFrom: nat, summary: Message)
    requires TurnOf(s, idNote, added) && FreshSummary(s, idNote, added, summary)
    requires 1 <= keepFrom <= |Path(s)| + |added|
    ensures var conversation := [idNote] + Path(s) + added;
            var c := CompactionOf(conversation, keepFrom, summary);
            var news := NewMessages(Compacted(conversation, keepFrom, summary), Ids([idNote] + Path(s)));
            && CanAppend(s.messages, Persisted(news, Some(c)))
            && !Stored(s.messages + Persisted(news, Some(c)), summary.id)
  {
    var path := Path(s);
    var conversation := [idNote] + path + added;
    assert forall m :: m in added ==> m in conversation;
    OldIds(s, idNote, added);
    hide NewMessages, Persisted, Ids, IsChain, Compacted, Find, Path, KeptNew, NewIn, Follows, CanAppend, Good;
    CompactedNew(idNote, path, added, keepFrom, summary);
    KeptCanCommit(s.messages, s.active.value, |path|, added, keepFrom, summary.id);
  }

  lemma {:induction false} KeptCanCommit(
      ms: seq<Message>, end: MessageId, n: nat, added: seq<Message>, keepFrom: nat, summaryId: MessageId)
    requires 1 <= keepFrom <= n + |added| && NewIn(ms, added) && Follows(added, end)
    requires Stored(ms, end) && !Stored(ms, summaryId) && forall m :: m in added ==> m.id != summaryId
    ensures var kept := KeptNew(added, n, keepFrom, summaryId);
            CanAppend(ms, kept) && !Stored(ms + kept, summaryId)
  {
    hide NewIn, Follows, Reparented, CanAppend, Stored;
    var kept := KeptNew(added, n, keepFrom, summaryId);
    if keepFrom <= n {
      FollowsCanAppend(ms, added, end);
    } else {
      var from := keepFrom - 1 - n;
      FollowsTail(added, end);
      KeptIsNew(ms, added, from, summaryId);
      KeptFacts(added, from, summaryId);
      KeptCanAppend(ms, kept, summaryId);
    }
    NotStoredAfter(ms, kept, summaryId);
  }

  lemma {:induction false} FollowsTail(added: seq<Message>, end: MessageId)
    requires Follows(added, end) && added != []
    ensures Follows(added[1..], added[0].id)
  {
  }

  lemma {:induction false} KeptCanAppend(ms: seq<Message>, kept: seq<Message>, summaryId: MessageId)
    requires kept != [] && NewIn(ms, kept) && Follows(kept[1..], kept[0].id)
    requires kept[0].parent == Some(summaryId) && forall m :: m in kept ==> m.id != summaryId
    ensures CanAppend(ms, kept)
  {
    forall i, j | 0 <= i <= j < |kept| ensures kept[i].parent != Some(kept[j].id) {
      if i > 0 {
        assert kept[1..][i - 1] == kept[i];
        assert kept[i].parent == Some(kept[i - 1].id);
      }
    }
  }

  /** The ids stored after a commit: those before, those persisted and the summary's. */
  lemma {:induction false} CommitStores(s: Session, kept: seq<Message>, c: Compaction, id: MessageId)
    requires Persisted([c.summary] + kept, Some(c)) == kept && id != c.summary.id
    ensures Stored(Commit(s, [c.summary] + kept, Some(c)).messages, id)
       <==> Stored(s.messages, id) || exists m :: m in kept && m.id == id
  {
    var ms := s.messages + kept;
    var t := Commit(s, [c.summary] + kept, Some(c));
    FindIs(s.messages, id);
    FindIs(t.messages, id);
    forall m | m in ms && m.id == id ensures exists x :: x in t.messages && x.id == id {
      var i :| 0 <= i < |ms| && ms[i] == m;
      assert t.messages[i] in t.messages && t.messages[i].id == id;
    }
    forall x | x in t.messages && x.id == id ensures exists m :: m in ms && m.id == id {
      var i :| 0 <= i < |t.messages| && t.messages[i] == x;
      assert i < |ms| && ms[i] in ms && ms[i].id == id;
    }
  }
}
