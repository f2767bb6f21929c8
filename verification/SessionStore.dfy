/** The in-memory session store (src/kernel/plugin/storage/mem.rs) and the scheduler's use of it
    (src/kernel/agent/session/scheduler.rs). */
module SessionStore {
  import opened Basics
  import opened Messages
  import opened RustText
  import opened SessionTree

  type SessionKey = nat

  datatype SessionStatus = Active | Archived

  datatype Meta = Meta(
    status: SessionStatus, archivedAt: Option<int>, activePath: Option<MessageId>, lastActivity: int)

  datatype StorageError = SessionNotFound | AlreadyExists | Internal(cause: TreeError)

  /** The collections of the store as a value. */
  datatype Registry = Registry(sessions: map<SessionKey, Meta>, messages: map<SessionKey, seq<Message>>)

  class MemoryStorage {
    var sessions: map<SessionKey, Meta>
    var messages: map<SessionKey, seq<Message>>

    constructor ()
      ensures sessions == map[] && messages == map[] && Valid()
    {
      sessions, messages := map[], map[];
    }

    /** Every session has its list. */
    ghost predicate Valid()
      reads this
    {
      sessions.Keys == messages.Keys
    }

    ghost function Books(): Registry
      reads this
    {
      Registry(sessions, messages)
    }

    ghost function At(key: SessionKey): Session
      requires Valid() && key in sessions
      reads this
    {
      Session(messages[key], sessions[key].activePath)
    }

    /** The state with one session's list and active message replaced. */
    twostate predicate Becomes(key: SessionKey, s: Session)
      requires key in old(sessions) && key in old(messages)
      reads this
    {
      && messages == old(messages)[key := s.messages]
      && sessions == old(sessions)[key := old(sessions)[key].(activePath := s.active)]
    }

    method CreateSession(key: SessionKey, meta: Meta) returns (r: Result<(), StorageError>)
      requires Valid()
      modifies this
      ensures Valid()
      ensures r.Err? <==> key in old(sessions)
      ensures r.Err? ==> sessions == old(sessions) && messages == old(messages)
      ensures r.Ok? ==> sessions == old(sessions)[key := meta] && messages == old(messages)[key := []]
    {
      if key in sessions {
        return Err(AlreadyExists);
      }
      sessions := sessions[key := meta];
      messages := messages[key := []];
      r := Ok(());
    }

    method AppendMessage(key: SessionKey, m: Message) returns (r: Result<(), StorageError>)
      requires Valid()
      modifies this
      ensures Valid()
      ensures r.Ok? <==> key in old(messages)
      ensures r.Ok? ==> messages == old(messages)[key := old(messages)[key] + [m]]
      ensures r.Err? ==> messages == old(messages)
      ensures sessions == old(sessions)
    {
      if key !in messages {
        return Err(SessionNotFound);
      }
      messages := messages[key := messages[key] + [m]];
      r := Ok(());
    }

    /** On a list with a cycle of parents the walk would not end. */
    method ReadPath(key: SessionKey) returns (r: Result<seq<Message>, StorageError>)
      requires Valid() && (key in messages ==> Acyclic(messages[key]))
      ensures r.Ok? <==> key in sessions
      ensures r.Ok? ==> r.value == Path(At(key))
    {
      if key !in messages {
        return Err(SessionNotFound);
      }
      var chain := ActiveChain(messages[key], sessions[key].activePath);
      r := Ok(chain);
    }

    method SetActivePath(key: SessionKey, to: Option<MessageId>) returns (r: Result<(), StorageError>)
      requires Valid()
      modifies this
      ensures Valid()
      ensures r.Ok? <==> key in old(sessions)
      ensures r.Ok? ==> sessions == old(sessions)[key := old(sessions)[key].(activePath := to)]
      ensures r.Err? ==> sessions == old(sessions)
      ensures messages == old(messages)
    {
      if key !in sessions {
        return Err(SessionNotFound);
      }
      sessions := sessions[key := sessions[key].(activePath := to)];
      r := Ok(());
    }

    method SetLastActivity(key: SessionKey, at: int) returns (r: Result<(), StorageError>)
      requires Valid()
      modifies this`sessions
      ensures Valid()
      ensures r.Ok? <==> key in old(sessions)
      ensures r.Ok? ==> sessions == old(sessions)[key := old(sessions)[key].(lastActivity := at)]
      ensures r.Err? ==> sessions == old(sessions)
    {
      if key !in sessions {
        return Err(SessionNotFound);
      }
      sessions := sessions[key := sessions[key].(lastActivity := at)];
      r := Ok(());
    }

    /** derive_branch: a user message on the active path is edited as a sibling copy. */
    method Derive(key: SessionKey, id: MessageId, text: string, newId: MessageId, now: int)
      returns (r: Result<seq<Message>, StorageError>)
      requires Valid() && (key in messages ==> Acyclic(messages[key]))
      modifies this
      ensures Valid()
      ensures key !in old(sessions) ==>
                r == Err(SessionNotFound) && sessions == old(sessions) && messages == old(messages)
      ensures key in old(sessions) ==>
                var (s, result) := DeriveBranch(old(At(key)), id, text, newId, now);
                && Becomes(key, s)
                && r == match result case Ok(p) => Ok(p) case Err(e) => Err(StorageError.Internal(e))
    {
      if key !in messages {
        return Err(SessionNotFound);
      }
      var chain := ActiveChain(messages[key], sessions[key].activePath);
      var at := Position(chain, id);
      if at == |chain| {
        assert messages == messages[key := messages[key]] && sessions == sessions[key := sessions[key]];
        return Err(StorageError.Internal(NotOnPath));
      }
      if !chain[at].kind.User? {
        assert messages == messages[key := messages[key]] && sessions == sessions[key := sessions[key]];
        return Err(StorageError.Internal(NotUser));
      }
      var copy := EditedCopy(chain[at], newId, text, now);
      messages := messages[key := messages[key] + [copy]];
      sessions := sessions[key := sessions[key].(activePath := Some(newId))];
      r := Ok(chain[..at] + [copy]);
    }

    method Switch(key: SessionKey, id: MessageId) returns (r: Result<seq<Message>, StorageError>)
      requires Valid() && (key in messages ==> Acyclic(messages[key]))
      modifies this
      ensures Valid()
      ensures key !in old(sessions) ==> r.Err? && sessions == old(sessions) && messages == old(messages)
      ensures key in old(sessions) ==>
                var (s, result) := SwitchBranch(old(At(key)), id);
                && Becomes(key, s)
                && r == match result case Ok(p) => Ok(p) case Err(e) => Err(StorageError.Internal(e))
    {
      var all := if key in messages then messages[key] else [];
      if !Stored(all, id) {
        assert key in messages ==>
          messages == messages[key := messages[key]] && sessions == sessions[key := sessions[key]];
        return Err(StorageError.Internal(NoSuchMessage));
      }
      var chain := ActiveChain(all, Some(id));
      sessions := sessions[key := sessions[key].(activePath := Some(id))];
      assert messages == messages[key := messages[key]];
      r := Ok(chain);
    }

    method SpliceCompaction(
        key: SessionKey, summary: Message, tailStart: MessageId) returns (r: Result<(), StorageError>)
      requires Valid()
      modifies this
      ensures Valid()
      ensures key !in old(sessions) ==>
                r == Err(SessionNotFound) && sessions == old(sessions) && messages == old(messages)
      ensures key in old(sessions) ==>
                var (s, result) := Splice(old(At(key)), summary, tailStart);
                && Becomes(key, s)
                && r == match result case Ok(u) => Ok(u) case Err(e) => Err(StorageError.Internal(e))
    {
      if key !in messages {
        return Err(SessionNotFound);
      }
      assert messages == messages[key := messages[key]] && sessions == sessions[key := sessions[key]];
      var k := Position(messages[key], tailStart);
      if k == |messages[key]| {
        return Err(StorageError.Internal(NoSuchTail));
      }
      messages := messages[key := Reparented(messages[key], k, summary.id) + [summary]];
      r := Ok(());
    }

    method Archive(key: SessionKey, now: int) returns (r: Result<(), StorageError>)
      requires Valid()
      modifies this`sessions
      ensures Valid()
      ensures r.Ok? <==> key in old(sessions)
      ensures r.Ok? ==> sessions == old(sessions)[key := Shut(old(sessions)[key], now)]
      ensures r.Err? ==> sessions == old(sessions)
    {
      if key !in sessions {
        return Err(SessionNotFound);
      }
      sessions := sessions[key := sessions[key].(status := Archived, archivedAt := Some(now))];
      r := Ok(());
    }

    method Activate(key: SessionKey) returns (r: Result<(), StorageError>)
      requires Valid()
      modifies this`sessions
      ensures Valid()
      ensures r.Ok? <==> key in old(sessions)
      ensures r.Ok? ==> sessions == old(sessions)[key := Unshut(old(sessions)[key])]
      ensures r.Err? ==> sessions == old(sessions)
    {
      if key !in sessions {
        return Err(SessionNotFound);
      }
      sessions := sessions[key := sessions[key].(status := Active, archivedAt := None)];
      r := Ok(());
    }

    method RemoveSession(key: SessionKey) returns (r: Result<(), StorageError>)
      requires Valid()
      modifies this
      ensures Valid()
      ensures r.Ok? <==> key in old(sessions)
      ensures sessions == old(sessions) - {key}
      ensures messages == old(messages) - {key}
    {
      r := if key in sessions then Ok(()) else Err(SessionNotFound);
      sessions := sessions - {key};
      messages := messages - {key};
    }
  }

  lemma {:induction false} NothingRefers(id: MessageId)
    ensures Fresh([], id)
  {
  }

  lemma {:induction false} EmptyIsGood()
    ensures Good([])
  {
    var rank := (id: MessageId) => 0;
    assert Ranked([], rank);
  }

  // ---------- What the scheduler does to the collections ----------

  function Shut(m: Meta, now: int): Meta {
    m.(status := Archived, archivedAt := Some(now))
  }

  function Unshut(m: Meta): Meta {
    m.(status := Active, archivedAt := None)
  }

  /** All active sessions archived. */
  function AllShut(sessions: map<SessionKey, Meta>, now: int): map<SessionKey, Meta> {
    map k | k in sessions :: if sessions[k].status == Active then Shut(sessions[k], now) else sessions[k]
  }

  function SessionOf(b: Registry, key: SessionKey): Session
    requires key in b.sessions && key in b.messages
  {
    Session(b.messages[key], b.sessions[key].activePath)
  }

  function Put(b: Registry, key: SessionKey, s: Session): Registry
    requires key in b.sessions
  {
    Registry(b.sessions[key := b.sessions[key].(activePath := s.active)], b.messages[key := s.messages])
  }

  function Created(b: Registry, key: SessionKey, now: int): Registry {
    Registry(b.sessions[key := Meta(Active, None, None, now)], b.messages[key := []])
  }

  /** A new session; `note` carries the summary of the one before over. */
  function Started(b: Registry, key: SessionKey, now: int, note: Option<Message>): Registry {
    var empty := Created(b.(sessions := AllShut(b.sessions, now)), key, now);
    if note.None? then empty else Put(empty, key, Session([note.value], Some(note.value.id)))
  }

  function Opened(b: Registry, key: SessionKey, now: int): Registry {
    if key !in b.sessions then b else
      var shut := AllShut(b.sessions, now);
      b.(sessions := shut[key := Unshut(shut[key])])
  }

  /** An active session, if there is one. */
  ghost predicate IsActive(sessions: map<SessionKey, Meta>, pick: Option<SessionKey>) {
    match pick
    case None => forall k :: k in sessions ==> sessions[k].status != Active
    case Some(k) => k in sessions && sessions[k].status == Active
  }

  /** The collections in which a message of the user is stored: a new session if none is active. */
  function Ready(b: Registry, pick: Option<SessionKey>, newKey: SessionKey, now: int): Registry
    requires pick.Some? ==> pick.value in b.sessions
  {
    if pick.None? then Created(b, newKey, now)
    else b.(sessions := b.sessions[pick.value := b.sessions[pick.value].(lastActivity := now)])
  }

  ghost predicate Trees(messages: map<SessionKey, seq<Message>>) {
    forall k :: k in messages ==> Good(messages[k])
  }

  ghost predicate NewTo(messages: map<SessionKey, seq<Message>>, id: MessageId) {
    forall k :: k in messages ==> Fresh(messages[k], id)
  }

  ghost function Received(b: Registry, pick: Option<SessionKey>, newKey: SessionKey, now: int, user: Message): Registry
    requires pick.Some? ==> pick.value in b.sessions && pick.value in b.messages && Acyclic(b.messages[pick.value])
  {
    EmptyIsGood();
    var key := if pick.Some? then pick.value else newKey;
    var ready := Ready(b, pick, newKey, now);
    Put(ready, key, WithUser(SessionOf(ready, key), user))
  }

  /** A user message appended below the end of the active path. */
  ghost function WithUser(s: Session, user: Message): Session
    requires Acyclic(s.messages)
  {
    var path := Path(s);
    var parent := if path == [] then None else Some(path[|path| - 1].id);
    Session(s.messages + [user.(parent := parent)], Some(user.id))
  }

  /** The new path is the old one with the user message at its end, whenever the old path is one that
      ends at a stored active message; this is what a turn starts from. */
  lemma {:induction false} UserExtendsPath(s: Session, user: Message)
    requires Good(s.messages) && Fresh(s.messages, user.id)
    requires s.messages == [] || (s.active.Some? && Stored(s.messages, s.active.value))
    ensures var t := WithUser(s, user);
            && Good(t.messages) && t.active == Some(user.id) && Stored(t.messages, user.id)
            && |Path(t)| == |Path(s)| + 1 && Path(t)[..|Path(s)|] == Path(s)
            && var m := Path(t)[|Path(s)|];
            && t.messages == s.messages + [m]
            && m.id == user.id && m.kind == user.kind && m.createdAt == user.createdAt
            && m.parent == if Path(s) == [] then None else Some(Path(s)[|Path(s)| - 1].id)
  {
    var path := Path(s);
    var t := WithUser(s, user);
    var m := t.messages[|s.messages|];
    if path != [] {
      PathMember(s, path[|path| - 1]);
    }
    AppendKeepsGood(s.messages, m);
    if s.messages == [] {
      FindSnoc([], m, m.id);
      assert t.messages == [] + [m] && IsChain(t.messages, [m], m.id);
      PathIs(t.messages, [m], m.id);
    } else {
      ChainExtends(s.messages, m, path, s.active.value);
      PathIs(t.messages, path + [m], m.id);
    }
  }

  lemma {:induction false} UserIsLegal(s: Session, user: Message)
    requires Good(s.messages) && Fresh(s.messages, user.id)
    ensures CanStep(s, AppendOp(WithUser(s, user).messages[|s.messages|]))
    ensures Good(WithUser(s, user).messages)
  {
    var path := Path(s);
    var m := WithUser(s, user).messages[|s.messages|];
    if path != [] {
      PathMember(s, path[|path| - 1]);
    }
    AppendKeepsGood(s.messages, m);
  }

  class SessionScheduler {
    const store: MemoryStorage

    constructor (store: MemoryStorage)
      ensures this.store == store
    {
      this.store := store;
    }

    /** archive_all_active */
    method ArchiveAllActive(now: int)
      requires store.Valid()
      modifies store`sessions
      ensures store.Valid() && store.sessions == AllShut(old(store.sessions), now)
    {
      var todo := set k | k in store.sessions && store.sessions[k].status == Active;
      while todo != {}
        invariant store.Valid() && todo <= old(store.sessions).Keys == store.sessions.Keys
        invariant forall k :: k in todo ==> old(store.sessions)[k].status == Active
        invariant forall k :: k in store.sessions ==>
          store.sessions[k]
          == if k in todo || old(store.sessions)[k].status != Active then old(store.sessions)[k]
             else Shut(old(store.sessions)[k], now)
        decreases |todo|
      {
        var key :| key in todo;
        var _ := store.Archive(key, now);
        todo := todo - {key};
      }
    }

    method FindActive() returns (pick: Option<SessionKey>)
      ensures IsActive(store.sessions, pick)
    {
      var active := set k | k in store.sessions && store.sessions[k].status == Active;
      pick := None;
      assert forall k :: k in store.sessions && store.sessions[k].status == Active ==> k in active;
      if active != {} {
        var k :| k in active;
        pick := Some(k);
      }
    }

    /** Append a message and make it the end of the active path. */
    method AppendAndActivate(key: SessionKey, m: Message)
      requires store.Valid() && key in store.sessions
      modifies store
      ensures store.Valid()
      ensures store.Books() == Put(old(store.Books()), key, Session(old(store.messages)[key] + [m], Some(m.id)))
    {
      var _ := store.AppendMessage(key, m);
      var _ := store.SetActivePath(key, Some(m.id));
    }

    /** create_new_session: when asked to, the summary of an active session is carried over. */
    method CreateNewSession(
        key: SessionKey, now: int, carry: bool, summarize: seq<Message> -> string, noteId: MessageId)
      returns (archived: Option<SessionKey>, attached: bool)
      requires store.Valid() && key !in store.sessions
      modifies store
      ensures store.Valid() && IsActive(old(store.sessions), archived)
      ensures var note := HandoffOf(old(store.Books()), archived, carry, summarize, noteId, now);
              attached == note.Some? && store.Books() == Started(old(store.Books()), key, now, note)
    {
      archived := FindActive();
      var handoff := None;
      if carry && archived.Some? {
        var all := store.messages[archived.value];
        if all != [] {
          var text := summarize(all);
          if Trim(text) != "" {
            handoff := Some(text);
          }
        }
      }
      ArchiveAllActive(now);
      var _ := store.CreateSession(key, Meta(Active, None, None, now));
      attached := handoff.Some?;
      if attached {
        var note := Message(noteId, None, System(HANDOFF_PREFIX + handoff.value, None), now);
        AppendAndActivate(key, note);
        assert [] + [note] == [note];
      }
    }

    /** open_existing */
    method OpenExisting(key: SessionKey, now: int) returns (found: bool)
      requires store.Valid()
      modifies store`sessions
      ensures store.Valid() && found == (key in old(store.sessions))
      ensures store.Books() == Opened(old(store.Books()), key, now)
    {
      found := key in store.sessions;
      if found {
        ArchiveAllActive(now);
        var _ := store.Activate(key);
      }
    }

    /** continue_in and append_user: the user message is stored below the active path and becomes its end. */
    method AppendUser(key: SessionKey, user: Message) returns (path: seq<Message>)
      requires store.Valid() && key in store.sessions
      requires Good(store.messages[key]) && Fresh(store.messages[key], user.id)
      modifies store
      ensures store.Valid()
      ensures var s := WithUser(old(store.At(key)), user);
              Good(s.messages) && store.Books() == Put(old(store.Books()), key, s) && path == Path(s)
    {
      ghost var s := store.At(key);
      UserIsLegal(s, user);
      var before := store.ReadPath(key);
      var parent := if before.value == [] then None else Some(before.value[|before.value| - 1].id);
      hide Good, Path, Fresh;
      var m := user.(parent := parent);
      AppendAndActivate(key, m);
      assert store.At(key) == WithUser(s, user);
      var after := store.ReadPath(key);
      path := after.value;
    }

    /** on_new_message: the message goes to the active session, or to a new one when none is active. */
    method OnNewMessage(user: Message, newKey: SessionKey, now: int)
      returns (pick: Option<SessionKey>, path: seq<Message>)
      requires store.Valid() && newKey !in store.sessions
      requires Trees(store.messages) && NewTo(store.messages, user.id)
      modifies store
      ensures store.Valid() && IsActive(old(store.sessions), pick)
      ensures Trees(old(store.messages)) && store.Books() == Received(old(store.Books()), pick, newKey, now, user)
      ensures var key := if pick.Some? then pick.value else newKey;
              && key in store.messages && Good(store.messages[key]) && path == Path(SessionOf(store.Books(), key))
    {
      pick := FindActive();
      EmptyIsGood();
      NothingRefers(user.id);
      hide Good, Fresh, Path;
      var key := if pick.Some? then pick.value else newKey;
      if pick.Some? {
        var _ := store.SetLastActivity(key, now);
      } else {
        var _ := store.CreateSession(key, Meta(Active, None, None, now));
      }
      assert store.Books() == Ready(old(store.Books()), pick, newKey, now);
      path := AppendUser(key, user);
    }
  }

  const HANDOFF_PREFIX: string := "\U{4E0A}\U{4E00}\U{4F1A}\U{8BDD}\U{6897}\U{6982}\U{FF1A}"

  /** The note that carries a session over: none unless asked for, and none for an empty summary. */
  function HandoffOf(
      b: Registry, from: Option<SessionKey>, carry: bool, summarize: seq<Message> -> string, id: MessageId, now: int)
    : Option<Message>
    requires from.Some? ==> from.value in b.messages
  {
    if carry && from.Some? && b.messages[from.value] != [] && Trim(summarize(b.messages[from.value])) != ""
    then Some(Message(id, None, System(HANDOFF_PREFIX + summarize(b.messages[from.value]), None), now)) else None
  }

  // ---------- Every run keeps a single active session ----------

  ghost predicate AtMostOneActive(sessions: map<SessionKey, Meta>) {
    forall a, b ::
      a in sessions && b in sessions && sessions[a].status == Active && sessions[b].status == Active ==> a == b
  }

  /** Lists are trees, one session at most is active, and exactly the archived ones bear a time. */
  ghost predicate Sound(b: Registry) {
    && b.sessions.Keys == b.messages.Keys
    && Trees(b.messages)
    && AtMostOneActive(b.sessions)
    && forall k :: k in b.sessions ==> (b.sessions[k].status == Active <==> b.sessions[k].archivedAt.None?)
  }

  /** What may happen to the store; TreeEvent covers appending, branching, switching, splicing and moving
      the active path, and so the commit of a turn. */
  datatype Event =
    | MessageEvent(pick: Option<SessionKey>, user: Message, newKey: SessionKey, now: int)
    | NewSessionEvent(key: SessionKey, now: int, note: Option<Message>)
    | OpenEvent(key: SessionKey, now: int)
    | TreeEvent(key: SessionKey, op: Op)
    | ArchiveEvent(key: SessionKey, now: int)
    | RemoveEvent(key: SessionKey)

  ghost predicate CanHappen(b: Registry, e: Event) {
    match e
    case MessageEvent(pick, user, newKey, _) =>
      && IsActive(b.sessions, pick) && newKey !in b.sessions
      && (pick.Some? && pick.value in b.messages ==> Fresh(b.messages[pick.value], user.id))
    case NewSessionEvent(key, _, note) => key !in b.sessions && (note.Some? ==> note.value.parent.None?)
    case OpenEvent(_, _) => true
    case TreeEvent(key, op) =>
      key in b.sessions && key in b.messages && Good(b.messages[key]) && CanStep(SessionOf(b, key), op)
    case ArchiveEvent(key, _) => key in b.sessions
    case RemoveEvent(_) => true
  }

  ghost function Happen(b: Registry, e: Event): Registry
    requires Sound(b) && CanHappen(b, e)
  {
    match e
    case MessageEvent(pick, user, newKey, now) => Received(b, pick, newKey, now, user)
    case NewSessionEvent(key, now, note) => Started(b, key, now, note)
    case OpenEvent(key, now) => Opened(b, key, now)
    case TreeEvent(key, op) => Put(b, key, Step(SessionOf(b, key), op))
    case ArchiveEvent(key, now) => b.(sessions := b.sessions[key := Shut(b.sessions[key], now)])
    case RemoveEvent(key) => Registry(b.sessions - {key}, b.messages - {key})
  }

  lemma {:induction false} PutKeepsSound(b: Registry, key: SessionKey, s: Session)
    requires Sound(b) && key in b.sessions && Good(s.messages)
    ensures Sound(Put(b, key, s))
  {
    hide Good;
  }

  lemma {:induction false} CreatedIsSound(b: Registry, key: SessionKey, now: int)
    requires Sound(b) && key !in b.sessions && IsActive(b.sessions, None)
    ensures Sound(Created(b, key, now))
  {
    EmptyIsGood();
    hide Good;
  }

  lemma {:induction false} ShutIsSound(b: Registry, now: int)
    requires Sound(b)
    ensures Sound(b.(sessions := AllShut(b.sessions, now))) && IsActive(AllShut(b.sessions, now), None)
  {
    hide Good;
  }

  lemma {:induction false} RootIsGood(m: Message)
    requires m.parent.None?
    ensures Good([m])
  {
    EmptyIsGood();
    NothingRefers(m.id);
    AppendKeepsGood([], m);
    assert [] + [m] == [m];
  }

  lemma {:induction false} MessageKeepsSound(
      b: Registry, pick: Option<SessionKey>, user: Message, newKey: SessionKey, now: int)
    requires Sound(b) && CanHappen(b, MessageEvent(pick, user, newKey, now))
    ensures Sound(Received(b, pick, newKey, now, user))
  {
    EmptyIsGood();
    NothingRefers(user.id);
    var key := if pick.Some? then pick.value else newKey;
    var ready := Ready(b, pick, newKey, now);
    assert key in ready.messages && Good(ready.messages[key]) && Fresh(ready.messages[key], user.id);
    UserIsLegal(SessionOf(ready, key), user);
    hide Good, Fresh, WithUser;
    if pick.None? {
      CreatedIsSound(b, newKey, now);
    }
    PutKeepsSound(ready, key, WithUser(SessionOf(ready, key), user));
  }

  lemma {:induction false} EventKeepsSound(b: Registry, e: Event)
    requires Sound(b) && CanHappen(b, e)
    ensures Sound(Happen(b, e))
  {
    match e {
      case MessageEvent(pick, user, newKey, now) => MessageKeepsSound(b, pick, user, newKey, now);
      case NewSessionEvent(key, now, note) =>
        var shut := b.(sessions := AllShut(b.sessions, now));
        ShutIsSound(b, now);
        CreatedIsSound(shut, key, now);
        if note.Some? {
          RootIsGood(note.value);
          PutKeepsSound(Created(shut, key, now), key, Session([note.value], Some(note.value.id)));
        }
      case OpenEvent(key, now) =>
        ShutIsSound(b, now);
        OpenedIsSound(b, key, now);
      case TreeEvent(key, op) =>
        StepKeepsGood(SessionOf(b, key), op);
        PutKeepsSound(b, key, Step(SessionOf(b, key), op));
      case ArchiveEvent(key, now) => ArchivedIsSound(b, key, now);
      case RemoveEvent(key) =>
    }
  }

  lemma {:induction false} OpenedIsSound(b: Registry, key: SessionKey, now: int)
    requires Sound(b)
    ensures Sound(Opened(b, key, now))
  {
    hide Good;
  }

  lemma {:induction false} ArchivedIsSound(b: Registry, key: SessionKey, now: int)
    requires Sound(b) && key in b.sessions
    ensures Sound(b.(sessions := b.sessions[key := Shut(b.sessions[key], now)]))
  {
    hide Good;
  }

  ghost predicate CanHappenAll(b: Registry, events: seq<Event>)
    requires Sound(b)
    decreases |events|
  {
    events != [] ==>
      CanHappen(b, events[0])
      && (EventKeepsSound(b, events[0]); CanHappenAll(Happen(b, events[0]), events[1..]))
  }

  ghost function HappenAll(b: Registry, events: seq<Event>): Registry
    requires Sound(b) && CanHappenAll(b, events)
    decreases |events|
  {
    if events == [] then b else
      EventKeepsSound(b, events[0]);
      HappenAll(Happen(b, events[0]), events[1..])
  }

  /** A store begins empty. */
  lemma {:induction false} EmptyStoreIsSound()
    ensures Sound(Registry(map[], map[]))
  {
  }

  /** Over every run of messages, new and opened sessions, branches, commits, archiving and removals, at
      most one session is active, exactly the archived sessions bear the time of archiving, and every list
      stays a tree. */
  lemma {:induction false} OneActiveSession(b: Registry, events: seq<Event>)
    requires Sound(b) && CanHappenAll(b, events)
    ensures Sound(HappenAll(b, events))
    decreases |events|
  {
    if events != [] {
      EventKeepsSound(b, events[0]);
      OneActiveSession(Happen(b, events[0]), events[1..]);
    }
  }

  ghost function EmptyStore(): (b: Registry)
    ensures Sound(b)
  {
    EmptyStoreIsSound();
    Registry(map[], map[])
  }

  /** So every store that began empty has at most one active session. */
  lemma {:induction false} StoresHaveOneActive(events: seq<Event>)
    requires CanHappenAll(EmptyStore(), events)
    ensures AtMostOneActive(HappenAll(EmptyStore(), events).sessions)
  {
    OneActiveSession(EmptyStore(), events);
  }
}
