/** How the agent loop assembles messages and tool calls from the chunks of a model stream
    (src/kernel/agent/loop_mod/mod.rs). */
module StreamAssembly {
  import opened Basics
  import opened Messages

  datatype ItemKind = MessageItem | FunctionCallItem | ReasoningItem

  datatype Chunk =
    | TextDelta(text: string)
    | ReasoningDelta(text: string)
    | ReasoningItemStart(id: string)
    | ToolCallStart(index: nat, callId: string, name: string)
    | ToolCallDelta(index: nat, data: string)
    | ItemDone(kind: ItemKind)
    | Usage
    | Done
    | StreamError(systemic: bool)

  datatype Call = Call(name: string, arguments: string, callId: string)

  // ---------- Assembling a stream ----------

  datatype Bubble = Bubble(id: MessageId, text: string)

  datatype Thought = Thought(id: MessageId, reasoningId: string, text: string)

  /** The loop variables while a stream is read; message ids are taken from a counter. */
  datatype Assembly = Assembly(
    conversation: seq<Message>, bubble: Option<Bubble>, thought: Option<Thought>,
    calls: map<nat, Call>, done: seq<Call>, next: MessageId)

  /** append_to_path: the message hangs below the last one. */
  function Below(conversation: seq<Message>, id: MessageId, kind: MessageKind, at: int): seq<Message> {
    var parent := if conversation == [] then None else Some(conversation[|conversation| - 1].id);
    conversation + [Message(id, parent, kind, at)]
  }

  function KeyFrom(m: map<nat, Call>, k: nat, top: nat): (r: nat)
    requires k <= top && top in m && forall j :: j in m ==> k <= j
    ensures r in m && forall j :: j in m ==> r <= j
    decreases top - k
  {
    if k in m then k else KeyFrom(m, k + 1, top)
  }

  /** The smallest key of a non-empty map: what BTreeMap::pop_first takes. */
  ghost function FirstKey(m: map<nat, Call>): (r: nat)
    requires m != map[]
    ensures r in m && forall j :: j in m ==> r <= j
  {
    var top :| top in m;
    KeyFrom(m, 0, top)
  }

  function AddText(a: Assembly, delta: string): Assembly {
    if a.bubble.None? then a.(bubble := Some(Bubble(a.next, delta)), next := a.next + 1)
    else a.(bubble := Some(a.bubble.value.(text := a.bubble.value.text + delta)))
  }

  /** A delta that arrives before its reasoning item opens one under an id of its own. */
  function AddReasoning(a: Assembly, delta: string, ownId: string): Assembly {
    if a.thought.None? then a.(thought := Some(Thought(a.next, ownId, delta)), next := a.next + 1)
    else a.(thought := Some(a.thought.value.(text := a.thought.value.text + delta)))
  }

  function StartReasoning(a: Assembly, id: string): Assembly {
    if a.thought.None? then a.(thought := Some(Thought(a.next, id, "")), next := a.next + 1)
    else a.(thought := Some(a.thought.value.(reasoningId := id)))
  }

  /** A finished message item is kept unless it is empty. */
  function CloseBubble(a: Assembly, clock: MessageId -> int): Assembly {
    if a.bubble.None? then a
    else
      var b := a.bubble.value;
      if b.text == "" then a.(bubble := None)
      else a.(bubble := None, conversation := Below(a.conversation, b.id, MessageKind.Assistant(b.text), clock(b.id)))
  }

  /** A finished reasoning item is kept even when it is empty. */
  function CloseThought(a: Assembly, clock: MessageId -> int): Assembly {
    if a.thought.None? then a
    else
      var t := a.thought.value;
      a.(thought := None,
         conversation := Below(a.conversation, t.id, MessageKind.Reasoning(t.reasoningId, t.text), clock(t.id)))
  }

  ghost function CloseCall(a: Assembly): Assembly {
    if a.calls == map[] then a
    else
      var k := FirstKey(a.calls);
      a.(done := a.done + [a.calls[k]], calls := a.calls - {k})
  }

  /** What one chunk other than the end of the stream does; `ownId` prints a message id. */
  ghost function Take(a: Assembly, chunk: Chunk, clock: MessageId -> int, ownId: MessageId -> string): Assembly {
    match chunk
    case TextDelta(text) => AddText(a, text)
    case ReasoningDelta(text) => AddReasoning(a, text, ownId(a.next))
    case ReasoningItemStart(id) => StartReasoning(a, id)
    case ToolCallStart(index, callId, name) => a.(calls := a.calls[index := Call(name, "", callId)])
    case ToolCallDelta(index, data) =>
      if index in a.calls
      then a.(calls := a.calls[index := a.calls[index].(arguments := a.calls[index].arguments + data)]) else a
    case ItemDone(MessageItem) => CloseBubble(a, clock)
    case ItemDone(ReasoningItem) => CloseThought(a, clock)
    case ItemDone(FunctionCallItem) => CloseCall(a)
    case Usage => a
    case Done => a
    case StreamError(_) => a
  }

  datatype StreamEnd = Complete | Broken(systemic: bool)

  ghost function Assemble(a: Assembly, chunks: seq<Chunk>, clock: MessageId -> int, ownId: MessageId -> string)
    : (Assembly, StreamEnd)
    decreases |chunks|
  {
    if chunks == [] || chunks[0].Done? then (a, Complete)
    else if chunks[0].StreamError? then (a, Broken(chunks[0].systemic))
    else Assemble(Take(a, chunks[0], clock, ownId), chunks[1..], clock, ownId)
  }

  /** No failure comes before the end of the stream. */
  predicate Completes(chunks: seq<Chunk>) {
    forall i :: 0 <= i < |chunks| && chunks[i].StreamError? ==> exists j :: 0 <= j < i && chunks[j].Done?
  }

  /** The first thing to end the stream is this failure. */
  predicate Fails(chunks: seq<Chunk>, systemic: bool) {
    exists i :: 0 <= i < |chunks| && chunks[i] == StreamError(systemic)
                && forall j :: 0 <= j < i ==> !chunks[j].Done? && !chunks[j].StreamError?
  }

  /** Reading comes to the end that the chunks give, whatever has been assembled. */
  lemma {:induction false} EndIs(
      a: Assembly, chunks: seq<Chunk>, clock: MessageId -> int, ownId: MessageId -> string)
    ensures var end := Assemble(a, chunks, clock, ownId).1;
            && (end == Complete <==> Completes(chunks))
            && forall systemic :: end == Broken(systemic) <==> Fails(chunks, systemic)
    decreases |chunks|
  {
    if chunks != [] && !chunks[0].Done? && !chunks[0].StreamError? {
      var rest := chunks[1..];
      EndIs(Take(a, chunks[0], clock, ownId), rest, clock, ownId);
      hide Take;
      LaterEnd(chunks);
    } else if chunks != [] {
      FirstEnds(chunks);
    }
  }

  lemma {:induction false} LaterEnd(chunks: seq<Chunk>)
    requires chunks != [] && !chunks[0].Done? && !chunks[0].StreamError?
    ensures Completes(chunks) <==> Completes(chunks[1..])
    ensures forall systemic :: Fails(chunks, systemic) <==> Fails(chunks[1..], systemic)
  {
    var rest := chunks[1..];
    if Completes(rest) {
      forall i | 0 <= i < |chunks| && chunks[i].StreamError? ensures exists j :: 0 <= j < i && chunks[j].Done? {
        assert rest[i - 1].StreamError?;
        var j :| 0 <= j < i - 1 && rest[j].Done?;
        assert chunks[j + 1].Done?;
      }
    }
    if Completes(chunks) {
      forall i | 0 <= i < |rest| && rest[i].StreamError? ensures exists j :: 0 <= j < i && rest[j].Done? {
        assert chunks[i + 1].StreamError?;
        var j :| 0 <= j < i + 1 && chunks[j].Done?;
        assert rest[j - 1].Done?;
      }
    }
    forall systemic ensures Fails(chunks, systemic) <==> Fails(rest, systemic) {
      if Fails(rest, systemic) {
        var i :| 0 <= i < |rest| && rest[i] == StreamError(systemic)
                 && forall j :: 0 <= j < i ==> !rest[j].Done? && !rest[j].StreamError?;
        assert chunks[i + 1] == StreamError(systemic);
        forall j | 0 <= j < i + 1 ensures !chunks[j].Done? && !chunks[j].StreamError? {
          assert j > 0 ==> chunks[j] == rest[j - 1];
        }
      }
      if Fails(chunks, systemic) {
        var i :| 0 <= i < |chunks| && chunks[i] == StreamError(systemic)
                 && forall j :: 0 <= j < i ==> !chunks[j].Done? && !chunks[j].StreamError?;
        assert rest[i - 1] == StreamError(systemic);
        assert forall j :: 0 <= j < i - 1 ==> rest[j] == chunks[j + 1];
      }
    }
  }

  lemma {:induction false} FirstEnds(chunks: seq<Chunk>)
    requires chunks != [] && (chunks[0].Done? || chunks[0].StreamError?)
    ensures Completes(chunks) <==> chunks[0].Done?
    ensures forall systemic :: Fails(chunks, systemic) <==> chunks[0] == StreamError(systemic)
  {
  }

  /** The calls of a stream depend on nothing but the stream. */
  lemma {:induction false} CallsDependOnChunks(
      a: Assembly, b: Assembly, chunks: seq<Chunk>, clock: MessageId -> int, ownId: MessageId -> string)
    requires a.calls == b.calls && a.done == b.done
    ensures Assemble(a, chunks, clock, ownId).0.done == Assemble(b, chunks, clock, ownId).0.done
    decreases |chunks|
  {
    if chunks != [] && !chunks[0].Done? && !chunks[0].StreamError? {
      hide Below, FirstKey;
      CallsDependOnChunks(Take(a, chunks[0], clock, ownId), Take(b, chunks[0], clock, ownId), chunks[1..], clock,
        ownId);
    }
  }

  // ---------- Which messages a stream writes ----------

  /** The chunks before the end of the stream. */
  function Before(chunks: seq<Chunk>): (r: seq<Chunk>)
    ensures forall i :: 0 <= i < |r| ==> !Ends(r[i])
  {
    if chunks == [] || Ends(chunks[0]) then [] else [chunks[0]] + Before(chunks[1..])
  }

  /** The text sent since a message was last finished. */
  function TextSince(chunks: seq<Chunk>): string {
    if chunks == [] || chunks[|chunks| - 1] == ItemDone(MessageItem) then "" else
      var last := chunks[|chunks| - 1];
      TextSince(chunks[..|chunks| - 1]) + if last.TextDelta? then last.text else ""
  }

  /** The reasoning sent since a reasoning item was last finished. */
  function ReasoningSince(chunks: seq<Chunk>): string {
    if chunks == [] || chunks[|chunks| - 1] == ItemDone(ReasoningItem) then "" else
      var last := chunks[|chunks| - 1];
      ReasoningSince(chunks[..|chunks| - 1]) + if last.ReasoningDelta? then last.text else ""
  }

  /** The id announced last since a reasoning item was last finished. */
  function IdSince(chunks: seq<Chunk>): Option<string> {
    if chunks == [] || chunks[|chunks| - 1] == ItemDone(ReasoningItem) then None
    else if chunks[|chunks| - 1].ReasoningItemStart? then Some(chunks[|chunks| - 1].id)
    else IdSince(chunks[..|chunks| - 1])
  }

  /** A reasoning item has been announced or has begun to arrive since the last one was finished. */
  predicate ReasoningOpen(chunks: seq<Chunk>) {
    exists i :: 0 <= i < |chunks| && (chunks[i].ReasoningItemStart? || chunks[i].ReasoningDelta?)
                && forall j :: i < j < |chunks| ==> chunks[j] != ItemDone(ReasoningItem)
  }

  datatype Item = Text(text: string) | Thinking(id: Option<string>, text: string)

  /** The items that the stream finishes: the texts that are not empty, and the reasoning. */
  ghost function Items(chunks: seq<Chunk>): seq<Item> {
    if chunks == [] then [] else
      var before := chunks[..|chunks| - 1];
      Items(before) + match chunks[|chunks| - 1]
        case ItemDone(MessageItem) => if TextSince(before) == "" then [] else [Text(TextSince(before))]
        case ItemDone(ReasoningItem) =>
          if ReasoningOpen(before) then [Thinking(IdSince(before), ReasoningSince(before))] else []
        case _ => []
  }

  /** Reasoning that no id was announced for goes by the id of its message. */
  predicate Writes(m: Message, item: Item, ownId: MessageId -> string) {
    m.kind == match item
      case Text(text) => MessageKind.Assistant(text)
      case Thinking(id, text) => MessageKind.Reasoning(if id.Some? then id.value else ownId(m.id), text)
  }

  ghost predicate WritesAll(ms: seq<Message>, items: seq<Item>, ownId: MessageId -> string) {
    |ms| == |items| && forall i :: 0 <= i < |ms| ==> Writes(ms[i], items[i], ownId)
  }

  /** What is open, and what has been appended, after these chunks. */
  ghost predicate Holds(a: Assembly, b: Assembly, chunks: seq<Chunk>, ownId: MessageId -> string) {
    HoldsText(b.bubble, chunks) && HoldsThought(b.thought, chunks, ownId) && HoldsMessages(a, b, chunks, ownId)
  }

  ghost predicate HoldsMessages(a: Assembly, b: Assembly, chunks: seq<Chunk>, ownId: MessageId -> string) {
    && |a.conversation| <= |b.conversation| && b.conversation[..|a.conversation|] == a.conversation
    && WritesAll(b.conversation[|a.conversation|..], Items(chunks), ownId)
  }

  predicate HoldsText(bubble: Option<Bubble>, chunks: seq<Chunk>) {
    if bubble.Some? then bubble.value.text == TextSince(chunks) else TextSince(chunks) == ""
  }

  ghost predicate HoldsThought(thought: Option<Thought>, chunks: seq<Chunk>, ownId: MessageId -> string) {
    && (thought.Some? <==> ReasoningOpen(chunks))
    && if thought.Some? then
         && thought.value.text == ReasoningSince(chunks)
         && thought.value.reasoningId
            == if IdSince(chunks).Some? then IdSince(chunks).value else ownId(thought.value.id)
       else ReasoningSince(chunks) == "" && IdSince(chunks) == None
  }

  lemma {:induction false} AssembleSnoc(
      a: Assembly, chunks: seq<Chunk>, chunk: Chunk, clock: MessageId -> int, ownId: MessageId -> string)
    requires !Ends(chunk) && forall i :: 0 <= i < |chunks| ==> !Ends(chunks[i])
    ensures Assemble(a, chunks + [chunk], clock, ownId).0
         == Take(Assemble(a, chunks, clock, ownId).0, chunk, clock, ownId)
    decreases |chunks|
  {
    var all := chunks + [chunk];
    hide Take;
    if chunks == [] {
      assert all[0] == chunk && all[1..] == [];
    } else {
      assert all[0] == chunks[0] && all[1..] == chunks[1..] + [chunk];
      AssembleSnoc(Take(a, chunks[0], clock, ownId), chunks[1..], chunk, clock, ownId);
    }
  }

  lemma {:induction false} OpenSnoc(chunks: seq<Chunk>, chunk: Chunk)
    ensures ReasoningOpen(chunks + [chunk])
         <==> chunk.ReasoningItemStart? || chunk.ReasoningDelta?
              || (ReasoningOpen(chunks) && chunk != ItemDone(ReasoningItem))
  {
    var all := chunks + [chunk];
    if chunk.ReasoningItemStart? || chunk.ReasoningDelta? {
      assert all[|chunks|] == chunk;
    } else if ReasoningOpen(chunks) && chunk != ItemDone(ReasoningItem) {
      var i :| 0 <= i < |chunks| && (chunks[i].ReasoningItemStart? || chunks[i].ReasoningDelta?)
               && forall j :: i < j < |chunks| ==> chunks[j] != ItemDone(ReasoningItem);
      assert all[i] == chunks[i];
    } else {
      assert forall j :: 0 <= j < |chunks| ==> chunks[j] == all[j];
      assert all[|chunks|] == chunk;
    }
  }

  lemma {:induction false} SinceSnoc(chunks: seq<Chunk>, chunk: Chunk)
    ensures TextSince(chunks + [chunk])
         == if chunk == ItemDone(MessageItem) then ""
            else TextSince(chunks) + if chunk.TextDelta? then chunk.text else ""
    ensures ReasoningSince(chunks + [chunk])
         == if chunk == ItemDone(ReasoningItem) then ""
            else ReasoningSince(chunks) + if chunk.ReasoningDelta? then chunk.text else ""
    ensures IdSince(chunks + [chunk])
         == if chunk == ItemDone(ReasoningItem) then None
            else if chunk.ReasoningItemStart? then Some(chunk.id) else IdSince(chunks)
  {
    assert (chunks + [chunk])[..|chunks|] == chunks;
  }

  lemma {:induction false} ItemsSnoc(chunks: seq<Chunk>, chunk: Chunk)
    ensures Items(chunks + [chunk])
         == Items(chunks) +
            if chunk == ItemDone(MessageItem) && TextSince(chunks) != "" then [Text(TextSince(chunks))]
            else if chunk == ItemDone(ReasoningItem) && ReasoningOpen(chunks)
            then [Thinking(IdSince(chunks), ReasoningSince(chunks))] else []
  {
    assert (chunks + [chunk])[..|chunks|] == chunks;
    hide TextSince, ReasoningSince, IdSince, ReasoningOpen;
  }

  /** What one chunk does to the reasoning and to the bubble, and what it appends. */
  lemma {:induction false} TakeEffects(
      b: Assembly, chunk: Chunk, clock: MessageId -> int, ownId: MessageId -> string)
    requires !Ends(chunk)
    ensures var c := Take(b, chunk, clock, ownId);
            && c.thought == (if chunk == ItemDone(ReasoningItem) then None
                             else if chunk.ReasoningDelta? then AddReasoning(b, chunk.text, ownId(b.next)).thought
                             else if chunk.ReasoningItemStart? then StartReasoning(b, chunk.id).thought
                             else b.thought)
            && c.bubble == (if chunk == ItemDone(MessageItem) then None
                            else if chunk.TextDelta? then AddText(b, chunk.text).bubble else b.bubble)
            && c.conversation == (if chunk == ItemDone(MessageItem) then CloseBubble(b, clock).conversation
                                  else if chunk == ItemDone(ReasoningItem) then CloseThought(b, clock).conversation
                                  else b.conversation)
  {
  }

  lemma {:induction false} ThoughtHolds(
      b: Assembly, chunks: seq<Chunk>, chunk: Chunk, clock: MessageId -> int, ownId: MessageId -> string)
    requires HoldsThought(b.thought, chunks, ownId) && !Ends(chunk)
    ensures HoldsThought(Take(b, chunk, clock, ownId).thought, chunks + [chunk], ownId)
  {
    OpenSnoc(chunks, chunk);
    SinceSnoc(chunks, chunk);
    TakeEffects(b, chunk, clock, ownId);
    hide TextSince, ReasoningSince, IdSince, ReasoningOpen, Take;
    var all := chunks + [chunk];
    assert ReasoningSince(chunks) + "" == ReasoningSince(chunks);
    if chunk.ReasoningDelta? {
      assert "" + chunk.text == chunk.text;
    }
  }

  lemma {:induction false} TextHolds(
      b: Assembly, chunks: seq<Chunk>, chunk: Chunk, clock: MessageId -> int, ownId: MessageId -> string)
    requires HoldsText(b.bubble, chunks) && !Ends(chunk)
    ensures HoldsText(Take(b, chunk, clock, ownId).bubble, chunks + [chunk])
  {
    SinceSnoc(chunks, chunk);
    TakeEffects(b, chunk, clock, ownId);
    hide TextSince, ReasoningSince, IdSince, Take;
    assert TextSince(chunks) + "" == TextSince(chunks);
    if chunk.TextDelta? {
      assert "" + chunk.text == chunk.text;
    }
  }

  lemma {:induction false} OneMoreWritten(
      a: Assembly, b: Assembly, c: Assembly, items: seq<Item>, item: Item, ownId: MessageId -> string)
    requires |a.conversation| <= |b.conversation| && b.conversation[..|a.conversation|] == a.conversation
    requires WritesAll(b.conversation[|a.conversation|..], items, ownId)
    requires |c.conversation| == |b.conversation| + 1 && c.conversation[..|b.conversation|] == b.conversation
    requires Writes(c.conversation[|b.conversation|], item, ownId)
    ensures c.conversation[..|a.conversation|] == a.conversation
    ensures WritesAll(c.conversation[|a.conversation|..], items + [item], ownId)
  {
    var n := |a.conversation|;
    assert c.conversation[n..] == b.conversation[n..] + [c.conversation[|b.conversation|]];
    hide Writes;
  }

  /** One message is appended for an item that is finished. */
  lemma {:induction false} AppendHolds(
      a: Assembly, b: Assembly, chunks: seq<Chunk>, chunk: Chunk, clock: MessageId -> int, ownId: MessageId -> string)
    requires Holds(a, b, chunks, ownId) && !Ends(chunk)
    ensures HoldsMessages(a, Take(b, chunk, clock, ownId), chunks + [chunk], ownId)
  {
    ItemsSnoc(chunks, chunk);
    TakeEffects(b, chunk, clock, ownId);
    hide TextSince, ReasoningSince, IdSince, ReasoningOpen, Items, Take, WritesAll;
    var c := Take(b, chunk, clock, ownId);
    if chunk == ItemDone(MessageItem) && TextSince(chunks) != "" {
      OneMoreWritten(a, b, c, Items(chunks), Text(TextSince(chunks)), ownId);
    } else if chunk == ItemDone(ReasoningItem) && ReasoningOpen(chunks) {
      OneMoreWritten(a, b, c, Items(chunks), Thinking(IdSince(chunks), ReasoningSince(chunks)), ownId);
    } else {
      assert c.conversation == b.conversation && Items(chunks + [chunk]) == Items(chunks);
    }
  }

  lemma {:induction false} ChunkHolds(
      a: Assembly, b: Assembly, chunks: seq<Chunk>, chunk: Chunk, clock: MessageId -> int, ownId: MessageId -> string)
    requires Holds(a, b, chunks, ownId) && !Ends(chunk)
    ensures Holds(a, Take(b, chunk, clock, ownId), chunks + [chunk], ownId)
  {
    ThoughtHolds(b, chunks, chunk, clock, ownId);
    TextHolds(b, chunks, chunk, clock, ownId);
    AppendHolds(a, b, chunks, chunk, clock, ownId);
    hide HoldsThought, HoldsText, HoldsMessages, Take;
  }

  lemma {:induction false} NothingHolds(a: Assembly, ownId: MessageId -> string)
    requires a.bubble.None? && a.thought.None?
    ensures Holds(a, a, [], ownId)
  {
  }

  lemma {:induction false} AllHold(
      a: Assembly, chunks: seq<Chunk>, clock: MessageId -> int, ownId: MessageId -> string)
    requires a.bubble.None? && a.thought.None? && forall i :: 0 <= i < |chunks| ==> !Ends(chunks[i])
    ensures Holds(a, Assemble(a, chunks, clock, ownId).0, chunks, ownId)
    decreases |chunks|
  {
    if chunks == [] {
      NothingHolds(a, ownId);
    } else {
      var before, last := chunks[..|chunks| - 1], chunks[|chunks| - 1];
      assert chunks == before + [last];
      hide Holds;
      AllHold(a, before, clock, ownId);
      AssembleSnoc(a, before, last, clock, ownId);
      ChunkHolds(a, Assemble(a, before, clock, ownId).0, before, last, clock, ownId);
    }
  }

  lemma {:induction false} BeforeDecides(
      a: Assembly, chunks: seq<Chunk>, clock: MessageId -> int, ownId: MessageId -> string)
    ensures Assemble(a, chunks, clock, ownId).0 == Assemble(a, Before(chunks), clock, ownId).0
    decreases |chunks|
  {
    if chunks != [] && !Ends(chunks[0]) {
      hide Take;
      BeforeDecides(Take(a, chunks[0], clock, ownId), chunks[1..], clock, ownId);
      assert Before(chunks)[1..] == Before(chunks[1..]);
    }
  }

  /** Reading a stream appends one message for each item that it finishes: an answer with all the text sent for
      it, or reasoning with all that was sent for it under the id announced. What is unfinished at the end
      of the stream is not appended. */
  lemma {:induction false} MessagesAreWritten(
      a: Assembly, chunks: seq<Chunk>, clock: MessageId -> int, ownId: MessageId -> string)
    requires a.bubble.None? && a.thought.None?
    ensures var b := Assemble(a, chunks, clock, ownId).0;
            && |a.conversation| <= |b.conversation| && b.conversation[..|a.conversation|] == a.conversation
            && WritesAll(b.conversation[|a.conversation|..], Items(Before(chunks)), ownId)
  {
    BeforeDecides(a, chunks, clock, ownId);
    AllHold(a, Before(chunks), clock, ownId);
  }

  // ---------- Which call the end of an item finishes ----------

  /** k is the smallest open call, or nothing is open. */
  ghost predicate Smallest(open: map<nat, Call>, k: nat) {
    open != map[] ==> k in open && forall j :: j in open ==> k <= j
  }

  /** Finishing call k, if it is open. */
  function CloseIndex(a: Assembly, k: nat): Assembly {
    if k in a.calls then a.(done := a.done + [a.calls[k]], calls := a.calls - {k}) else a
  }

  predicate EndsCall(chunk: Chunk) {
    chunk == ItemDone(FunctionCallItem)
  }

  predicate Ends(chunk: Chunk) {
    chunk.Done? || chunk.StreamError?
  }

  /** What the stream means, when the end of a call at a position ends the call with the index noted there. */
  ghost function Meant(
      a: Assembly, chunks: seq<Chunk>, ended: seq<nat>, clock: MessageId -> int, ownId: MessageId -> string): Assembly
    requires |ended| == |chunks|
    decreases |chunks|
  {
    if chunks == [] || Ends(chunks[0]) then a
    else
      var b := if EndsCall(chunks[0]) then CloseIndex(a, ended[0]) else Take(a, chunks[0], clock, ownId);
      Meant(b, chunks[1..], ended[1..], clock, ownId)
  }

  /** At every end of a call, the loop finishes the call that ended. */
  ghost predicate FinishesEnded(
      a: Assembly, chunks: seq<Chunk>, ended: seq<nat>, clock: MessageId -> int, ownId: MessageId -> string)
    requires |ended| == |chunks|
    decreases |chunks|
  {
    chunks != [] && !Ends(chunks[0]) ==>
      && (EndsCall(chunks[0]) ==> Take(a, chunks[0], clock, ownId) == CloseIndex(a, ended[0]))
      && FinishesEnded(Take(a, chunks[0], clock, ownId), chunks[1..], ended[1..], clock, ownId)
  }

  /** At every end of a call, the call that ends is the open one with the smallest index. */
  ghost predicate EndsSmallest(
      a: Assembly, chunks: seq<Chunk>, ended: seq<nat>, clock: MessageId -> int, ownId: MessageId -> string)
    requires |ended| == |chunks|
    decreases |chunks|
  {
    chunks != [] && !Ends(chunks[0]) ==>
      if EndsCall(chunks[0]) then
        Smallest(a.calls, ended[0]) && EndsSmallest(CloseIndex(a, ended[0]), chunks[1..], ended[1..], clock, ownId)
      else EndsSmallest(Take(a, chunks[0], clock, ownId), chunks[1..], ended[1..], clock, ownId)
  }

  lemma {:induction false} ClosesIffSmallest(a: Assembly, k: nat)
    ensures CloseCall(a) == CloseIndex(a, k) <==> Smallest(a.calls, k)
  {
    if a.calls != map[] {
      var first := FirstKey(a.calls);
      assert first !in a.calls - {first};
      assert k in a.calls && k != first ==> first in a.calls - {k};
      assert CloseCall(a).done != a.done;
    }
  }

  /** On every stream, the loop finishes the calls that end if and only if calls end in the order of their
      indices: each is the smallest open one when it ends. The loop then assembles what the stream means. */
  lemma {:induction false} FinishesEndedIff(
      a: Assembly, chunks: seq<Chunk>, ended: seq<nat>, clock: MessageId -> int, ownId: MessageId -> string)
    requires |ended| == |chunks|
    ensures FinishesEnded(a, chunks, ended, clock, ownId) <==> EndsSmallest(a, chunks, ended, clock, ownId)
    ensures EndsSmallest(a, chunks, ended, clock, ownId) ==>
              Assemble(a, chunks, clock, ownId).0 == Meant(a, chunks, ended, clock, ownId)
    decreases |chunks|
  {
    if chunks != [] && !Ends(chunks[0]) {
      var b := Take(a, chunks[0], clock, ownId);
      FinishesEndedIff(b, chunks[1..], ended[1..], clock, ownId);
      if EndsCall(chunks[0]) {
        assert b == CloseCall(a);
        ClosesIffSmallest(a, ended[0]);
      }
      hide CloseCall, Take, CloseIndex, Smallest;
    }
  }

  const FRESH := Assembly([], None, None, map[], [], 0)

  lemma {:induction false} OnlyOne(a: Assembly, k: nat, call: Call)
    requires a.calls == map[k := call]
    ensures CloseCall(a) == CloseIndex(a, k) == a.(calls := map[], done := a.done + [call])
  {
    assert k in a.calls && FirstKey(a.calls) == k;
    assert a.calls - {k} == map[];
  }

  lemma {:induction false} AssembleStep(
      a: Assembly, b: Assembly, chunk: Chunk, rest: seq<Chunk>, clock: MessageId -> int, ownId: MessageId -> string)
    requires !Ends(chunk) && b == Take(a, chunk, clock, ownId)
    ensures Assemble(a, [chunk] + rest, clock, ownId) == Assemble(b, rest, clock, ownId)
  {
    assert ([chunk] + rest)[1..] == rest;
  }

  lemma {:induction false} MeantStep(
      a: Assembly, b: Assembly, chunk: Chunk, rest: seq<Chunk>, k: nat, ended: seq<nat>,
      clock: MessageId -> int, ownId: MessageId -> string)
    requires !Ends(chunk) && |ended| == |rest|
    requires b == if EndsCall(chunk) then CloseIndex(a, k) else Take(a, chunk, clock, ownId)
    ensures Meant(a, [chunk] + rest, [k] + ended, clock, ownId) == Meant(b, rest, ended, clock, ownId)
  {
    assert ([chunk] + rest)[1..] == rest && ([k] + ended)[1..] == ended;
  }

  lemma {:induction false} NothingLeft(a: Assembly, clock: MessageId -> int, ownId: MessageId -> string)
    ensures Assemble(a, [], clock, ownId).0 == a && Meant(a, [], [], clock, ownId) == a
  {
  }

  /** Two calls are open and the second ends first: the loop finishes the first, without the arguments that
      are still to come. */
  lemma {:induction false} SecondEndsFirst(clock: MessageId -> int, ownId: MessageId -> string)
    ensures var chunks := [
              ToolCallStart(0, "c0", "t"), ToolCallStart(1, "c1", "u"), ItemDone(FunctionCallItem),
              ToolCallDelta(0, "x"), ItemDone(FunctionCallItem)];
            && Meant(FRESH, chunks, [0, 0, 1, 0, 0], clock, ownId).done == [Call("u", "", "c1"), Call("t", "x", "c0")]
            && Assemble(FRESH, chunks, clock, ownId).0.done == [Call("t", "", "c0"), Call("u", "", "c1")]
  {
    var end := ItemDone(FunctionCallItem);
    var rest := [end, ToolCallDelta(0, "x"), end];
    var one := FRESH.(calls := map[0 := Call("t", "", "c0")]);
    var two := FRESH.(calls := map[0 := Call("t", "", "c0"), 1 := Call("u", "", "c1")]);
    TakesFirst(two, Call("t", "", "c0"), Call("u", "", "c1"), clock, ownId);
    MeansSecond(two, Call("t", "", "c0"), Call("u", "", "c1"), clock, ownId);
    hide Assemble, Meant;
    assert map[0 := Call("t", "", "c0")][1 := Call("u", "", "c1")] == two.calls;
    AssembleStep(one, two, ToolCallStart(1, "c1", "u"), rest, clock, ownId);
    AssembleStep(FRESH, one, ToolCallStart(0, "c0", "t"), [ToolCallStart(1, "c1", "u")] + rest, clock, ownId);
    MeantStep(one, two, ToolCallStart(1, "c1", "u"), rest, 0, [1, 0, 0], clock, ownId);
    MeantStep(FRESH, one, ToolCallStart(0, "c0", "t"), [ToolCallStart(1, "c1", "u")] + rest, 0, [0, 1, 0, 0], clock,
      ownId);
  }

  lemma {:induction false} TakesFirst(
      a: Assembly, t: Call, u: Call, clock: MessageId -> int, ownId: MessageId -> string)
    requires a == FRESH.(calls := map[0 := t, 1 := u])
    ensures Assemble(a, [ItemDone(FunctionCallItem), ToolCallDelta(0, "x"), ItemDone(FunctionCallItem)], clock,
      ownId).0.done
         == [t, u]
  {
    var end := ItemDone(FunctionCallItem);
    var b := FRESH.(calls := map[1 := u], done := [t]);
    assert 0 in a.calls && FirstKey(a.calls) == 0 && a.calls - {0} == map[1 := u];
    OnlyOne(b, 1, u);
    NothingLeft(b.(calls := map[], done := [t] + [u]), clock, ownId);
    hide Assemble, Meant, FirstKey;
    AssembleStep(a, b, end, [ToolCallDelta(0, "x"), end], clock, ownId);
    AssembleStep(b, b, ToolCallDelta(0, "x"), [end], clock, ownId);
    AssembleStep(b, b.(calls := map[], done := [t] + [u]), end, [], clock, ownId);
  }

  lemma {:induction false} MeansSecond(
      a: Assembly, t: Call, u: Call, clock: MessageId -> int, ownId: MessageId -> string)
    requires a == FRESH.(calls := map[0 := t, 1 := u]) && t.arguments == ""
    ensures Meant(a, [ItemDone(FunctionCallItem), ToolCallDelta(0, "x"), ItemDone(FunctionCallItem)], [1, 0, 0],
      clock, ownId).done
         == [u, t.(arguments := "x")]
  {
    var end := ItemDone(FunctionCallItem);
    var t' := t.(arguments := "x");
    var b := FRESH.(calls := map[0 := t], done := [u]);
    var c := FRESH.(calls := map[0 := t'], done := [u]);
    assert a.calls - {1} == map[0 := t] && map[0 := t][0 := t'] == c.calls && t.arguments + "x" == "x";
    OnlyOne(c, 0, t');
    NothingLeft(c.(calls := map[], done := [u] + [t']), clock, ownId);
    hide Assemble, Meant;
    MeantStep(a, b, end, [ToolCallDelta(0, "x"), end], 1, [0, 0], clock, ownId);
    MeantStep(b, c, ToolCallDelta(0, "x"), [end], 0, [0], clock, ownId);
    MeantStep(c, c.(calls := map[], done := [u] + [t']), end, [], 0, [], clock, ownId);
  }

  // ---------- Streams that open one call at a time ----------

  /** The position of the next chunk that ends a call or the stream. */
  function NextEnd(chunks: seq<Chunk>): (e: nat)
    ensures e <= |chunks| && (e < |chunks| ==> EndsCall(chunks[e]) || Ends(chunks[e]))
    ensures forall i :: 0 <= i < e ==> !EndsCall(chunks[i]) && !Ends(chunks[i])
  {
    if chunks == [] || EndsCall(chunks[0]) || Ends(chunks[0]) then 0 else 1 + NextEnd(chunks[1..])
  }

  /** The arguments sent for a call. */
  function ArgumentsOf(chunks: seq<Chunk>, index: nat): string {
    if chunks == [] then "" else
      (if chunks[0].ToolCallDelta? && chunks[0].index == index then chunks[0].data else "")
      + ArgumentsOf(chunks[1..], index)
  }

  /** The finished calls of a stream, each with its name, all its arguments and its id. */
  function Spoken(chunks: seq<Chunk>): seq<Call>
    decreases |chunks|
  {
    if chunks == [] || Ends(chunks[0]) then []
    else if chunks[0].ToolCallStart? then
      var e := 1 + NextEnd(chunks[1..]);
      if e == |chunks| || Ends(chunks[e]) then []
      else [Call(chunks[0].name, ArgumentsOf(chunks[1..e], chunks[0].index),
        chunks[0].callId)] + Spoken(chunks[e + 1..])
    else Spoken(chunks[1..])
  }

  /** Between the starts of two calls a call ends. */
  ghost predicate OneAtATime(chunks: seq<Chunk>) {
    forall i, j :: 0 <= i < j < |chunks| && chunks[i].ToolCallStart? && chunks[j].ToolCallStart? ==>
      exists e :: i < e < j && EndsCall(chunks[e])
  }

  lemma {:induction false} LaterOneAtATime(chunks: seq<Chunk>, n: nat)
    requires OneAtATime(chunks) && n <= |chunks|
    ensures OneAtATime(chunks[n..])
  {
    var rest := chunks[n..];
    forall i, j | 0 <= i < j < |rest| && rest[i].ToolCallStart? && rest[j].ToolCallStart?
      ensures exists e :: i < e < j && EndsCall(rest[e])
    {
      assert chunks[n + i].ToolCallStart? && chunks[n + j].ToolCallStart?;
      var e :| n + i < e < n + j && EndsCall(chunks[e]);
      assert rest[e - n] == chunks[e];
    }
  }

  /** The calls finished at the end of a stream, from the calls open and finished before it. */
  ghost function DoneFrom(
      open: map<nat, Call>, done: seq<Call>, chunks: seq<Chunk>, clock: MessageId -> int,
        ownId: MessageId -> string): seq<Call>
  {
    Assemble(FRESH.(calls := open, done := done), chunks, clock, ownId).0.done
  }

  lemma {:induction false} DoneStep(
      open: map<nat, Call>, done: seq<Call>, chunks: seq<Chunk>, clock: MessageId -> int, ownId: MessageId -> string)
    requires chunks != [] && !Ends(chunks[0])
    ensures var b := Take(FRESH.(calls := open, done := done), chunks[0], clock, ownId);
            DoneFrom(open, done, chunks, clock, ownId) == DoneFrom(b.calls, b.done, chunks[1..], clock, ownId)
  {
    var b := Take(FRESH.(calls := open, done := done), chunks[0], clock, ownId);
    hide Take;
    CallsDependOnChunks(b, FRESH.(calls := b.calls, done := b.done), chunks[1..], clock, ownId);
  }

  lemma {:induction false} DoneStops(
      open: map<nat, Call>, done: seq<Call>, chunks: seq<Chunk>, clock: MessageId -> int, ownId: MessageId -> string)
    requires chunks == [] || Ends(chunks[0])
    ensures DoneFrom(open, done, chunks, clock, ownId) == done
  {
  }

  /** A chunk that neither opens nor ends a call adds its arguments, if any, to the one open call. */
  lemma {:induction false} OneChunkCollects(
      done: seq<Call>, chunk: Chunk, k: nat, call: Call, clock: MessageId -> int, ownId: MessageId -> string)
    requires !Ends(chunk) && !EndsCall(chunk) && !chunk.ToolCallStart?
    ensures var data := if chunk.ToolCallDelta? && chunk.index == k then chunk.data else "";
            var b := Take(FRESH.(calls := map[k := call], done := done), chunk, clock, ownId);
            b.done == done && b.calls == map[k := call.(arguments := call.arguments + data)]
  {
    assert call.arguments + "" == call.arguments;
  }

  lemma {:induction false} ArgumentsHead(chunks: seq<Chunk>, e: nat, k: nat)
    requires 1 <= e <= |chunks|
    ensures ArgumentsOf(chunks[..e], k)
         == (if chunks[0].ToolCallDelta? && chunks[0].index == k then chunks[0].data else "")
            + ArgumentsOf(chunks[1..][..e - 1], k)
  {
    assert chunks[..e][1..] == chunks[1..][..e - 1];
  }

  ghost predicate ClosesAt(chunks: seq<Chunk>, e: nat) {
    e < |chunks| && !Ends(chunks[e])
  }

  /** While one call is open, the deltas of its index are collected until the call or the stream ends. */
  lemma {:induction false} OpenCallCollects(
      done: seq<Call>, chunks: seq<Chunk>, k: nat, call: Call, clock: MessageId -> int, ownId: MessageId -> string)
    requires forall i :: 0 <= i < NextEnd(chunks) ==> !chunks[i].ToolCallStart?
    ensures var e := NextEnd(chunks);
            DoneFrom(map[k := call], done, chunks, clock, ownId)
            == if !ClosesAt(chunks, e) then done
               else DoneFrom(map[], done + [call.(arguments := call.arguments + ArgumentsOf(chunks[..e], k))],
                             chunks[e + 1..], clock, ownId)
    decreases |chunks|
  {
    hide DoneFrom, Take;
    if chunks == [] || Ends(chunks[0]) {
      DoneStops(map[k := call], done, chunks, clock, ownId);
    } else if EndsCall(chunks[0]) {
      DoneStep(map[k := call], done, chunks, clock, ownId);
      OnlyOneEnds(done, chunks[0], k, call, clock, ownId);
      assert chunks[..0] == [] && call.arguments + "" == call.arguments;
    } else {
      OpenCallGoesOn(done, chunks, k, call, clock, ownId);
    }
  }

  lemma {:induction false} OnlyOneEnds(
      done: seq<Call>, chunk: Chunk, k: nat, call: Call, clock: MessageId -> int, ownId: MessageId -> string)
    requires EndsCall(chunk)
    ensures var b := Take(FRESH.(calls := map[k := call], done := done), chunk, clock, ownId);
            b.calls == map[] && b.done == done + [call]
  {
    OnlyOne(FRESH.(calls := map[k := call], done := done), k, call);
  }

  lemma {:induction false} OpenCallGoesOn(
      done: seq<Call>, chunks: seq<Chunk>, k: nat, call: Call, clock: MessageId -> int, ownId: MessageId -> string)
    requires chunks != [] && !Ends(chunks[0]) && !EndsCall(chunks[0])
    requires forall i :: 0 <= i < NextEnd(chunks) ==> !chunks[i].ToolCallStart?
    ensures var e := NextEnd(chunks);
            DoneFrom(map[k := call], done, chunks, clock, ownId)
            == if !ClosesAt(chunks, e) then done
               else DoneFrom(map[], done + [call.(arguments := call.arguments + ArgumentsOf(chunks[..e], k))],
                             chunks[e + 1..], clock, ownId)
    decreases |chunks|, 0
  {
    var e, rest := NextEnd(chunks), chunks[1..];
    assert e == 1 + NextEnd(rest);
    var data := if chunks[0].ToolCallDelta? && chunks[0].index == k then chunks[0].data else "";
    var call' := call.(arguments := call.arguments + data);
    forall i | 0 <= i < NextEnd(rest) ensures !rest[i].ToolCallStart? {
      assert rest[i] == chunks[i + 1];
    }
    assert !chunks[0].ToolCallStart?;
    hide ArgumentsOf;
    DoneStep(map[k := call], done, chunks, clock, ownId);
    OneChunkCollects(done, chunks[0], k, call, clock, ownId);
    hide DoneFrom, Take, NextEnd;
    OpenCallCollects(done, rest, k, call', clock, ownId);
    if ClosesAt(chunks, e) {
      ArgumentsGather(call.arguments, chunks, e, k);
      assert rest[e..] == chunks[e + 1..];
    }
  }

  lemma {:induction false} ArgumentsGather(sofar: string, chunks: seq<Chunk>, e: nat, k: nat)
    requires 1 <= e <= |chunks|
    ensures var data := if chunks[0].ToolCallDelta? && chunks[0].index == k then chunks[0].data else "";
            sofar + data + ArgumentsOf(chunks[1..][..e - 1], k) == sofar + ArgumentsOf(chunks[..e], k)
  {
    ArgumentsHead(chunks, e, k);
    hide ArgumentsOf;
  }

  lemma {:induction false} SpokenFrom(
      done: seq<Call>, chunks: seq<Chunk>, clock: MessageId -> int, ownId: MessageId -> string)
    requires OneAtATime(chunks)
    ensures DoneFrom(map[], done, chunks, clock, ownId) == done + Spoken(chunks)
    decreases |chunks|, 1
  {
    hide DoneFrom, Take, OneAtATime;
    if chunks == [] || Ends(chunks[0]) {
      DoneStops(map[], done, chunks, clock, ownId);
    } else {
      LaterOneAtATime(chunks, 1);
      DoneStep(map[], done, chunks, clock, ownId);
      if chunks[0].ToolCallStart? {
        SpokenCall(done, chunks, clock, ownId);
      } else {
        NothingOpens(done, chunks[0], clock, ownId);
        SpokenFrom(done, chunks[1..], clock, ownId);
      }
    }
  }

  lemma {:induction false} NothingOpens(
      done: seq<Call>, chunk: Chunk, clock: MessageId -> int, ownId: MessageId -> string)
    requires !Ends(chunk) && !chunk.ToolCallStart?
    ensures var b := Take(FRESH.(calls := map[], done := done), chunk, clock, ownId);
            b.calls == map[] && b.done == done
  {
  }

  lemma {:induction false} SpokenOpens(chunks: seq<Chunk>)
    requires chunks != [] && chunks[0].ToolCallStart?
    ensures var rest := chunks[1..];
            var e := NextEnd(rest);
            Spoken(chunks)
            == if !ClosesAt(rest, e) then []
               else [Call(chunks[0].name, ArgumentsOf(rest[..e], chunks[0].index),
                 chunks[0].callId)] + Spoken(rest[e + 1..])
  {
    var rest := chunks[1..];
    var e := NextEnd(rest);
    if ClosesAt(rest, e) {
      assert chunks[1..1 + e] == rest[..e] && chunks[e + 2..] == rest[e + 1..];
    }
  }

  lemma {:induction false} SpokenCall(
      done: seq<Call>, chunks: seq<Chunk>, clock: MessageId -> int, ownId: MessageId -> string)
    requires chunks != [] && chunks[0].ToolCallStart? && OneAtATime(chunks)
    requires var b := Take(FRESH.(calls := map[], done := done), chunks[0], clock, ownId);
             DoneFrom(map[], done, chunks, clock, ownId) == DoneFrom(b.calls, b.done, chunks[1..], clock, ownId)
    ensures DoneFrom(map[], done, chunks, clock, ownId) == done + Spoken(chunks)
    decreases |chunks|, 0
  {
    var start, rest := chunks[0], chunks[1..];
    var e := NextEnd(rest);
    var call := Call(start.name, "", start.callId);
    var b := Take(FRESH.(calls := map[], done := done), start, clock, ownId);
    assert b.done == done && b.calls == map[start.index := call];
    NoSecondStart(chunks);
    SpokenOpens(chunks);
    hide Take, DoneFrom, OneAtATime, NextEnd, Spoken;
    OpenCallCollects(done, rest, start.index, call, clock, ownId);
    LaterOneAtATime(chunks, 1);
    if ClosesAt(rest, e) {
      var spoken := call.(arguments := ArgumentsOf(rest[..e], start.index));
      assert "" + ArgumentsOf(rest[..e], start.index) == ArgumentsOf(rest[..e], start.index);
      LaterOneAtATime(rest, e + 1);
      SpokenFrom(done + [spoken], rest[e + 1..], clock, ownId);
      assert done + [spoken] + Spoken(rest[e + 1..]) == done + ([spoken] + Spoken(rest[e + 1..]));
    } else {
      assert done + [] == done;
    }
  }

  /** Up to the end of the first call, no other call starts. */
  lemma {:induction false} NoSecondStart(chunks: seq<Chunk>)
    requires OneAtATime(chunks) && chunks != [] && chunks[0].ToolCallStart?
    ensures forall i :: 0 <= i < NextEnd(chunks[1..]) ==> !chunks[1..][i].ToolCallStart?
  {
    var rest := chunks[1..];
    forall j | 0 < j < 1 + NextEnd(rest) ensures !EndsCall(chunks[j]) {
      assert rest[j - 1] == chunks[j];
    }
    forall i | 0 <= i < NextEnd(rest) ensures !rest[i].ToolCallStart? {
      assert rest[i] == chunks[i + 1];
    }
  }
}
