/** The agent's turn (src/kernel/agent/loop_mod/mod.rs): rounds of a model stream followed by the tool
    calls it asked for, with guards that end the turn, and a compaction at its end. */
module AgentLoop {
  import opened Basics
  import opened Messages
  import opened RustText
  import opened SessionTree
  import opened StreamAssembly
  import opened TurnCommit

  // ---------- What the loop observes ----------

  /** How an attempt to open the model stream ends. */
  datatype Opening = Opened | Systemic | Cancelled | Transient

  /** One pass of the loop, as the model service and the user make it. */
  datatype Round = Round(
    cancelledBefore: bool, timedOut: bool, first: Opening, cancelledInRetry: bool, second: Opening,
    chunks: seq<Chunk>, cancelledAfter: bool)

  /** A tool call that was carried out: the resolved tool, the parsed parameters and what it answered. */
  datatype Executed = Executed(entry: string, params: Json, result: Result<Json, ToolError>, callId: string)

  /** Everything outside the loop: any rounds, any tools, any summaries, any clock. The number given to
      callTool counts the calls of the turn, so that the same call may answer differently each time. */
  datatype World = World(
    rounds: nat -> Round,
    resolve: string -> Option<string>,
    parse: string -> Json,
    callTool: (nat, string, Json) -> Result<Json, ToolError>,
    summarize: (seq<Message>, nat) -> string,
    clock: MessageId -> int)

  const UNKNOWN_TOOL: string := "\U{672A}\U{77E5}\U{5DE5}\U{5177}\U{FF1A}"

  /** Carrying out the n-th call: the tool is looked up by name, and the call keeps its id. */
  function Carried(world: World, n: nat, call: Call): Executed {
    var entry := if world.resolve(call.name).Some? then world.resolve(call.name).value else "";
    var params := world.parse(call.arguments);
    var result := if entry == "" then Err(ToolError(UnknownTool, UNKNOWN_TOOL + call.name, false))
                  else world.callTool(n, entry, params);
    Executed(entry, params, result, call.callId)
  }

  datatype StopReason =
    Natural | ToolCallLimit | ConsecutiveFailures | TurnTimeout | UserAborted | InternalAbort

  datatype Outcome = Outcome(
    messages: seq<Message>, stopReason: StopReason, toolCalls: nat, compaction: Option<Compaction>)

  datatype LoopError = ModelError

  // ---------- The calls the model asks for ----------

  /** The calls that a stream finishes, in the order in which the loop takes them. */
  ghost function CallsOf(world: World, ownId: MessageId -> string, chunks: seq<Chunk>): seq<Call> {
    Assemble(FRESH, chunks, world.clock, ownId).0.done
  }

  /** The calls of the first n rounds. */
  ghost function Asked(world: World, ownId: MessageId -> string, n: nat): seq<Call> {
    if n == 0 then [] else Asked(world, ownId, n - 1) + CallsOf(world, ownId, world.rounds(n - 1).chunks)
  }

  /** What was carried out are the answers to the first calls, one each and in their order. */
  ghost predicate Dispatched(world: World, executed: seq<Executed>, calls: seq<Call>) {
    && |executed| <= |calls|
    && forall i :: 0 <= i < |executed| ==> Answers(world, i + 1, calls[i], executed[i])
  }

  /** What the tool the call names has answered to its arguments, as the n-th call of the turn, or that there
      is no such tool, under the call's id. */
  predicate Answers(world: World, n: nat, call: Call, e: Executed) {
    var tool := world.resolve(call.name);
    && e.callId == call.callId && e.params == world.parse(call.arguments)
    && if tool.None? || tool.value == "" then
         e.entry == "" && e.result == Err(ToolError(UnknownTool, UNKNOWN_TOOL + call.name, false))
       else e.entry == tool.value && e.result == world.callTool(n, tool.value, e.params)
  }

  /** When a stream opens one call at a time, the calls the loop carries out are exactly the finished calls
      of the stream, in order, each with all its arguments. */
  lemma {:induction false} CallsAreSpoken(world: World, ownId: MessageId -> string, chunks: seq<Chunk>)
    requires OneAtATime(chunks)
    ensures CallsOf(world, ownId, chunks) == Spoken(chunks)
  {
    SpokenFrom([], chunks, world.clock, ownId);
    assert [] + Spoken(chunks) == Spoken(chunks);
  }

  /** The finished calls of the first n streams. */
  ghost function AllSpoken(world: World, n: nat): seq<Call> {
    if n == 0 then [] else AllSpoken(world, n - 1) + Spoken(world.rounds(n - 1).chunks)
  }

  /** So when every stream of a turn does, the calls carried out are those that the streams spell out. */
  lemma {:induction false} AskedAreSpoken(world: World, ownId: MessageId -> string, n: nat)
    requires forall k :: 0 <= k < n ==> OneAtATime(world.rounds(k).chunks)
    ensures Asked(world, ownId, n) == AllSpoken(world, n)
  {
    if n > 0 {
      AskedAreSpoken(world, ownId, n - 1);
      CallsAreSpoken(world, ownId, world.rounds(n - 1).chunks);
    }
  }

  lemma {:induction false} OneMoreDispatched(world: World, executed: seq<Executed>, calls: seq<Call>)
    requires Dispatched(world, executed, calls) && |executed| < |calls|
    ensures Dispatched(world, executed + [Carried(world, |executed| + 1, calls[|executed|])], calls)
  {
  }

  lemma {:induction false} DispatchedOf(world: World, executed: seq<Executed>, calls: seq<Call>, more: seq<Call>)
    requires Dispatched(world, executed, calls)
    ensures Dispatched(world, executed, calls + more) && |executed| <= |calls|
  {
  }

  // ---------- What a turn may do to the conversation ----------

  /** `after` is `before` with messages appended below its end, their ids taken from [from, to). */
  ghost predicate Grows(before: seq<Message>, after: seq<Message>, from: MessageId, to: MessageId) {
    && before != [] && |before| <= |after| && after[..|before|] == before && from <= to
    && (forall i :: |before| <= i < |after| ==> after[i].parent == Some(after[i - 1].id) && from <= after[i].id < to)
    && (forall i, j :: |before| <= i < j < |after| ==> after[i].id != after[j].id)
  }

  /** The ids in use by unfinished items are distinct from those of the messages appended so far. */
  ghost predicate Tidy(before: seq<Message>, a: Assembly, from: MessageId) {
    && Grows(before, a.conversation, from, a.next)
    && (a.bubble.Some? ==> from <= a.bubble.value.id < a.next && Unused(before, a.conversation, a.bubble.value.id))
    && (a.thought.Some? ==> from <= a.thought.value.id < a.next && Unused(before, a.conversation, a.thought.value.id))
    && (a.bubble.Some? && a.thought.Some? ==> a.bubble.value.id != a.thought.value.id)
  }

  ghost predicate Unused(before: seq<Message>, after: seq<Message>, id: MessageId) {
    forall i :: |before| <= i < |after| ==> after[i].id != id
  }

  /** The tool-call messages of a conversation, in order. */
  function ToolKinds(ms: seq<Message>): seq<MessageKind> {
    if ms == [] then [] else
      ToolKinds(ms[..|ms| - 1]) + if ms[|ms| - 1].kind.ToolCall? then [ms[|ms| - 1].kind] else []
  }

  /** The other messages of a conversation, in order. */
  function Others(ms: seq<Message>): seq<Message> {
    if ms == [] then [] else
      Others(ms[..|ms| - 1]) + if ms[|ms| - 1].kind.ToolCall? then [] else [ms[|ms| - 1]]
  }

  /** The messages other than tool calls that have been added are those that write these items, in order. */
  ghost predicate Said(before: seq<Message>, after: seq<Message>, items: seq<Item>, ownId: MessageId -> string) {
    && |Others(before)| <= |Others(after)| && Others(after)[..|Others(before)|] == Others(before)
    && WritesAll(Others(after)[|Others(before)|..], items, ownId)
  }

  /** The items that the first n streams finish. */
  ghost function AllItems(world: World, n: nat): seq<Item> {
    if n == 0 then [] else AllItems(world, n - 1) + Items(Before(world.rounds(n - 1).chunks))
  }

  lemma {:induction false} OthersSnoc(ms: seq<Message>, id: MessageId, kind: MessageKind, at: int)
    requires kind.ToolCall?
    ensures Others(Below(ms, id, kind, at)) == Others(ms)
  {
    var next := Below(ms, id, kind, at);
    assert next[..|next| - 1] == ms;
  }

  lemma {:induction false} NothingSaid(input: seq<Message>, ownId: MessageId -> string, world: World)
    ensures Said(input, input, AllItems(world, 0), ownId)
  {
  }

  lemma {:induction false} OthersOfWritten(
      ms: seq<Message>, n: nat, items: seq<Item>, ownId: MessageId -> string)
    requires n <= |ms| && WritesAll(ms[n..], items, ownId)
    ensures Others(ms) == Others(ms[..n]) + ms[n..]
    decreases |ms|
  {
    if n == |ms| {
      assert ms[..n] == ms;
    } else {
      var init, last := ms[..|ms| - 1], |ms| - 1;
      assert init[n..] == ms[n..][..last - n] && init[..n] == ms[..n];
      assert Writes(ms[n..][last - n], items[last - n], ownId);
      OthersOfWritten(init, n, items[..last - n], ownId);
      assert ms[n..] == init[n..] + [ms[last]];
    }
  }

  /** Reading one more stream. */
  lemma {:induction false} MoreSaid(
      input: seq<Message>, a0: Assembly, world: World, n: nat, ownId: MessageId -> string)
    requires Said(input, a0.conversation, AllItems(world, n), ownId) && a0.bubble.None? && a0.thought.None?
    ensures Said(input, Assemble(a0, world.rounds(n).chunks, world.clock, ownId).0.conversation,
                 AllItems(world, n + 1), ownId)
  {
    var chunks := world.rounds(n).chunks;
    MessagesAreWritten(a0, chunks, world.clock, ownId);
    var before, after := a0.conversation, Assemble(a0, chunks, world.clock, ownId).0.conversation;
    OthersOfWritten(after, |before|, Items(Before(chunks)), ownId);
    hide Others, Items, Assemble, WritesAll, Said, Before;
    SaidMore(input, before, after, after[|before|..], AllItems(world, n), Items(Before(chunks)), ownId);
  }

  lemma {:induction false} SaidMore(
      input: seq<Message>, before: seq<Message>, after: seq<Message>, more: seq<Message>, items: seq<Item>,
      added: seq<Item>, ownId: MessageId -> string)
    requires Said(input, before, items, ownId) && WritesAll(more, added, ownId)
    requires Others(after) == Others(before) + more
    ensures Said(input, after, items + added, ownId)
  {
    hide Others, Writes;
    assert Others(after)[|Others(input)|..] == Others(before)[|Others(input)|..] + more;
  }

  lemma {:induction false} StillSaid(
      input: seq<Message>, before: seq<Message>, after: seq<Message>, items: seq<Item>, ownId: MessageId -> string)
    requires Said(input, before, items, ownId) && Others(after) == Others(before)
    ensures Said(input, after, items, ownId)
  {
  }

  function KindOf(e: Executed): MessageKind {
    MessageKind.ToolCall(e.entry, e.params, e.result, e.callId)
  }

  function Kinds(es: seq<Executed>): seq<MessageKind> {
    seq(|es|, i requires 0 <= i < |es| => KindOf(es[i]))
  }

  lemma {:induction false} GrowsBelow(
      before: seq<Message>, after: seq<Message>, from: MessageId, to: MessageId, id: MessageId, kind: MessageKind,
        at: int)
    requires Grows(before, after, from, to) && from <= id < to && Unused(before, after, id)
    ensures Grows(before, Below(after, id, kind, at), from, to)
    ensures ToolKinds(Below(after, id, kind, at)) == ToolKinds(after) + if kind.ToolCall? then [kind] else []
    ensures forall other :: Unused(before, after, other) && other != id ==> Unused(before, Below(after, id, kind,
      at), other)
  {
    var next := Below(after, id, kind, at);
    assert next[..|next| - 1] == after;
    assert next[..|before|] == before;
  }

  lemma {:induction false} GrowsWider(
      before: seq<Message>, after: seq<Message>, from: MessageId, to: MessageId, to': MessageId)
    requires Grows(before, after, from, to) && to <= to'
    ensures Grows(before, after, from, to') && Unused(before, after, to)
  {
  }

  /** Reading a chunk keeps the conversation a chain of new messages and appends no tool call. */
  lemma {:induction false} TakeIsTidy(
      before: seq<Message>, a: Assembly, from: MessageId, chunk: Chunk, clock: MessageId -> int,
        ownId: MessageId -> string)
    requires Tidy(before, a, from)
    ensures var b := Take(a, chunk, clock, ownId);
            Tidy(before, b, from) && ToolKinds(b.conversation) == ToolKinds(a.conversation)
  {
    hide Grows, Unused, ToolKinds, Below, FirstKey;
    GrowsWider(before, a.conversation, from, a.next, a.next);
    GrowsWider(before, a.conversation, from, a.next, a.next + 1);
    var b := Take(a, chunk, clock, ownId);
    match chunk {
      case TextDelta(text) => assert b == AddText(a, text);
      case ReasoningDelta(text) => assert b == AddReasoning(a, text, ownId(a.next));
      case ReasoningItemStart(id) => assert b == StartReasoning(a, id);
      case ItemDone(kind) =>
        if kind.MessageItem? && a.bubble.Some? {
          var x := a.bubble.value;
          GrowsBelow(before, a.conversation, from, a.next, x.id, MessageKind.Assistant(x.text), clock(x.id));
          assert ToolKinds(a.conversation) + [] == ToolKinds(a.conversation);
        } else if kind.ReasoningItem? && a.thought.Some? {
          var x := a.thought.value;
          GrowsBelow(before, a.conversation, from, a.next, x.id, MessageKind.Reasoning(x.reasoningId, x.text),
            clock(x.id));
          assert ToolKinds(a.conversation) + [] == ToolKinds(a.conversation);
        }
      case _ =>
    }
  }

  // ---------- The guard on repeated failures ----------

  predicate SameFailure(a: Executed, b: Executed) {
    a.result.Err? && b.result.Err? && a.result.error.code == b.result.error.code
  }

  /** How many results at the end are errors with one and the same code. */
  function FailureRun(es: seq<Executed>): nat {
    if es == [] || es[|es| - 1].result.Ok? then 0
    else if |es| >= 2 && SameFailure(es[|es| - 2], es[|es| - 1]) then 1 + FailureRun(es[..|es| - 1])
    else 1
  }

  /** The run is at least n long exactly when the last n results are errors with the same code. */
  lemma {:induction false} FailureRunIs(es: seq<Executed>, n: nat)
    requires n >= 1
    ensures FailureRun(es) >= n
       <==> |es| >= n && es[|es| - 1].result.Err?
            && forall i :: |es| - n <= i < |es| ==> SameFailure(es[i], es[|es| - 1])
  {
    if es != [] && es[|es| - 1].result.Err? && n >= 2 && |es| >= 2 && SameFailure(es[|es| - 2], es[|es| - 1]) {
      var init := es[..|es| - 1];
      FailureRunIs(init, n - 1);
      if FailureRun(es) >= n {
        forall i | |es| - n <= i < |es| ensures SameFailure(es[i], es[|es| - 1]) {
          if i < |es| - 1 {
            assert SameFailure(init[i], init[|init| - 1]);
          }
        }
      }
      if |es| >= n && forall i :: |es| - n <= i < |es| ==> SameFailure(es[i], es[|es| - 1]) {
        forall i | |init| - (n - 1) <= i < |init| ensures SameFailure(init[i], init[|init| - 1]) {
          assert SameFailure(es[i], es[|es| - 1]) && SameFailure(es[|es| - 2], es[|es| - 1]);
        }
      }
    }
  }

  // ---------- The loop ----------

  /** The loop variables between two tool calls. */
  datatype Turn = Turn(
    conversation: seq<Message>, toolCalls: nat, consecutiveFailures: nat, lastCode: Option<ToolErrorCode>,
    next: MessageId)

  /** The loop variables agree with the calls carried out so far. */
  ghost predicate Agrees(t: Turn, input: seq<Message>, from: MessageId, executed: seq<Executed>) {
    && Grows(input, t.conversation, from, t.next)
    && ToolKinds(t.conversation) == ToolKinds(input) + Kinds(executed)
    && t.consecutiveFailures == FailureRun(executed)
    && (FailureRun(executed) > 0 ==> t.lastCode == Some(executed[|executed| - 1].result.error.code))
  }

  lemma {:induction false} FailureRunSnoc(es: seq<Executed>, e: Executed)
    ensures FailureRun(es + [e])
         == if e.result.Ok? then 0
            else if FailureRun(es) > 0 && es[|es| - 1].result.error.code == e.result.error.code then FailureRun(es) + 1
            else 1
  {
    assert (es + [e])[..|es|] == es;
  }

  /** Appending the message of one more call. */
  lemma {:induction false} CallAgrees(
      t: Turn, input: seq<Message>, from: MessageId, executed: seq<Executed>, e: Executed, at: int)
    requires Agrees(t, input, from, executed)
    ensures var failures := if e.result.Ok? then 0
                            else if t.lastCode == Some(e.result.error.code) then t.consecutiveFailures + 1 else 1;
            var code := if e.result.Ok? then t.lastCode else Some(e.result.error.code);
            Agrees(Turn(Below(t.conversation, t.next, KindOf(e), at), t.toolCalls + 1, failures, code, t.next + 1),
                   input, from, executed + [e])
  {
    hide Grows, Unused, ToolKinds, Below, FailureRun;
    GrowsWider(input, t.conversation, from, t.next, t.next);
    GrowsWider(input, t.conversation, from, t.next, t.next + 1);
    GrowsBelow(input, t.conversation, from, t.next + 1, t.next, KindOf(e), at);
    FailureRunSnoc(executed, e);
    assert Kinds(executed + [e]) == Kinds(executed) + [KindOf(e)];
    hide Kinds;
    assert ToolKinds(input) + Kinds(executed) + [KindOf(e)] == ToolKinds(input) + (Kinds(executed) + [KindOf(e)]);
  }

  lemma {:induction false} AgreesAnyCount(
      t: Turn, input: seq<Message>, from: MessageId, executed: seq<Executed>, calls: nat)
    requires Agrees(t, input, from, executed)
    ensures Agrees(t.(toolCalls := calls), input, from, executed)
  {
  }

  lemma {:induction false} AgreesFailures(t: Turn, input: seq<Message>, from: MessageId, executed: seq<Executed>)
    requires Agrees(t, input, from, executed)
    ensures t.consecutiveFailures == FailureRun(executed)
    ensures executed != [] && executed[|executed| - 1].result.Ok? ==> FailureRun(executed) == 0
  {
  }

  lemma {:induction false} AgreesMeans(t: Turn, input: seq<Message>, from: MessageId, executed: seq<Executed>)
    requires Agrees(t, input, from, executed)
    ensures Grows(input, t.conversation, from,
      t.next) && ToolKinds(t.conversation) == ToolKinds(input) + Kinds(executed)
  {
  }

  lemma {:induction false} StartAgrees(input: seq<Message>, from: MessageId)
    requires input != []
    ensures Agrees(Turn(input, 0, 0, None, from), input, from, [])
    ensures FailureRun([]) == 0
  {
    assert ToolKinds(input) + Kinds([]) == ToolKinds(input);
  }

  lemma {:induction false} StartTidy(t: Turn, input: seq<Message>, from: MessageId, executed: seq<Executed>)
    requires Agrees(t, input, from, executed)
    ensures Tidy(input, Assembly(t.conversation, None, None, map[], [], t.next), from)
  {
  }

  lemma {:induction false} ReadAgrees(
      t: Turn, a: Assembly, input: seq<Message>, from: MessageId, executed: seq<Executed>)
    requires Agrees(t, input, from, executed) && Tidy(input, a, from)
    requires ToolKinds(a.conversation) == ToolKinds(t.conversation)
    ensures Agrees(t.(conversation := a.conversation, next := a.next), input, from, executed)
  {
  }

  const SUMMARY_PREFIX: string := "\U{4E0A}\U{4E0B}\U{6587}\U{538B}\U{7F29}\U{6458}\U{8981}\U{FF1A}"

  /** The length of a text in UTF-8. */
  function Bytes(s: string): nat {
    if s == "" then 0 else
      (if s[0] < '\U{80}' then 1 else if s[0] < '\U{800}' then 2 else if s[0] < '\U{10000}' then 3 else 4)
      + Bytes(s[1..])
  }

  /** message_chars */
  function MessageChars(m: Message): nat {
    match m.kind
    case User(text, _, _) => Bytes(text)
    case Assistant(text) => Bytes(text)
    case System(text, _) => Bytes(text)
    case Reasoning(_, text) => Bytes(text)
    case ToolCall(entry, params, _, _) => Bytes(entry) + Bytes(params)
  }

  function TotalChars(ms: seq<Message>): nat {
    if ms == [] then 0 else MessageChars(ms[0]) + TotalChars(ms[1..])
  }

  /** The first summary that is not blank, out of two attempts. */
  function SummaryText(world: World, ms: seq<Message>): string {
    var first := Trim(world.summarize(ms, 0));
    if first != "" then first else Trim(world.summarize(ms, 1))
  }

  /** The estimated tokens reach three quarters of the limit. */
  predicate Nearly(totalChars: nat, limit: nat) {
    totalChars / 2 + 1 >= limit * 3 / 4
  }

  /** What maybe_compact does to a conversation: at three quarters of the window everything but the last
      messages is replaced, if there is anything before them and a summary that is not blank. */
  function CompactionAt(
      world: World, limit: nat, keepLast: nat, conversation: seq<Message>, next: MessageId): Option<Compaction>
  {
    var keepFrom := |conversation| - keepLast;
    if Nearly(TotalChars(conversation), limit) && 1 <= keepFrom < |conversation|
       && SummaryText(world, conversation[..keepFrom]) != ""
    then
      var text := SUMMARY_PREFIX + SummaryText(world, conversation[..keepFrom]);
      Some(CompactionOf(conversation, keepFrom, Message(next, None, System(text, None), world.clock(next))))
    else None
  }

  /** The outcome lists what is new in the conversation: in all of it, or in what compaction has left. */
  ghost predicate Reports(o: Outcome, input: seq<Message>, full: seq<Message>, next: MessageId) {
    if o.compaction.None? then o.messages == NewMessages(full, Ids(input))
    else
      var c := o.compaction.value;
      var keepFrom := c.summarized;
      && 1 <= keepFrom < |full| && c.summary.id == next && c.summary.parent.None?
      && c == CompactionOf(full, keepFrom, c.summary)
      && o.messages == NewMessages(Compacted(full, keepFrom, c.summary), Ids(input))
  }

  // ---------- What a pass of the loop comes to ----------

  /** The stream opens at once, or after a transient failure that the user has waited out. */
  predicate Opens(r: Round) {
    r.first.Opened? || (r.first.Transient? && !r.cancelledInRetry && r.second.Opened?)
  }

  predicate OpeningCancelled(r: Round) {
    r.first.Cancelled? || (r.first.Transient? && (r.cancelledInRetry || r.second.Cancelled?))
  }

  predicate OpeningSystemic(r: Round) {
    r.first.Systemic? || (r.first.Transient? && !r.cancelledInRetry && r.second.Systemic?)
  }

  predicate OpeningFails(r: Round) {
    r.first.Transient? && !r.cancelledInRetry && r.second.Transient?
  }

  /** The pass gets as far as opening its stream. */
  predicate Starts(r: Round) {
    !r.cancelledBefore && !r.timedOut
  }

  predicate BreaksOff(r: Round, systemic: bool) {
    Starts(r) && Opens(r) && Fails(r.chunks, systemic)
  }

  /** The stream is read to its end. */
  predicate ReadsAll(r: Round) {
    Starts(r) && Opens(r) && Completes(r.chunks)
  }

  predicate CancelledIn(r: Round) {
    r.cancelledBefore || (Starts(r) && OpeningCancelled(r)) || (ReadsAll(r) && r.cancelledAfter)
  }

  predicate TimedOutIn(r: Round) {
    !r.cancelledBefore && r.timedOut
  }

  predicate AbortsIn(r: Round) {
    (Starts(r) && OpeningSystemic(r)) || BreaksOff(r, true)
  }

  predicate FailsIn(r: Round) {
    (Starts(r) && OpeningFails(r)) || BreaksOff(r, false)
  }

  /** The stream is read to its end, nobody cancels, and calls are asked for. */
  ghost predicate AsksForCalls(world: World, ownId: MessageId -> string, r: Round) {
    ReadsAll(r) && !r.cancelledAfter && CallsOf(world, ownId, r.chunks) != []
  }

  function Reason(outcome: Result<Outcome, LoopError>): Result<StopReason, LoopError> {
    if outcome.Ok? then Ok(outcome.value.stopReason) else Err(outcome.error)
  }

  /** The pass a turn stops in decides how it stops. */
  ghost predicate StopsAs(
      world: World, ownId: MessageId -> string, r: Round, outcome: Result<StopReason, LoopError>)
  {
    && (outcome == Ok(UserAborted) <==> CancelledIn(r))
    && (outcome == Ok(TurnTimeout) <==> TimedOutIn(r))
    && (outcome == Ok(InternalAbort) <==> AbortsIn(r))
    && (outcome == Err(ModelError) <==> FailsIn(r))
    && (outcome == Ok(Natural) <==> ReadsAll(r) && !r.cancelledAfter && CallsOf(world, ownId, r.chunks) == [])
    && (outcome == Ok(ToolCallLimit) || outcome == Ok(ConsecutiveFailures) <==> AsksForCalls(world, ownId, r))
  }

  lemma {:induction false} OpeningIs(r: Round)
    ensures !(Opens(r) && (OpeningCancelled(r) || OpeningSystemic(r) || OpeningFails(r)))
    ensures !(OpeningCancelled(r) && (OpeningSystemic(r) || OpeningFails(r)))
    ensures !(OpeningSystemic(r) && OpeningFails(r))
  {
  }

  lemma {:induction false} OpeningStops(
      world: World, ownId: MessageId -> string, r: Round, stop: Result<StopReason, LoopError>)
    requires Starts(r) && !Opens(r)
    requires stop == Ok(InternalAbort) <==> OpeningSystemic(r)
    requires stop == Ok(UserAborted) <==> OpeningCancelled(r)
    requires stop == Err(ModelError) <==> OpeningFails(r)
    ensures StopsAs(world, ownId, r, stop)
  {
    hide CallsOf;
  }

  lemma {:induction false} BreakStops(
      world: World, ownId: MessageId -> string, a: Assembly, r: Round, systemic: bool)
    requires Starts(r) && Opens(r) && Assemble(a, r.chunks, world.clock, ownId).1 == Broken(systemic)
    ensures StopsAs(world, ownId, r, if systemic then Ok(InternalAbort) else Err(ModelError))
  {
    OpeningIs(r);
    EndIs(a, r.chunks, world.clock, ownId);
    hide Assemble, Opens, OpeningCancelled, OpeningSystemic, OpeningFails, CallsOf, Completes, Fails;
    assert Fails(r.chunks, systemic) && !Fails(r.chunks, !systemic) && !Completes(r.chunks);
  }

  lemma {:induction false} NoneDispatched(world: World, ownId: MessageId -> string)
    ensures Asked(world, ownId, 0) == [] && Dispatched(world, [], [])
  {
  }

  lemma {:induction false} AskedNext(world: World, ownId: MessageId -> string, n: nat, executed: seq<Executed>)
    requires Dispatched(world, executed, Asked(world, ownId, n))
    ensures Asked(world, ownId, n + 1) == Asked(world, ownId, n) + CallsOf(world, ownId, world.rounds(n).chunks)
    ensures Dispatched(world, executed, Asked(world, ownId, n + 1)) && |executed| <= |Asked(world, ownId, n)|
  {
  }

  lemma {:induction false} CallsAre(
      world: World, ownId: MessageId -> string, conversation: seq<Message>, next: MessageId, chunks: seq<Chunk>)
    ensures Assemble(Assembly(conversation, None, None, map[], [], next), chunks, world.clock, ownId).0.done
         == CallsOf(world, ownId, chunks)
  {
    CallsDependOnChunks(
      Assembly(conversation, None, None, map[], [], next), Assembly([], None, None, map[], [], 0), chunks,
        world.clock, ownId);
  }

  lemma {:induction false} ReportsAll(
      input: seq<Message>, full: seq<Message>, next: MessageId, reason: StopReason, calls: nat)
    ensures Reports(Outcome(NewMessages(full, Ids(input)), reason, calls, None), input, full, next)
  {
  }

  lemma {:induction false} ReportsCompacted(
      input: seq<Message>, full: seq<Message>, next: MessageId, reason: StopReason, calls: nat, keepFrom: nat,
        c: Compaction)
    requires 1 <= keepFrom < |full| && c.summary.id == next && c.summary.parent.None?
    requires c == CompactionOf(full, keepFrom, c.summary)
    ensures Reports(Outcome(NewMessages(Compacted(full, keepFrom, c.summary), Ids(input)), reason, calls, Some(c)),
      input, full, next)
  {
    hide NewMessages, Compacted, Ids;
  }

  class AgentLoop {
    const maxToolCalls: nat
    const maxConsecutiveFailures: nat
    const contextLimitTokens: nat
    const compactionKeepLast: nat

    constructor ()
      ensures maxToolCalls == 25 && maxConsecutiveFailures == 3
      ensures contextLimitTokens == 131_072 && compactionKeepLast == 15
    {
      maxToolCalls, maxConsecutiveFailures := 25, 3;
      contextLimitTokens, compactionKeepLast := 131_072, 15;
    }

    /** Reading the model stream chunk by chunk. */
    method ReadStream(
        a0: Assembly, chunks: seq<Chunk>, world: World, ownId: MessageId -> string, ghost before: seq<Message>,
        ghost from: MessageId)
      returns (a: Assembly, end: StreamEnd)
      requires Tidy(before, a0, from)
      ensures (a, end) == Assemble(a0, chunks, world.clock, ownId)
      ensures Tidy(before, a, from) && ToolKinds(a.conversation) == ToolKinds(a0.conversation)
    {
      a, end := a0, Complete;
      var n := 0;
      while n < |chunks|
        invariant 0 <= n <= |chunks|
        invariant Assemble(a0, chunks, world.clock, ownId) == Assemble(a, chunks[n..], world.clock, ownId)
        invariant Tidy(before, a, from) && ToolKinds(a.conversation) == ToolKinds(a0.conversation)
        invariant end == Complete
      {
        var chunk := chunks[n];
        assert chunks[n..][1..] == chunks[n + 1..];
        TakeIsTidy(before, a, from, chunk, world.clock, ownId);
        hide Tidy, ToolKinds;
        match chunk {
          case TextDelta(text) => a := AddText(a, text);
          case ReasoningDelta(text) => a := AddReasoning(a, text, ownId(a.next));
          case ReasoningItemStart(id) => a := StartReasoning(a, id);
          case ToolCallStart(index, callId, name) => a := a.(calls := a.calls[index := Call(name, "", callId)]);
          case ToolCallDelta(index, data) =>
            if index in a.calls {
              a := a.(calls := a.calls[index := a.calls[index].(arguments := a.calls[index].arguments + data)]);
            }
          case ItemDone(kind) =>
            match kind {
              case MessageItem => a := CloseBubble(a, world.clock);
              case ReasoningItem => a := CloseThought(a, world.clock);
              case FunctionCallItem =>
                if a.calls != map[] {
                  var top :| top in a.calls;
                  var k := KeyFrom(a.calls, 0, top);
                  assert k == FirstKey(a.calls);
                  a := a.(done := a.done + [a.calls[k]], calls := a.calls - {k});
                }
            }
          case Usage =>
          case Done => return;
          case StreamError(systemic) =>
            end := Broken(systemic);
            return;
        }
        n := n + 1;
      }
    }

    /** The loop over the calls of one round, in output order. */
    method ExecuteCalls(
        world: World, t0: Turn, calls: seq<Call>, ghost input: seq<Message>, ghost from: MessageId,
        ghost earlier: seq<Executed>, ghost asked: seq<Call>)
      returns (t: Turn, stop: Option<StopReason>, ghost executed: seq<Executed>)
      requires Agrees(t0, input, from, earlier) && t0.toolCalls == |earlier| <= maxToolCalls
      requires Dispatched(world, earlier, asked) && |earlier| == |asked|
      requires FailureRun(earlier) < maxConsecutiveFailures
      ensures Agrees(t, input, from, executed) && earlier <= executed && |executed| <= maxToolCalls
      ensures Dispatched(world, executed, asked + calls) && Others(t.conversation) == Others(t0.conversation)
      ensures stop.None? ==>
                t.toolCalls == |executed| == |earlier| + |calls| && FailureRun(executed) < maxConsecutiveFailures
      ensures stop.Some? ==>
                || (stop.value == ToolCallLimit && |executed| == maxToolCalls && t.toolCalls == maxToolCalls + 1
                    && |executed| < |asked + calls| && FailureRun(executed) < maxConsecutiveFailures)
                || (stop.value == ConsecutiveFailures && t.toolCalls == |executed|
                    && FailureRun(executed) == maxConsecutiveFailures)
    {
      hide Agrees, FailureRun, Dispatched, Others;
      t, stop, executed := t0, None, earlier;
      DispatchedOf(world, executed, asked, calls);
      var n := 0;
      while n < |calls|
        invariant 0 <= n <= |calls| && stop.None?
        invariant Agrees(t, input, from, executed) && earlier <= executed
        invariant Dispatched(world, executed, asked + calls) && Others(t.conversation) == Others(t0.conversation)
        invariant t.toolCalls == |executed| == |earlier| + n <= maxToolCalls
        invariant FailureRun(executed) < maxConsecutiveFailures
      {
        t := t.(toolCalls := t.toolCalls + 1);
        if t.toolCalls > maxToolCalls {
          stop := Some(ToolCallLimit);
          AgreesAnyCount(t.(toolCalls := t.toolCalls - 1), input, from, executed, t.toolCalls);
          return;
        }
        var e := Carried(world, t.toolCalls, calls[n]);
        assert calls[n] == (asked + calls)[|executed|];
        OneMoreDispatched(world, executed, asked + calls);
        var before := t.(toolCalls := t.toolCalls - 1);
        CallAgrees(before, input, from, executed, e, world.clock(t.next));
        OthersSnoc(t.conversation, t.next, KindOf(e), world.clock(t.next));
        AgreesFailures(before, input, from, executed);
        var failures, code := t.consecutiveFailures, t.lastCode;
        if e.result.Ok? {
          failures := 0;
        } else {
          failures := if code == Some(e.result.error.code) then failures + 1 else 1;
          code := Some(e.result.error.code);
        }
        t := Turn(Below(t.conversation, t.next, KindOf(e), world.clock(t.next)), t.toolCalls, failures, code,
          t.next + 1);
        executed := executed + [e];
        AgreesFailures(t, input, from, executed);
        if e.result.Err? && failures >= maxConsecutiveFailures {
          stop := Some(ConsecutiveFailures);
          return;
        }
        n := n + 1;
      }
    }

    /** maybe_compact: at three quarters of the context window everything but the last messages is replaced by
        a summary, unless there is nothing to summarise or the summariser twice returns nothing. */
    method MaybeCompact(world: World, conversation: seq<Message>, next: MessageId)
      returns (compaction: Option<Compaction>, after: seq<Message>)
      ensures compaction == CompactionAt(world, contextLimitTokens, compactionKeepLast, conversation, next)
      ensures after == if compaction.None? then conversation
                       else Compacted(conversation, compaction.value.summarized, compaction.value.summary)
    {
      compaction, after := None, conversation;
      var totalChars := 0;
      var n := 0;
      while n < |conversation|
        invariant 0 <= n <= |conversation|
        invariant totalChars + TotalChars(conversation[n..]) == TotalChars(conversation)
      {
        assert conversation[n..][1..] == conversation[n + 1..];
        totalChars := totalChars + MessageChars(conversation[n]);
        n := n + 1;
      }
      if totalChars / 2 + 1 < contextLimitTokens * 3 / 4 {
        return;
      }
      var keepFrom := if |conversation| > compactionKeepLast then |conversation| - compactionKeepLast else 0;
      if keepFrom == 0 {
        return;
      }
      var summary := world.summarize(conversation[..keepFrom], 0);
      if Trim(summary) == "" {
        summary := world.summarize(conversation[..keepFrom], 1);
      }
      if Trim(summary) == "" || keepFrom == |conversation| {
        return;
      }
      var sys := Message(next, None, System(SUMMARY_PREFIX + Trim(summary), None), world.clock(next));
      compaction := Some(CompactionOf(conversation, keepFrom, sys));
      after := Compacted(conversation, keepFrom, sys);
    }

    /** Opening the model stream; a transient error is retried once. None: the stream is open. */
    method OpenStream(r: Round) returns (stop: Option<Result<StopReason, LoopError>>)
      ensures stop == None <==> Opens(r)
      ensures stop == Some(Ok(InternalAbort)) <==> OpeningSystemic(r)
      ensures stop == Some(Ok(UserAborted)) <==> OpeningCancelled(r)
      ensures stop == Some(Err(ModelError)) <==> OpeningFails(r)
    {
      if r.first.Opened? {
        return None;
      }
      if r.first.Transient? {
        if r.cancelledInRetry {
          return Some(Ok(UserAborted));
        }
        match r.second {
          case Opened => return None;
          case Systemic => return Some(Ok(InternalAbort));
          case Cancelled => return Some(Ok(UserAborted));
          case Transient => return Some(Err(ModelError));
        }
      }
      stop := Some(Ok(if r.first.Systemic? then InternalAbort else UserAborted));
    }

    /** run_turn. The loop ends because every further round has carried out at least one tool call. */
    method RunTurn(world: World, ownId: MessageId -> string, input: seq<Message>, from: MessageId)
      returns (outcome: Result<Outcome, LoopError>, ghost full: seq<Message>, ghost executed: seq<Executed>,
               rounds: nat, ghost next: MessageId, ghost last: nat)
      requires input != [] && maxConsecutiveFailures >= 1
      ensures Grows(input, full, from, next) && ToolKinds(full) == ToolKinds(input) + Kinds(executed)
      ensures |executed| <= maxToolCalls && rounds <= maxToolCalls + 1
      ensures Dispatched(world, executed, Asked(world, ownId, rounds))
      ensures rounds > 0 ==> |Asked(world, ownId, rounds - 1)| <= |executed|
      ensures StopsAs(world, ownId, world.rounds(last), Reason(outcome))
      ensures forall k :: 0 <= k < last ==> AsksForCalls(world, ownId, world.rounds(k))
      ensures rounds == last + (if Starts(world.rounds(last)) then 1 else 0)
      ensures !AsksForCalls(world, ownId, world.rounds(last)) ==> |executed| == |Asked(world, ownId, last)|
      ensures Said(input, full,
                AllItems(world, last + if Starts(world.rounds(last)) && Opens(world.rounds(last)) then 1 else 0), ownId)
      ensures outcome.Ok? ==>
                var o := outcome.value;
                && (o.stopReason == Natural ==> rounds > 0 && |executed| == |Asked(world, ownId, rounds)|)
                && (o.stopReason == ToolCallLimit ==> |executed| < |Asked(world, ownId, rounds)|)
                && (o.stopReason == ConsecutiveFailures <==> FailureRun(executed) == maxConsecutiveFailures)
                && (o.stopReason == ToolCallLimit ==> |executed| == maxToolCalls)
                && o.toolCalls == |executed| + (if o.stopReason == ToolCallLimit then 1 else 0)
                && Reports(o, input, full, next)
                && (o.compaction == CompactionAt(world, contextLimitTokens, compactionKeepLast, full, next)
                    || (o.stopReason == InternalAbort && o.compaction == None))
    {
      hide Grows, ToolKinds, Kinds, FailureRun, NewMessages, Ids, Agrees, Tidy, Compacted, Dispatched, Assemble,
        Nearly, TotalChars;
      hide Asked, CallsOf, Reports, CompactionAt, Carried, Opens, OpeningCancelled, OpeningSystemic, OpeningFails,
        Completes, Fails, Said, AllItems, Others;
      NoneDispatched(world, ownId);
      var t := Turn(input, 0, 0, None, from);
      StartAgrees(input, from);
      NothingSaid(input, ownId, world);
      executed, rounds, last := [], 0, 0;
      var reason: StopReason;
      while true
        invariant Agrees(t, input, from, executed)
        invariant t.toolCalls == |executed| <= maxToolCalls && FailureRun(executed) < maxConsecutiveFailures
        invariant rounds <= |executed| == |Asked(world, ownId, rounds)|
        invariant Dispatched(world, executed, Asked(world, ownId, rounds))
        invariant rounds > 0 ==> |Asked(world, ownId, rounds - 1)| <= |executed|
        invariant forall k :: 0 <= k < rounds ==> AsksForCalls(world, ownId, world.rounds(k))
        invariant Said(input, t.conversation, AllItems(world, rounds), ownId)
        decreases maxToolCalls - t.toolCalls
      {
        AgreesMeans(t, input, from, executed);
        var r := world.rounds(rounds);
        last := rounds;
        if r.cancelledBefore {
          reason := UserAborted;
          break;
        }
        if r.timedOut {
          reason := TurnTimeout;
          break;
        }
        ghost var asked := Asked(world, ownId, rounds);
        AskedNext(world, ownId, rounds, executed);
        rounds := rounds + 1;
        var closed := OpenStream(r);
        OpeningIs(r);
        if closed.Some? {
          OpeningStops(world, ownId, r, closed.value);
          if closed.value.Err? {
            outcome, full, next := Err(closed.value.error), t.conversation, t.next;
            assert Reason(outcome) == closed.value;
            return;
          }
          reason := closed.value.value;
          break;
        }
        CallsAre(world, ownId, t.conversation, t.next, r.chunks);
        var a0 := Assembly(t.conversation, None, None, map[], [], t.next);
        StartTidy(t, input, from, executed);
        MoreSaid(input, a0, world, last, ownId);
        var a, end := ReadStream(a0, r.chunks, world, ownId, input, from);
        ReadAgrees(t, a, input, from, executed);
        EndIs(a0, r.chunks, world.clock, ownId);
        t := t.(conversation := a.conversation, next := a.next);
        AgreesMeans(t, input, from, executed);
        if end.Broken? {
          BreakStops(world, ownId, a0, r, end.systemic);
          full, next := t.conversation, t.next;
          ReportsAll(input, full, next, InternalAbort, t.toolCalls);
          outcome := if end.systemic
                     then Ok(Outcome(NewMessages(t.conversation, Ids(input)), InternalAbort, t.toolCalls, None))
                     else Err(ModelError);
          assert Reason(outcome) == if end.systemic then Ok(InternalAbort) else Err(ModelError);
          return;
        }
        if r.cancelledAfter {
          reason := UserAborted;
          break;
        }
        if a.done == [] {
          reason := Natural;
          break;
        }
        var stop;
        ghost var spoken := t.conversation;
        t, stop, executed := ExecuteCalls(world, t, a.done, input, from, executed, asked);
        StillSaid(input, spoken, t.conversation, AllItems(world, rounds), ownId);
        AgreesMeans(t, input, from, executed);
        if stop.Some? {
          reason := stop.value;
          break;
        }
      }
      full, next := t.conversation, t.next;
      var o := Conclude(world, input, t, reason);
      outcome := Ok(o);
    }

    /** The end of run_turn, after the last round. */
    method Conclude(world: World, input: seq<Message>, t: Turn, reason: StopReason) returns (o: Outcome)
      ensures o.stopReason == reason && o.toolCalls == t.toolCalls
      ensures o.compaction == CompactionAt(world, contextLimitTokens, compactionKeepLast, t.conversation, t.next)
      ensures Reports(o, input, t.conversation, t.next)
    {
      hide NewMessages, Compacted, Ids, Reports, SummaryText, Nearly, TotalChars;
      var compaction, conversation := MaybeCompact(world, t.conversation, t.next);
      o := Outcome(NewMessages(conversation, Ids(input)), reason, t.toolCalls, compaction);
      if compaction.None? {
        ReportsAll(input, t.conversation, t.next, reason, t.toolCalls);
      } else {
        var keepFrom := |t.conversation| - compactionKeepLast;
        ReportsCompacted(input, t.conversation, t.next, reason, t.toolCalls, keepFrom, compaction.value);
      }
    }
  }

  // ---------- From the loop to the store ----------

  /** Ids from `from` on are in use nowhere in the session. */
  ghost predicate UnusedFrom(s: Session, from: MessageId) {
    forall m :: m in s.messages ==> m.id < from && (m.parent.Some? ==> m.parent.value < from)
  }

  lemma {:induction false} GrownPart(
      ms: seq<Message>, input: seq<Message>, full: seq<Message>, from: MessageId, next: MessageId)
    requires Grows(input, full, from, next)
    requires forall m :: m in ms ==> m.id < from && (m.parent.Some? ==> m.parent.value < from)
    ensures var added := full[|input|..];
            && full == input + added && NewIn(ms, added) && Follows(added, input[|input| - 1].id)
            && forall m :: m in added ==> from <= m.id < next
  {
    var added := full[|input|..];
    forall i | 0 <= i < |added| ensures added[i] == full[|input| + i] && Fresh(ms, added[i].id) {}
    forall i | 0 < i < |added| ensures added[i].parent == Some(added[i - 1].id) {
      assert added[i] == full[|input| + i];
    }
  }

  lemma {:induction false} GrownTurn(s: Session, idNote: Message, full: seq<Message>, from: MessageId, next: MessageId)
    requires Good(s.messages) && s.active.Some? && Stored(s.messages, s.active.value)
    requires UnusedFrom(s, from) && idNote.id < from && Grows([idNote] + Path(s), full, from, next)
    ensures var added := full[|Path(s)| + 1..];
            && full == [idNote] + Path(s) + added && TurnOf(s, idNote, added)
            && forall m :: m in full ==> m.id != next
  {
    var path := Path(s);
    var input := [idNote] + path;
    var added := full[|input|..];
    GrownPart(s.messages, input, full, from, next);
    assert input[|input| - 1].id == s.active.value;
    forall m | m in path ensures m.id < from {
      PathMember(s, m);
    }
    hide NewIn, Follows, IsChain, Find, Ranked, UniqueIds, Path;
    assert from <= next by {
      assert Grows(input, full, from, next);
    }
    assert forall m :: m in input + added ==> m in path || m in added || m == idNote;
  }

  /** The turn commits what the loop saw: when a turn has started from the stored active path with the
      session-id message in front, committing its outcome makes the stored path exactly the loop's final
      conversation, leaving the session-id message aside. */
  lemma {:induction false} StoredPathIsConversation(
      s: Session, idNote: Message, full: seq<Message>, from: MessageId, next: MessageId, o: Outcome)
    requires Good(s.messages) && s.active.Some? && Stored(s.messages, s.active.value)
    requires UnusedFrom(s, from) && idNote.id < from
    requires Grows([idNote] + Path(s), full, from, next) && Reports(o, [idNote] + Path(s), full, next)
    ensures var t := Commit(s, o.messages, o.compaction);
            && Good(t.messages)
            && Path(t) == if o.compaction.None? then full[1..]
                          else Compacted(full, o.compaction.value.summarized, o.compaction.value.summary)
  {
    var added := full[|Path(s)| + 1..];
    GrownTurn(s, idNote, full, from, next);
    if o.compaction.None? {
      hide NewMessages, Persisted, Ids, IsChain, Compacted, Find, TurnOf, Grows;
      CommitWithoutCompaction(s, idNote, added);
    } else {
      var c := o.compaction.value;
      SummaryIsFresh(s, idNote, added, c.summary, from);
      hide NewMessages, Persisted, Ids, IsChain, Compacted, Find, TurnOf, Grows, FreshSummary;
      CommitWithCompaction(s, idNote, added, c.summarized, c.summary);
    }
  }

  lemma {:induction false} SummaryIsFresh(
      s: Session, idNote: Message, added: seq<Message>, summary: Message, from: MessageId)
    requires Acyclic(s.messages) && UnusedFrom(s, from) && from <= summary.id && summary.parent.None?
    requires forall m :: m in [idNote] + Path(s) + added ==> m.id != summary.id
    ensures FreshSummary(s, idNote, added, summary)
  {
    FindIs(s.messages, summary.id);
  }

  /** Of the messages a turn has added, exactly those are stored that compaction has kept: all of them when it
      has not taken place, and otherwise the last keepLast ones. */
  lemma {:induction false} NewMessageStoredIff(
      world: World, limit: nat, keepLast: nat, s: Session, idNote: Message, full: seq<Message>,
      from: MessageId, next: MessageId, o: Outcome, i: nat)
    requires Good(s.messages) && s.active.Some? && Stored(s.messages, s.active.value)
    requires UnusedFrom(s, from) && idNote.id < from
    requires Grows([idNote] + Path(s), full, from, next) && Reports(o, [idNote] + Path(s), full, next)
    requires o.compaction.None? || o.compaction == CompactionAt(world, limit, keepLast, full, next)
    requires i < |full| - |Path(s)| - 1
    ensures var added := full[|Path(s)| + 1..];
            Stored(Commit(s, o.messages, o.compaction).messages, added[i].id)
            <==> o.compaction.None? || |added| - i <= keepLast
  {
    var added := full[|Path(s)| + 1..];
    GrownTurn(s, idNote, full, from, next);
    if o.compaction.None? {
      var t := Commit(s, o.messages, None);
      hide NewMessages, Persisted, Ids, IsChain, Find, TurnOf, Grows, Commit;
      CommitWithoutCompaction(s, idNote, added);
      assert Path(t)[|Path(s)| + i] == added[i];
      PathMember(t, added[i]);
      FindIs(t.messages, added[i].id);
    } else {
      var c := o.compaction.value;
      assert c.summarized == |full| - keepLast;
      SummaryIsFresh(s, idNote, added, c.summary, from);
      hide NewMessages, Persisted, Ids, IsChain, Compacted, Find, TurnOf, Grows, FreshSummary, CompactionAt;
      CompactedAwayIsNotStored(s, idNote, added, c.summarized, c.summary, i);
    }
  }

  // A turn that loses messages: seventeen answers to a question as long as the whole window.

  function Letters(n: nat): (s: string)
    ensures |s| == n
  {
    seq(n, i => 'x')
  }

  const QUESTION := Message(0, None, MessageKind.User(Letters(200_000), None, []), 0)
  const ID_NOTE := Message(1, None, System("id", None), 0)

  function Reply(i: nat): Message {
    Message(i + 2, Some(if i == 0 then 0 else i + 1), MessageKind.Assistant("x"), 0)
  }

  const REPLIES := seq(17, (i: nat) => Reply(i))
  const LONG_TURN: seq<Message> := [ID_NOTE] + [QUESTION] + REPLIES

  lemma {:induction false} BytesOfAscii(s: string)
    requires forall i :: 0 <= i < |s| ==> s[i] < '\U{80}'
    ensures Bytes(s) == |s|
  {
    if s != "" {
      BytesOfAscii(s[1..]);
    }
  }

  lemma {:induction false} LongTurnIsLong()
    ensures |LONG_TURN| == 19 && Nearly(TotalChars(LONG_TURN), 131_072)
  {
    BytesOfAscii(Letters(200_000));
    hide Letters;
    var rest := LONG_TURN[1..];
    assert rest[0] == QUESTION;
    assert MessageChars(QUESTION) == 200_000;
    assert TotalChars(rest) >= MessageChars(rest[0]);
    assert TotalChars(LONG_TURN) >= TotalChars(rest);
  }

  lemma {:induction false} LongTurnGrows()
    ensures Grows([ID_NOTE] + [QUESTION], LONG_TURN, 2, 100)
  {
    var input := [ID_NOTE] + [QUESTION];
    assert LONG_TURN[..|input|] == input;
    forall i | 2 <= i < 19 ensures LONG_TURN[i] == Reply(i - 2) {}
  }

  /** With the limits of the loop, this turn is compacted whenever the summariser answers, and the commit of
      what the loop then reports stores all its messages but the first two. */
  lemma {:induction false} LongTurnLosesMessages(world: World, o: Outcome)
    requires |LONG_TURN| == 19 && SummaryText(world, LONG_TURN[..4]) != ""
    requires o.compaction == CompactionAt(world, 131_072, 15, LONG_TURN, 100)
    requires Reports(o, [ID_NOTE] + [QUESTION], LONG_TURN, 100)
    ensures o.compaction.Some? && |REPLIES| == 17
    ensures var s := Session([QUESTION], Some(0));
            forall i :: 0 <= i < 17 ==>
              (Stored(Commit(s, o.messages, o.compaction).messages, REPLIES[i].id) <==> i >= 2)
  {
    var s := Session([QUESTION], Some(0));
    LongTurnIsLong();
    LongTurnGrows();
    OneMessageSession(s, QUESTION);
    assert LONG_TURN[2..] == REPLIES;
    assert UnusedFrom(s, 2);
    hide Nearly, TotalChars, SummaryText, Letters, Grows, Reports, UnusedFrom, Reply;
    assert o.compaction.Some?;
    forall i | 0 <= i < 17
      ensures Stored(Commit(s, o.messages, o.compaction).messages, REPLIES[i].id) <==> i >= 2
    {
      NewMessageStoredIff(world, 131_072, 15, s, ID_NOTE, LONG_TURN, 2, 100, o, i);
    }
  }
}
