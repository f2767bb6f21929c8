/** Turning a stored conversation into model input items (src/kernel/plugin/model/mod.rs).
    With thinking on, the model service demands that every function call is preceded by the
    reasoning it came from, so the reasoning is repeated in front of parallel calls. */
module Replay {
  import opened Basics
  import opened Messages

  datatype Content = ImagePart(mime: string, dataBase64: string) | TextPart(text: string)

  datatype Thought = Thought(id: string, text: string)

  datatype Item =
    | UserItem(content: seq<Content>)
    | AssistantItem(text: string)
    | SystemItem(text: string)
    | ReasoningItem(thought: Thought)
    | CallItem(callId: string, name: string, arguments: Json)
    | OutputItem(callId: string, output: Result<Json, ToolError>)

  /** The parts of the source that are pure text: printing a message id and the wire name of a tool. */
  datatype Names = Names(idText: MessageId -> string, wire: string -> string)

  // ---------- Specification: one message at a time ----------

  /** The two loop variables: the reasoning to repeat, and how many calls have used it. */
  datatype Cursor = Cursor(pending: Option<Thought>, calls: nat)

  function UserContent(text: string, attachments: seq<Attachment>): seq<Content> {
    var images := seq(|attachments|, i requires 0 <= i < |attachments| =>
      ImagePart(attachments[i].mime, attachments[i].dataBase64));
    if text != "" || images == [] then images + [TextPart(text)] else images
  }

  function CallIdOf(names: Names, m: Message): string
    requires m.kind.ToolCall?
  {
    if m.kind.callId == "" then names.idText(m.id) else m.kind.callId
  }

  function CallOf(names: Names, m: Message): Item
    requires m.kind.ToolCall?
  {
    CallItem(CallIdOf(names, m), names.wire(m.kind.entry), m.kind.params)
  }

  function OutputOf(names: Names, m: Message): Item
    requires m.kind.ToolCall?
  {
    OutputItem(CallIdOf(names, m), m.kind.result)
  }

  function Advance(c: Cursor, m: Message): Cursor {
    match m.kind
    case User(_, _, _) => Cursor(None, 0)
    case System(_, _) => Cursor(None, 0)
    case Assistant(_) => c
    case Reasoning(id, text) => Cursor(Some(Thought(id, text)), 0)
    case ToolCall(_, _, _, _) => c.(calls := c.calls + 1)
  }

  function ItemsOf(names: Names, c: Cursor, m: Message, thinking: bool): seq<Item> {
    match m.kind
    case User(text, _, attachments) => [UserItem(UserContent(text, attachments))]
    case Assistant(text) => [AssistantItem(text)]
    case System(text, _) => [SystemItem(text)]
    case Reasoning(id, text) => if thinking then [ReasoningItem(Thought(id, text))] else []
    case ToolCall(_, _, _, _) =>
      (if thinking && c.pending.Some? && c.calls > 0 then [ReasoningItem(c.pending.value)] else [])
      + [CallOf(names, m), OutputOf(names, m)]
  }

  function Build(names: Names, c: Cursor, ms: seq<Message>, thinking: bool): seq<Item>
    decreases |ms|
  {
    if ms == [] then [] else
      ItemsOf(names, c, ms[0], thinking) + Build(names, Advance(c, ms[0]), ms[1..], thinking)
  }

  function AdvanceAll(c: Cursor, ms: seq<Message>): Cursor
    decreases |ms|
  {
    if ms == [] then c else AdvanceAll(Advance(c, ms[0]), ms[1..])
  }

  function Input(names: Names, ms: seq<Message>, thinking: bool): seq<Item> {
    Build(names, Cursor(None, 0), ms, thinking)
  }

  // ---------- The loop of messages_to_responses_input_impl ----------

  lemma {:induction false} BuildSplit(names: Names, c: Cursor, a: seq<Message>, b: seq<Message>, thinking: bool)
    ensures Build(names, c, a + b, thinking)
         == Build(names, c, a, thinking) + Build(names, AdvanceAll(c, a), b, thinking)
    ensures AdvanceAll(c, a + b) == AdvanceAll(AdvanceAll(c, a), b)
    decreases |a|
  {
    if a == [] {
      assert a + b == b;
    } else {
      assert (a + b)[1..] == a[1..] + b;
      BuildSplit(names, Advance(c, a[0]), a[1..], b, thinking);
    }
  }

  lemma {:induction false} BuildSnoc(names: Names, ms: seq<Message>, n: nat, thinking: bool)
    requires n < |ms|
    ensures Input(names, ms[..n + 1], thinking)
         == Input(names, ms[..n], thinking) + ItemsOf(names, AdvanceAll(Cursor(None, 0), ms[..n]), ms[n], thinking)
    ensures AdvanceAll(Cursor(None, 0), ms[..n + 1]) == Advance(AdvanceAll(Cursor(None, 0), ms[..n]), ms[n])
  {
    assert ms[..n + 1] == ms[..n] + [ms[n]];
    BuildSplit(names, Cursor(None, 0), ms[..n], [ms[n]], thinking);
    assert [ms[n]][1..] == [];
  }

  method MessagesToResponsesInput(names: Names, messages: seq<Message>, includeReasoning: bool)
    returns (items: seq<Item>)
    ensures items == Input(names, messages, includeReasoning)
  {
    items := [];
    var pendingReasoning: Option<Thought> := None;
    var callsSinceReasoning := 0;
    var n := 0;
    while n < |messages|
      invariant 0 <= n <= |messages|
      invariant items == Input(names, messages[..n], includeReasoning)
      invariant callsSinceReasoning >= 0
      invariant Cursor(pendingReasoning, callsSinceReasoning) == AdvanceAll(Cursor(None, 0), messages[..n])
    {
      var msg := messages[n];
      BuildSnoc(names, messages, n, includeReasoning);
      match msg.kind {
        case User(text, _, attachments) =>
          pendingReasoning := None;
          callsSinceReasoning := 0;
          items := items + [UserItem(UserContent(text, attachments))];
        case Assistant(text) =>
          items := items + [AssistantItem(text)];
        case System(text, _) =>
          pendingReasoning := None;
          callsSinceReasoning := 0;
          items := items + [SystemItem(text)];
        case Reasoning(id, text) =>
          pendingReasoning := Some(Thought(id, text));
          callsSinceReasoning := 0;
          if includeReasoning {
            items := items + [ReasoningItem(Thought(id, text))];
          }
        case ToolCall(_, _, _, _) =>
          if includeReasoning && pendingReasoning.Some? && callsSinceReasoning > 0 {
            items := items + [ReasoningItem(pendingReasoning.value)];
          }
          callsSinceReasoning := callsSinceReasoning + 1;
          items := items + [CallOf(names, msg)];
          items := items + [OutputOf(names, msg)];
      }
      n := n + 1;
    }
    assert messages[..n] == messages;
  }

  // ---------- The fallback input is the full input without its reasoning ----------

  function WithoutReasoning(items: seq<Item>): seq<Item> {
    if items == [] then [] else
      (if items[0].ReasoningItem? then [] else [items[0]]) + WithoutReasoning(items[1..])
  }

  lemma {:induction false} WithoutReasoningAppend(a: seq<Item>, b: seq<Item>)
    ensures WithoutReasoning(a + b) == WithoutReasoning(a) + WithoutReasoning(b)
  {
    if a == [] {
      assert a + b == b;
    } else {
      assert (a + b)[1..] == a[1..] + b;
      WithoutReasoningAppend(a[1..], b);
    }
  }

  lemma {:induction false} FallbackIsFilter(names: Names, c: Cursor, ms: seq<Message>)
    ensures WithoutReasoning(Build(names, c, ms, true)) == Build(names, c, ms, false)
    decreases |ms|
  {
    if ms != [] {
      var head := ItemsOf(names, c, ms[0], true);
      WithoutReasoningAppend(head, Build(names, Advance(c, ms[0]), ms[1..], true));
      FallbackIsFilter(names, Advance(c, ms[0]), ms[1..]);
      assert WithoutReasoning(head) == ItemsOf(names, c, ms[0], false) by {
        if ms[0].kind.ToolCall? {
          var pair := [CallOf(names, ms[0]), OutputOf(names, ms[0])];
          assert pair[1..] == [OutputOf(names, ms[0])] && pair[1..][1..] == [];
          assert WithoutReasoning(pair[1..]) == pair[1..];
          assert pair == [pair[0]] + pair[1..];
          assert head == pair || (head[0].ReasoningItem? && head[1..] == pair);
        }
      }
    }
  }

  /** Dropping the reasoning items from the full input gives exactly the fallback input. */
  lemma {:induction false} NoReasoningInput(names: Names, ms: seq<Message>)
    ensures WithoutReasoning(Input(names, ms, true)) == Input(names, ms, false)
  {
    FallbackIsFilter(names, Cursor(None, 0), ms);
  }

  // ---------- The conversation can be read back ----------

  function Pictures(content: seq<Content>): seq<Attachment> {
    if content == [] then [] else
      (match content[0] case ImagePart(mime, data) => [Attachment(mime, data)] case TextPart(_) => [])
      + Pictures(content[1..])
  }

  function TextIn(content: seq<Content>): string {
    if content == [] then "" else
      (match content[0] case ImagePart(_, _) => "" case TextPart(text) => text) + TextIn(content[1..])
  }

  /** The messages that the items stand for; reasoning is left aside. */
  function ReadBack(items: seq<Item>): seq<MessageKind>
    decreases |items|
  {
    if items == [] then [] else
      match items[0]
      case UserItem(content) => [MessageKind.User(TextIn(content), None, Pictures(content))] + ReadBack(items[1..])
      case AssistantItem(text) => [MessageKind.Assistant(text)] + ReadBack(items[1..])
      case SystemItem(text) => [MessageKind.System(text, None)] + ReadBack(items[1..])
      case CallItem(callId, name, arguments) =>
        if |items| >= 2 && items[1].OutputItem? && items[1].callId == callId
        then [MessageKind.ToolCall(name, arguments, items[1].output, callId)] + ReadBack(items[2..])
        else ReadBack(items[1..])
      case _ => ReadBack(items[1..])
  }

  /** What the model is to know of a message: all but what is only displayed. A call goes by the wire name of
      its tool and by its call id, or by the id of its message when it has none. */
  function ToldOf(names: Names, m: Message): seq<MessageKind> {
    match m.kind
    case User(text, _, attachments) => [MessageKind.User(text, None, attachments)]
    case Assistant(text) => [MessageKind.Assistant(text)]
    case System(text, _) => [MessageKind.System(text, None)]
    case Reasoning(_, _) => []
    case ToolCall(entry, params, result, callId) =>
      var id := if callId == "" then names.idText(m.id) else callId;
      [MessageKind.ToolCall(names.wire(entry), params, result, id)]
  }

  function Told(names: Names, ms: seq<Message>): seq<MessageKind> {
    if ms == [] then [] else ToldOf(names, ms[0]) + Told(names, ms[1..])
  }

  function Images(attachments: seq<Attachment>): seq<Content> {
    seq(|attachments|, i requires 0 <= i < |attachments| =>
      ImagePart(attachments[i].mime, attachments[i].dataBase64))
  }

  lemma {:induction false} ImagesAreRead(attachments: seq<Attachment>, more: seq<Content>)
    ensures Pictures(Images(attachments) + more) == attachments + Pictures(more)
    ensures TextIn(Images(attachments) + more) == TextIn(more)
    decreases |attachments|
  {
    var content := Images(attachments) + more;
    if attachments == [] {
      assert content == more;
    } else {
      ImagesAreRead(attachments[1..], more);
      assert content[1..] == Images(attachments[1..]) + more;
      assert content[0] == ImagePart(attachments[0].mime, attachments[0].dataBase64);
    }
  }

  lemma {:induction false} UserIsRead(text: string, attachments: seq<Attachment>)
    ensures TextIn(UserContent(text, attachments)) == text
    ensures Pictures(UserContent(text, attachments)) == attachments
  {
    var images := Images(attachments);
    assert images + [] == images;
    assert [TextPart(text)][1..] == [];
    ImagesAreRead(attachments, []);
    ImagesAreRead(attachments, [TextPart(text)]);
    assert UserContent(text, attachments) == if text != "" || images == [] then images + [TextPart(text)] else images;
    assert text + "" == text && attachments + [] == attachments;
  }

  lemma {:induction false} CallIsRead(names: Names, m: Message, before: seq<Item>, more: seq<Item>)
    requires m.kind.ToolCall? && (before == [] || (|before| == 1 && before[0].ReasoningItem?))
    ensures ReadBack(before + [CallOf(names, m), OutputOf(names, m)] + more) == ToldOf(names, m) + ReadBack(more)
  {
    var pair := [CallOf(names, m), OutputOf(names, m)] + more;
    assert pair[2..] == more;
    var items := before + [CallOf(names, m), OutputOf(names, m)] + more;
    if before == [] {
      assert items == pair;
    } else {
      assert items[0] == before[0] && items[1..] == pair;
    }
  }

  lemma {:induction false} OneItemIsRead(item: Item, more: seq<Item>)
    requires !item.CallItem?
    ensures ReadBack([item] + more)
         == (match item
             case UserItem(content) => [MessageKind.User(TextIn(content), None, Pictures(content))]
             case AssistantItem(text) => [MessageKind.Assistant(text)]
             case SystemItem(text) => [MessageKind.System(text, None)]
             case _ => []) + ReadBack(more)
  {
    assert ([item] + more)[1..] == more;
    hide TextIn, Pictures;
  }

  lemma {:induction false} FirstIsRead(names: Names, c: Cursor, m: Message, thinking: bool, more: seq<Item>)
    ensures ReadBack(ItemsOf(names, c, m, thinking) + more) == ToldOf(names, m) + ReadBack(more)
  {
    var items := ItemsOf(names, c, m, thinking);
    if m.kind.User? {
      UserIsRead(m.kind.text, m.kind.attachments);
    }
    if m.kind.ToolCall? {
      var before := if thinking && c.pending.Some? && c.calls > 0 then [ReasoningItem(c.pending.value)] else [];
      CallIsRead(names, m, before, more);
    } else if items == [] {
      assert items + more == more;
    } else {
      OneItemIsRead(items[0], more);
      hide ReadBack, UserContent, TextIn, Pictures;
      assert items == [items[0]];
    }
  }

  lemma {:induction false} BuildIsRead(names: Names, c: Cursor, ms: seq<Message>, thinking: bool)
    ensures ReadBack(Build(names, c, ms, thinking)) == Told(names, ms)
    decreases |ms|
  {
    hide ReadBack, ItemsOf, ToldOf, Advance;
    if ms == [] {
      NothingIsRead();
    } else {
      var more := Build(names, Advance(c, ms[0]), ms[1..], thinking);
      BuildIsRead(names, Advance(c, ms[0]), ms[1..], thinking);
      FirstIsRead(names, c, ms[0], thinking, more);
    }
  }

  lemma {:induction false} NothingIsRead()
    ensures ReadBack([]) == []
  {
  }

  /** The items tell the whole conversation: from either input, with reasoning or without, every text, every
      picture, every call and every result of the conversation can be read back, in order. */
  lemma {:induction false} InputIsReadBack(names: Names, ms: seq<Message>, thinking: bool)
    ensures ReadBack(Input(names, ms, thinking)) == Told(names, ms)
  {
    BuildIsRead(names, Cursor(None, 0), ms, thinking);
  }

  // ---------- Calls and outputs come in pairs, in order ----------

  /** Every call is directly followed by an output with its id, and every output directly follows
      such a call. */
  ghost predicate Paired(items: seq<Item>) {
    && (forall k :: 0 <= k < |items| && items[k].CallItem? ==>
          k + 1 < |items| && items[k + 1].OutputItem? && items[k + 1].callId == items[k].callId)
    && (forall k :: 0 <= k < |items| && items[k].OutputItem? ==>
          k > 0 && items[k - 1].CallItem? && items[k - 1].callId == items[k].callId)
  }

  lemma {:induction false} BuildPaired(names: Names, c: Cursor, ms: seq<Message>, thinking: bool)
    ensures Paired(Build(names, c, ms, thinking))
    decreases |ms|
  {
    if ms != [] {
      var head := ItemsOf(names, c, ms[0], thinking);
      var tail := Build(names, Advance(c, ms[0]), ms[1..], thinking);
      BuildPaired(names, Advance(c, ms[0]), ms[1..], thinking);
      assert Paired(head);
      PairedAppend(head, tail);
    }
  }

  lemma {:induction false} PairedAppend(a: seq<Item>, b: seq<Item>)
    requires Paired(a) && Paired(b)
    ensures Paired(a + b)
  {
    var s: seq<Item> := a + b;
    forall k | 0 <= k < |s| && s[k].OutputItem?
      ensures k > 0 && s[k - 1].CallItem? && s[k - 1].callId == s[k].callId
    {
      if k < |a| {
        assert a[k].OutputItem?;
      } else {
        assert b[k - |a|].OutputItem?;
      }
    }
    forall k | 0 <= k < |s| && s[k].CallItem?
      ensures k + 1 < |s| && s[k + 1].OutputItem? && s[k + 1].callId == s[k].callId
    {
      if k < |a| {
        assert a[k].CallItem?;
      } else {
        assert b[k - |a|].CallItem?;
      }
    }
  }

  // ---------- Every call carries its reasoning ----------

  /** The reasoning a next call would be attached to: the last item other than assistant text, if it
      is a reasoning item. */
  function TailThought(items: seq<Item>): Option<Thought> {
    if items == [] then None
    else
      var last := items[|items| - 1];
      if last.ReasoningItem? then Some(last.thought)
      else if last.AssistantItem? then TailThought(items[..|items| - 1])
      else None
  }

  /** The latest reasoning of a history with no user or system message after it. */
  function LatestThought(ms: seq<Message>): Option<Thought> {
    if ms == [] then None
    else
      var last := ms[|ms| - 1].kind;
      if last.Reasoning? then Some(Thought(last.reasoningId, last.text))
      else if last.User? || last.System? then None
      else LatestThought(ms[..|ms| - 1])
  }

  lemma {:induction false} CursorThought(names: Names, ms: seq<Message>)
    ensures var c := AdvanceAll(Cursor(None, 0), ms);
            c.pending == LatestThought(ms)
            && TailThought(Input(names, ms, true)) == if c.calls == 0 then c.pending else None
  {
    if ms != [] {
      var n := |ms| - 1;
      CursorThought(names, ms[..n]);
      BuildSnoc(names, ms, n, true);
      assert ms[..n + 1] == ms;
      var before := Input(names, ms[..n], true);
      var added := ItemsOf(names, AdvanceAll(Cursor(None, 0), ms[..n]), ms[n], true);
      assert (before + added)[|before + added| - 1] == added[|added| - 1];
      if ms[n].kind.Assistant? {
        assert (before + added)[..|before + added| - 1] == before;
      }
    }
  }

  /** For every tool call ms[n] of every history the input holds, at position k, the call and its
      output, and what directly precedes the call, assistant text aside, is the latest reasoning of the
      same exchange; when there is none, no reasoning item stands there. */
  lemma {:induction false} CallCarriesThought(names: Names, ms: seq<Message>, n: nat) returns (k: nat)
    requires n < |ms| && ms[n].kind.ToolCall?
    ensures k == |Input(names, ms[..n + 1], true)| - 2
    ensures var items := Input(names, ms, true);
            && k + 1 < |items|
            && items[k] == CallOf(names, ms[n]) && items[k + 1] == OutputOf(names, ms[n])
            && TailThought(items[..k]) == LatestThought(ms[..n])
  {
    var start := Cursor(None, 0);
    var items := Input(names, ms, true);
    var upTo, head := Input(names, ms[..n + 1], true), Input(names, ms[..n], true);
    assert ms == ms[..n + 1] + ms[n + 1..];
    BuildSplit(names, start, ms[..n + 1], ms[n + 1..], true);
    BuildSnoc(names, ms, n, true);
    CursorThought(names, ms[..n]);
    k := |upTo| - 2;
    hide Build, AdvanceAll, LatestThought;
    assert items[..|upTo|] == upTo;
    assert items[..k] == upTo[..k];
    var c := AdvanceAll(start, ms[..n]);
    if c.pending.Some? && c.calls > 0 {
      assert upTo[..k] == head + [ReasoningItem(c.pending.value)];
    } else {
      assert upTo[..k] == head;
    }
  }
}
