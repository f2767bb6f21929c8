/** The two incremental event-stream parsers: the server's usage probe (server/src/relay/sse.rs) and
    the client's SseParser (src/kernel/plugin/model/responses.rs). Both read the format of section
    9.2.6 of the WHATWG HTML Living Standard with local deviations. */
module Sse {
  import opened Basics
  import opened RustText

  type Byte = b: int | 0 <= b < 256

  type Bytes = seq<Byte>

  const LF: Byte := 10
  const CR: Byte := 13
  const COLON: Byte := 58

  /** Lossy UTF-8 decoding of one line; every theorem holds for any decoder that treats the ASCII
      bytes that matter here as themselves. */
  type Decoder = Bytes -> string

  ghost predicate KeepsAscii(decode: Decoder) {
    && decode([]) == ""
    && (forall l: Bytes :: LF !in l ==> '\n' !in decode(l))
    && (forall l: Bytes :: decode(l + [CR]) == decode(l) + "\r")
    && (forall l: Bytes :: decode([COLON] + l) == ":" + decode(l))
  }

  // ---------- Text ----------

  function TrimCr(s: string): string {
    if s != "" && s[|s| - 1] == '\r' then TrimCr(s[..|s| - 1]) else s
  }

  // ---------- Lines to events ----------

  datatype Event = Event(name: string, data: string)

  /** The event under construction. */
  datatype Fields = Fields(event: string, data: string)

  const NO_FIELDS := Fields("", "")

  /** What one line does: the fields afterwards and the events it dispatches (at most one). */
  type LineFn = (Fields, string) -> (Fields, seq<Event>)

  function AppendData(data: string, part: string): string {
    (if data == "" then "" else data + "\n") + part
  }

  /** UsageProbe::line and dispatch. */
  function ServerLine(f: Fields, line: string): (Fields, seq<Event>) {
    if line == "" then
      if f.event == "" && f.data == "" then (f, []) else (NO_FIELDS, [Event(f.event, f.data)])
    else if line[0] == ':' then (f, [])
    else if "event:" <= line then (f.(event := Trim(line[6..])), [])
    else if "data:" <= line then (f.(data := AppendData(f.data, TrimStart(line[5..]))), [])
    else (f, [])
  }

  /** The loop body of SseParser::push_chunk; it has no case for comments. */
  function ClientLine(f: Fields, line: string): (Fields, seq<Event>) {
    if line == "" then
      if f.event != "" || f.data != "" then (NO_FIELDS, [Event(f.event, f.data)]) else (f, [])
    else if "event:" <= line then (f.(event := Trim(line[6..])), [])
    else if "data:" <= line then (f.(data := AppendData(f.data, Trim(line[5..]))), [])
    else (f, [])
  }

  function RunLines(step: LineFn, f: Fields, lines: seq<string>): (Fields, seq<Event>)
    decreases |lines|
  {
    if lines == [] then (f, []) else
      var (f1, now) := step(f, lines[0]);
      var (f2, later) := RunLines(step, f1, lines[1..]);
      (f2, now + later)
  }

  // ---------- Bytes to lines ----------

  /** The complete lines of a byte string, without their line feeds. */
  function CompleteLines(b: Bytes): seq<Bytes> {
    var p := IndexOf(b, LF);
    if p == |b| then [] else [b[..p]] + CompleteLines(b[p + 1..])
  }

  /** The bytes after the last line feed. */
  function Rest(b: Bytes): Bytes {
    var p := IndexOf(b, LF);
    if p == |b| then b else Rest(b[p + 1..])
  }

  function Texts(decode: Decoder, lines: seq<Bytes>): seq<string> {
    if lines == [] then [] else [TrimCr(decode(lines[0]))] + Texts(decode, lines[1..])
  }

  /** What a parser remembers between two chunks. */
  datatype Parser = Parser(buffer: Bytes, fields: Fields)

  const START := Parser([], NO_FIELDS)

  function Feed(decode: Decoder, step: LineFn, p: Parser, chunk: Bytes): (Parser, seq<Event>) {
    var all := p.buffer + chunk;
    var (f, events) := RunLines(step, p.fields, Texts(decode, CompleteLines(all)));
    (Parser(Rest(all), f), events)
  }

  function FeedAll(decode: Decoder, step: LineFn, p: Parser, chunks: seq<Bytes>): (Parser, seq<Event>)
    decreases |chunks|
  {
    if chunks == [] then (p, []) else
      var (p1, now) := Feed(decode, step, p, chunks[0]);
      var (p2, later) := FeedAll(decode, step, p1, chunks[1..]);
      (p2, now + later)
  }

  function Flatten(chunks: seq<Bytes>): Bytes {
    if chunks == [] then [] else chunks[0] + Flatten(chunks[1..])
  }

  /** The events of a whole stream. */
  function Events(decode: Decoder, step: LineFn, stream: Bytes): seq<Event> {
    Feed(decode, step, START, stream).1
  }

  // ---------- Chunk independence ----------

  lemma {:induction false} LinesSplit(a: Bytes, b: Bytes)
    ensures CompleteLines(a + b) == CompleteLines(a) + CompleteLines(Rest(a) + b)
    ensures Rest(a + b) == Rest(Rest(a) + b)
    ensures LF !in Rest(a)
  {
    var p := IndexOf(a, LF);
    if p < |a| {
      IndexOfAt(a + b, LF, p);
      hide IndexOf;
      assert (a + b)[..p] == a[..p] && (a + b)[p + 1..] == a[p + 1..] + b;
      LinesSplit(a[p + 1..], b);
      assert CompleteLines(a) == [a[..p]] + CompleteLines(a[p + 1..]);
    }
  }

  lemma {:induction false} IndexOfAt<T>(s: seq<T>, c: T, p: nat)
    requires p < |s| && s[p] == c && c !in s[..p]
    ensures IndexOf(s, c) == p
  {
    if p > 0 {
      assert s[0] == s[..p][0];
      assert s[1..][..p - 1] == s[..p][1..];
      IndexOfAt(s[1..], c, p - 1);
    }
  }

  lemma {:induction false} TextsAppend(decode: Decoder, a: seq<Bytes>, b: seq<Bytes>)
    ensures Texts(decode, a + b) == Texts(decode, a) + Texts(decode, b)
  {
    if a == [] {
      assert a + b == b;
    } else {
      assert (a + b)[1..] == a[1..] + b;
      TextsAppend(decode, a[1..], b);
    }
  }

  lemma {:induction false} RunLinesAppend(step: LineFn, f: Fields, a: seq<string>, b: seq<string>)
    ensures var (f1, e1) := RunLines(step, f, a);
            var (f2, e2) := RunLines(step, f1, b);
            RunLines(step, f, a + b) == (f2, e1 + e2)
    decreases |a|
  {
    if a == [] {
      assert a + b == b && [] + RunLines(step, f, b).1 == RunLines(step, f, b).1;
    } else {
      assert (a + b)[1..] == a[1..] + b;
      var (g, now) := step(f, a[0]);
      RunLinesAppend(step, g, a[1..], b);
      var (f1, e1) := RunLines(step, g, a[1..]);
      var (f2, e2) := RunLines(step, f1, b);
      assert now + (e1 + e2) == now + e1 + e2;
    }
  }

  /** Two chunks one after the other are as good as their concatenation. */
  lemma {:induction false} FeedSplit(decode: Decoder, step: LineFn, p: Parser, a: Bytes, b: Bytes)
    ensures var (p1, e1) := Feed(decode, step, p, a);
            var (p2, e2) := Feed(decode, step, p1, b);
            Feed(decode, step, p, a + b) == (p2, e1 + e2)
  {
    var first := p.buffer + a;
    assert p.buffer + (a + b) == first + b;
    LinesSplit(first, b);
    TextsAppend(decode, CompleteLines(first), CompleteLines(Rest(first) + b));
    RunLinesAppend(step, p.fields, Texts(decode, CompleteLines(first)), Texts(decode, CompleteLines(Rest(first) + b)));
  }

  /** However a stream is cut into chunks, the parser ends in the same state with the same events. */
  lemma {:induction false} ChunkIndependence(decode: Decoder, step: LineFn, p: Parser, chunks: seq<Bytes>)
    requires LF !in p.buffer
    ensures FeedAll(decode, step, p, chunks) == Feed(decode, step, p, Flatten(chunks))
    decreases |chunks|
  {
    if chunks == [] {
      assert p.buffer + [] == p.buffer;
      assert IndexOf(p.buffer, LF) == |p.buffer|;
    } else {
      var (p1, now) := Feed(decode, step, p, chunks[0]);
      LinesSplit(p.buffer + chunks[0], []);
      ChunkIndependence(decode, step, p1, chunks[1..]);
      FeedSplit(decode, step, p, chunks[0], Flatten(chunks[1..]));
    }
  }

  /** Bytes after the last line feed dispatch nothing: finish may drop them. */
  lemma {:induction false} UnfinishedLineIsSilent(decode: Decoder, step: LineFn, stream: Bytes, rest: Bytes)
    requires LF !in rest && (stream == [] || stream[|stream| - 1] == LF)
    ensures Events(decode, step, stream + rest) == Events(decode, step, stream)
  {
    LinesSplit(stream, rest);
    EndsClean(stream);
    assert [] + rest == rest && IndexOf(rest, LF) == |rest|;
    assert [] + stream == stream && [] + (stream + rest) == stream + rest;
    assert CompleteLines(stream) + [] == CompleteLines(stream);
  }

  lemma {:induction false} EndsClean(b: Bytes)
    requires b == [] || b[|b| - 1] == LF
    ensures Rest(b) == []
  {
    if b != [] {
      var p := IndexOf(b, LF);
      assert LF in b && b == b[..|b|];
      EndsClean(b[p + 1..]);
    }
  }

  // ---------- CRLF line ends and comments ----------

  /** An edit that must not matter: a carriage return before a line feed, or a comment line at a line
      boundary. An edit that does not apply leaves the stream alone. */
  datatype Edit = CrBefore(at: nat) | CommentAt(at: nat, text: Bytes)

  function Apply(stream: Bytes, edit: Edit): Bytes {
    match edit
    case CrBefore(at) =>
      if at < |stream| && stream[at] == LF then stream[..at] + [CR] + stream[at..] else stream
    case CommentAt(at, text) =>
      if at <= |stream| && (at == 0 || stream[at - 1] == LF) && LF !in text
      then stream[..at] + ([COLON] + text + [LF]) + stream[at..] else stream
  }

  function ApplyAll(stream: Bytes, edits: seq<Edit>): Bytes
    decreases |edits|
  {
    if edits == [] then stream else ApplyAll(Apply(stream, edits[0]), edits[1..])
  }

  ghost predicate SkipsComments(step: LineFn) {
    forall f, line :: line != "" && line[0] == ':' ==> step(f, line) == (f, [])
  }

  lemma {:induction false} BothSkipComments()
    ensures SkipsComments(ServerLine) && SkipsComments(ClientLine)
  {
    forall f, line: string | line != "" && line[0] == ':'
      ensures ServerLine(f, line) == (f, []) && ClientLine(f, line) == (f, [])
    {
      assert "event:"[0] == 'e' && "data:"[0] == 'd';
    }
  }

  lemma {:induction false} FirstLine(r: Bytes, b: Bytes)
    requires LF !in r
    ensures CompleteLines(r + ([LF] + b)) == [r] + CompleteLines(b)
  {
    var s: Bytes := r + ([LF] + b);
    assert s[..|r|] == r && s[|r| + 1..] == b;
    IndexOfAt(s, LF, |r|);
  }

  /** The lines of a stream with a line end after a: those of a, then its last line, then those of b. */
  lemma {:induction false} LinesAround(a: Bytes, b: Bytes)
    ensures CompleteLines(a + ([LF] + b)) == CompleteLines(a) + ([Rest(a)] + CompleteLines(b))
  {
    LinesSplit(a, [LF] + b);
    FirstLine(Rest(a), b);
  }

  lemma {:induction false} RestSnoc(a: Bytes, c: Byte)
    requires c != LF
    ensures CompleteLines(a + [c]) == CompleteLines(a) && Rest(a + [c]) == Rest(a) + [c]
  {
    LinesSplit(a, [c]);
    assert LF !in Rest(a) + [c];
    assert IndexOf(Rest(a) + [c], LF) == |Rest(a)| + 1;
  }

  lemma {:induction false} TrimCrSnoc(s: string)
    ensures TrimCr(s + "\r") == TrimCr(s)
  {
    assert (s + "\r")[..|s|] == s;
  }

  lemma {:induction false} TrimCrHead(s: string)
    requires s != "" && s[0] == ':'
    ensures TrimCr(s) != "" && TrimCr(s)[0] == ':'
  {
    if s[|s| - 1] == '\r' {
      TrimCrHead(s[..|s| - 1]);
    }
  }

  lemma {:induction false} StreamTexts(decode: Decoder, step: LineFn, stream: Bytes)
    ensures Events(decode, step, stream) == RunLines(step, NO_FIELDS, Texts(decode, CompleteLines(stream))).1
  {
    assert [] + stream == stream;
  }

  /** Replacing one line by a line with the same text changes nothing. */
  lemma {:induction false} SameText(decode: Decoder, a: seq<Bytes>, l: Bytes, m: Bytes, b: seq<Bytes>)
    requires TrimCr(decode(l)) == TrimCr(decode(m))
    ensures Texts(decode, a + ([l] + b)) == Texts(decode, a + ([m] + b))
  {
    TextsAppend(decode, a, [l] + b);
    TextsAppend(decode, a, [m] + b);
    assert ([l] + b)[1..] == b && ([m] + b)[1..] == b;
  }

  lemma {:induction false} CrIsInvisible(decode: Decoder, step: LineFn, a: Bytes, b: Bytes)
    requires KeepsAscii(decode)
    ensures Events(decode, step, a + [CR] + ([LF] + b)) == Events(decode, step, a + ([LF] + b))
  {
    LinesAround(a, b);
    LinesAround(a + [CR], b);
    RestSnoc(a, CR);
    TrimCrSnoc(decode(Rest(a)));
    SameText(decode, CompleteLines(a), Rest(a), Rest(a) + [CR], CompleteLines(b));
    StreamTexts(decode, step, a + [CR] + ([LF] + b));
    StreamTexts(decode, step, a + ([LF] + b));
  }

  /** A line that the parser skips in every state may be left out. */
  lemma {:induction false} SkippedLine(step: LineFn, f: Fields, a: seq<string>, t: string, b: seq<string>)
    requires forall g :: step(g, t) == (g, [])
    ensures RunLines(step, f, a + ([t] + b)).1 == RunLines(step, f, a + b).1
  {
    RunLinesAppend(step, f, a, [t] + b);
    RunLinesAppend(step, f, a, b);
    assert ([t] + b)[1..] == b;
    var g := RunLines(step, f, a).0;
    assert [] + RunLines(step, g, b).1 == RunLines(step, g, b).1;
  }

  lemma {:induction false} CleanSplit(a: Bytes, b: Bytes)
    requires a == [] || a[|a| - 1] == LF
    ensures CompleteLines(a + b) == CompleteLines(a) + CompleteLines(b)
  {
    hide CompleteLines, Rest;
    EndsClean(a);
    LinesSplit(a, b);
    assert [] + b == b;
  }

  lemma {:induction false} CommentLines(a: Bytes, c: Bytes, b: Bytes)
    requires (a == [] || a[|a| - 1] == LF) && LF !in c
    ensures CompleteLines(a + (c + [LF]) + b) == CompleteLines(a) + ([c] + CompleteLines(b))
    ensures CompleteLines(a + b) == CompleteLines(a) + CompleteLines(b)
  {
    hide CompleteLines;
    CleanSplit(a, b);
    CleanSplit(a, c + ([LF] + b));
    FirstLine(c, b);
    assert a + (c + [LF]) + b == a + (c + ([LF] + b));
  }

  lemma {:induction false} CommentIsInvisible(decode: Decoder, step: LineFn, a: Bytes, text: Bytes, b: Bytes)
    requires KeepsAscii(decode) && SkipsComments(step)
    requires (a == [] || a[|a| - 1] == LF) && LF !in text
    ensures Events(decode, step, a + ([COLON] + text + [LF]) + b) == Events(decode, step, a + b)
  {
    hide Events, CompleteLines, RunLines;
    var c: Bytes := [COLON] + text;
    var al, bl := CompleteLines(a), CompleteLines(b);
    CommentLines(a, c, b);
    var t := TrimCr(decode(c));
    TrimCrHead(decode(c));
    TextsAppend(decode, al, bl);
    TextsAppend(decode, al, [c] + bl);
    assert ([c] + bl)[1..] == bl;
    SkippedLine(step, NO_FIELDS, Texts(decode, al), t, Texts(decode, bl));
    StreamTexts(decode, step, a + (c + [LF]) + b);
    StreamTexts(decode, step, a + b);
  }

  lemma {:induction false} EditIsInvisible(decode: Decoder, step: LineFn, stream: Bytes, edit: Edit)
    requires KeepsAscii(decode) && SkipsComments(step)
    ensures Events(decode, step, Apply(stream, edit)) == Events(decode, step, stream)
  {
    hide Events;
    if Apply(stream, edit) != stream {
      var at := edit.at;
      assert stream == stream[..at] + stream[at..];
      if edit.CrBefore? {
        assert stream[at..] == [LF] + stream[at + 1..];
        CrIsInvisible(decode, step, stream[..at], stream[at + 1..]);
      } else {
        CommentIsInvisible(decode, step, stream[..at], edit.text, stream[at..]);
      }
    }
  }

  /** Any number of such edits leaves the events of the stream as they were. */
  lemma {:induction false} EditsAreInvisible(decode: Decoder, step: LineFn, stream: Bytes, edits: seq<Edit>)
    requires KeepsAscii(decode) && SkipsComments(step)
    ensures Events(decode, step, ApplyAll(stream, edits)) == Events(decode, step, stream)
    decreases |edits|
  {
    if edits != [] {
      EditIsInvisible(decode, step, stream, edits[0]);
      EditsAreInvisible(decode, step, Apply(stream, edits[0]), edits[1..]);
    }
  }

  /** Neither parser notices CRLF line ends or comment lines, wherever and however often they occur. */
  lemma {:induction false} CrlfAndCommentsAreInvisible(decode: Decoder, stream: Bytes, edits: seq<Edit>)
    requires KeepsAscii(decode)
    ensures Events(decode, ServerLine, ApplyAll(stream, edits)) == Events(decode, ServerLine, stream)
    ensures Events(decode, ClientLine, ApplyAll(stream, edits)) == Events(decode, ClientLine, stream)
  {
    BothSkipComments();
    EditsAreInvisible(decode, ServerLine, stream, edits);
    EditsAreInvisible(decode, ClientLine, stream, edits);
  }

  // ---------- The two parsers agree ----------

  /** Every line of the text with its trailing white space removed. */
  function TrimLines(s: string): string {
    var p := IndexOf(s, '\n');
    if p == |s| then TrimEnd(s) else TrimEnd(s[..p]) + "\n" + TrimLines(s[p + 1..])
  }

  function TrimEvents(events: seq<Event>): seq<Event> {
    if events == [] then [] else [Event(events[0].name, TrimLines(events[0].data))] + TrimEvents(events[1..])
  }

  lemma {:induction false} TrimEventsAppend(a: seq<Event>, b: seq<Event>)
    ensures TrimEvents(a + b) == TrimEvents(a) + TrimEvents(b)
  {
    if a == [] {
      assert a + b == b;
    } else {
      assert (a + b)[1..] == a[1..] + b;
      TrimEventsAppend(a[1..], b);
    }
  }

  lemma {:induction false} TrimLinesAppend(d: string, part: string)
    requires '\n' !in part
    ensures TrimLines(d + "\n" + part) == TrimLines(d) + "\n" + TrimEnd(part)
  {
    hide TrimEnd, IndexOf;
    var whole := d + "\n" + part;
    var p := IndexOf(d, '\n');
    IndexOfAt(whole, '\n', p);
    assert whole[..p] == d[..p];
    if p == |d| {
      assert whole[p + 1..] == part && IndexOf(part, '\n') == |part| && d[..p] == d;
      assert TrimLines(whole) == TrimEnd(d[..p]) + "\n" + TrimLines(part);
    } else {
      assert whole[p + 1..] == d[p + 1..] + "\n" + part;
      TrimLinesAppend(d[p + 1..], part);
      assert TrimLines(whole) == TrimEnd(d[..p]) + "\n" + (TrimLines(d[p + 1..]) + "\n" + TrimEnd(part));
    }
  }

  /** The client's fields are the server's with trailing white space removed from each data line. */
  ghost predicate Agree(server: Fields, client: Fields) {
    && server.event == client.event
    && client.data == TrimLines(server.data)
    && (server.data != "" ==> !IsSpace(server.data[0]))
  }

  lemma {:induction false} TrimLinesEmpty(d: string)
    requires d != "" ==> !IsSpace(d[0])
    ensures TrimLines(d) == "" <==> d == ""
  {
    var p := IndexOf(d, '\n');
    if d != "" {
      assert d[..p] != "" && !IsSpace(d[..p][0]);
      assert TrimEnd(d[..p]) != "";
    }
  }

  lemma {:induction false} AgreeLine(server: Fields, client: Fields, line: string)
    requires Agree(server, client) && '\n' !in line
    ensures var (s, se) := ServerLine(server, line);
            var (c, ce) := ClientLine(client, line);
            Agree(s, c) && ce == TrimEvents(se)
  {
    TrimLinesEmpty(server.data);
    assert TrimLines("") == "";
    if line == "" {
      var e := Event(server.event, server.data);
      assert [e][1..] == [];
    } else if line[0] == ':' {
      BothSkipComments();
    } else if "event:" <= line {
    } else if "data:" <= line {
      var part := TrimStart(line[5..]);
      assert '\n' !in part;
      if server.data == "" {
        assert IndexOf(part, '\n') == |part|;
        assert "" + part == part;
      } else {
        TrimLinesAppend(server.data, part);
      }
    }
  }

  lemma {:induction false} AgreeLines(server: Fields, client: Fields, lines: seq<string>)
    requires Agree(server, client) && forall l :: l in lines ==> '\n' !in l
    ensures RunLines(ClientLine, client, lines).1 == TrimEvents(RunLines(ServerLine, server, lines).1)
    decreases |lines|
  {
    if lines != [] {
      AgreeLine(server, client, lines[0]);
      var (s, se) := ServerLine(server, lines[0]);
      var (c, ce) := ClientLine(client, lines[0]);
      AgreeLines(s, c, lines[1..]);
      TrimEventsAppend(se, RunLines(ServerLine, s, lines[1..]).1);
    }
  }

  lemma {:induction false} TextsHaveNoLf(decode: Decoder, stream: Bytes)
    requires KeepsAscii(decode)
    ensures forall l :: l in Texts(decode, CompleteLines(stream)) ==> '\n' !in l
  {
    var p := IndexOf(stream, LF);
    if p < |stream| {
      TextsHaveNoLf(decode, stream[p + 1..]);
      TrimCrPrefix(decode(stream[..p]));
    }
  }

  lemma {:induction false} TrimCrPrefix(s: string)
    ensures TrimCr(s) <= s
  {
    if s != "" && s[|s| - 1] == '\r' {
      TrimCrPrefix(s[..|s| - 1]);
    }
  }

  /** On every byte stream, in any chunks on either side, the client dispatches the server's events:
      as many, with the same names, and with data equal line by line up to trailing white space. */
  lemma {:induction false} ParsersAgree(decode: Decoder, serverChunks: seq<Bytes>, clientChunks: seq<Bytes>)
    requires KeepsAscii(decode) && Flatten(serverChunks) == Flatten(clientChunks)
    ensures FeedAll(decode, ClientLine, START, clientChunks).1
         == TrimEvents(FeedAll(decode, ServerLine, START, serverChunks).1)
  {
    var stream := Flatten(serverChunks);
    ChunkIndependence(decode, ServerLine, START, serverChunks);
    ChunkIndependence(decode, ClientLine, START, clientChunks);
    StreamTexts(decode, ServerLine, stream);
    StreamTexts(decode, ClientLine, stream);
    TextsHaveNoLf(decode, stream);
    assert TrimLines("") == "";
    AgreeLines(NO_FIELDS, NO_FIELDS, Texts(decode, CompleteLines(stream)));
  }

  // ---------- The parsers as the program runs them ----------

  /** What the probe has seen: whether any event, and what the protocol's observer made of them. */
  datatype ProbeResult<R> = ProbeResult(sawEvent: bool, seen: R)

  function Observe<R>(observe: (R, Event) -> R, r: ProbeResult<R>, events: seq<Event>): ProbeResult<R>
    decreases |events|
  {
    if events == [] then r else Observe(observe, ProbeResult(true, observe(r.seen, events[0])), events[1..])
  }

  lemma {:induction false} ObserveNone<R>(observe: (R, Event) -> R, r: ProbeResult<R>)
    ensures Observe(observe, r, []) == r
  {
  }

  lemma {:induction false} ObserveAppend<R>(observe: (R, Event) -> R, r: ProbeResult<R>, a: seq<Event>, b: seq<Event>)
    ensures Observe(observe, r, a + b) == Observe(observe, Observe(observe, r, a), b)
    decreases |a|
  {
    if a == [] {
      assert a + b == b;
    } else {
      assert (a + b)[1..] == a[1..] + b;
      ObserveAppend(observe, ProbeResult(true, observe(r.seen, a[0])), a[1..], b);
    }
  }

  /** The result after pushing the chunks one by one: each push parses its chunk and observes the
      events it completes. */
  function ProbeChunks<R>(decode: Decoder, observe: (R, Event) -> R, r: ProbeResult<R>, p: Parser, chunks: seq<Bytes>)
    : ProbeResult<R>
    decreases |chunks|
  {
    if chunks == [] then r else
      var (q, events) := Feed(decode, ServerLine, p, chunks[0]);
      ProbeChunks(decode, observe, Observe(observe, r, events), q, chunks[1..])
  }

  lemma {:induction false} ProbeIsFold<R>(
      decode: Decoder, observe: (R, Event) -> R, r: ProbeResult<R>, p: Parser, chunks: seq<Bytes>)
    ensures ProbeChunks(decode, observe, r, p, chunks)
         == Observe(observe, r, FeedAll(decode, ServerLine, p, chunks).1)
    decreases |chunks|
  {
    if chunks != [] {
      var (q, events) := Feed(decode, ServerLine, p, chunks[0]);
      ProbeIsFold(decode, observe, Observe(observe, r, events), q, chunks[1..]);
      ObserveAppend(observe, r, events, FeedAll(decode, ServerLine, q, chunks[1..]).1);
    }
  }

  lemma {:induction false} EditKeepsEnd(stream: Bytes, edit: Edit)
    requires stream == [] || stream[|stream| - 1] == LF
    ensures var s := Apply(stream, edit); s == [] || s[|s| - 1] == LF
  {
  }

  lemma {:induction false} EditsKeepEnd(stream: Bytes, edits: seq<Edit>)
    requires stream == [] || stream[|stream| - 1] == LF
    ensures var s := ApplyAll(stream, edits); s == [] || s[|s| - 1] == LF
    decreases |edits|
  {
    hide Apply;
    if edits != [] {
      EditKeepsEnd(stream, edits[0]);
      EditsKeepEnd(Apply(stream, edits[0]), edits[1..]);
    }
  }

  /** The probe's result, for any observer: it depends only on the complete lines of the stream, not on
      the chunks, the unfinished end, CRLF line ends or comment lines; and an event was seen exactly
      when one was dispatched. */
  lemma {:induction false} ProbeDependsOnLinesOnly<R>(decode: Decoder, observe: (R, Event) -> R, zero: R, stream: Bytes,
      edits: seq<Edit>, rest1: Bytes, rest2: Bytes, chunks1: seq<Bytes>, chunks2: seq<Bytes>)
    requires KeepsAscii(decode)
    requires (stream == [] || stream[|stream| - 1] == LF) && LF !in rest1 && LF !in rest2
    requires Flatten(chunks1) == stream + rest1 && Flatten(chunks2) == ApplyAll(stream, edits) + rest2
    ensures var none := ProbeResult(false, zero);
            var r := ProbeChunks(decode, observe, none, START, chunks1);
            && r == ProbeChunks(decode, observe, none, START, chunks2)
            && r == Observe(observe, none, Events(decode, ServerLine, stream))
            && (r.sawEvent <==> Events(decode, ServerLine, stream) != [])
  {
    var none := ProbeResult(false, zero);
    var edited := ApplyAll(stream, edits);
    ProbeIsFold(decode, observe, none, START, chunks1);
    ProbeIsFold(decode, observe, none, START, chunks2);
    ChunkIndependence(decode, ServerLine, START, chunks1);
    ChunkIndependence(decode, ServerLine, START, chunks2);
    UnfinishedLineIsSilent(decode, ServerLine, stream, rest1);
    EditsKeepEnd(stream, edits);
    UnfinishedLineIsSilent(decode, ServerLine, edited, rest2);
    CrlfAndCommentsAreInvisible(decode, stream, edits);
    SawEvent(observe, none, Events(decode, ServerLine, stream));
  }

  lemma {:induction false} SawEvent<R>(observe: (R, Event) -> R, r: ProbeResult<R>, events: seq<Event>)
    ensures Observe(observe, r, events).sawEvent <==> r.sawEvent || events != []
    decreases |events|
  {
    if events != [] {
      SawEvent(observe, ProbeResult(true, observe(r.seen, events[0])), events[1..]);
    }
  }

  /** The state and events of a buffer that has just been extended. */
  function Drain(decode: Decoder, step: LineFn, p: Parser): (Parser, seq<Event>) {
    Feed(decode, step, p, [])
  }

  lemma {:induction false} FeedIsDrain(decode: Decoder, step: LineFn, p: Parser, chunk: Bytes)
    ensures Feed(decode, step, p, chunk) == Drain(decode, step, p.(buffer := p.buffer + chunk))
  {
    assert p.buffer + chunk + [] == p.buffer + chunk;
  }

  /** Consuming the first complete line of the buffer. */
  lemma {:induction false} DrainLine(decode: Decoder, step: LineFn, p: Parser, at: nat)
    requires at == IndexOf(p.buffer, LF) && at < |p.buffer|
    ensures var (f, now) := step(p.fields, TrimCr(decode(p.buffer[..at])));
            var (q, later) := Drain(decode, step, Parser(p.buffer[at + 1..], f));
            Drain(decode, step, p) == (q, now + later)
  {
    assert p.buffer + [] == p.buffer && p.buffer[at + 1..] + [] == p.buffer[at + 1..];
    var text := TrimCr(decode(p.buffer[..at]));
    var later := Texts(decode, CompleteLines(p.buffer[at + 1..]));
    assert ([text] + later)[1..] == later;
    assert ([p.buffer[..at]] + CompleteLines(p.buffer[at + 1..]))[1..] == CompleteLines(p.buffer[at + 1..]);
  }

  lemma {:induction false} DrainIdle(decode: Decoder, step: LineFn, p: Parser)
    requires IndexOf(p.buffer, LF) == |p.buffer|
    ensures Drain(decode, step, p) == (p, [])
  {
    assert p.buffer + [] == p.buffer;
  }

  /** UsageProbe: parses while the bytes are relayed and keeps only the unfinished line. */
  class UsageProbe<R(0)> {
    const decode: Decoder
    const observe: (R, Event) -> R
    var buffer: Bytes
    var event: string
    var data: string
    var result: ProbeResult<R>

    constructor (decode: Decoder, observe: (R, Event) -> R, zero: R)
      ensures this.decode == decode && this.observe == observe
      ensures State() == START && result == ProbeResult(false, zero)
    {
      this.decode := decode;
      this.observe := observe;
      buffer, event, data := [], "", "";
      result := ProbeResult(false, zero);
    }

    ghost function State(): Parser
      reads this
    {
      Parser(buffer, Fields(event, data))
    }

    method Push(chunk: Bytes)
      modifies this
      ensures var (p, events) := Feed(decode, ServerLine, old(State()), chunk);
              State() == p && result == Observe(observe, old(result), events)
    {
      hide Drain, Feed, ServerLine, Observe, IndexOf, TrimCr;
      FeedIsDrain(decode, ServerLine, State(), chunk);
      buffer := buffer + chunk;
      ghost var goal := Drain(decode, ServerLine, State());
      ghost var done: seq<Event> := [];
      ObserveNone(observe, result);
      var at := IndexOf(buffer, LF);
      while at < |buffer|
        invariant at == IndexOf(buffer, LF)
        invariant goal.0 == Drain(decode, ServerLine, State()).0
        invariant goal.1 == done + Drain(decode, ServerLine, State()).1
        invariant result == Observe(observe, old(result), done)
        decreases |buffer|
      {
        DrainLine(decode, ServerLine, State(), at);
        var line := TrimCr(decode(buffer[..at]));
        buffer := buffer[at + 1..];
        ghost var now := ServerLine(Fields(event, data), line).1;
        Line(line);
        ObserveAppend(observe, old(result), done, now);
        done := done + now;
        at := IndexOf(buffer, LF);
      }
      DrainIdle(decode, ServerLine, State());
      assert done + [] == done;
    }

    method Line(line: string)
      modifies this
      ensures buffer == old(buffer)
      ensures var (f, events) := ServerLine(old(Fields(event, data)), line);
              Fields(event, data) == f && result == Observe(observe, old(result), events)
    {
      if line == "" {
        Dispatch();
        return;
      }
      if line[0] == ':' {
        return;
      }
      if "event:" <= line {
        event := Trim(line[6..]);
      } else if "data:" <= line {
        if data != "" {
          data := data + "\n";
        }
        data := data + TrimStart(line[5..]);
      }
    }

    method Dispatch()
      modifies this
      ensures buffer == old(buffer)
      ensures var (f, events) := ServerLine(old(Fields(event, data)), "");
              Fields(event, data) == f && result == Observe(observe, old(result), events)
    {
      if event == "" && data == "" {
        return;
      }
      var e := Event(event, data);
      event, data := "", "";
      result := ProbeResult(true, observe(result.seen, e));
      assert [e][1..] == [];
    }

    /** finish: the unfinished line is dropped. */
    method Finish() returns (r: ProbeResult<R>)
      modifies this
      ensures r == old(result) && buffer == []
    {
      buffer := [];
      r := result;
    }
  }

  /** SseParser: the client's parser, which returns the events of each chunk. */
  class SseParser {
    const decode: Decoder
    var buffer: Bytes
    var event: string
    var data: string

    constructor (decode: Decoder)
      ensures this.decode == decode && State() == START
    {
      this.decode := decode;
      buffer, event, data := [], "", "";
    }

    ghost function State(): Parser
      reads this
    {
      Parser(buffer, Fields(event, data))
    }

    method PushChunk(bytes: Bytes) returns (events: seq<Event>)
      modifies this
      ensures (State(), events) == Feed(decode, ClientLine, old(State()), bytes)
    {
      hide Drain, Feed, ClientLine, IndexOf, TrimCr;
      FeedIsDrain(decode, ClientLine, State(), bytes);
      buffer := buffer + bytes;
      ghost var goal := Drain(decode, ClientLine, State());
      events := [];
      var at := IndexOf(buffer, LF);
      while at < |buffer|
        invariant at == IndexOf(buffer, LF)
        invariant goal.0 == Drain(decode, ClientLine, State()).0
        invariant goal.1 == events + Drain(decode, ClientLine, State()).1
        decreases |buffer|
      {
        DrainLine(decode, ClientLine, State(), at);
        var line := TrimCr(decode(buffer[..at]));
        buffer := buffer[at + 1..];
        var now := TakeLine(line);
        events := events + now;
        at := IndexOf(buffer, LF);
      }
      DrainIdle(decode, ClientLine, State());
      assert events + [] == events;
    }

    /** The body of the loop over the complete lines. */
    method TakeLine(line: string) returns (events: seq<Event>)
      modifies this
      ensures buffer == old(buffer)
      ensures (Fields(event, data), events) == ClientLine(old(Fields(event, data)), line)
    {
      events := [];
      if line == "" {
        if event != "" || data != "" {
          events := [Event(event, data)];
          event, data := "", "";
        }
      } else if "event:" <= line {
        event := Trim(line[6..]);
      } else if "data:" <= line {
        if data != "" {
          data := data + "\n";
        }
        data := data + Trim(line[5..]);
      }
    }
  }
}
