/** Both event-stream parsers read back what a sender writes (server/src/relay/sse.rs,
    src/kernel/plugin/model/responses.rs). */
module SseRoundTrip {
  import opened Basics
  import opened RustText
  import opened Sse

  // ---------- What is written is read ----------

  /** An event as its sender has it: a name, which may be missing, and the lines of its data. */
  datatype Wire = Wire(name: string, lines: seq<string>)

  function Joined(lines: seq<string>): string {
    if lines == [] then ""
    else if |lines| == 1 then lines[0] else Joined(lines[..|lines| - 1]) + "\n" + lines[|lines| - 1]
  }

  function NameLine(gap: string, name: string): string {
    "event:" + gap + name
  }

  function DataLine(gap: string, data: string): string {
    "data:" + gap + data
  }

  function DataLines(lines: seq<string>, gap: string): seq<string> {
    if lines == [] then [] else [DataLine(gap, lines[0])] + DataLines(lines[1..], gap)
  }

  /** The lines of one event: the name if it has one, its data line by line, and a blank line. */
  function Written(w: Wire, gap: string): seq<string> {
    (if w.name == "" then [] else [NameLine(gap, w.name)]) + DataLines(w.lines, gap) + [""]
  }

  function AllWritten(wires: seq<Wire>, gap: string): seq<string> {
    if wires == [] then [] else Written(wires[0], gap) + AllWritten(wires[1..], gap)
  }

  function Sent(wires: seq<Wire>): seq<Event> {
    if wires == [] then [] else [Event(wires[0].name, Joined(wires[0].lines))] + Sent(wires[1..])
  }

  /** No white space at either end. */
  predicate Bare(s: string) {
    s != "" ==> !IsSpace(s[0]) && !IsSpace(s[|s| - 1])
  }

  /** There is something to send; the text is bare, and only lines after the first may be empty. */
  predicate Sendable(w: Wire) {
    && Bare(w.name) && (forall i :: 0 <= i < |w.lines| ==> Bare(w.lines[i]))
    && (w.lines != [] ==> w.lines[0] != "") && (w.name != "" || w.lines != [])
  }

  /** What it takes to read written events. */
  ghost predicate Reads(step: LineFn, gap: string) {
    && (forall f: Fields :: f != NO_FIELDS ==> step(f, "") == (NO_FIELDS, [Event(f.event, f.data)]))
    && (forall f: Fields, s: string :: Bare(s) ==> step(f, NameLine(gap, s)) == (f.(event := s), []))
    && (forall f: Fields, s: string :: Bare(s) ==>
          step(f, DataLine(gap, s)) == (f.(data := AppendData(f.data, s)), []))
  }

  lemma {:induction false} ReadsBlank(step: LineFn, gap: string, f: Fields)
    requires Reads(step, gap) && f != NO_FIELDS
    ensures step(f, "") == (NO_FIELDS, [Event(f.event, f.data)])
  {
  }

  lemma {:induction false} ReadsName(step: LineFn, gap: string, f: Fields, s: string)
    requires Reads(step, gap) && Bare(s)
    ensures step(f, NameLine(gap, s)) == (f.(event := s), [])
  {
  }

  lemma {:induction false} ReadsData(step: LineFn, gap: string, f: Fields, s: string)
    requires Reads(step, gap) && Bare(s)
    ensures step(f, DataLine(gap, s)) == (f.(data := AppendData(f.data, s)), [])
  {
  }

  lemma {:induction false} GapIsTrimmed(gap: string, s: string)
    requires Bare(s) && (gap == "" || gap == " ")
    ensures TrimStart(gap + s) == s && Trim(gap + s) == s
  {
    if gap == "" {
      assert gap + s == s;
    } else {
      assert (gap + s)[1..] == s;
    }
  }

  lemma {:induction false} FieldLine(field: string, gap: string, s: string)
    requires field == "event:" || field == "data:"
    ensures var line := field + gap + s;
            line != "" && line[0] == field[0] && field <= line && line[|field|..] == gap + s
            && (field == "data:" ==> !("event:" <= line))
  {
    var line := field + gap + s;
    assert line == field + (gap + s);
    if field == "data:" {
      assert line[0] == 'd' && "event:"[0] == 'e';
    }
  }

  lemma {:induction false} BothRead(gap: string)
    requires gap == "" || gap == " "
    ensures Reads(ServerLine, gap) && Reads(ClientLine, gap)
  {
    forall f: Fields, s: string | Bare(s)
      ensures ServerLine(f, NameLine(gap, s)) == (f.(event := s), [])
      ensures ClientLine(f, NameLine(gap, s)) == (f.(event := s), [])
    {
      FieldLine("event:", gap, s);
      GapIsTrimmed(gap, s);
      hide Trim, TrimStart, AppendData;
    }
    forall f: Fields, s: string | Bare(s)
      ensures ServerLine(f, DataLine(gap, s)) == (f.(data := AppendData(f.data, s)), [])
      ensures ClientLine(f, DataLine(gap, s)) == (f.(data := AppendData(f.data, s)), [])
    {
      FieldLine("data:", gap, s);
      GapIsTrimmed(gap, s);
      hide Trim, TrimStart, AppendData;
    }
  }

  lemma {:induction false} JoinedSnoc(lines: seq<string>, s: string)
    requires lines + [s] != [] && (lines + [s])[0] != ""
    ensures Joined(lines + [s]) == AppendData(Joined(lines), s) && Joined(lines + [s]) != ""
    decreases |lines|
  {
    var all := lines + [s];
    assert all[..|all| - 1] == lines;
    if lines == [] {
      assert "" + s == s;
    } else {
      var front := lines[..|lines| - 1];
      assert front + [lines[|lines| - 1]] == lines;
      JoinedSnoc(front, lines[|lines| - 1]);
    }
  }

  lemma {:induction false} DataIsRead(step: LineFn, gap: string, name: string, done: seq<string>, lines: seq<string>)
    requires Reads(step, gap) && forall i :: 0 <= i < |lines| ==> Bare(lines[i])
    requires done + lines != [] ==> (done + lines)[0] != ""
    ensures RunLines(step, Fields(name, Joined(done)), DataLines(lines, gap))
         == (Fields(name, Joined(done + lines)), [])
    decreases |lines|
  {
    hide Reads, RunLines, AppendData, DataLine, NameLine;
    if lines == [] {
      assert done + lines == done;
      NoLines(step, Fields(name, Joined(done)));
    } else {
      var next := done + [lines[0]];
      var f, g := Fields(name, Joined(done)), Fields(name, Joined(next));
      assert next + lines[1..] == done + lines && next[0] == (done + lines)[0];
      JoinedSnoc(done, lines[0]);
      assert Bare(lines[0]);
      hide Joined, Bare;
      ReadsData(step, gap, f, lines[0]);
      DataIsRead(step, gap, name, next, lines[1..]);
      OneMoreLine(step, f, g, DataLine(gap, lines[0]), DataLines(lines[1..], gap));
    }
  }

  lemma {:induction false} NoLines(step: LineFn, f: Fields)
    ensures RunLines(step, f, []) == (f, [])
  {
  }

  /** A line that dispatches nothing. */
  lemma {:induction false} OneMoreLine(step: LineFn, f: Fields, g: Fields, line: string, rest: seq<string>)
    requires step(f, line) == (g, [])
    ensures RunLines(step, f, [line] + rest) == RunLines(step, g, rest)
  {
    assert ([line] + rest)[1..] == rest;
    assert [] + RunLines(step, g, rest).1 == RunLines(step, g, rest).1;
  }

  lemma {:induction false} JoinedIsText(lines: seq<string>)
    requires lines != [] && lines[0] != ""
    ensures Joined(lines) != ""
  {
    var n := |lines| - 1;
    assert lines == lines[..n] + [lines[n]];
    JoinedSnoc(lines[..n], lines[n]);
  }

  /** The lines of one event are read as that event, and nothing is left over. */
  lemma {:induction false} EventIsRead(step: LineFn, gap: string, w: Wire)
    requires Reads(step, gap) && Sendable(w)
    ensures RunLines(step, NO_FIELDS, Written(w, gap)) == (NO_FIELDS, [Event(w.name, Joined(w.lines))])
  {
    hide Reads, Joined, Bare, DataLines, NameLine, RunLines;
    var body := DataLines(w.lines, gap) + [""];
    NameIsRead(step, gap, w.name, body);
    BodyIsRead(step, gap, w);
    hide *;
    WrittenIs(gap, w);
  }

  lemma {:induction false} WrittenIs(gap: string, w: Wire)
    ensures Written(w, gap)
         == (if w.name == "" then [] else [NameLine(gap, w.name)]) + (DataLines(w.lines, gap) + [""])
  {
    hide DataLines, NameLine;
  }

  lemma {:induction false} NameIsRead(step: LineFn, gap: string, name: string, rest: seq<string>)
    requires Reads(step, gap) && Bare(name)
    ensures RunLines(step, NO_FIELDS, (if name == "" then [] else [NameLine(gap, name)]) + rest)
         == RunLines(step, Fields(name, ""), rest)
  {
    if name == "" {
      assert [] + rest == rest;
    } else {
      ReadsName(step, gap, NO_FIELDS, name);
      hide Reads, NameLine, RunLines;
      OneMoreLine(step, NO_FIELDS, Fields(name, ""), NameLine(gap, name), rest);
    }
  }

  lemma {:induction false} BodyIsRead(step: LineFn, gap: string, w: Wire)
    requires Reads(step, gap) && Sendable(w)
    ensures RunLines(step, Fields(w.name, ""), DataLines(w.lines, gap) + [""])
         == (NO_FIELDS, [Event(w.name, Joined(w.lines))])
  {
    hide Reads, RunLines, DataLines;
    var full := Fields(w.name, Joined(w.lines));
    BodyIsSome(w);
    hide Joined, Bare, Sendable;
    DataIsRead(step, gap, w.name, [], w.lines);
    ReadsBlank(step, gap, full);
    OneLine(step, full, "");
    RunLinesAppend(step, Fields(w.name, ""), DataLines(w.lines, gap), [""]);
    assert [] + [Event(w.name, Joined(w.lines))] == [Event(w.name, Joined(w.lines))];
  }

  lemma {:induction false} BodyIsSome(w: Wire)
    requires Sendable(w)
    ensures Joined([]) == "" && [] + w.lines == w.lines && Fields(w.name, Joined(w.lines)) != NO_FIELDS
    ensures w.lines != [] ==> ([] + w.lines)[0] != ""
  {
    if w.lines != [] {
      JoinedIsText(w.lines);
    }
  }

  lemma {:induction false} OneLine(step: LineFn, f: Fields, line: string)
    ensures RunLines(step, f, [line]) == step(f, line)
  {
    var (g, events) := step(f, line);
    assert [line][1..] == [] && RunLines(step, g, []) == (g, []);
    assert events + [] == events;
  }

  /** A parser that reads the single lines reads the events, one after the other. */
  lemma {:induction false} EventsAreRead(step: LineFn, gap: string, wires: seq<Wire>)
    requires Reads(step, gap) && forall i :: 0 <= i < |wires| ==> Sendable(wires[i])
    ensures RunLines(step, NO_FIELDS, AllWritten(wires, gap)) == (NO_FIELDS, Sent(wires))
    decreases |wires|
  {
    if wires != [] {
      EventIsRead(step, gap, wires[0]);
      EventsAreRead(step, gap, wires[1..]);
      hide Reads, Sendable, Written;
      RunLinesAppend(step, NO_FIELDS, Written(wires[0], gap), AllWritten(wires[1..], gap));
    }
  }

  // ---------- On the wire ----------

  type Encoder = string -> Bytes

  function Encoded(encode: Encoder, lines: seq<string>): Bytes {
    if lines == [] then [] else encode(lines[0]) + [LF] + Encoded(encode, lines[1..])
  }

  /** The line survives encoding and decoding, and its bytes contain no line feed. */
  ghost predicate Travels(decode: Decoder, encode: Encoder, line: string) {
    decode(encode(line)) == line && LF !in encode(line)
  }

  lemma {:induction false} EncodedLines(decode: Decoder, encode: Encoder, lines: seq<string>)
    requires forall i :: 0 <= i < |lines| ==> Travels(decode, encode, lines[i]) && TrimCr(lines[i]) == lines[i]
    ensures Texts(decode, CompleteLines(Encoded(encode, lines))) == lines
  {
    if lines != [] {
      var bytes, rest := encode(lines[0]), Encoded(encode, lines[1..]);
      var all := bytes + [LF] + rest;
      assert Travels(decode, encode, lines[0]);
      assert all[..|bytes|] == bytes && all[|bytes|] == LF && all[|bytes| + 1..] == rest;
      IndexOfAt(all, LF, |bytes|);
      EncodedLines(decode, encode, lines[1..]);
      assert CompleteLines(all) == [bytes] + CompleteLines(rest);
      assert ([bytes] + CompleteLines(rest))[1..] == CompleteLines(rest);
    } else {
      assert CompleteLines([]) == [];
    }
  }

  lemma {:induction false} NoReturnAtEnd(gap: string, lines: seq<string>)
    requires gap == "" || gap == " "
    requires forall i :: 0 <= i < |lines| ==> Bare(lines[i])
    ensures forall l :: l in DataLines(lines, gap) ==> TrimCr(l) == l
  {
    if lines != [] {
      NoReturnAtEnd(gap, lines[1..]);
      assert Bare(lines[0]);
    }
  }

  lemma {:induction false} WrittenEndsClean(gap: string, wires: seq<Wire>)
    requires gap == "" || gap == " "
    requires forall i :: 0 <= i < |wires| ==> Sendable(wires[i])
    ensures forall l :: l in AllWritten(wires, gap) ==> TrimCr(l) == l
  {
    if wires != [] {
      assert Sendable(wires[0]);
      NoReturnAtEnd(gap, wires[0].lines);
      assert TrimCr("") == "";
      WrittenEndsClean(gap, wires[1..]);
    }
  }

  /** Round trip: whatever events are written, with or without names, with or without a space after the
      colons, both parsers return exactly these events, however the stream is cut. */
  lemma {:induction false} WrittenIsRead(
      decode: Decoder, encode: Encoder, wires: seq<Wire>, gap: string, chunks: seq<Bytes>)
    requires (gap == "" || gap == " ") && forall i :: 0 <= i < |wires| ==> Sendable(wires[i])
    requires forall l :: l in AllWritten(wires, gap) ==> Travels(decode, encode, l)
    requires Flatten(chunks) == Encoded(encode, AllWritten(wires, gap))
    ensures FeedAll(decode, ServerLine, START, chunks).1 == Sent(wires)
    ensures FeedAll(decode, ClientLine, START, chunks).1 == Sent(wires)
  {
    BothRead(gap);
    WrittenEndsClean(gap, wires);
    EncodedLines(decode, encode, AllWritten(wires, gap));
    EventsAreRead(ServerLine, gap, wires);
    EventsAreRead(ClientLine, gap, wires);
    ChunkIndependence(decode, ServerLine, START, chunks);
    ChunkIndependence(decode, ClientLine, START, chunks);
    assert [] + Flatten(chunks) == Flatten(chunks);
  }
}
