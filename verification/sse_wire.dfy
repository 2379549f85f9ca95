/**
 * The text/event-stream framing the emitter writes (emitter.go) and, as its
 * partner, the client side: the line splitting and field interpretation of
 * the event-stream format in section 9.2 "Server-sent events" of the WHATWG
 * HTML Living Standard. The main lemma says a client reading what the
 * emitter wrote dispatches exactly the emitted events, in order, whatever
 * comment (heartbeat) frames sit between them.
 */
module SseWire {
  import opened SseJson

  /** What `Emit` writes for one event: `event: <name>\n`, `data: <json>\n`, a blank line. */
  function EventFrame(name: string, data: string): string {
    "event: " + name + "\n" + "data: " + data + "\n\n"
  }

  /** What `Comment` writes: `:<text>\n\n`. */
  function CommentFrame(text: string): string {
    ":" + text + "\n\n"
  }

  /** One frame on the wire. */
  datatype Chunk = EventChunk(name: string, data: string) | CommentChunk(text: string)

  function ChunkText(c: Chunk): string {
    match c
    case EventChunk(name, data) => EventFrame(name, data)
    case CommentChunk(text) => CommentFrame(text)
  }

  /** The pieces of a frame hold no line break of their own. */
  predicate WellFormed(c: Chunk) {
    match c
    case EventChunk(name, data) => SingleLine(name) && SingleLine(data)
    case CommentChunk(text) => SingleLine(text)
  }

  /** The frames, written one after the other. */
  function Wire(cs: seq<Chunk>): string {
    if cs == [] then [] else ChunkText(cs[0]) + Wire(cs[1..])
  }

  lemma WireUnfold(cs: seq<Chunk>)
    requires cs != []
    ensures Wire(cs) == ChunkText(cs[0]) + Wire(cs[1..])
  {
  }

  lemma Assoc(x: string, y: string, z: string)
    ensures x + (y + z) == (x + y) + z
  {
  }

  /** Writing two runs of frames one after the other writes their concatenation. */
  lemma {:induction false} WireConcat(a: seq<Chunk>, b: seq<Chunk>)
    ensures Wire(a + b) == Wire(a) + Wire(b)
  {
    if a == [] {
      assert a + b == b;
    } else {
      var ab := a + b;
      assert ab[0] == a[0] && ab[1..] == a[1..] + b;
      WireConcat(a[1..], b);
      WireUnfold(ab);
      WireUnfold(a);
      Assoc(ChunkText(a[0]), Wire(a[1..]), Wire(b));
    }
  }

  lemma WireSingle(c: Chunk)
    ensures Wire([c]) == ChunkText(c)
  {
    WireUnfold([c]);
    assert [c][1..] == [];
  }

  lemma WireSnoc(cs: seq<Chunk>, c: Chunk)
    ensures Wire(cs + [c]) == Wire(cs) + ChunkText(c)
  {
    WireConcat(cs, [c]);
    WireSingle(c);
  }

  /** An event as a client dispatches it: its type and its data. */
  datatype Message = Message(eventType: string, data: string)

  /** The events the frames carry: comment frames carry none; an empty name means `message`. */
  function Carried(cs: seq<Chunk>): seq<Message> {
    if cs == [] then []
    else match cs[0]
      case EventChunk(name, data) => [Message(if name == "" then "message" else name, data)] + Carried(cs[1..])
      case CommentChunk(_) => Carried(cs[1..])
  }

  // The client side.

  /** The index of the first CR or LF in `s`, or `|s|`. */
  function FirstBreak(s: string): (k: nat)
    ensures k <= |s|
    ensures forall i :: 0 <= i < k ==> !IsLineBreak(s[i])
    ensures k < |s| ==> IsLineBreak(s[k])
  {
    if s == [] || IsLineBreak(s[0]) then 0 else 1 + FirstBreak(s[1..])
  }

  /**
   * The complete lines of `s`. A line ends at CRLF, LF or CR; an unfinished
   * last line is not yet a line.
   */
  function Lines(s: string): seq<string>
    decreases |s|
  {
    var k := FirstBreak(s);
    if k == |s| then []
    else if s[k] == '\r' && k + 1 < |s| && s[k + 1] == '\n' then [s[..k]] + Lines(s[k + 2..])
    else [s[..k]] + Lines(s[k + 1..])
  }

  /** The index of the first colon in `s`, or `|s|`. */
  function FirstColon(s: string): (k: nat)
    ensures k <= |s|
    ensures forall i :: 0 <= i < k ==> s[i] != ':'
    ensures k < |s| ==> s[k] == ':'
  {
    if s == [] || s[0] == ':' then 0 else 1 + FirstColon(s[1..])
  }

  datatype Line = Blank | CommentLine | Field(name: string, value: string)

  /** One line: blank, a comment (leading colon), or a field with at most one leading space stripped from its value. */
  function ParseLine(l: string): Line {
    if l == [] then Blank
    else if l[0] == ':' then CommentLine
    else
      var k := FirstColon(l);
      if k == |l| then Field(l, "")
      else
        var v := l[k + 1..];
        Field(l[..k], if v != [] && v[0] == ' ' then v[1..] else v)
  }

  /**
   * Runs the lines through the event-type and data buffers: a blank line
   * dispatches the buffered event (dropping the data's final LF) unless the
   * data buffer is empty, and resets both buffers.
   */
  function Interpret(lines: seq<string>, eventType: string, data: string): seq<Message>
    decreases |lines|
  {
    if lines == [] then []
    else match ParseLine(lines[0])
      case Blank =>
        if data == [] then Interpret(lines[1..], "", "")
        else [Message(if eventType == "" then "message" else eventType, data[..|data| - 1])]
             + Interpret(lines[1..], "", "")
      case CommentLine => Interpret(lines[1..], eventType, data)
      case Field(name, value) =>
        if name == "event" then Interpret(lines[1..], value, data)
        else if name == "data" then Interpret(lines[1..], eventType, data + value + "\n")
        else Interpret(lines[1..], eventType, data)
  }

  /** The events a client dispatches after reading `s`. */
  function Parse(s: string): seq<Message> {
    Interpret(Lines(s), "", "")
  }

  // The round trip.

  lemma LinesCons(a: string, b: string)
    requires SingleLine(a)
    ensures Lines(a + "\n" + b) == [a] + Lines(b)
  {
    var s := a + "\n" + b;
    var k := FirstBreak(s);
    assert s[|a|] == '\n';
    assert k == |a|;
    assert s[..k] == a;
    assert s[k + 1..] == b;
  }

  /** The lines of one frame. */
  function ChunkLines(c: Chunk): seq<string> {
    match c
    case EventChunk(name, data) => ["event: " + name, "data: " + data, ""]
    case CommentChunk(text) => [":" + text, ""]
  }

  lemma ChunkLinesOf(c: Chunk, rest: string)
    requires WellFormed(c)
    ensures Lines(ChunkText(c) + rest) == ChunkLines(c) + Lines(rest)
  {
    match c
    case EventChunk(name, data) =>
      var l1, l2 := "event: " + name, "data: " + data;
      SingleLineConcat("event: ", name);
      SingleLineConcat("data: ", data);
      assert ChunkText(c) + rest == l1 + "\n" + (l2 + "\n" + ("" + "\n" + rest));
      LinesCons("", rest);
      LinesCons(l2, "" + "\n" + rest);
      LinesCons(l1, l2 + "\n" + ("" + "\n" + rest));
    case CommentChunk(text) =>
      var l1 := ":" + text;
      SingleLineConcat(":", text);
      assert ChunkText(c) + rest == l1 + "\n" + ("" + "\n" + rest);
      LinesCons("", rest);
      LinesCons(l1, "" + "\n" + rest);
  }

  lemma ParseEventLine(name: string)
    ensures ParseLine("event: " + name) == Field("event", name)
  {
    var l := "event: " + name;
    assert l[5] == ':';
    assert forall i :: 0 <= i < 5 ==> l[i] != ':';
    assert FirstColon(l) == 5;
    assert l[6..] == " " + name;
  }

  lemma ParseDataLine(data: string)
    ensures ParseLine("data: " + data) == Field("data", data)
  {
    var l := "data: " + data;
    assert l[4] == ':';
    assert forall i :: 0 <= i < 4 ==> l[i] != ':';
    assert FirstColon(l) == 4;
    assert l[5..] == " " + data;
  }

  lemma ChunkDispatch(c: Chunk, rest: seq<string>)
    ensures Interpret(ChunkLines(c) + rest, "", "") == Carried([c]) + Interpret(rest, "", "")
  {
    match c
    case EventChunk(name, data) =>
      var l1, l2 := "event: " + name, "data: " + data;
      ParseEventLine(name);
      ParseDataLine(data);
      var lines := [l1, l2, ""] + rest;
      assert lines[0] == l1 && lines[1..] == [l2, ""] + rest;
      assert Interpret(lines, "", "") == Interpret([l2, ""] + rest, name, "");
      assert ([l2, ""] + rest)[0] == l2 && ([l2, ""] + rest)[1..] == [""] + rest;
      assert Interpret([l2, ""] + rest, name, "") == Interpret([""] + rest, name, "" + data + "\n");
      assert ([""] + rest)[0] == "" && ([""] + rest)[1..] == rest;
      assert ("" + data + "\n")[..|"" + data + "\n"| - 1] == data;
    case CommentChunk(text) =>
      var lines := [":" + text, ""] + rest;
      assert lines[0] == ":" + text && lines[1..] == [""] + rest;
      assert ([""] + rest)[0] == "" && ([""] + rest)[1..] == rest;
  }

  /**
   * A client that reads well-formed frames dispatches exactly the events the
   * event frames carry, in order; comment frames dispatch nothing.
   */
  lemma {:induction false} ParseWire(cs: seq<Chunk>)
    requires forall i :: 0 <= i < |cs| ==> WellFormed(cs[i])
    ensures Parse(Wire(cs)) == Carried(cs)
  {
    WireLines(cs);
    WireDispatch(cs);
  }

  /** All the lines of a sequence of frames. */
  function AllLines(cs: seq<Chunk>): seq<string> {
    if cs == [] then [] else ChunkLines(cs[0]) + AllLines(cs[1..])
  }

  lemma {:induction false} WireLines(cs: seq<Chunk>)
    requires forall i :: 0 <= i < |cs| ==> WellFormed(cs[i])
    ensures Lines(Wire(cs)) == AllLines(cs)
  {
    if cs == [] {
      assert Lines([]) == [];
    } else {
      WireLines(cs[1..]);
      ChunkLinesOf(cs[0], Wire(cs[1..]));
    }
  }

  lemma {:induction false} WireDispatch(cs: seq<Chunk>)
    ensures Interpret(AllLines(cs), "", "") == Carried(cs)
  {
    if cs != [] {
      WireDispatch(cs[1..]);
      ChunkDispatch(cs[0], AllLines(cs[1..]));
      assert Carried(cs) == Carried([cs[0]]) + Carried(cs[1..]);
    }
  }

  /** The event frames of `cs`, with the comment frames taken out. */
  function EventChunks(cs: seq<Chunk>): seq<Chunk> {
    if cs == [] then []
    else if cs[0].CommentChunk? then EventChunks(cs[1..])
    else [cs[0]] + EventChunks(cs[1..])
  }

  /**
   * Heartbeat comments are invisible to a client: taking every comment frame
   * out of the stream leaves the dispatched events unchanged.
   */
  lemma {:induction false} CommentsInvisible(cs: seq<Chunk>)
    requires forall i :: 0 <= i < |cs| ==> WellFormed(cs[i])
    ensures forall i :: 0 <= i < |EventChunks(cs)| ==> WellFormed(EventChunks(cs)[i])
    ensures Parse(Wire(EventChunks(cs))) == Parse(Wire(cs))
  {
    EventChunksCarry(cs);
    ParseWire(cs);
    ParseWire(EventChunks(cs));
  }

  lemma {:induction false} EventChunksCarry(cs: seq<Chunk>)
    requires forall i :: 0 <= i < |cs| ==> WellFormed(cs[i])
    ensures forall i :: 0 <= i < |EventChunks(cs)| ==> WellFormed(EventChunks(cs)[i])
    ensures forall i :: 0 <= i < |EventChunks(cs)| ==> EventChunks(cs)[i].EventChunk?
    ensures Carried(EventChunks(cs)) == Carried(cs)
  {
    if cs != [] {
      EventChunksCarry(cs[1..]);
      if cs[0].EventChunk? {
        assert ([cs[0]] + EventChunks(cs[1..]))[1..] == EventChunks(cs[1..]);
      }
    }
  }
}
