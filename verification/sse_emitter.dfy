/**
 * The SSE emitter of emitter.go: the response headers it sets, and an
 * `Emitter` object that frames events into a write buffer (`bw`) and flushes
 * that buffer to the HTTP response after every frame.
 *
 * The response writer is abstracted to what it received (`delivered`) and
 * to whether it accepts writes at all (`writeFailure`: `None` while the
 * client is connected, or the error every write to it returns).
 */
module SseEmitter {
  import opened Wrappers
  import opened SseTypes
  import opened SseJson
  import opened SseWire
  import opened Seqs

  /** The four headers `SetupSSEHeaders` sets. */
  const SseHeaders: map<string, string> := map[
    "Content-Type" := "text/event-stream",
    "Cache-Control" := "no-cache",
    "Connection" := "keep-alive",
    "X-Accel-Buffering" := "no"
  ]

  /** `SetupSSEHeaders`: the response headers after the call (`Header().Set` replaces a value). */
  function SetupSSEHeaders(h: map<string, string>): (r: map<string, string>)
    ensures r.Keys == h.Keys + SseHeaders.Keys
    ensures r["Content-Type"] == "text/event-stream" && r["Cache-Control"] == "no-cache"
    ensures r["Connection"] == "keep-alive" && r["X-Accel-Buffering"] == "no"
    ensures forall k :: k in h && k !in SseHeaders ==> r[k] == h[k]
  {
    h + SseHeaders
  }

  /** One second, in the nanoseconds of a Go `time.Duration`. */
  const Second := 1_000_000_000

  /** `StartHeartbeat`'s default interval. */
  const DefaultHeartbeat := 20 * Second

  /** The text of every heartbeat comment. */
  const PingText := "ping"

  /** The ticker interval `StartHeartbeat(interval)` uses. */
  function HeartbeatInterval(interval: int): (r: int)
    ensures r > 0
    ensures interval > 0 ==> r == interval
    ensures interval <= 0 ==> r == 20 * Second
  {
    if interval <= 0 then DefaultHeartbeat else interval
  }

  /**
   * The value `json.Marshal` sees in `Emit(event, v, opts...)`. `Emit` runs
   * the options on `v.GetBase()`; the event structs implement `GetBase` on a
   * value receiver, so that pointer is to a copy and the options are lost.
   * Only a `*AIBaseEvent`, whose `GetBase` returns itself, takes them.
   */
  function Prepared(v: Value, opts: seq<EventOption>): Value {
    match v
    case BaseValue(b) => BaseValue(ApplyOptions(b, opts))
    case _ => v
  }

  /** The frame `Emit` writes for an event struct: its `Type` names the SSE event. */
  function EventChunkOf(ev: AIEvent): Chunk {
    EventChunk(ev.GetType().Name(), EncodeEvent(ev))
  }

  function EventWire(ev: AIEvent): string {
    ChunkText(EventChunkOf(ev))
  }

  /** The frames of a sequence of events. */
  function Frames(evs: seq<AIEvent>): seq<Chunk> {
    Map(EventChunkOf, evs)
  }

  /** What the emitter writes for `evs`, in order. */
  function EventsWire(evs: seq<AIEvent>): string {
    Wire(Frames(evs))
  }

  /** An event as a client receives it: typed by its `Type`, carrying its JSON. */
  function MessageOf(ev: AIEvent): Message {
    Message(ev.GetType().Name(), EncodeEvent(ev))
  }

  function Messages(evs: seq<AIEvent>): seq<Message> {
    Map(MessageOf, evs)
  }

  lemma EventsWireSnoc(evs: seq<AIEvent>, ev: AIEvent)
    ensures EventsWire(evs + [ev]) == EventsWire(evs) + EventWire(ev)
  {
    MapSnoc(EventChunkOf, evs, ev);
    WireSnoc(Frames(evs), EventChunkOf(ev));
  }

  lemma EventNameSingleLine(t: EventType)
    ensures SingleLine(t.Name()) && t.Name() != ""
  {
    match t
    case EventMessageStart =>
    case EventMessageDelta =>
    case EventMessageEnd =>
    case EventMessageCitation =>
    case EventError =>
  }

  lemma FramesWellFormed(evs: seq<AIEvent>)
    ensures forall i :: 0 <= i < |Frames(evs)| ==> WellFormed(Frames(evs)[i])
  {
    forall i | 0 <= i < |evs| ensures WellFormed(Frames(evs)[i]) {
      EventNameSingleLine(evs[i].eventType);
      MarshalSingleLine(EventValue(evs[i]));
    }
  }

  /**
   * A client reading the emitter's frames for `evs` dispatches one event per
   * element of `evs`, in order, typed by the event's `Type` and carrying its
   * JSON.
   */
  lemma ClientSeesEvents(evs: seq<AIEvent>)
    ensures Parse(EventsWire(evs)) == Messages(evs)
  {
    FramesWellFormed(evs);
    ParseWire(Frames(evs));
    CarriedEvents(evs);
  }

  lemma {:induction false} CarriedEvents(evs: seq<AIEvent>)
    ensures Carried(Frames(evs)) == Messages(evs)
  {
    if evs != [] {
      CarriedEvents(evs[1..]);
      MapCons(EventChunkOf, evs);
      MapCons(MessageOf, evs);
      EventNameSingleLine(evs[0].eventType);
    }
  }

  lemma FrameAssoc(p: string, name: string, data: string)
    ensures p + ("event: " + name + "\n") + "data: " + data + "\n\n" == p + EventFrame(name, data)
  {
    var a := "event: " + name + "\n";
    Assoc(p, a, "data: ");
    Assoc(p, a + "data: ", data);
    Assoc(p, a + "data: " + data, "\n\n");
  }

  class Emitter {
    /** The response headers. */
    var header: map<string, string>
    /** What `bw` holds and has not yet written to the response. */
    var pending: string
    /** What the response writer has received. */
    var delivered: string
    /** The error `bw` keeps after a failed write: every later call returns it. */
    var stickyErr: Option<string>
    /** `None` while the client is connected; otherwise the error a write to the response returns. */
    const writeFailure: Option<string>

    /** Only a failed write sets the buffer's error, and between calls the buffer is drained unless that happened. */
    ghost predicate Valid()
      reads this
    {
      && (stickyErr.Some? ==> stickyErr == writeFailure)
      && (stickyErr.None? ==> pending == [])
    }

    /** `NewEmitter`: sets the SSE headers and wraps the response writer in an empty buffer. */
    constructor (responseHeader: map<string, string>, writeFailure: Option<string>)
      ensures Valid()
      ensures header == SetupSSEHeaders(responseHeader)
      ensures pending == [] && delivered == [] && stickyErr == None
      ensures this.writeFailure == writeFailure
    {
      header := SetupSSEHeaders(responseHeader);
      pending := [];
      delivered := [];
      stickyErr := None;
      this.writeFailure := writeFailure;
    }

    /**
     * The effect of writing `frame` into the buffer and flushing it: a
     * sticky error is returned with nothing written; otherwise the frame
     * reaches the client whole, or the write fails and the frame stays
     * buffered behind the new sticky error.
     */
    twostate predicate Sent(frame: string, new err: Option<string>)
      reads this
    {
      && header == old(header)
      && (old(stickyErr).Some? ==>
            err == old(stickyErr) && stickyErr == old(stickyErr)
            && pending == old(pending) && delivered == old(delivered))
      && (old(stickyErr).None? && writeFailure.None? ==>
            err.None? && stickyErr.None? && pending == [] && delivered == old(delivered) + frame)
      && (old(stickyErr).None? && writeFailure.Some? ==>
            err == writeFailure && stickyErr == writeFailure
            && pending == old(pending) + frame && delivered == old(delivered))
    }

    /** `bw.WriteString(s)`: buffers `s`, unless the buffer already holds an error. */
    method BufferWrite(s: string) returns (err: Option<string>)
      modifies this`pending
      ensures stickyErr.Some? ==> err == stickyErr && pending == old(pending)
      ensures stickyErr.None? ==> err.None? && pending == old(pending) + s
    {
      if stickyErr.Some? {
        return stickyErr;
      }
      pending := pending + s;
      return None;
    }

    /** `Flush`: `bw.Flush()`, then the response's own flush when it has one. */
    method Flush() returns (err: Option<string>)
      requires stickyErr.Some? ==> stickyErr == writeFailure
      modifies this`pending, this`delivered, this`stickyErr
      ensures stickyErr.Some? ==> stickyErr == writeFailure
      ensures old(stickyErr).Some? ==>
        err == old(stickyErr) && stickyErr == old(stickyErr) && pending == old(pending) && delivered == old(delivered)
      ensures old(stickyErr).None? && (old(pending) == [] || writeFailure.None?) ==>
        err.None? && stickyErr.None? && pending == [] && delivered == old(delivered) + old(pending)
      ensures old(stickyErr).None? && old(pending) != [] && writeFailure.Some? ==>
        err == writeFailure && stickyErr == writeFailure && pending == old(pending) && delivered == old(delivered)
    {
      if stickyErr.Some? {
        return stickyErr;
      }
      if pending == [] {
        return None;
      }
      if writeFailure.Some? {
        stickyErr := writeFailure;
        return writeFailure;
      }
      delivered := delivered + pending;
      pending := [];
      return None;
    }

    /**
     * The writes of `Emit` once the value is marshalled: `event: `, the
     * name, `data: `, the JSON and a blank line, stopping at the first
     * failed write, then a flush.
     */
    method WriteFrame(event: string, data: string) returns (err: Option<string>)
      requires Valid()
      modifies this`pending, this`delivered, this`stickyErr
      ensures Valid()
      ensures Sent(EventFrame(event, data), err)
    {
      err := BufferWrite("event: " + event + "\n");
      if err.Some? {
        return;
      }
      err := BufferWrite("data: ");
      if err.Some? {
        return;
      }
      err := BufferWrite(data);
      if err.Some? {
        return;
      }
      err := BufferWrite("\n\n");
      if err.Some? {
        return;
      }
      FrameAssoc(old(pending), event, data);
      err := Flush();
    }

    /**
     * `Emit(event, v, opts...)`: marshals `v` (see `Prepared` for what the
     * options reach); a marshalling error is returned with nothing written.
     */
    method Emit(event: string, v: Value, opts: seq<EventOption>) returns (err: Option<string>)
      requires Valid()
      modifies this`pending, this`delivered, this`stickyErr
      ensures Valid()
      ensures Marshal(Prepared(v, opts)).Err? ==>
        err == Some("sse marshal: " + Marshal(Prepared(v, opts)).error)
        && pending == old(pending) && delivered == old(delivered) && stickyErr == old(stickyErr)
      ensures Marshal(Prepared(v, opts)).Ok? ==>
        Sent(EventFrame(event, Marshal(Prepared(v, opts)).value), err)
    {
      var b := Marshal(Prepared(v, opts));
      if b.Err? {
        return Some("sse marshal: " + b.error);
      }
      err := WriteFrame(event, b.value);
    }

    /** `Comment(text)`: writes `:<text>` and a blank line, and flushes. */
    method Comment(text: string) returns (err: Option<string>)
      requires Valid()
      modifies this`pending, this`delivered, this`stickyErr
      ensures Valid()
      ensures Sent(CommentFrame(text), err)
    {
      err := BufferWrite(":" + text + "\n\n");
      if err.Some? {
        return;
      }
      err := Flush();
    }

    /** `Close`: a flush; between calls the buffer is already drained, so it only reports the sticky error. */
    method Close() returns (err: Option<string>)
      requires Valid()
      modifies this`pending, this`delivered, this`stickyErr
      ensures Valid()
      ensures err == stickyErr == old(stickyErr) && pending == old(pending) && delivered == old(delivered)
    {
      err := Flush();
    }

    /**
     * `Emit(name, ev, opts...)` for an event struct sent under the name its
     * `type` holds: the struct marshals, so its frame is sent.
     */
    method EmitStruct(name: string, ev: AIEvent, opts: seq<EventOption>) returns (err: Option<string>)
      requires Valid() && name == ev.GetType().Name()
      modifies this`pending, this`delivered, this`stickyErr
      ensures Valid()
      ensures Sent(EventWire(ev), err)
    {
      err := Emit(name, EventValue(ev), opts);
    }

    /** `EmitMessageStart`: sent under the name its payload's `type` holds, `message.start`. */
    method EmitMessageStart(role: Role, opts: seq<EventOption>) returns (err: Option<string>)
      requires Valid()
      modifies this`pending, this`delivered, this`stickyErr
      ensures Valid()
      ensures Sent(EventWire(StartOf(role, opts)), err)
    {
      var ev := NewAIMessageStart(role, opts);
      err := EmitStruct(EventMessageStart.Name(), ev, opts);
    }

    /** `EmitMessageDelta`: sent as `message.delta`. */
    method EmitMessageDelta(delta: string, opts: seq<EventOption>) returns (err: Option<string>)
      requires Valid()
      modifies this`pending, this`delivered, this`stickyErr
      ensures Valid()
      ensures Sent(EventWire(DeltaOf(delta, opts)), err)
    {
      var ev := NewAIMessageDelta(delta, opts);
      err := EmitStruct(EventMessageDelta.Name(), ev, opts);
    }

    /** `EmitMessageCitation`: sent as `message.citation`. */
    method EmitMessageCitation(refs: seq<CitationReference>, opts: seq<EventOption>) returns (err: Option<string>)
      requires Valid()
      modifies this`pending, this`delivered, this`stickyErr
      ensures Valid()
      ensures Sent(EventWire(CitationOf(refs, opts)), err)
    {
      var ev := NewAIMessageCitation(refs, opts);
      err := EmitStruct(EventMessageCitation.Name(), ev, opts);
    }

    /** `EmitMessageEnd`: sent as `message.end`. */
    method EmitMessageEnd(reason: FinishReason, opts: seq<EventOption>) returns (err: Option<string>)
      requires Valid()
      modifies this`pending, this`delivered, this`stickyErr
      ensures Valid()
      ensures Sent(EventWire(EndOf(reason, opts)), err)
    {
      var ev := NewAIMessageEnd(reason, opts);
      err := EmitStruct(EventMessageEnd.Name(), ev, opts);
    }

    /** `EmitError`: sent as `error`. */
    method EmitError(message: string, opts: seq<EventOption>) returns (err: Option<string>)
      requires Valid()
      modifies this`pending, this`delivered, this`stickyErr
      ensures Valid()
      ensures Sent(EventWire(ErrorOf(message, opts)), err)
    {
      var ev := NewAIError(message, opts);
      err := EmitStruct(EventError.Name(), ev, opts);
    }
  }

  /**
   * The options handed to `Emit` beside an event struct change nothing, and
   * a `*AIBaseEvent` does take them. The `Emit*` helpers still stamp their
   * options, because the constructor has already applied them and applying
   * them again changes nothing.
   */
  lemma EmitOptionsReach(ev: AIEvent, b: BaseEvent, opts: seq<EventOption>)
    ensures Prepared(EventValue(ev), opts) == EventValue(ev)
    ensures Prepared(BaseValue(b), opts) == BaseValue(ApplyOptions(b, opts))
    ensures ApplyOptions(ApplyOptions(EmptyBase, opts), opts) == ApplyOptions(EmptyBase, opts)
  {
    ApplyOptionsIdempotent(EmptyBase, opts);
  }

  /** A comment frame is no event: a client reading it dispatches nothing. */
  lemma CommentCarriesNoEvent(text: string)
    requires SingleLine(text)
    ensures Parse(CommentFrame(text)) == []
  {
    ParseWire([CommentChunk(text)]);
    WireSingle(CommentChunk(text));
    assert Carried([CommentChunk(text)]) == Carried([]);
  }

  /**
   * The heartbeat's frame: `Comment("ping")` writes `:ping` and a blank
   * line, which keeps the connection busy without dispatching an event.
   */
  lemma HeartbeatFrame()
    ensures CommentFrame(PingText) == ":ping\n\n"
    ensures Parse(CommentFrame(PingText)) == []
  {
    assert SingleLine(PingText);
    CommentCarriesNoEvent(PingText);
  }
}
