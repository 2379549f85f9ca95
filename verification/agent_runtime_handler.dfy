/**
 * The stream controller of backend/internal/handler/bedrock_agent_runtime.go:
 * request binding, the setup-failure path, and the `c.Stream` callback
 * loop with its `sentStarted` flag.
 *
 * Go's `select` and gin's `Stream` loop are replaced by a trace: what each
 * pass of the loop found ready. `select` may pick any ready case, so the
 * cancellation and the client's departure may come at any point; what the
 * channel yields is tied to what the translator sends by `Feeds`. A trace
 * that stops before a terminal outcome is a stream still open.
 */
module AgentRuntimeHandler {
  import opened Wrappers
  import opened SseTypes
  import opened SseWire
  import opened SseEmitter
  import Seqs
  import opened AgentRuntimeTypes
  import opened AgentRuntimeUsecase

  /** One pass of `c.Stream`: what it found before the callback returned. */
  datatype Outcome =
    | ClientGone            // gin's `Stream` saw the client gone and did not call the callback
    | Cancelled             // `<-ctx.Done()` was chosen
    | Received(msg: AIEvent) // `msg, ok := <-ch` with `ok`
    | ChannelClosed         // `<-ch` with `!ok`

  function ReceivedOf(msg: AIEvent): Outcome {
    Received(msg)
  }

  /** The options every event of a request carries. */
  function Opts(sid: string): seq<EventOption> {
    [WithSessionID(sid)]
  }

  /** What one pass emits, and whether the loop goes on. */
  datatype Pass = Pass(events: seq<AIEvent>, keepOpen: bool)

  /**
   * One pass of `c.Stream`, `started` being `sentStarted`. Line 88 hands the
   * received event to `EmitMessageDelta`, whose parameter is a string;
   * `render` is that unspecified conversion.
   */
  function PassOf(o: Outcome, sid: string, started: bool, render: AIEvent -> string): Pass {
    match o
    case ClientGone => Pass([], false)
    case Cancelled => Pass([EndOf(FinishError, Opts(sid))], false)
    case ChannelClosed => Pass([EndOf(FinishCompleted, Opts(sid))], false)
    case Received(msg) =>
      Pass((if started then [] else [StartOf(RoleAssistant, Opts(sid))]) + [DeltaOf(render(msg), Opts(sid))], true)
  }

  /** The events the callback loop emits for `trace`, pass after pass until one says stop. */
  function Run(trace: seq<Outcome>, sid: string, started: bool, render: AIEvent -> string): seq<AIEvent>
    decreases |trace|
  {
    if trace == [] then []
    else
      var pass := PassOf(trace[0], sid, started, render);
      pass.events + (if pass.keepOpen then Run(trace[1..], sid, true, render) else [])
  }

  /** The first pass's events, then, if it goes on, the rest of the run. */
  lemma RunPass(trace: seq<Outcome>, sid: string, started: bool, render: AIEvent -> string)
    requires trace != []
    ensures var pass := PassOf(trace[0], sid, started, render);
      Run(trace, sid, started, render) == pass.events + (if pass.keepOpen then Run(trace[1..], sid, true, render) else [])
  {
  }

  // An independent description of the same output.

  /** The items received before the loop stops. */
  function Items(trace: seq<Outcome>): seq<AIEvent> {
    if trace == [] || !trace[0].Received? then [] else [trace[0].msg] + Items(trace[1..])
  }

  /** The outcome that stops the loop, if the trace holds one. */
  function Stop(trace: seq<Outcome>): Option<Outcome> {
    if trace == [] then None
    else if trace[0].Received? then Stop(trace[1..])
    else Some(trace[0])
  }

  /** The event the stopping outcome emits: `completed` for a closed channel, `error` for a cancellation. */
  function Terminal(stop: Option<Outcome>, sid: string): seq<AIEvent> {
    match stop
    case Some(Cancelled) => [EndOf(FinishError, Opts(sid))]
    case Some(ChannelClosed) => [EndOf(FinishCompleted, Opts(sid))]
    case _ => []
  }

  /** One delta per item, in order. */
  function Deltas(items: seq<AIEvent>, sid: string, render: AIEvent -> string): (r: seq<AIEvent>)
    ensures |r| == |items|
    ensures forall j :: 0 <= j < |items| ==> r[j] == DeltaOf(render(items[j]), Opts(sid))
  {
    seq(|items|, j requires 0 <= j < |items| => DeltaOf(render(items[j]), Opts(sid)))
  }

  /** The start event, exactly when an item arrived. */
  function StartIf(items: seq<AIEvent>, sid: string): seq<AIEvent> {
    if items == [] then [] else [StartOf(RoleAssistant, Opts(sid))]
  }

  lemma DeltasCons(msg: AIEvent, items: seq<AIEvent>, sid: string, render: AIEvent -> string)
    ensures Deltas([msg] + items, sid, render) == [DeltaOf(render(msg), Opts(sid))] + Deltas(items, sid, render)
  {
    var a, b := Deltas([msg] + items, sid, render), [DeltaOf(render(msg), Opts(sid))] + Deltas(items, sid, render);
    forall k | 0 <= k < |a| ensures a[k] == b[k] {
      if k > 0 {
        assert ([msg] + items)[k] == items[k - 1];
      }
    }
  }

  /** Once started, the loop emits one delta per item received, then the terminal event. */
  lemma {:induction false} RunStarted(trace: seq<Outcome>, sid: string, render: AIEvent -> string)
    ensures Run(trace, sid, true, render) == Deltas(Items(trace), sid, render) + Terminal(Stop(trace), sid)
    decreases |trace|
  {
    if trace != [] && trace[0].Received? {
      RunStarted(trace[1..], sid, render);
      DeltasCons(trace[0].msg, Items(trace[1..]), sid, render);
    }
  }

  /**
   * The closed form of the loop's output: `message.start` if and only if an
   * item arrived, then one delta per received item in receive order, then
   * the terminal event of the outcome that stopped the loop, if any.
   */
  lemma RunClosedForm(trace: seq<Outcome>, sid: string, render: AIEvent -> string)
    ensures Run(trace, sid, false, render)
         == StartIf(Items(trace), sid) + Deltas(Items(trace), sid, render) + Terminal(Stop(trace), sid)
  {
    if trace != [] && trace[0].Received? {
      RunStarted(trace[1..], sid, render);
      DeltasCons(trace[0].msg, Items(trace[1..]), sid, render);
    }
  }

  /** `message.start` comes at most once, only when an item arrived, first, and right before the first delta. */
  lemma StartOnceFirst(trace: seq<Outcome>, sid: string, render: AIEvent -> string)
    ensures var r := Run(trace, sid, false, render);
      && (forall i :: 0 <= i < |r| && r[i].AIMessageStart? ==> i == 0)
      && (|r| > 0 && r[0].AIMessageStart? <==> Items(trace) != [])
      && (Items(trace) != [] ==>
            r[0] == StartOf(RoleAssistant, Opts(sid)) && r[1] == DeltaOf(render(Items(trace)[0]), Opts(sid)))
  {
    RunClosedForm(trace, sid, render);
  }

  /** Every received item yields exactly one delta, in receive order. */
  lemma DeltasInOrder(trace: seq<Outcome>, sid: string, render: AIEvent -> string)
    ensures var r, items := Run(trace, sid, false, render), Items(trace);
      && |r| == (if items == [] then 0 else 1) + |items| + |Terminal(Stop(trace), sid)|
      && forall j :: 0 <= j < |items| ==> r[j + 1] == DeltaOf(render(items[j]), Opts(sid))
  {
    RunClosedForm(trace, sid, render);
  }

  /**
   * A cancellation or a closed channel ends the output with exactly one
   * terminal event and nothing after it; no other event is terminal.
   */
  lemma TerminalLast(trace: seq<Outcome>, sid: string, render: AIEvent -> string)
    ensures var r := Run(trace, sid, false, render);
      && (forall i :: 0 <= i < |r| - 1 ==> !IsTerminal(r[i]))
      && (Stop(trace) == Some(Cancelled) ==> r[|r| - 1] == EndOf(FinishError, Opts(sid)))
      && (Stop(trace) == Some(ChannelClosed) ==> r[|r| - 1] == EndOf(FinishCompleted, Opts(sid)))
      && (Stop(trace).None? || Stop(trace) == Some(ClientGone) ==> forall i :: 0 <= i < |r| ==> !IsTerminal(r[i]))
  {
    RunClosedForm(trace, sid, render);
  }

  /** Every emitted event carries the request's session id and no event id. */
  lemma SessionStamped(trace: seq<Outcome>, sid: string, render: AIEvent -> string)
    ensures forall e :: e in Run(trace, sid, false, render) ==> e.GetBase() == BaseEvent("", sid)
  {
    RunClosedForm(trace, sid, render);
    assert ApplyOptions(EmptyBase, Opts(sid)) == BaseEvent("", sid) by {
      assert Opts(sid)[..0] == [];
    }
  }

  /** The loop reads nothing after the outcome that stops it: later outcomes change nothing. */
  lemma {:induction false} StopsReading(trace: seq<Outcome>, rest: seq<Outcome>, sid: string, started: bool, render: AIEvent -> string)
    requires Stop(trace).Some?
    ensures Run(trace + rest, sid, started, render) == Run(trace, sid, started, render)
    decreases |trace|
  {
    assert (trace + rest)[0] == trace[0];
    if trace[0].Received? {
      assert (trace + rest)[1..] == trace[1..] + rest;
      StopsReading(trace[1..], rest, sid, true, render);
    }
  }

  /**
   * When every translated item is read and then the closed channel is seen,
   * the client gets a start (if there was any item), one delta per item in
   * upstream order, and `message.end` with `completed`.
   */
  lemma {:induction false} CompletedStream(items: seq<AIEvent>, sid: string, render: AIEvent -> string)
    ensures var trace := Seqs.Map(ReceivedOf, items) + [ChannelClosed];
      Run(trace, sid, false, render)
      == StartIf(items, sid) + Deltas(items, sid, render) + [EndOf(FinishCompleted, Opts(sid))]
  {
    var trace := Seqs.Map(ReceivedOf, items) + [ChannelClosed];
    ReceivedItems(items);
    RunClosedForm(trace, sid, render);
  }

  /**
   * The channel's side of a trace: the output channel is unbuffered and
   * closed only after the last send, so the items received are the first of
   * those the translator sent, in order, and the closed channel is seen only
   * once every sent item was received.
   */
  predicate Feeds(trace: seq<Outcome>, sent: seq<AIEvent>) {
    Items(trace) <= sent && (Stop(trace) == Some(ChannelClosed) ==> Items(trace) == sent)
  }

  /**
   * A run over a trace the translator feeds: a start if any item came, one
   * delta per item forwarded so far, and the terminal event; when the loop
   * stops on the closed channel, every sent item has been forwarded and the
   * stream ends with `completed`.
   */
  lemma FedRun(trace: seq<Outcome>, sent: seq<AIEvent>, sid: string, render: AIEvent -> string)
    requires Feeds(trace, sent)
    ensures Items(trace) <= sent
    ensures Run(trace, sid, false, render)
         == StartIf(Items(trace), sid) + Deltas(Items(trace), sid, render) + Terminal(Stop(trace), sid)
    ensures Stop(trace) == Some(ChannelClosed) ==>
      Run(trace, sid, false, render) == StartIf(sent, sid) + Deltas(sent, sid, render) + [EndOf(FinishCompleted, Opts(sid))]
  {
    RunClosedForm(trace, sid, render);
  }

  /**
   * From the upstream feed to the client: when the handler receives every
   * item the translator sends and then the closed channel, the client gets
   * `message.start` (if anything was forwarded), one delta per upstream
   * output with text or citation, in upstream order, then
   * `message.end`/`completed`.
   */
  lemma EndToEnd(feed: seq<StreamOutput>, sid: string, render: AIEvent -> string)
    requires AllTranslatable(feed)
    ensures var sent := Translate(feed);
      var trace := Seqs.Map(ReceivedOf, sent) + [ChannelClosed];
      && Feeds(trace, sent)
      && Run(trace, sid, false, render)
         == StartIf(sent, sid) + Deltas(sent, sid, render) + [EndOf(FinishCompleted, Opts(sid))]
      && |sent| == Forwarded(feed)
      && |Run(trace, sid, false, render)| == (if Forwarded(feed) == 0 then 0 else 1) + Forwarded(feed) + 1
  {
    var sent := Translate(feed);
    ReceivedItems(sent);
    CompletedStream(sent, sid, render);
    TranslateCount(feed);
  }

  lemma {:induction false} ReceivedItems(items: seq<AIEvent>)
    ensures Items(Seqs.Map(ReceivedOf, items) + [ChannelClosed]) == items
    ensures Stop(Seqs.Map(ReceivedOf, items) + [ChannelClosed]) == Some(ChannelClosed)
  {
    var trace := Seqs.Map(ReceivedOf, items) + [ChannelClosed];
    if items != [] {
      ReceivedItems(items[1..]);
      Seqs.MapCons(ReceivedOf, items);
      assert trace[1..] == Seqs.Map(ReceivedOf, items[1..]) + [ChannelClosed];
    }
  }

  /**
   * The emitter has delivered `base` followed by the frames of `emitted`
   * when the client is connected and no write had failed (`clean`), and
   * nothing beyond `base` when the client is gone.
   */
  ghost predicate Tracks(em: Emitter, base: string, clean: bool, emitted: seq<AIEvent>)
    reads em
  {
    && (clean && em.writeFailure.None? ==> em.stickyErr.None? && em.delivered == base + EventsWire(emitted))
    && (em.writeFailure.Some? ==> em.delivered == base)
  }

  lemma EmptyPrefix(s: string)
    ensures [] + s == s
  {
  }

  /** `em.EmitMessageStart(sse.RoleAssistant, sse.WithSessionID(sid))`, its error discarded. */
  method SendStart(em: Emitter, sid: string, ghost base: string, ghost clean: bool, ghost emitted: seq<AIEvent>)
    requires em.Valid() && Tracks(em, base, clean, emitted)
    modifies em`pending, em`delivered, em`stickyErr
    ensures em.Valid() && Tracks(em, base, clean, emitted + [StartOf(RoleAssistant, Opts(sid))])
  {
    var _ := em.EmitMessageStart(RoleAssistant, Opts(sid));
    EventsWireSnoc(emitted, StartOf(RoleAssistant, Opts(sid)));
    Assoc(base, EventsWire(emitted), EventWire(StartOf(RoleAssistant, Opts(sid))));
  }

  /** `em.EmitMessageDelta(text, sse.WithSessionID(sid))`, its error discarded. */
  method SendDelta(em: Emitter, text: string, sid: string, ghost base: string, ghost clean: bool, ghost emitted: seq<AIEvent>)
    requires em.Valid() && Tracks(em, base, clean, emitted)
    modifies em`pending, em`delivered, em`stickyErr
    ensures em.Valid() && Tracks(em, base, clean, emitted + [DeltaOf(text, Opts(sid))])
  {
    var _ := em.EmitMessageDelta(text, Opts(sid));
    EventsWireSnoc(emitted, DeltaOf(text, Opts(sid)));
    Assoc(base, EventsWire(emitted), EventWire(DeltaOf(text, Opts(sid))));
  }

  /** `em.EmitMessageEnd(reason, sse.WithSessionID(sid))`, its error discarded. */
  method SendEnd(em: Emitter, reason: FinishReason, sid: string, ghost base: string, ghost clean: bool, ghost emitted: seq<AIEvent>)
    requires em.Valid() && Tracks(em, base, clean, emitted)
    modifies em`pending, em`delivered, em`stickyErr
    ensures em.Valid() && Tracks(em, base, clean, emitted + [EndOf(reason, Opts(sid))])
  {
    var _ := em.EmitMessageEnd(reason, Opts(sid));
    EventsWireSnoc(emitted, EndOf(reason, Opts(sid)));
    Assoc(base, EventsWire(emitted), EventWire(EndOf(reason, Opts(sid))));
  }

  /** `em.EmitError(message, sse.WithSessionID(sid))`, its error discarded. */
  method SendError(em: Emitter, message: string, sid: string, ghost base: string, ghost clean: bool, ghost emitted: seq<AIEvent>)
    requires em.Valid() && Tracks(em, base, clean, emitted)
    modifies em`pending, em`delivered, em`stickyErr
    ensures em.Valid() && Tracks(em, base, clean, emitted + [ErrorOf(message, Opts(sid))])
  {
    var _ := em.EmitError(message, Opts(sid));
    EventsWireSnoc(emitted, ErrorOf(message, Opts(sid)));
    Assoc(base, EventsWire(emitted), EventWire(ErrorOf(message, Opts(sid))));
  }

  /** The loop invariant of `StreamLoop` carried across one pass. */
  lemma RunStep(trace: seq<Outcome>, passes: nat, emitted: seq<AIEvent>, sid: string, started: bool,
                render: AIEvent -> string)
    requires passes < |trace|
    requires emitted + Run(trace[passes..], sid, started, render) == Run(trace, sid, false, render)
    ensures var pass := PassOf(trace[passes], sid, started, render);
      && (pass.keepOpen ==> emitted + pass.events + Run(trace[passes + 1..], sid, true, render) == Run(trace, sid, false, render))
      && (!pass.keepOpen ==> emitted + pass.events == Run(trace, sid, false, render))
  {
    var rest := trace[passes..];
    var pass := PassOf(trace[passes], sid, started, render);
    RunPass(rest, sid, started, render);
    assert rest[1..] == trace[passes + 1..];
    if pass.keepOpen {
      Seqs.AppendAssoc(emitted, pass.events, Run(rest[1..], sid, true, render));
    } else {
      Seqs.AppendAssoc(emitted, pass.events, []);
    }
  }

  /**
   * One pass of gin's `Stream` loop: the callback, unless gin finds the
   * client gone. Emit errors are discarded, as in the source. Returns what
   * it emitted, whether to go on, and the new `sentStarted`.
   */
  method StreamPass(em: Emitter, o: Outcome, sid: string, sentStarted: bool, render: AIEvent -> string,
                    ghost base: string, ghost clean: bool, ghost emitted: seq<AIEvent>)
    returns (events: seq<AIEvent>, keepOpen: bool, started: bool)
    requires em.Valid() && Tracks(em, base, clean, emitted)
    modifies em`pending, em`delivered, em`stickyErr
    ensures em.Valid() && Tracks(em, base, clean, emitted + events)
    ensures Pass(events, keepOpen) == PassOf(o, sid, sentStarted, render)
    ensures started == (sentStarted || o.Received?)
    ensures keepOpen ==> started
  {
    started := sentStarted;
    match o {
      case ClientGone =>
        events, keepOpen := [], false;
        assert emitted + events == emitted;
      case Cancelled =>
        SendEnd(em, FinishError, sid, base, clean, emitted);
        events, keepOpen := [EndOf(FinishError, Opts(sid))], false;
      case ChannelClosed =>
        SendEnd(em, FinishCompleted, sid, base, clean, emitted);
        events, keepOpen := [EndOf(FinishCompleted, Opts(sid))], false;
      case Received(msg) =>
        events := ForwardItem(em, msg, sid, sentStarted, render, base, clean, emitted);
        started, keepOpen := true, true;
    }
  }

  /** The callback's item branch: `message.start` unless `sentStarted`, then the delta. */
  method ForwardItem(em: Emitter, msg: AIEvent, sid: string, sentStarted: bool, render: AIEvent -> string,
                     ghost base: string, ghost clean: bool, ghost emitted: seq<AIEvent>)
    returns (events: seq<AIEvent>)
    requires em.Valid() && Tracks(em, base, clean, emitted)
    modifies em`pending, em`delivered, em`stickyErr
    ensures em.Valid() && Tracks(em, base, clean, emitted + events)
    ensures events == PassOf(Received(msg), sid, sentStarted, render).events
  {
    var delta := DeltaOf(render(msg), Opts(sid));
    if sentStarted {
      SendDelta(em, render(msg), sid, base, clean, emitted);
      return [delta];
    }
    var start := StartOf(RoleAssistant, Opts(sid));
    SendStart(em, sid, base, clean, emitted);
    SendDelta(em, render(msg), sid, base, clean, emitted + [start]);
    assert emitted + [start] + [delta] == emitted + [start, delta];
    return [start, delta];
  }

  /**
   * The `c.Stream` loop over `trace`: pass after pass until one says stop
   * or the trace ends. Returns the events emitted and the number of passes.
   */
  method StreamLoop(em: Emitter, trace: seq<Outcome>, sid: string, render: AIEvent -> string)
    returns (emitted: seq<AIEvent>, passes: nat)
    requires em.Valid()
    modifies em`pending, em`delivered, em`stickyErr
    ensures em.Valid()
    ensures emitted == Run(trace, sid, false, render)
    ensures passes <= |trace|
    ensures Tracks(em, old(em.delivered), old(em.stickyErr).None?, emitted)
  {
    ghost var base, clean := em.delivered, em.stickyErr.None?;
    var sentStarted := false;
    var keepOpen := true;
    emitted := [];
    passes := 0;
    assert EventsWire([]) == [];
    while passes < |trace| && keepOpen
      invariant passes <= |trace| && em.Valid()
      invariant keepOpen ==> emitted + Run(trace[passes..], sid, sentStarted, render) == Run(trace, sid, false, render)
      invariant !keepOpen ==> emitted == Run(trace, sid, false, render)
      invariant Tracks(em, base, clean, emitted)
      decreases |trace| - passes, keepOpen
    {
      var events, cont, started := StreamPass(em, trace[passes], sid, sentStarted, render, base, clean, emitted);
      RunStep(trace, passes, emitted, sid, sentStarted, render);
      emitted := emitted + events;
      sentStarted, keepOpen := started, cont;
      passes := passes + 1;
    }
    if keepOpen {
      assert trace[passes..] == [];
    }
  }

  /** What `ShouldBindJSON` makes of the body: a decoding error, or the two fields. */
  datatype RequestBody = Undecodable(error: string) | Decoded(sessionId: string, query: string)

  /** The validator's message for a missing or empty `query` (`binding:"required"`). */
  const QueryRequired := "Key: 'req.Query' Error:Field validation for 'Query' failed on the 'required' tag"

  /** The response: a 400 JSON `{"error": ...}`, or an event stream. */
  datatype Response =
    | BadRequest(error: string)
    | Streamed(emitted: seq<AIEvent>, delivered: string)

  /** The request after binding: the bind error, or the session id and query. */
  function Bind(body: RequestBody): Result<(string, string)> {
    match body
    case Undecodable(e) => Err(e)
    case Decoded(sid, query) => if query == "" then Err(QueryRequired) else Ok((sid, query))
  }

  /**
   * `InvokeStream`: a bind error is a 400 and no event; otherwise the SSE
   * response starts, and a failed setup emits one `error` event carrying the
   * error text and the session id and nothing else; a setup that succeeds
   * runs the loop over `trace`, whose received items are, when the
   * translator feeds it, the translation of the stream's events.
   * `writeFailure` is the response writer's failure (`None` while the
   * client is connected).
   */
  method InvokeStream(body: RequestBody, reply: RepositoryReply, trace: seq<Outcome>,
                      writeFailure: Option<string>, render: AIEvent -> string)
    returns (response: Response)
    ensures Bind(body).Err? ==> response == BadRequest(Bind(body).error)
    ensures Bind(body).Ok? && Setup(reply).Err? ==>
      response.Streamed? && response.emitted == [ErrorOf(Setup(reply).error, Opts(Bind(body).value.0))]
    ensures Bind(body).Ok? && Setup(reply).Ok? ==>
      response.Streamed? && response.emitted == Run(trace, Bind(body).value.0, false, render)
    ensures Bind(body).Ok? && Setup(reply).Ok? && AllTranslatable(Setup(reply).value.events)
            && Feeds(trace, Translate(Setup(reply).value.events)) ==>
      var sid, sent := Bind(body).value.0, Translate(Setup(reply).value.events);
      && response.emitted == StartIf(Items(trace), sid) + Deltas(Items(trace), sid, render) + Terminal(Stop(trace), sid)
      && (Stop(trace) == Some(ChannelClosed) ==>
            response.emitted == StartIf(sent, sid) + Deltas(sent, sid, render) + [EndOf(FinishCompleted, Opts(sid))])
    ensures response.Streamed? && writeFailure.None? ==> response.delivered == EventsWire(response.emitted)
    ensures response.Streamed? && writeFailure.Some? ==> response.delivered == []
  {
    if body.Undecodable? {
      return BadRequest(body.error);
    }
    if body.query == "" {
      return BadRequest(QueryRequired);
    }
    var sid := body.sessionId;
    var em := new Emitter(map[], writeFailure);
    assert EventsWire([]) == [];
    var err, stream := InvokeStreamSetup(reply);
    if err.Some? {
      SendError(em, err.value, sid, [], true, []);
      assert [] + [ErrorOf(err.value, Opts(sid))] == [ErrorOf(err.value, Opts(sid))];
      EmptyPrefix(EventsWire([ErrorOf(err.value, Opts(sid))]));
      return Streamed([ErrorOf(err.value, Opts(sid))], em.delivered);
    }
    // The channel carries the translation of `stream`'s events; `trace` is
    // what the loop reads from it.
    var emitted, _ := StreamLoop(em, trace, sid, render);
    if AllTranslatable(stream.value.events) && Feeds(trace, Translate(stream.value.events)) {
      FedRun(trace, Translate(stream.value.events), sid, render);
    }
    EmptyPrefix(EventsWire(emitted));
    return Streamed(emitted, em.delivered);
  }

  /** The usecase call as the handler sees it: its error, or the stream it will drain. */
  method InvokeStreamSetup(reply: RepositoryReply) returns (err: Option<string>, stream: Option<EventStream>)
    ensures Setup(reply).Err? ==> err == Some(Setup(reply).error) && stream.None?
    ensures Setup(reply).Ok? ==> err.None? && stream == Some(Setup(reply).value)
  {
    var r := Setup(reply);
    if r.Err? {
      return Some(r.error), None;
    }
    return None, Some(r.value);
  }
}
