/**
 * The upstream translator of backend/internal/usecase/bedrock_agent_runtime.go:
 * the setup checks `InvokeStream` makes before any channel exists, the
 * mapping from upstream feed events to normalized SSE events, and the drain
 * loop that forwards them, closes the upstream stream and then closes the
 * output channel.
 *
 * The goroutine and its unbuffered channel are replaced by the sequence of
 * effects the drain loop performs, in order.
 */
module AgentRuntimeUsecase {
  import opened Wrappers
  import opened Seqs
  import opened SseTypes
  import opened AgentRuntimeTypes

  /** The fields the citation mapping dereferences without a nil check. */
  predicate Dereferenceable(ref: RetrievedReference) {
    ref.content.Some? && ref.location.Some? && ref.location.value.s3Location.Some?
  }

  /** A feed event the translator handles without a nil dereference. */
  predicate Translatable(o: StreamOutput) {
    o.CitationMember? ==>
      forall i :: 0 <= i < |o.retrievedReferences| ==> Dereferenceable(o.retrievedReferences[i])
  }

  predicate AllTranslatable(feed: seq<StreamOutput>) {
    forall i :: 0 <= i < |feed| ==> Translatable(feed[i])
  }

  /** One retrieved reference as a citation: passage text and S3 URI, a nil one read as "". */
  function CitationRefOf(ref: RetrievedReference): (c: CitationReference)
    requires Dereferenceable(ref)
  {
    CitationReference(ref.content.value.text.GetOr(""), ref.location.value.s3Location.value.uri.GetOr(""))
  }

  /** `lo.Map` of `CitationRefOf` over the references. */
  function CitationRefs(refs: seq<RetrievedReference>): (r: seq<CitationReference>)
    requires forall i :: 0 <= i < |refs| ==> Dereferenceable(refs[i])
    ensures |r| == |refs|
    ensures forall i :: 0 <= i < |refs| ==> r[i] == CitationRefOf(refs[i])
  {
    seq(|refs|, i requires 0 <= i < |refs| => CitationRefOf(refs[i]))
  }

  /** The events one feed event becomes: none, or one (the `switch` of the drain loop). */
  function EventsOf(o: StreamOutput): seq<AIEvent>
    requires Translatable(o)
  {
    match o
    case OutputMember(text) => if text.Some? then [DeltaOf(text.value, [])] else []
    case CitationMember(refs) => [CitationOf(CitationRefs(refs), [])]
    case GuardrailMember(_) => []
    case UnknownMember(_) => []
  }

  /** The events the whole feed becomes, in feed order. */
  function Translate(feed: seq<StreamOutput>): seq<AIEvent>
    requires AllTranslatable(feed)
  {
    if feed == [] then [] else Translate(feed[..|feed| - 1]) + EventsOf(feed[|feed| - 1])
  }

  /** Translation works event by event: translating a split feed gives the two halves' events, in order. */
  lemma {:induction false} TranslateConcat(a: seq<StreamOutput>, b: seq<StreamOutput>)
    requires AllTranslatable(a) && AllTranslatable(b)
    ensures AllTranslatable(a + b)
    ensures Translate(a + b) == Translate(a) + Translate(b)
  {
    assert AllTranslatable(a + b) by {
      forall i | 0 <= i < |a + b| ensures Translatable((a + b)[i]) {
        if i >= |a| {
          assert (a + b)[i] == b[i - |a|];
        }
      }
    }
    if b != [] {
      var n := |b|;
      assert (a + b)[..|a + b| - 1] == a + b[..n - 1];
      assert (a + b)[|a + b| - 1] == b[n - 1];
      TranslateConcat(a, b[..n - 1]);
      AppendAssoc(Translate(a), Translate(b[..n - 1]), EventsOf(b[n - 1]));
    } else {
      assert a + b == a;
    }
  }

  /**
   * What each kind of feed event contributes: an output with text one delta
   * carrying exactly that text (also when it is ""), an output without text
   * nothing, a citation one citation event with a reference per retrieved
   * reference, guardrail and unknown events nothing.
   */
  lemma TranslateOne(o: StreamOutput)
    requires Translatable(o)
    ensures Translate([o]) == EventsOf(o)
    ensures o.OutputMember? && o.text.Some? ==>
      Translate([o]) == [DeltaOf(o.text.value, [])] && Translate([o])[0].delta == o.text.value
    ensures o.OutputMember? && o.text.None? ==> Translate([o]) == []
    ensures o.CitationMember? ==>
      |Translate([o])| == 1 && Translate([o])[0].AIMessageCitation?
      && |Translate([o])[0].refs| == |o.retrievedReferences|
    ensures o.GuardrailMember? || o.UnknownMember? ==> Translate([o]) == []
  {
    assert [o][..0] == [];
  }

  /** A citation's references are the retrieved ones, in order, with nil text or URI read as "". */
  lemma CitationReferencesCopied(refs: seq<RetrievedReference>, i: int)
    requires forall k :: 0 <= k < |refs| ==> Dereferenceable(refs[k])
    requires 0 <= i < |refs|
    ensures var c := CitationOf(CitationRefs(refs), []).refs[i];
      && (refs[i].content.value.text.Some? ==> c.text == refs[i].content.value.text.value)
      && (refs[i].content.value.text.None? ==> c.text == "")
      && (refs[i].location.value.s3Location.value.uri.Some? ==> c.source == refs[i].location.value.s3Location.value.uri.value)
      && (refs[i].location.value.s3Location.value.uri.None? ==> c.source == "")
  {
  }

  /**
   * Every translated event is a delta or a citation with an empty base: the
   * translator never ends a stream and stamps no id.
   */
  lemma {:induction false} TranslateShape(feed: seq<StreamOutput>)
    requires AllTranslatable(feed)
    ensures |Translate(feed)| <= |feed|
    ensures forall i :: 0 <= i < |Translate(feed)| ==>
      (Translate(feed)[i].AIMessageDelta? || Translate(feed)[i].AIMessageCitation?)
      && Translate(feed)[i].base == EmptyBase && !IsTerminal(Translate(feed)[i])
  {
    if feed != [] {
      TranslateShape(feed[..|feed| - 1]);
    }
  }

  /** Does the feed event carry something the drain loop forwards: an output with text, or a citation? */
  predicate Forwards(o: StreamOutput) {
    (o.OutputMember? && o.text.Some?) || o.CitationMember?
  }

  /** The number of feed events that carry something to forward. */
  function Forwarded(feed: seq<StreamOutput>): nat {
    if feed == [] then 0 else Forwarded(feed[..|feed| - 1]) + (if Forwards(feed[|feed| - 1]) then 1 else 0)
  }

  /** The translation holds one event per output with text and per citation, and nothing else. */
  lemma {:induction false} TranslateCount(feed: seq<StreamOutput>)
    requires AllTranslatable(feed)
    ensures |Translate(feed)| == Forwarded(feed)
  {
    if feed != [] {
      TranslateCount(feed[..|feed| - 1]);
    }
  }

  /** What the drain loop does, in order. */
  datatype Effect =
    | Send(event: AIEvent)   // `outputChan <- ev`
    | CloseStream            // `stream.Close()`
    | CloseOutput            // `close(outputChan)`

  function SendOf(ev: AIEvent): Effect {
    Send(ev)
  }

  /**
   * The drain loop: one pass per feed event, forwarding what it translates
   * to; when the feed ends, the deferred calls close the upstream stream and
   * then the output channel. Also returns the loop's counter.
   */
  method Drain(feed: seq<StreamOutput>) returns (effects: seq<Effect>, count: nat)
    requires AllTranslatable(feed)
    ensures count == |feed|
    ensures effects == Map(SendOf, Translate(feed)) + [CloseStream, CloseOutput]
  {
    effects := [];
    count := 0;
    for i := 0 to |feed|
      invariant count == i
      invariant effects == Map(SendOf, Translate(feed[..i]))
    {
      assert feed[..i + 1][..i] == feed[..i];
      MapConcat(SendOf, Translate(feed[..i]), EventsOf(feed[i]));
      count := count + 1;
      match feed[i] {
        case OutputMember(text) =>
          if text.Some? {
            var ev := NewAssistantDelta(text.value, []);
            effects := effects + [Send(ev)];
          }
        case CitationMember(refs) =>
          var ev := NewAIMessageCitation(CitationRefs(refs), []);
          effects := effects + [Send(ev)];
        case GuardrailMember(_) =>
        case UnknownMember(_) =>
      }
    }
    assert feed[..|feed|] == feed;
    effects := effects + [CloseStream, CloseOutput];
  }

  /** The drain loop only sends until the feed ends, then closes the stream and the channel, each once. */
  lemma DrainEffectsOrder(feed: seq<StreamOutput>)
    requires AllTranslatable(feed)
    ensures var effects := Map(SendOf, Translate(feed)) + [CloseStream, CloseOutput];
      && |effects| == |Translate(feed)| + 2
      && (forall i :: 0 <= i < |effects| - 2 ==> effects[i] == Send(Translate(feed)[i]))
      && effects[|effects| - 2] == CloseStream && effects[|effects| - 1] == CloseOutput
  {
  }

  /** The upstream event stream: its error at setup time and its events. */
  datatype EventStream = EventStream(err: Option<string>, events: seq<StreamOutput>)

  /** `RetrieveAndGenerateStream`'s reply: an error, or a result whose stream may be nil. */
  datatype RepositoryReply = RepositoryFailed(error: string) | RepositoryOk(stream: Option<EventStream>)

  /** The setup checks: the stream to drain, or the error `InvokeStream` returns. */
  function Setup(reply: RepositoryReply): (r: Result<EventStream>)
    ensures r.Ok? <==> reply.RepositoryOk? && reply.stream.Some? && reply.stream.value.err.None?
    ensures r.Ok? ==> r.value == reply.stream.value
  {
    match reply
    case RepositoryFailed(e) => Err(e)
    case RepositoryOk(None) => Err("nil stream returned")
    case RepositoryOk(Some(s)) =>
      if s.err.Some? then Err("stream error: " + s.err.value) else Ok(s)
  }

  /** The setup errors: a repository error unchanged, a nil stream, or the stream's own error wrapped. */
  lemma SetupErrors(reply: RepositoryReply)
    ensures reply.RepositoryFailed? ==> Setup(reply) == Err(reply.error)
    ensures reply == RepositoryOk(None) ==> Setup(reply) == Err("nil stream returned")
    ensures reply.RepositoryOk? && reply.stream.Some? && reply.stream.value.err.Some? ==>
      Setup(reply) == Err("stream error: " + reply.stream.value.err.value)
  {
  }

  /** What a setup that succeeds hands the handler: the events the channel will carry. */
  predicate Drainable(reply: RepositoryReply) {
    Setup(reply).Ok? ==> AllTranslatable(Setup(reply).value.events)
  }

  /**
   * `InvokeStream`: a failed setup returns its error and does nothing else
   * (no channel, and the stream, when there is one, is not closed);
   * otherwise the feed is drained.
   */
  method InvokeStream(reply: RepositoryReply) returns (err: Option<string>, effects: seq<Effect>)
    requires Drainable(reply)
    ensures Setup(reply).Err? ==> err == Some(Setup(reply).error) && effects == []
    ensures Setup(reply).Ok? ==>
      err.None? && effects == Map(SendOf, Translate(Setup(reply).value.events)) + [CloseStream, CloseOutput]
  {
    match reply {
      case RepositoryFailed(e) =>
        return Some(e), [];
      case RepositoryOk(stream) =>
        if stream.None? {
          return Some("nil stream returned"), [];
        }
        if stream.value.err.Some? {
          return Some("stream error: " + stream.value.err.value), [];
        }
        var count;
        effects, count := Drain(stream.value.events);
        err := None;
    }
  }
}
