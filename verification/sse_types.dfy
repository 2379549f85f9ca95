/**
 * The normalized event vocabulary of the SSE stream (package `sse`, types.go):
 * roles, the five event type tags, the eight finish reasons, the event
 * records with their `{ID, SessionID}` base, the functional options that set
 * that base, and the `New*` constructors.
 */
module SseTypes {

  /** `Role`: who authored a message. */
  datatype Role = RoleUser | RoleAssistant | RoleSystem | RoleTool {
    function Name(): string {
      match this
      case RoleUser => "user"
      case RoleAssistant => "assistant"
      case RoleSystem => "system"
      case RoleTool => "tool"
    }
  }

  /** `AIEventType`: the type tag each event carries and the SSE event name it is sent under. */
  datatype EventType =
    | EventMessageStart
    | EventMessageDelta
    | EventMessageEnd
    | EventMessageCitation
    | EventError
  {
    function Name(): string {
      match this
      case EventMessageStart => "message.start"
      case EventMessageDelta => "message.delta"
      case EventMessageEnd => "message.end"
      case EventMessageCitation => "message.citation"
      case EventError => "error"
    }
  }

  /** `AIEventFinishReason`: why a message stream ended. */
  datatype FinishReason =
    | FinishCompleted
    | FinishStop
    | FinishLength
    | FinishContentFilter
    | FinishTool
    | FinishGuardrail
    | FinishError
    | FinishUnknown
  {
    function Name(): string {
      match this
      case FinishCompleted => "completed"
      case FinishStop => "stop"
      case FinishLength => "length"
      case FinishContentFilter => "content_filter"
      case FinishTool => "tool"
      case FinishGuardrail => "guardrail_intervention"
      case FinishError => "error"
      case FinishUnknown => "unknown"
    }
  }

  /** The wire names of the finish reasons, as the closed set the stream may carry. */
  const FinishReasonNames: set<string> :=
    {"completed", "stop", "length", "content_filter", "tool", "guardrail_intervention", "error", "unknown"}

  /** `AIBaseEvent`: the correlation fields every event carries. */
  datatype BaseEvent = BaseEvent(id: string, sessionId: string)

  /** The zero `AIBaseEvent{}` every constructor starts from. */
  const EmptyBase := BaseEvent("", "")

  /** `CitationReference`: a snippet of referenced text and its source locator. */
  datatype CitationReference = CitationReference(text: string, source: string)

  /**
   * The `AIEvent` implementations. `eventType` is the struct's own `Type`
   * field: it is data, set by the constructors, not implied by the variant.
   * `AIMessageStart.Message.Role` is flattened into `role`.
   */
  datatype AIEvent =
    | AIMessageStart(base: BaseEvent, eventType: EventType, role: Role)
    | AIMessageDelta(base: BaseEvent, eventType: EventType, delta: string)
    | AIMessageEnd(base: BaseEvent, eventType: EventType, finishReason: FinishReason)
    | AIMessageCitation(base: BaseEvent, eventType: EventType, refs: seq<CitationReference>)
    | AIError(base: BaseEvent, eventType: EventType, message: string, code: string, retryable: bool)
  {
    /**
     * `GetBase`: the event's base fields. Every event struct implements it on
     * a value receiver, so what it hands out is a copy: putting it back into
     * the event leaves the event as it was, and setting options on it does
     * not reach the event.
     */
    function GetBase(): (b: BaseEvent)
      ensures this.(base := b) == this
    {
      base
    }

    /** `GetType`: the event's own `Type` field, whatever the variant. */
    function GetType(): (t: EventType)
      ensures this.(eventType := t) == this
    {
      eventType
    }
  }

  /** `EventOption`: what `WithID` and `WithSessionID` build. */
  datatype EventOption = WithID(id: string) | WithSessionID(sessionId: string) {
    /** The string the option stores. */
    function Value(): string {
      match this
      case WithID(v) => v
      case WithSessionID(v) => v
    }
  }

  /** The two base fields an option can set. */
  datatype BaseField = IdField | SessionIdField

  /** Does option `o` set `field`? */
  predicate Sets(o: EventOption, field: BaseField) {
    match field
    case IdField => o.WithID?
    case SessionIdField => o.WithSessionID?
  }

  function FieldOf(b: BaseEvent, field: BaseField): string {
    match field
    case IdField => b.id
    case SessionIdField => b.sessionId
  }

  /** Calling one option on `&ev.AIBaseEvent`: it overwrites its own field and nothing else. */
  function ApplyOption(b: BaseEvent, o: EventOption): (r: BaseEvent)
    ensures forall f: BaseField :: FieldOf(r, f) == if Sets(o, f) then o.Value() else FieldOf(b, f)
  {
    match o
    case WithID(v) => b.(id := v)
    case WithSessionID(v) => b.(sessionId := v)
  }

  /** The `for _, opt := range opts { opt(&ev.AIBaseEvent) }` loop, as a left fold. */
  function ApplyOptions(b: BaseEvent, opts: seq<EventOption>): BaseEvent
  {
    if opts == [] then b
    else ApplyOption(ApplyOptions(b, opts[..|opts| - 1]), opts[|opts| - 1])
  }

  /** The index of the last option in `opts` that sets `field`, or -1 when none does. */
  function LastSetting(opts: seq<EventOption>, field: BaseField): (k: int)
    ensures -1 <= k < |opts|
    ensures k >= 0 ==> Sets(opts[k], field)
    ensures forall j :: k < j < |opts| ==> !Sets(opts[j], field)
  {
    if opts == [] then -1
    else if Sets(opts[|opts| - 1], field) then |opts| - 1
    else LastSetting(opts[..|opts| - 1], field)
  }

  /**
   * Options are applied in order and the last option of a kind wins: a field
   * ends up holding the value of the last option that sets it, and keeps its
   * starting value when no option sets it.
   */
  lemma {:induction false} ApplyOptionsLastSetting(b: BaseEvent, opts: seq<EventOption>, field: BaseField)
    ensures var k := LastSetting(opts, field);
      FieldOf(ApplyOptions(b, opts), field) == if k < 0 then FieldOf(b, field) else opts[k].Value()
  {
    if opts != [] {
      ApplyOptionsLastSetting(b, opts[..|opts| - 1], field);
    }
  }

  /** The same, said of any option that no later option of its kind overrides. */
  lemma ApplyOptionsLastWins(b: BaseEvent, opts: seq<EventOption>, field: BaseField)
    ensures (forall j :: 0 <= j < |opts| ==> !Sets(opts[j], field)) ==>
              FieldOf(ApplyOptions(b, opts), field) == FieldOf(b, field)
    ensures forall i :: 0 <= i < |opts| && Sets(opts[i], field) && (forall j :: i < j < |opts| ==> !Sets(opts[j], field)) ==>
              FieldOf(ApplyOptions(b, opts), field) == opts[i].Value()
  {
    ApplyOptionsLastSetting(b, opts, field);
  }

  /** Applying the same options a second time changes nothing. */
  lemma ApplyOptionsIdempotent(b: BaseEvent, opts: seq<EventOption>)
    ensures ApplyOptions(ApplyOptions(b, opts), opts) == ApplyOptions(b, opts)
  {
    var once := ApplyOptions(b, opts);
    var twice := ApplyOptions(once, opts);
    forall f: BaseField ensures FieldOf(twice, f) == FieldOf(once, f) {
      ApplyOptionsLastSetting(b, opts, f);
      ApplyOptionsLastSetting(once, opts, f);
    }
    assert FieldOf(twice, IdField) == FieldOf(once, IdField);
    assert FieldOf(twice, SessionIdField) == FieldOf(once, SessionIdField);
  }

  /** Applying `o1` and then `o2` is applying `o1 + o2`. */
  lemma {:induction false} ApplyOptionsConcat(b: BaseEvent, o1: seq<EventOption>, o2: seq<EventOption>)
    ensures ApplyOptions(ApplyOptions(b, o1), o2) == ApplyOptions(b, o1 + o2)
    decreases |o2|
  {
    if o2 == [] {
      assert o1 + o2 == o1;
    } else {
      var n := |o2| - 1;
      ApplyOptionsConcat(b, o1, o2[..n]);
      assert (o1 + o2)[..|o1 + o2| - 1] == o1 + o2[..n];
    }
  }

  // The events the constructors build, as functions of their arguments.

  /** `NewAIMessageStart(role, opts...)`. */
  function StartOf(role: Role, opts: seq<EventOption>): AIEvent {
    AIMessageStart(ApplyOptions(EmptyBase, opts), EventMessageStart, role)
  }

  /** `NewAIMessageDelta(delta, opts...)`. */
  function DeltaOf(delta: string, opts: seq<EventOption>): AIEvent {
    AIMessageDelta(ApplyOptions(EmptyBase, opts), EventMessageDelta, delta)
  }

  /** `NewAIMessageEnd(reason, opts...)`. */
  function EndOf(reason: FinishReason, opts: seq<EventOption>): AIEvent {
    AIMessageEnd(ApplyOptions(EmptyBase, opts), EventMessageEnd, reason)
  }

  /** `NewAIMessageCitation(refs, opts...)`. */
  function CitationOf(refs: seq<CitationReference>, opts: seq<EventOption>): AIEvent {
    AIMessageCitation(ApplyOptions(EmptyBase, opts), EventMessageCitation, refs)
  }

  /** `NewAIError(message, opts...)`. */
  function ErrorOf(message: string, opts: seq<EventOption>): AIEvent {
    AIError(ApplyOptions(EmptyBase, opts), EventError, message, "", false)
  }

  /** Is `ev` one of the two terminal events of a stream? */
  predicate IsTerminal(ev: AIEvent) {
    ev.AIMessageEnd? || ev.AIError?
  }

  /** The five event names are pairwise distinct, so a name identifies its type. */
  lemma EventTypeNamesDistinct(a: EventType, b: EventType)
    ensures a.Name() == b.Name() <==> a == b
  {
    if a != b {
      assert a.Name()[..] != b.Name()[..] by {
        match a
        case EventMessageStart =>
          assert a.Name()[8] == 's';
        case EventMessageDelta =>
          assert a.Name()[8] == 'd';
        case EventMessageEnd =>
          assert a.Name()[8] == 'e';
        case EventMessageCitation =>
          assert a.Name()[8] == 'c';
        case EventError =>
          assert |a.Name()| == 5;
      }
    }
  }

  /** The finish reasons are exactly the eight listed names, each named once. */
  lemma FinishReasonNamesExact(a: FinishReason, b: FinishReason)
    ensures a.Name() in FinishReasonNames
    ensures a.Name() == b.Name() <==> a == b
    ensures forall s :: s in FinishReasonNames ==> exists r: FinishReason :: r.Name() == s
  {
    assert FinishCompleted.Name() == "completed";
    assert FinishStop.Name() == "stop";
    assert FinishLength.Name() == "length";
    assert FinishContentFilter.Name() == "content_filter";
    assert FinishTool.Name() == "tool";
    assert FinishGuardrail.Name() == "guardrail_intervention";
    assert FinishError.Name() == "error";
    assert FinishUnknown.Name() == "unknown";
  }

  // The constructors. Each starts from the zero base, stamps its own type tag,
  // copies its payload and then runs the option loop.

  method NewAIMessageStart(role: Role, opts: seq<EventOption>) returns (ev: AIEvent)
    ensures ev == StartOf(role, opts)
    ensures ev.GetType() == EventMessageStart && ev.AIMessageStart? && ev.role == role
  {
    ev := AIMessageStart(EmptyBase, EventMessageStart, role);
    for i := 0 to |opts|
      invariant ev == AIMessageStart(ApplyOptions(EmptyBase, opts[..i]), EventMessageStart, role)
    {
      assert opts[..i + 1][..i] == opts[..i];
      ev := AIMessageStart(ApplyOption(ev.base, opts[i]), ev.eventType, ev.role);
    }
    assert opts[..|opts|] == opts;
  }

  method NewAIMessageDelta(delta: string, opts: seq<EventOption>) returns (ev: AIEvent)
    ensures ev == DeltaOf(delta, opts)
    ensures ev.GetType() == EventMessageDelta && ev.AIMessageDelta? && ev.delta == delta
  {
    ev := AIMessageDelta(EmptyBase, EventMessageDelta, delta);
    for i := 0 to |opts|
      invariant ev == AIMessageDelta(ApplyOptions(EmptyBase, opts[..i]), EventMessageDelta, delta)
    {
      assert opts[..i + 1][..i] == opts[..i];
      ev := AIMessageDelta(ApplyOption(ev.base, opts[i]), ev.eventType, ev.delta);
    }
    assert opts[..|opts|] == opts;
  }

  method NewAIMessageEnd(reason: FinishReason, opts: seq<EventOption>) returns (ev: AIEvent)
    ensures ev == EndOf(reason, opts)
    ensures ev.GetType() == EventMessageEnd && ev.AIMessageEnd? && ev.finishReason == reason
  {
    ev := AIMessageEnd(EmptyBase, EventMessageEnd, reason);
    for i := 0 to |opts|
      invariant ev == AIMessageEnd(ApplyOptions(EmptyBase, opts[..i]), EventMessageEnd, reason)
    {
      assert opts[..i + 1][..i] == opts[..i];
      ev := AIMessageEnd(ApplyOption(ev.base, opts[i]), ev.eventType, ev.finishReason);
    }
    assert opts[..|opts|] == opts;
  }

  method NewAIError(message: string, opts: seq<EventOption>) returns (ev: AIEvent)
    ensures ev == ErrorOf(message, opts)
    ensures ev.GetType() == EventError && ev.AIError? && ev.message == message
    ensures ev.code == "" && !ev.retryable
  {
    ev := AIError(EmptyBase, EventError, message, "", false);
    for i := 0 to |opts|
      invariant ev == AIError(ApplyOptions(EmptyBase, opts[..i]), EventError, message, "", false)
    {
      assert opts[..i + 1][..i] == opts[..i];
      ev := AIError(ApplyOption(ev.base, opts[i]), ev.eventType, ev.message, ev.code, ev.retryable);
    }
    assert opts[..|opts|] == opts;
  }

  method NewAIMessageCitation(refs: seq<CitationReference>, opts: seq<EventOption>) returns (ev: AIEvent)
    ensures ev == CitationOf(refs, opts)
    ensures ev.GetType() == EventMessageCitation && ev.AIMessageCitation? && ev.refs == refs
  {
    ev := AIMessageCitation(EmptyBase, EventMessageCitation, refs);
    for i := 0 to |opts|
      invariant ev == AIMessageCitation(ApplyOptions(EmptyBase, opts[..i]), EventMessageCitation, refs)
    {
      assert opts[..i + 1][..i] == opts[..i];
      ev := AIMessageCitation(ApplyOption(ev.base, opts[i]), ev.eventType, ev.refs);
    }
    assert opts[..|opts|] == opts;
  }

  /** `NewAssistantStart`: a start event whose role is always `assistant`. */
  method NewAssistantStart(opts: seq<EventOption>) returns (ev: AIEvent)
    ensures ev == StartOf(RoleAssistant, opts)
    ensures ev.AIMessageStart? && ev.role == RoleAssistant
  {
    ev := NewAIMessageStart(RoleAssistant, opts);
  }

  /** `NewAssistantDelta`: the same event `NewAIMessageDelta` builds. */
  method NewAssistantDelta(delta: string, opts: seq<EventOption>) returns (ev: AIEvent)
    ensures ev == DeltaOf(delta, opts)
  {
    ev := NewAIMessageDelta(delta, opts);
  }

  /** `NewAssistantEnd`: the same event `NewAIMessageEnd` builds. */
  method NewAssistantEnd(reason: FinishReason, opts: seq<EventOption>) returns (ev: AIEvent)
    ensures ev == EndOf(reason, opts)
  {
    ev := NewAIMessageEnd(reason, opts);
  }

  /**
   * Without options the base is the zero base; with options, every
   * constructor's base is the same fold of the options, whatever the
   * payload.
   */
  lemma ConstructorBases(role: Role, text: string, reason: FinishReason,
                         refs: seq<CitationReference>, opts: seq<EventOption>)
    ensures StartOf(role, []).base == EmptyBase && DeltaOf(text, []).base == EmptyBase
    ensures EndOf(reason, []).base == EmptyBase && CitationOf(refs, []).base == EmptyBase
    ensures ErrorOf(text, []).base == EmptyBase
    ensures StartOf(role, opts).GetBase() == DeltaOf(text, opts).GetBase() == EndOf(reason, opts).GetBase()
         == CitationOf(refs, opts).GetBase() == ErrorOf(text, opts).GetBase() == ApplyOptions(EmptyBase, opts)
  {
  }

  /** Each constructor stamps its own type tag, so `GetType` names the event it built. */
  lemma ConstructorTypes(role: Role, text: string, reason: FinishReason,
                         refs: seq<CitationReference>, opts: seq<EventOption>)
    ensures StartOf(role, opts).GetType() == EventMessageStart
    ensures DeltaOf(text, opts).GetType() == EventMessageDelta
    ensures EndOf(reason, opts).GetType() == EventMessageEnd
    ensures CitationOf(refs, opts).GetType() == EventMessageCitation
    ensures ErrorOf(text, opts).GetType() == EventError
  {
  }
}
