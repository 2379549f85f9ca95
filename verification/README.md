# Bedrock streaming bridge, modelled in Dafny

This project models the core of a chat backend that answers questions against
an Amazon Bedrock knowledge base and streams the answer to the browser as
Server-Sent Events (SSE). It covers:

- **The event vocabulary** (`SseTypes`).
  - Five normalized events: `message.start`, `message.delta`,
    `message.citation`, `message.end` and `error`.
  - Eight finish reasons.
  - A base of `{ID, SessionID}` set by the functional options `WithID` and
    `WithSessionID`.
  - The constructors, each of which runs its option loop.
- **JSON encoding of the events** (`SseJson`). A small serializer for what
  `json.Marshal` writes for these structs, with the string-literal escaping and
  its decoder.
- **SSE framing and a client-side parser** (`SseWire`).
  - An emitter frame is `event: <name>\n`, then `data: <json>\n`, then a blank
    line. A comment frame is `:<text>` and a blank line.
  - The parser reads frames as the event-stream interpretation of the WHATWG
    HTML Living Standard, section 9.2 "Server-sent events", would. It is used
    to state what a client sees.
- **The SSE emitter** (`SseEmitter`).
  - The response headers.
  - An `Emitter` object that writes each frame into a buffer and flushes it at
    once. A failed write leaves a sticky error, which every later call returns.
  - The default heartbeat interval.
- **The upstream translator** (`AgentRuntimeUsecase`).
  - The setup checks on the Bedrock `RetrieveAndGenerateStream` reply.
  - The mapping of upstream output, citation, guardrail and unknown events to
    delta and citation events.
  - The drain loop, which forwards events in order and then closes the
    upstream stream and the output channel.
- **The stream controller** (`AgentRuntimeHandler`).
  - Request binding and the setup-failure path.
  - The `c.Stream` select loop with its `sentStarted` flag.
  - What the emitter has delivered once the loop stops.
- **The legacy non-streaming chat server** (`LegacyChat`): `NewServer`'s
  environment defaults, `handleChat` and `handleHealth`.
- **The ingestion duplicate check** (`IngestionClient`, `S3Sync`).
  - The Bedrock Agent client: it counts in-progress jobs and starts an
    ingestion job.
  - The Lambda handler, which starts a job only when none is running.

Modules follow the Go files:

| module | file |
|---|---|
| `SseTypes` | `sse_types.dfy` |
| `SseJson` | `sse_json.dfy` |
| `SseWire` | `sse_wire.dfy` |
| `SseEmitter` | `sse_emitter.dfy` |
| `AgentRuntimeTypes` | `agent_runtime_types.dfy` |
| `AgentRuntimeUsecase` | `agent_runtime_usecase.dfy` |
| `AgentRuntimeHandler` | `agent_runtime_handler.dfy` |
| `LegacyChat` | `legacy_chat.dfy` |
| `IngestionClient` | `ingestion_client.dfy` |
| `S3Sync` | `s3_sync.dfy` |

`Wrappers` holds `Option` and `Result`. `Seqs` holds a generic `Map` over
sequences.

Choices made in modelling:

- **Constructors.**
  - Each Go constructor is a method with the `for _, opt := range opts` loop.
  - It is proved equal to a pure function of its arguments (`StartOf`,
    `DeltaOf`, ...). Everything else reasons with those functions.
- **The emitter.**
  - The emitter is a class. `pending` is what `bw` buffers, `delivered` is
    what the response writer has received, and `stickyErr` is the buffer's
    error.
  - The response writer is reduced to `writeFailure`: `None` while the client
    is connected, otherwise the error every write to it returns.
  - The twostate predicate `Emitter.Sent` states the effect of one frame:
    - a sticky error is returned with nothing written;
    - otherwise the frame reaches the client whole;
    - or the flush fails, and the frame stays buffered behind the new sticky
      error.
- **The options passed to `Emit`.** `Emit` runs its options on `v.GetBase()`.
  The event structs implement `GetBase` with a value receiver, so that loop
  changes a copy. `SseEmitter.Prepared` models this as written: only a
  `*AIBaseEvent` takes the options. The `Emit*` helpers are unaffected, because
  their constructor has already applied the same options and applying them
  again changes nothing (`SseEmitter.EmitOptionsReach`).
- **Translator concurrency.** The translator's goroutine and channel are
  replaced by the ordered list of effects the drain loop performs: `Send`,
  `CloseStream` and `CloseOutput`.
- **The controller's input.** The controller reads a trace of what each pass of
  `c.Stream` found ready:
  - `ClientGone`: gin saw the client go and did not call the callback;
  - `Cancelled`;
  - `Received(msg)`;
  - `ChannelClosed`.

  Any interleaving is allowed, because `select` may pick any ready case: a
  cancellation or the client's departure may come at any pass. What the
  channel yields is tied to the translator by `AgentRuntimeHandler.Feeds`:
  the items received are the first of those the translator sent, in order,
  and the closed channel is seen only after every sent item was received,
  as an unbuffered channel closed after its last send guarantees. A trace
  that ends before a stopping outcome is a stream still open.
- **Line 88 of the handler.** It hands the received `AIEvent` to
  `EmitMessageDelta`, whose parameter is a `string`. The model keeps that
  conversion as an abstract parameter `render`, and forwards every item through
  the delta path, as written.
- **Configuration.** `NewServer` and `handleChat` take the environment values,
  the AWS config loader's error, the clock-made session id and the Bedrock
  reply as parameters.
- **SDK clients.** The SDK client of the ingestion check is replaced by the
  service's listing of the data source's jobs (or the list error), the start
  call's error, and a ghost log of the calls made. `ListIngestionJobs` answers
  with the first page of that listing, at most `MaxResults` summaries
  (`IngestionClient.Page`); the next-page token is never read.

Behaviour of the code that a reader of the event protocol might not expect, modelled as written:

- An output event whose text is `""` still produces a delta. Only a nil text is
  skipped.
- An upstream error in mid-stream is not told apart from the end of the feed.
  The channel closes and the controller ends the stream with `completed`.
- A setup failure on `stream.Err()` returns without closing the stream.
- Every received item goes down the delta path. There is no separate citation
  path in the controller.

## Model

| member | source | states |
|---|---|---|
| SseTypes.LastSetting | backend/internal/transport/http/sse/types.go:151-153 | the index it returns is the last option that sets the field, or -1 when none does; no later option sets it |
| SseTypes.ApplyOptionsLastSetting | backend/internal/transport/http/sse/types.go:133-140 | after the option loop, a base field holds the value of the last option that sets it, and keeps its starting value when none does |
| SseTypes.ApplyOptionsLastWins | backend/internal/transport/http/sse/types.go:133-140 | `WithID` touches only `ID` and `WithSessionID` only `SessionID`; the last option of a kind wins, and with no such option the field is unchanged |
| SseTypes.ApplyOptionsIdempotent | backend/internal/transport/http/sse/types.go:151-153 | running the same options a second time changes nothing |
| SseTypes.ApplyOptionsConcat | backend/internal/transport/http/sse/types.go:151-153 | options are applied in order: running `o1` then `o2` is running `o1 + o2` |
| SseTypes.EventTypeNamesDistinct | backend/internal/transport/http/sse/types.go:19-25 | the five event-type names are pairwise distinct: equal names iff equal types |
| SseTypes.FinishReasonNamesExact | backend/internal/transport/http/sse/types.go:27-38 | the finish reasons are exactly the eight listed names, each named by exactly one reason |
| SseTypes.NewAIMessageStart | backend/internal/transport/http/sse/types.go:145-155 | the option loop builds `StartOf(role, opts)`: type `message.start`, the given role |
| SseTypes.NewAIMessageDelta | backend/internal/transport/http/sse/types.go:160-170 | builds `DeltaOf(delta, opts)`: type `message.delta`, the delta text copied unchanged |
| SseTypes.NewAIMessageEnd | backend/internal/transport/http/sse/types.go:175-185 | builds `EndOf(reason, opts)`: type `message.end`, the finish reason copied |
| SseTypes.NewAIError | backend/internal/transport/http/sse/types.go:190-200 | builds `ErrorOf(message, opts)`: type `error`, the message copied, `Code` empty, `Retryable` false |
| SseTypes.NewAIMessageCitation | backend/internal/transport/http/sse/types.go:213-223 | builds `CitationOf(refs, opts)`: type `message.citation`, the refs copied unchanged |
| SseTypes.NewAssistantStart | backend/internal/transport/http/sse/types.go:202-204 | always yields a start event with role `assistant` |
| SseTypes.NewAssistantDelta | backend/internal/transport/http/sse/types.go:206-208 | yields what `NewAIMessageDelta` yields on the same arguments |
| SseTypes.NewAssistantEnd | backend/internal/transport/http/sse/types.go:225-227 | yields what `NewAIMessageEnd` yields on the same arguments |
| SseTypes.AIEvent.GetBase | backend/internal/transport/http/sse/types.go:56-58 | the base it returns is exactly the event's own base fields: putting it back into the event leaves the event unchanged. That options set through it reach a copy and not the event is stated by `SseEmitter.EmitOptionsReach` |
| SseTypes.AIEvent.GetType | backend/internal/transport/http/sse/types.go:60-62 | returns the event's own `Type` field, the data its constructor stored, whatever the variant |
| SseTypes.ConstructorTypes | backend/internal/transport/http/sse/types.go:145-155 | each constructor stores its own type tag, so `GetType` of a start, delta, end, citation or error is `message.start`, `message.delta`, `message.end`, `message.citation` or `error` |
| SseTypes.ConstructorBases | backend/internal/transport/http/sse/types.go:146-149 | with no options, every constructor leaves `ID` and `SessionID` empty; with the same options, all get the same base |
| SseJson.EscapeSingleLine | backend/internal/transport/http/sse/emitter.go:60 | the escaped text of a JSON string never contains a line break |
| SseJson.UnescapeEscape | backend/internal/transport/http/sse/emitter.go:60 | decoding the escaped text of a string gives the string back (RFC 8259, section 7) |
| SseJson.QuoteInjective | backend/internal/transport/http/sse/emitter.go:60 | two strings are written as the same JSON literal iff they are equal |
| SseJson.MarshalSingleLine | backend/internal/transport/http/sse/emitter.go:60-70 | whatever marshals successfully is one line, so it fits after `data: ` without breaking the framing |
| SseWire.WireConcat | backend/internal/transport/http/sse/emitter.go:65-77 | the text of consecutive frames is the concatenation of their texts |
| SseWire.ParseWire | backend/internal/transport/http/sse/emitter.go:65-77 | a client parsing well-formed frames dispatches exactly the event frames' name and data, in order |
| SseWire.CommentsInvisible | backend/internal/transport/http/sse/emitter.go:92-97 | removing the comment frames from a stream changes nothing a client sees |
| SseEmitter.SetupSSEHeaders | backend/internal/transport/http/sse/emitter.go:14-28 | sets `Content-Type: text/event-stream`, `Cache-Control: no-cache`, `Connection: keep-alive`, `X-Accel-Buffering: no`, and leaves other headers as they were |
| SseEmitter.HeartbeatInterval | backend/internal/transport/http/sse/emitter.go:100-103 | the ticker interval is the given one when positive and 20 s otherwise; it is always positive |
| SseEmitter.EventsWireSnoc | backend/internal/transport/http/sse/emitter.go:65-77 | emitting one more event appends exactly that event's frame to what was written |
| SseEmitter.ClientSeesEvents | backend/internal/transport/http/sse/emitter.go:65-77 | a client reading the frames of `evs` receives one message per event, in order, named by its `type` and carrying its JSON |
| SseEmitter.CarriedEvents | backend/internal/transport/http/sse/emitter.go:129-157 | each event's frame carries the event's own `type` name and its JSON |
| SseEmitter.EmitOptionsReach | backend/internal/transport/http/sse/emitter.go:53-58 | the options passed to `Emit` leave an event struct unchanged and reach only a `*AIBaseEvent`; re-applying a constructor's options changes nothing |
| SseEmitter.CommentCarriesNoEvent | backend/internal/transport/http/sse/emitter.go:92-97 | a comment frame makes a client dispatch no event |
| SseEmitter.HeartbeatFrame | backend/internal/transport/http/sse/emitter.go:115 | the heartbeat writes `:ping` and a blank line, and a client reading it dispatches no event |
| SseEmitter.Emitter.constructor | backend/internal/transport/http/sse/emitter.go:39-49 | the new emitter has the SSE headers set, an empty buffer, nothing delivered and no error |
| SseEmitter.Emitter.BufferWrite | backend/internal/transport/http/sse/emitter.go:66-75 | a buffered write appends to the buffer, or returns the sticky error and writes nothing |
| SseEmitter.Emitter.Flush | backend/internal/transport/http/sse/emitter.go:81-89 | a flush moves the whole buffer to the client, or fails and keeps it, leaving the write error sticky; an earlier error is returned with nothing done |
| SseEmitter.Emitter.WriteFrame | backend/internal/transport/http/sse/emitter.go:65-77 | the four writes and the flush send exactly `event: <name>\n` + `data: <json>\n\n`; after success the buffer is empty; a failure returns the error |
| SseEmitter.Emitter.Emit | backend/internal/transport/http/sse/emitter.go:52-78 | a marshal failure returns `sse marshal: …` and writes nothing; otherwise the frame of the marshalled value is sent as `Sent` states |
| SseEmitter.Emitter.EmitStruct | backend/internal/transport/http/sse/emitter.go:52-78 | an event struct sent under its own `type` name always marshals, so its frame is sent as `Sent` states |
| SseEmitter.Emitter.Comment | backend/internal/transport/http/sse/emitter.go:92-97 | sends exactly `:<text>\n\n`, with the same error behaviour as a frame |
| SseEmitter.Emitter.Close | backend/internal/transport/http/sse/emitter.go:123-125 | closing changes nothing between calls and reports the sticky error |
| SseEmitter.Emitter.EmitMessageStart | backend/internal/transport/http/sse/emitter.go:130-133 | sends the frame of `StartOf(role, opts)`, named `message.start`, its payload's `type` |
| SseEmitter.Emitter.EmitMessageDelta | backend/internal/transport/http/sse/emitter.go:136-139 | sends the frame of `DeltaOf(delta, opts)`, named `message.delta` |
| SseEmitter.Emitter.EmitMessageCitation | backend/internal/transport/http/sse/emitter.go:142-145 | sends the frame of `CitationOf(refs, opts)`, named `message.citation` |
| SseEmitter.Emitter.EmitMessageEnd | backend/internal/transport/http/sse/emitter.go:148-151 | sends the frame of `EndOf(reason, opts)`, named `message.end` |
| SseEmitter.Emitter.EmitError | backend/internal/transport/http/sse/emitter.go:154-157 | sends the frame of `ErrorOf(message, opts)`, named `error` |
| AgentRuntimeUsecase.CitationRefs | backend/internal/usecase/bedrock_agent_runtime.go:62-67 | one citation reference per retrieved reference, in order |
| AgentRuntimeUsecase.TranslateOne | backend/internal/usecase/bedrock_agent_runtime.go:56-72 | output text gives exactly one delta with that text (also ""); nil text gives nothing; a citation gives one citation event with one ref per reference; guardrail and unknown events give nothing |
| AgentRuntimeUsecase.CitationReferencesCopied | backend/internal/usecase/bedrock_agent_runtime.go:62-67 | each ref's text and source are the reference's passage text and S3 URI, with nil read as "" |
| AgentRuntimeUsecase.TranslateConcat | backend/internal/usecase/bedrock_agent_runtime.go:54-73 | events come out in upstream order: translating a split feed gives the two halves' events, one after the other |
| AgentRuntimeUsecase.TranslateCount | backend/internal/usecase/bedrock_agent_runtime.go:54-71 | the translation holds exactly one event per output with text and per citation |
| AgentRuntimeUsecase.TranslateShape | backend/internal/usecase/bedrock_agent_runtime.go:54-73 | the translator emits only deltas and citations with an empty base, never a terminal event, and at most one event per upstream event |
| AgentRuntimeUsecase.Drain | backend/internal/usecase/bedrock_agent_runtime.go:46-74 | the loop sends the translation of the feed in order, then closes the stream and then the channel; it counts every upstream event |
| AgentRuntimeUsecase.DrainEffectsOrder | backend/internal/usecase/bedrock_agent_runtime.go:47-51 | the drain only sends until the feed ends, then closes the stream and the channel, each exactly once |
| AgentRuntimeUsecase.Setup | backend/internal/usecase/bedrock_agent_runtime.go:31-42 | setup succeeds iff the repository answered, the stream is not nil and it has no error; the stream is then the one drained |
| AgentRuntimeUsecase.SetupErrors | backend/internal/usecase/bedrock_agent_runtime.go:31-42 | a repository error is returned unchanged, a nil stream gives `nil stream returned`, a stream error gives `stream error: …` |
| AgentRuntimeUsecase.InvokeStream | backend/internal/usecase/bedrock_agent_runtime.go:30-77 | a failed setup returns its error with no channel and no effect; otherwise the feed is drained as `Drain` states |
| AgentRuntimeHandler.Deltas | backend/internal/handler/bedrock_agent_runtime.go:88 | one delta per item, carrying the item and the session id |
| AgentRuntimeHandler.RunStarted | backend/internal/handler/bedrock_agent_runtime.go:74-91 | once started, the loop emits one delta per received item, then the event of the outcome that stopped it |
| AgentRuntimeHandler.RunClosedForm | backend/internal/handler/bedrock_agent_runtime.go:73-91 | the output is `message.start` iff an item arrived, then one delta per item in receive order, then the terminal event of the stopping outcome |
| AgentRuntimeHandler.StartOnceFirst | backend/internal/handler/bedrock_agent_runtime.go:73-87 | `message.start` is emitted at most once, only when an item arrives, first and right before the first delta |
| AgentRuntimeHandler.DeltasInOrder | backend/internal/handler/bedrock_agent_runtime.go:79-89 | every received item yields exactly one delta, in receive order |
| AgentRuntimeHandler.TerminalLast | backend/internal/handler/bedrock_agent_runtime.go:76-83 | cancellation ends with `message.end`/`error`, a closed channel with `message.end`/`completed`; only the last event can be terminal; with no stopping outcome none is |
| AgentRuntimeHandler.SessionStamped | backend/internal/handler/bedrock_agent_runtime.go:69-88 | every emitted event carries the request's session id and no event id |
| AgentRuntimeHandler.StopsReading | backend/internal/handler/bedrock_agent_runtime.go:76-83 | after a cancellation or a closed channel the loop reads nothing more: later outcomes change nothing |
| AgentRuntimeHandler.CompletedStream | backend/internal/handler/bedrock_agent_runtime.go:74-91 | for any items, not only translated ones: a trace receiving the items in order and then the closed channel gives start (if any item), one delta per item in order, and `message.end`/`completed` |
| AgentRuntimeHandler.FedRun | backend/internal/handler/bedrock_agent_runtime.go:73-91 | on a trace the translator feeds, the output is start (if an item came), one delta per item forwarded so far, which are a prefix of the sent items, and the terminal event; when the channel is seen closed every sent item has been forwarded and the stream ends with `completed` |
| AgentRuntimeHandler.EndToEnd | backend/internal/usecase/bedrock_agent_runtime.go:54-73 | n upstream outputs with text or citations, received in order and followed by the closed channel, give `message.start` (when n > 0), n deltas in upstream order and `message.end`/`completed`: n + 2 events, or 1 when n = 0 |
| AgentRuntimeHandler.SendStart | backend/internal/handler/bedrock_agent_runtime.go:85 | the start event's frame is appended to what the client has received, or nothing is when the client is gone |
| AgentRuntimeHandler.SendDelta | backend/internal/handler/bedrock_agent_runtime.go:88 | the delta's frame is appended, or nothing when the client is gone |
| AgentRuntimeHandler.SendEnd | backend/internal/handler/bedrock_agent_runtime.go:76-82 | the end event's frame is appended, or nothing when the client is gone |
| AgentRuntimeHandler.SendError | backend/internal/handler/bedrock_agent_runtime.go:69 | the error event's frame is appended, or nothing when the client is gone |
| AgentRuntimeHandler.ForwardItem | backend/internal/handler/bedrock_agent_runtime.go:84-88 | an item emits `message.start` unless `sentStarted`, then its delta, and the client receives those frames |
| AgentRuntimeHandler.StreamPass | backend/internal/handler/bedrock_agent_runtime.go:74-91 | one pass emits what `PassOf` gives and goes on only after an item; `sentStarted` becomes true once an item is seen; the client receives the frames |
| AgentRuntimeHandler.StreamLoop | backend/internal/handler/bedrock_agent_runtime.go:73-91 | the `sentStarted` loop emits exactly the events `Run` describes, and the client receives exactly their frames when connected |
| AgentRuntimeHandler.InvokeStream | backend/internal/handler/bedrock_agent_runtime.go:36-92 | a bind error is a 400 with no event; a setup failure emits one `error` event with the error text and session id and nothing else; otherwise the loop runs, and when the trace is fed by the translation of the stream's events the output is start, the deltas of the items received so far and the terminal event, all sent items being forwarded before `completed`; the client receives the frames of the emitted events |
| AgentRuntimeHandler.InvokeStreamSetup | backend/internal/handler/bedrock_agent_runtime.go:67-71 | the handler receives the setup error or the stream to read, never both |
| LegacyChat.OrDefault | backend/main.go:52-61 | a configured value wins when non-empty, the fallback fills an empty one |
| LegacyChat.NewServer | backend/main.go:42-68 | a config load error gives `unable to load AWS config: …`; otherwise a server is built |
| LegacyChat.NewServerDefaults | backend/main.go:52-61 | an empty `KNOWLEDGE_BASE_ID` or `MODEL_ID` becomes `default-kb-id` or `anthropic.claude-3-sonnet-20240229-v1:0`; neither id is ever empty |
| LegacyChat.SourceOfFields | backend/main.go:139-147 | content is "" when absent and the passage text otherwise; `location` holds `uri` iff an S3 location exists, and nothing else |
| LegacyChat.RefSources | backend/main.go:138-149 | one source per reference of a citation, in order |
| LegacyChat.SourcesPerReference | backend/main.go:134-151 | `sources` has one entry per retrieved reference across all citations, in order |
| LegacyChat.CollectSources | backend/main.go:135-151 | the nested loops build exactly `SourcesOf(citations)` |
| LegacyChat.HandleChat | backend/main.go:70-161 | non-POST gives 405, an undecodable body or empty message 400, each with no call; a call is made iff the request is valid; a backend error gives 500 with `Failed to get response: …` and the session id sent; success gives 200 with the response text, session id and sources |
| LegacyChat.CallDefaults | backend/main.go:87-113 | the request's knowledge-base and session ids are used when non-empty, the server's and the clock's otherwise; the message and model are passed on |
| LegacyChat.HandleHealth | backend/main.go:163-169 | 200 with `status` = `healthy` and the current time, and no other key |
| IngestionClient.CountActiveIsActiveSummaries | backend/internal/client/bedrock_agent.go:44-47 | the count is the number of summaries with status IN_PROGRESS or STARTING, between 0 and the number of summaries |
| IngestionClient.OthersContributeNothing | backend/internal/client/bedrock_agent.go:45 | a summary adds one to the count iff its status is IN_PROGRESS or STARTING; any other status adds nothing |
| IngestionClient.CountZeroIffNoneActive | backend/internal/client/bedrock_agent.go:44-47 | the count is 0 iff no summary is IN_PROGRESS or STARTING |
| IngestionClient.BedrockAgentClient.constructor | backend/internal/client/bedrock_agent.go:30-32 | the client holds the given config and SDK replies and has made no call |
| IngestionClient.Page | backend/internal/client/bedrock_agent.go:36-40 | the list reply is a prefix of the service's listing, of at most `limit` summaries, the whole listing when it fits |
| IngestionClient.BedrockAgentClient.InProgressJobCount | backend/internal/client/bedrock_agent.go:35-48 | lists the jobs of the configured knowledge base and data source with `limit` as MaxResults; a list error gives (0, err); otherwise the active count of the page returned, not of the whole listing |
| IngestionClient.BedrockAgentClient.StartIngestionJob | backend/internal/client/bedrock_agent.go:50-60 | starts a job for the configured knowledge base and data source and returns the SDK error unchanged, nil on success |
| IngestionClient.NewBedrockAgentClientAsWritten | backend/internal/client/bedrock_agent.go:25-33 | a config load error is returned with no client; otherwise the client has no config, so its methods cannot be called |
| IngestionClient.NewBedrockAgentClient | backend/internal/client/bedrock_agent.go:25-33 | a config load error is returned with no client; otherwise the client holds the given config |
| S3Sync.Handler | backend/cmd/s3-sync/main.go:12-40 | config and client errors are returned with no SDK call; the count is queried once with limit 1; a count error is returned; when the first listed job is IN_PROGRESS or STARTING it returns nil without a start; otherwise it starts exactly one job and returns its error |
| S3Sync.FirstListedDecides | backend/cmd/s3-sync/main.go:25-33 | with limit 1 the count is positive iff the first listed job is IN_PROGRESS or STARTING |
| S3Sync.StartsOnlyWhenIdle | backend/cmd/s3-sync/main.go:30-33 | an IN_PROGRESS or STARTING job on the page returned makes the count positive, so no job is started; a job beyond that page is not covered |
| S3Sync.BeyondPageUnseen | backend/cmd/s3-sync/main.go:25 | jobs listed after the first `limit` do not change the count, active ones included |

## Left out

- Concurrency is not modelled:
  - the heartbeat goroutine and its ticker;
  - the goroutine that merges the client's cancellation with the 60 s timeout;
  - the translator's goroutine and its unbuffered channel.

  Their observable effects stand in their place: the controller's trace, and
  the translator's ordered effects. Three consequences follow:
  - the race between heartbeat comments and event frames on one buffer is not
    modelled;
  - a translator goroutine that blocks forever on the channel after the
    controller stops is not modelled;
  - the cancellation cause is not modelled. It is never used: a cancellation
    always ends with `error`.
- The heartbeat's ping comment is modelled only as a comment frame
  (`SseEmitter.Emitter.Comment`, `SseEmitter.HeartbeatFrame`). Its ticker and
  the stop function are not modelled.
- Foreign library internals:
  - `bufio` is reduced to a buffer that is drained by every flush and keeps a
    sticky error. Its 32 KiB capacity, the spilling of a large frame before the
    flush, and short writes are not modelled.
  - The `http.Flusher` push is not modelled.
  - A response writer that breaks during a stream is not modelled:
    `writeFailure` is fixed for the life of an emitter.
- `encoding/json` is modelled only for the event structs and `*AIBaseEvent`:
  - a nil `Refs` slice, which Go writes as `null`, is written as `[]`;
  - the `\b` and `\f` escapes are taken as written by recent Go versions;
  - invalid UTF-8 cannot occur in Dafny strings.
- The JSON bodies of `ChatResponse`, the health reply and gin's 400 reply are
  kept as values, not encoded. gin's 400 body is kept as its error text. The
  headers that `http.Error` sets are not modelled.
- The SSE `id:` and `retry:` fields and a leading byte-order mark are never
  written by the emitter. The client-side parser does not handle them.
- Nil-dereference panics are stated as preconditions, not modelled as panics:
  - `Dereferenceable` covers the `Content` and `Location.S3Location` reads in
    the citation mapping;
  - `UriReadable` covers `*ref.Location.S3Location.Uri`;
  - `Readable` covers `*result.SessionId`;
  - `Configured()` covers the client's `config`. See Findings for that one.
- AgentRuntimeHandler.InvokeStream: the conversion of the received event to the
  delta's text on line 88 does not type-check against `EmitMessageDelta`'s
  `string` parameter. It is kept as the abstract parameter `render`.
- The superseded handler file `backend/internal/handler/bedrockagentrumtime.go`
  is not part of this model. Neither are:
  - the SDK client and repository wrappers;
  - environment parsing (`config.NewConfig`, which appears only as its result);
  - process wiring, CORS and `main()`;
  - the frontend.
- Wall-clock values are parameters: the `session-<unix time>` id and the health
  timestamp.
- Logging is not modelled. That includes the `StartIngestionJob` log line that
  reads the SDK reply.
- S3Sync.Handler: the duplicate check reads only the first page of the
  listing, one summary, and ignores the next-page token. An active job listed
  after a finished one is missed and a second job is started
  (`S3Sync.BeyondPageUnseen`). Whether that can happen depends on the order
  in which the service lists jobs, which is not part of this model, so it is
  not claimed as a finding.
- IngestionClient.BedrockAgentClient.InProgressJobCount: a `limit` outside
  1 to 1000 is rejected by the service; that error is not modelled, and the
  method requires a limit in range. Its only caller passes 1.
- SDK request building is reduced to the fields the model checks: the
  `GenerateCall` of the legacy chat and the `SdkCall` log.

## Findings

| source | as written | input that shows it | evidently intended | confidence | as-written member | corrected member |
|---|---|---|---|---|---|---|
| backend/internal/client/bedrock_agent.go:30-32 | `NewBedrockAgentClient` builds the client without its `config` field, which `InProgressJobCount` (lines 37-38) and `StartIngestionJob` (lines 52-53) dereference | any run in which the AWS config loads: the handler's first `InProgressJobCount(ctx, 1)` reads `b.config.KnowledgeBaseID` through a nil pointer | the client keeps `config: conf` | not executed | IngestionClient.NewBedrockAgentClientAsWritten | IngestionClient.NewBedrockAgentClient (used by S3Sync.Handler) |
