/**
 * The legacy non-streaming chat server of backend/main.go: `NewServer`'s
 * environment defaults, `handleChat` (request validation, knowledge-base and
 * session id defaulting, the Bedrock call, the error response, and the
 * flattening of citations into a source list) and `handleHealth`.
 *
 * The Bedrock client is replaced by its reply, which `HandleChat` takes as a
 * parameter and consults only when it makes the call; the call it makes is
 * returned. Wall-clock values are parameters.
 */
module LegacyChat {
  import opened Wrappers
  import opened AgentRuntimeTypes

  const DefaultKnowledgeBaseId := "default-kb-id"
  const DefaultModelId := "anthropic.claude-3-sonnet-20240229-v1:0"

  /** A configured value, or `fallback` when it is empty. */
  function OrDefault(value: string, fallback: string): (r: string)
    ensures value != "" ==> r == value
    ensures value == "" ==> r == fallback
  {
    if value == "" then fallback else value
  }

  /** `Server`, without its Bedrock client. */
  datatype Server = Server(knowledgeBaseId: string, modelId: string)

  /**
   * `NewServer`, given the AWS config loader's error and the values of
   * `KNOWLEDGE_BASE_ID` and `MODEL_ID` ("" when unset).
   */
  function NewServer(awsConfigErr: Option<string>, knowledgeBaseEnv: string, modelEnv: string): (r: Result<Server>)
    ensures awsConfigErr.Some? ==> r == Err("unable to load AWS config: " + awsConfigErr.value)
    ensures awsConfigErr.None? ==> r.Ok?
  {
    if awsConfigErr.Some? then Err("unable to load AWS config: " + awsConfigErr.value)
    else Ok(Server(OrDefault(knowledgeBaseEnv, DefaultKnowledgeBaseId), OrDefault(modelEnv, DefaultModelId)))
  }

  /**
   * A server that loads uses the environment's knowledge base and model
   * when set and the defaults otherwise, so neither id is ever empty.
   */
  lemma NewServerDefaults(knowledgeBaseEnv: string, modelEnv: string)
    ensures var s := NewServer(None, knowledgeBaseEnv, modelEnv).value;
      && (knowledgeBaseEnv == "" ==> s.knowledgeBaseId == "default-kb-id")
      && (knowledgeBaseEnv != "" ==> s.knowledgeBaseId == knowledgeBaseEnv)
      && (modelEnv == "" ==> s.modelId == "anthropic.claude-3-sonnet-20240229-v1:0")
      && (modelEnv != "" ==> s.modelId == modelEnv)
      && s.knowledgeBaseId != "" && s.modelId != ""
  {
  }

  /** `ChatRequest`: absent JSON fields decode as "". */
  datatype ChatRequest = ChatRequest(message: string, sessionId: string, knowledgeBaseId: string)

  /** An HTTP request: its method (`verb`), and its body decoded, `None` when it does not decode. */
  datatype HttpRequest = HttpRequest(verb: string, body: Option<ChatRequest>)

  /** `RetrievedSource`. */
  datatype RetrievedSource = RetrievedSource(content: string, location: map<string, string>)

  /** `ChatResponse`. */
  datatype ChatResponse = ChatResponse(response: string, sessionId: string, sources: seq<RetrievedSource>, error: string)

  /** The `RetrieveAndGenerate` call: the question, knowledge base, model and session it names. */
  datatype GenerateCall = GenerateCall(text: string, knowledgeBaseId: string, modelArn: string, sessionId: string)

  /** What the handler writes: an `http.Error` text reply, or a JSON `ChatResponse`. */
  datatype HttpReply = TextReply(status: int, text: string) | JsonReply(status: int, body: ChatResponse)

  /** `*ref.Location.S3Location.Uri` is read without a nil check once the S3 location is there. */
  predicate UriReadable(ref: RetrievedReference) {
    ref.location.Some? && ref.location.value.s3Location.Some? ==> ref.location.value.s3Location.value.uri.Some?
  }

  predicate UrisReadable(citations: seq<Citation>) {
    forall i, j :: 0 <= i < |citations| && 0 <= j < |citations[i].retrievedReferences| ==>
      UriReadable(citations[i].retrievedReferences[j])
  }

  lemma UrisReadableSlice(citations: seq<Citation>, lo: int, hi: int)
    requires UrisReadable(citations) && 0 <= lo <= hi <= |citations|
    ensures UrisReadable(citations[lo..hi])
  {
    assert forall i :: 0 <= i < hi - lo ==> citations[lo..hi][i] == citations[lo + i];
  }

  /** One source per reference: its passage or "", and its S3 URI under `uri` when it has an S3 location. */
  function SourceOf(ref: RetrievedReference): RetrievedSource
    requires UriReadable(ref)
  {
    RetrievedSource(
      if ref.content.Some? && ref.content.value.text.Some? then ref.content.value.text.value else "",
      if ref.location.Some? && ref.location.value.s3Location.Some?
      then map["uri" := ref.location.value.s3Location.value.uri.value]
      else map[])
  }

  /** What a source says about its reference. */
  lemma SourceOfFields(ref: RetrievedReference)
    requires UriReadable(ref)
    ensures SourceOf(ref).content == "" <== ref.content.None? || ref.content.value.text.None?
    ensures ref.content.Some? && ref.content.value.text.Some? ==> SourceOf(ref).content == ref.content.value.text.value
    ensures "uri" in SourceOf(ref).location <==> ref.location.Some? && ref.location.value.s3Location.Some?
    ensures "uri" in SourceOf(ref).location ==> SourceOf(ref).location["uri"] == ref.location.value.s3Location.value.uri.value
    ensures SourceOf(ref).location.Keys <= {"uri"}
  {
  }

  function RefSources(refs: seq<RetrievedReference>): (r: seq<RetrievedSource>)
    requires forall j :: 0 <= j < |refs| ==> UriReadable(refs[j])
    ensures |r| == |refs|
    ensures forall j :: 0 <= j < |refs| ==> r[j] == SourceOf(refs[j])
  {
    seq(|refs|, j requires 0 <= j < |refs| => SourceOf(refs[j]))
  }

  /** The sources of the citations, citation after citation. */
  function SourcesOf(citations: seq<Citation>): seq<RetrievedSource>
    requires UrisReadable(citations)
  {
    if citations == [] then []
    else
      var n := |citations|;
      UrisReadableSlice(citations, 0, n - 1);
      SourcesOf(citations[..n - 1]) + RefSources(citations[n - 1].retrievedReferences)
  }

  /** All the retrieved references of the citations, in order. */
  function AllRefs(citations: seq<Citation>): seq<RetrievedReference> {
    if citations == [] then [] else citations[0].retrievedReferences + AllRefs(citations[1..])
  }

  lemma {:induction false} AllRefsSnoc(citations: seq<Citation>, c: Citation)
    ensures AllRefs(citations + [c]) == AllRefs(citations) + c.retrievedReferences
  {
    if citations == [] {
      assert [c][1..] == [];
    } else {
      assert (citations + [c])[1..] == citations[1..] + [c];
      AllRefsSnoc(citations[1..], c);
    }
  }

  lemma {:induction false} AllRefsReadable(citations: seq<Citation>)
    requires UrisReadable(citations)
    ensures forall k :: 0 <= k < |AllRefs(citations)| ==> UriReadable(AllRefs(citations)[k])
  {
    if citations != [] {
      UrisReadableSlice(citations, 1, |citations|);
      AllRefsReadable(citations[1..]);
      var refs := citations[0].retrievedReferences;
      forall k | 0 <= k < |AllRefs(citations)| ensures UriReadable(AllRefs(citations)[k]) {
        if k < |refs| {
          assert AllRefs(citations)[k] == citations[0].retrievedReferences[k];
        } else {
          assert AllRefs(citations)[k] == AllRefs(citations[1..])[k - |refs|];
        }
      }
    }
  }

  /** `sources` has one entry per retrieved reference across all citations, in order. */
  lemma {:induction false} SourcesPerReference(citations: seq<Citation>)
    requires UrisReadable(citations)
    ensures |SourcesOf(citations)| == |AllRefs(citations)|
    ensures forall k :: 0 <= k < |AllRefs(citations)| ==>
      UriReadable(AllRefs(citations)[k]) && SourcesOf(citations)[k] == SourceOf(AllRefs(citations)[k])
  {
    AllRefsReadable(citations);
    if citations != [] {
      var n := |citations|;
      var init, last := citations[..n - 1], citations[n - 1];
      assert citations == init + [last];
      AllRefsSnoc(init, last);
      SourcesPerReference(init);
    }
  }

  lemma RefSourcesSnoc(refs: seq<RetrievedReference>, j: int)
    requires forall k :: 0 <= k < |refs| ==> UriReadable(refs[k])
    requires 0 <= j < |refs|
    ensures RefSources(refs[..j + 1]) == RefSources(refs[..j]) + [SourceOf(refs[j])]
  {
  }

  lemma SourcesOfSnoc(citations: seq<Citation>, i: int)
    requires UrisReadable(citations) && 0 <= i < |citations|
    ensures UrisReadable(citations[..i]) && UrisReadable(citations[..i + 1])
    ensures SourcesOf(citations[..i + 1]) == SourcesOf(citations[..i]) + RefSources(citations[i].retrievedReferences)
  {
    UrisReadableSlice(citations, 0, i);
    UrisReadableSlice(citations, 0, i + 1);
    assert citations[..i + 1][..i] == citations[..i];
  }

  /** The nested loops that build `sources`. */
  method CollectSources(citations: seq<Citation>) returns (sources: seq<RetrievedSource>)
    requires UrisReadable(citations)
    ensures sources == SourcesOf(citations)
  {
    sources := [];
    for i := 0 to |citations|
      invariant UrisReadable(citations[..i])
      invariant sources == SourcesOf(citations[..i])
    {
      var refs := citations[i].retrievedReferences;
      SourcesOfSnoc(citations, i);
      for j := 0 to |refs|
        invariant sources == SourcesOf(citations[..i]) + RefSources(refs[..j])
      {
        var ref := refs[j];
        var source := RetrievedSource("", map[]);
        if ref.content.Some? && ref.content.value.text.Some? {
          source := source.(content := ref.content.value.text.value);
        }
        if ref.location.Some? && ref.location.value.s3Location.Some? {
          source := source.(location := source.location["uri" := ref.location.value.s3Location.value.uri.value]);
        }
        RefSourcesSnoc(refs, j);
        sources := sources + [source];
      }
      assert refs[..|refs|] == refs;
    }
    assert citations[..|citations|] == citations;
  }

  /** The response text: the output's text, or "" when the output or its text is nil. */
  function ResponseText(result: RetrieveAndGenerateResult): string {
    if result.output.Some? && result.output.value.text.Some? then result.output.value.text.value else ""
  }

  /** What the handler needs of a Bedrock result: a session id and readable URIs. */
  predicate Readable(result: RetrieveAndGenerateResult) {
    result.sessionId.Some? && UrisReadable(result.citations)
  }

  /** The call a valid request makes: the server's knowledge base and the clock's session id stand in for empty ones. */
  function CallFor(s: Server, req: ChatRequest, clockSessionId: string): GenerateCall {
    GenerateCall(req.message, OrDefault(req.knowledgeBaseId, s.knowledgeBaseId), s.modelId,
                 OrDefault(req.sessionId, clockSessionId))
  }

  /**
   * `handleChat`. `clockSessionId` is the `session-<unix time>` id made when
   * the request has none; `bedrock` is the reply `RetrieveAndGenerate` gives.
   */
  method HandleChat(s: Server, r: HttpRequest, clockSessionId: string, bedrock: Result<RetrieveAndGenerateResult>)
    returns (reply: HttpReply, call: Option<GenerateCall>)
    requires bedrock.Ok? ==> Readable(bedrock.value)
    ensures r.verb != "POST" ==> reply == TextReply(405, "Method not allowed\n") && call.None?
    ensures r.verb == "POST" && r.body.None? ==> reply == TextReply(400, "Invalid request body\n") && call.None?
    ensures r.verb == "POST" && r.body.Some? && r.body.value.message == "" ==>
      reply == TextReply(400, "Message is required\n") && call.None?
    ensures call.Some? <==> r.verb == "POST" && r.body.Some? && r.body.value.message != ""
    ensures call.Some? ==> call.value == CallFor(s, r.body.value, clockSessionId)
    ensures call.Some? && bedrock.Err? ==>
      reply == JsonReply(500, ChatResponse("", call.value.sessionId, [], "Failed to get response: " + bedrock.error))
    ensures call.Some? && bedrock.Ok? ==>
      reply == JsonReply(200, ChatResponse(ResponseText(bedrock.value), bedrock.value.sessionId.value,
                                           SourcesOf(bedrock.value.citations), ""))
  {
    if r.verb != "POST" {
      return TextReply(405, "Method not allowed\n"), None;
    }
    if r.body.None? {
      return TextReply(400, "Invalid request body\n"), None;
    }
    var req := r.body.value;
    if req.message == "" {
      return TextReply(400, "Message is required\n"), None;
    }
    var kbId := req.knowledgeBaseId;
    if kbId == "" {
      kbId := s.knowledgeBaseId;
    }
    var sessionId := req.sessionId;
    if sessionId == "" {
      sessionId := clockSessionId;
    }
    call := Some(GenerateCall(req.message, kbId, s.modelId, sessionId));
    if bedrock.Err? {
      return JsonReply(500, ChatResponse("", sessionId, [], "Failed to get response: " + bedrock.error)), call;
    }
    var result := bedrock.value;
    var responseText := "";
    if result.output.Some? && result.output.value.text.Some? {
      responseText := result.output.value.text.value;
    }
    var sources := CollectSources(result.citations);
    reply := JsonReply(200, ChatResponse(responseText, result.sessionId.value, sources, ""));
  }

  /** The request's own knowledge base and session ids win; the defaults fill only empty ones. */
  lemma CallDefaults(s: Server, req: ChatRequest, clockSessionId: string)
    ensures req.knowledgeBaseId != "" ==> CallFor(s, req, clockSessionId).knowledgeBaseId == req.knowledgeBaseId
    ensures req.knowledgeBaseId == "" ==> CallFor(s, req, clockSessionId).knowledgeBaseId == s.knowledgeBaseId
    ensures req.sessionId != "" ==> CallFor(s, req, clockSessionId).sessionId == req.sessionId
    ensures req.sessionId == "" ==> CallFor(s, req, clockSessionId).sessionId == clockSessionId
    ensures CallFor(s, req, clockSessionId).text == req.message && CallFor(s, req, clockSessionId).modelArn == s.modelId
  {
  }

  /** `handleHealth`'s reply: a status code and the JSON object it encodes. */
  datatype HealthReply = HealthReply(status: int, body: map<string, string>)

  /** `handleHealth`: 200 with `status` "healthy" and the time `now` as formatted. */
  function HandleHealth(now: string): (r: HealthReply)
    ensures r.status == 200
    ensures r.body.Keys == {"status", "time"} && r.body["status"] == "healthy" && r.body["time"] == now
  {
    HealthReply(200, map["status" := "healthy", "time" := now])
  }
}
