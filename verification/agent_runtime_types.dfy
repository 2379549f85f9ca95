/**
 * The parts of the AWS SDK's Bedrock Agent Runtime types that the bridge and
 * the legacy chat handler read. Every pointer field is an `Option`.
 */
module AgentRuntimeTypes {
  import opened Wrappers

  /** `RetrievalResultContent`: the retrieved passage. */
  datatype RetrievalResultContent = RetrievalResultContent(text: Option<string>)

  /** `RetrievalResultS3Location`. */
  datatype RetrievalResultS3Location = RetrievalResultS3Location(uri: Option<string>)

  /** `RetrievalResultLocation`: where the passage came from. */
  datatype RetrievalResultLocation = RetrievalResultLocation(s3Location: Option<RetrievalResultS3Location>)

  /** `RetrievedReference`. */
  datatype RetrievedReference = RetrievedReference(
    content: Option<RetrievalResultContent>,
    location: Option<RetrievalResultLocation>)

  /**
   * One event of the `RetrieveAndGenerateStream` feed: the members of the
   * SDK's `RetrieveAndGenerateStreamResponseOutput` union the translator
   * switches on, and any other member, named by its Go type.
   */
  datatype StreamOutput =
    | OutputMember(text: Option<string>)
    | CitationMember(retrievedReferences: seq<RetrievedReference>)
    | GuardrailMember(action: string)
    | UnknownMember(goType: string)

  /** `Citation` of the non-streaming `RetrieveAndGenerate` result. */
  datatype Citation = Citation(retrievedReferences: seq<RetrievedReference>)

  /** `RetrieveAndGenerateOutput` (the response's `Output` field). */
  datatype GenerationOutput = GenerationOutput(text: Option<string>)

  /** The non-streaming `RetrieveAndGenerate` result the legacy handler reads. */
  datatype RetrieveAndGenerateResult = RetrieveAndGenerateResult(
    output: Option<GenerationOutput>,
    citations: seq<Citation>,
    sessionId: Option<string>)
}
