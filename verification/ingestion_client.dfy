/**
 * The Bedrock Agent client of backend/internal/client/bedrock_agent.go: the
 * in-progress job count behind the ingestion duplicate check, and starting
 * an ingestion job.
 *
 * The SDK is replaced by the replies it gives, fixed when the client is made,
 * and a ghost log of the calls made to it.
 */
module IngestionClient {
  import opened Wrappers

  /** A Go `int32`. */
  newtype int32 = x: int | -0x8000_0000 <= x < 0x8000_0000

  /** `config.Config`. */
  datatype Config = Config(awsRegion: string, knowledgeBaseId: string, dataSourceId: string)

  /** `types.IngestionJobStatus`. */
  datatype IngestionJobStatus = Starting | InProgress | Complete | Failed | Stopping | Stopped {
    function Name(): string {
      match this
      case Starting => "STARTING"
      case InProgress => "IN_PROGRESS"
      case Complete => "COMPLETE"
      case Failed => "FAILED"
      case Stopping => "STOPPING"
      case Stopped => "STOPPED"
    }
  }

  /** `types.IngestionJobSummary`, reduced to what the count reads. */
  datatype IngestionJobSummary = IngestionJobSummary(ingestionJobId: string, status: IngestionJobStatus)

  /** The filter of `InProgressJobCount`: a job that is running or about to. */
  predicate Active(j: IngestionJobSummary) {
    j.status == InProgress || j.status == Starting
  }

  /** `lo.Filter(summaries, Active)`. */
  function ActiveJobs(jobs: seq<IngestionJobSummary>): seq<IngestionJobSummary> {
    if jobs == [] then []
    else ActiveJobs(jobs[..|jobs| - 1]) + (if Active(jobs[|jobs| - 1]) then [jobs[|jobs| - 1]] else [])
  }

  /** The count `InProgressJobCount` returns for a listing. */
  function CountActive(jobs: seq<IngestionJobSummary>): nat {
    |ActiveJobs(jobs)|
  }

  /** The indices of the active summaries. */
  function ActiveIndices(jobs: seq<IngestionJobSummary>): set<int> {
    set i | 0 <= i < |jobs| && Active(jobs[i])
  }

  /**
   * The count is the number of summaries whose status is IN_PROGRESS or
   * STARTING, so it lies between 0 and the number of summaries.
   */
  lemma {:induction false} CountActiveIsActiveSummaries(jobs: seq<IngestionJobSummary>)
    ensures CountActive(jobs) == |ActiveIndices(jobs)|
    ensures CountActive(jobs) <= |jobs|
  {
    if jobs != [] {
      var n := |jobs|;
      var init := jobs[..n - 1];
      CountActiveIsActiveSummaries(init);
      assert forall i :: 0 <= i < n - 1 ==> init[i] == jobs[i];
      if Active(jobs[n - 1]) {
        assert ActiveIndices(jobs) == ActiveIndices(init) + {n - 1};
      } else {
        assert ActiveIndices(jobs) == ActiveIndices(init);
      }
    }
  }

  /** A summary with any other status contributes nothing to the count. */
  lemma {:induction false} OthersContributeNothing(a: seq<IngestionJobSummary>, j: IngestionJobSummary, b: seq<IngestionJobSummary>)
    ensures CountActive(a + [j] + b) == CountActive(a + b) + (if Active(j) then 1 else 0)
    decreases |b|
  {
    if b == [] {
      assert a + [j] + b == a + [j];
      assert (a + [j])[..|a + [j]| - 1] == a;
      assert a + b == a;
    } else {
      var n := |b|;
      OthersContributeNothing(a, j, b[..n - 1]);
      assert (a + [j] + b)[..|a + [j] + b| - 1] == a + [j] + b[..n - 1];
      assert (a + b)[..|a + b| - 1] == a + b[..n - 1];
      assert (a + [j] + b)[|a + [j] + b| - 1] == b[n - 1] == (a + b)[|a + b| - 1];
    }
  }

  /** The count is 0 exactly when no summary is IN_PROGRESS or STARTING. */
  lemma CountZeroIffNoneActive(jobs: seq<IngestionJobSummary>)
    ensures CountActive(jobs) == 0 <==> forall i :: 0 <= i < |jobs| ==> !Active(jobs[i])
  {
    CountActiveIsActiveSummaries(jobs);
    if exists i :: 0 <= i < |jobs| && Active(jobs[i]) {
      var i :| 0 <= i < |jobs| && Active(jobs[i]);
      assert i in ActiveIndices(jobs);
    } else {
      assert ActiveIndices(jobs) == {};
    }
  }

  /** The largest `MaxResults` the service accepts; it rejects anything outside 1 to 1000. */
  const MaxResultsMax: int32 := 1000

  /**
   * What `ListIngestionJobs` answers with `MaxResults: limit`: the first
   * page of the service's listing, at most `limit` summaries in listing
   * order. The caller reads no next-page token, so the rest is never seen.
   */
  function Page(jobs: seq<IngestionJobSummary>, limit: int32): (r: seq<IngestionJobSummary>)
    requires 1 <= limit
    ensures |r| <= limit as int && r <= jobs
    ensures |r| == if |jobs| <= limit as int then |jobs| else limit as int
  {
    if |jobs| <= limit as int then jobs else jobs[..limit as int]
  }

  /** A call made to the SDK. */
  datatype SdkCall =
    | ListIngestionJobs(knowledgeBaseId: string, dataSourceId: string, maxResults: int32)
    | StartIngestionJobCall(knowledgeBaseId: string, dataSourceId: string)

  /** `bedrockAgentClient`: its `config` pointer, and what the SDK answers. */
  class BedrockAgentClient {
    const config: Option<Config>
    /**
     * The service's side of `ListIngestionJobs`: every job of the data
     * source in the order the service lists them, or the call's error.
     */
    const listing: Result<seq<IngestionJobSummary>>
    /** What `StartIngestionJob` answers: `None` on success, or an error. */
    const startError: Option<string>
    ghost var calls: seq<SdkCall>

    /** The methods read `b.config` without a nil check. */
    predicate Configured() {
      config.Some?
    }

    constructor (config: Option<Config>, listing: Result<seq<IngestionJobSummary>>, startError: Option<string>)
      ensures this.config == config && this.listing == listing && this.startError == startError
      ensures calls == []
    {
      this.config := config;
      this.listing := listing;
      this.startError := startError;
      calls := [];
    }

    /**
     * `InProgressJobCount(ctx, limit)`: lists the jobs of the configured
     * knowledge base and data source with `limit` as MaxResults, and counts
     * the active ones on the page it gets back; a list error gives (0, err).
     */
    method InProgressJobCount(limit: int32) returns (count: int, err: Option<string>)
      requires Configured()
      requires 1 <= limit <= MaxResultsMax
      modifies this`calls
      ensures calls == old(calls) + [ListIngestionJobs(config.value.knowledgeBaseId, config.value.dataSourceId, limit)]
      ensures listing.Err? ==> count == 0 && err == Some(listing.error)
      ensures listing.Ok? ==> err.None? && count == CountActive(Page(listing.value, limit))
    {
      calls := calls + [ListIngestionJobs(config.value.knowledgeBaseId, config.value.dataSourceId, limit)];
      if listing.Err? {
        return 0, Some(listing.error);
      }
      var jobs := ActiveJobs(Page(listing.value, limit));
      return |jobs|, None;
    }

    /** `StartIngestionJob(ctx)`: the SDK's error unchanged, `nil` on success. */
    method StartIngestionJob() returns (err: Option<string>)
      requires Configured()
      modifies this`calls
      ensures calls == old(calls) + [StartIngestionJobCall(config.value.knowledgeBaseId, config.value.dataSourceId)]
      ensures err == startError
    {
      calls := calls + [StartIngestionJobCall(config.value.knowledgeBaseId, config.value.dataSourceId)];
      if startError.Some? {
        return startError;
      }
      return None;
    }
  }

  /**
   * `NewBedrockAgentClient` as written: the AWS config loader's error is
   * returned; otherwise the client is built without its `config`, so the
   * first method call dereferences a nil pointer.
   */
  method NewBedrockAgentClientAsWritten(conf: Config, awsConfigErr: Option<string>,
                                        listing: Result<seq<IngestionJobSummary>>, startError: Option<string>)
    returns (client: BedrockAgentClient?, err: Option<string>)
    ensures awsConfigErr.Some? ==> client == null && err == awsConfigErr
    ensures awsConfigErr.None? ==> err.None? && client != null && fresh(client) && !client.Configured()
  {
    if awsConfigErr.Some? {
      return null, awsConfigErr;
    }
    client := new BedrockAgentClient(None, listing, startError);
    err := None;
  }

  /** `NewBedrockAgentClient` with `config: conf` set, as its methods need. */
  method NewBedrockAgentClient(conf: Config, awsConfigErr: Option<string>,
                               listing: Result<seq<IngestionJobSummary>>, startError: Option<string>)
    returns (client: BedrockAgentClient?, err: Option<string>)
    ensures awsConfigErr.Some? ==> client == null && err == awsConfigErr
    ensures awsConfigErr.None? ==> err.None? && client != null && fresh(client)
    ensures client != null ==>
      client.Configured() && client.config == Some(conf) && client.calls == []
      && client.listing == listing && client.startError == startError
  {
    if awsConfigErr.Some? {
      return null, awsConfigErr;
    }
    client := new BedrockAgentClient(Some(conf), listing, startError);
    err := None;
  }
}
