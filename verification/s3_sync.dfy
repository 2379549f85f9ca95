/**
 * The ingestion Lambda of backend/cmd/s3-sync/main.go: load the
 * configuration, make the Bedrock Agent client, and start an ingestion job
 * only when the duplicate check finds no job running, returning the first
 * error met.
 */
module S3Sync {
  import opened Wrappers
  import opened IngestionClient

  /**
   * The duplicate check asks for one summary (`InProgressJobCount(ctx, 1)`),
   * so what decides is the first job the service lists.
   */
  predicate FirstListedActive(jobs: seq<IngestionJobSummary>) {
    jobs != [] && Active(jobs[0])
  }

  /** With limit 1 the count is positive exactly when the first listed job is IN_PROGRESS or STARTING. */
  lemma FirstListedDecides(jobs: seq<IngestionJobSummary>)
    ensures CountActive(Page(jobs, 1)) > 0 <==> FirstListedActive(jobs)
  {
    var page := Page(jobs, 1);
    if jobs != [] {
      assert page == [jobs[0]];
      assert page[..0] == [];
      assert ActiveJobs(page) == ActiveJobs([]) + (if Active(jobs[0]) then [jobs[0]] else []);
    }
  }

  /**
   * `handler(ctx)`. `loadConfig` is what `config.NewConfig` gives,
   * `awsConfigErr` the AWS config loader's error, `listing` the service's
   * listing of the data source's jobs (or the list call's error) and
   * `startError` the start call's error; `calls` is the log of SDK calls made.
   */
  method Handler(loadConfig: Result<Config>, awsConfigErr: Option<string>,
                 listing: Result<seq<IngestionJobSummary>>, startError: Option<string>)
    returns (err: Option<string>, ghost calls: seq<SdkCall>)
    // What the handler returns.
    ensures loadConfig.Err? ==> err == Some(loadConfig.error)
    ensures loadConfig.Ok? && awsConfigErr.Some? ==> err == awsConfigErr
    ensures loadConfig.Ok? && awsConfigErr.None? && listing.Err? ==> err == Some(listing.error)
    ensures loadConfig.Ok? && awsConfigErr.None? && listing.Ok? ==>
      err == if FirstListedActive(listing.value) then None else startError
    // The SDK calls it makes.
    ensures loadConfig.Err? || awsConfigErr.Some? ==> calls == []
    ensures loadConfig.Ok? && awsConfigErr.None? ==> var c := loadConfig.value;
      && |calls| >= 1 && calls[0] == ListIngestionJobs(c.knowledgeBaseId, c.dataSourceId, 1)
      && (listing.Err? || FirstListedActive(listing.value) ==> |calls| == 1)
      && (listing.Ok? && !FirstListedActive(listing.value) ==>
            calls == [calls[0], StartIngestionJobCall(c.knowledgeBaseId, c.dataSourceId)])
  {
    calls := [];
    if loadConfig.Err? {
      return Some(loadConfig.error), calls;
    }
    var cfg := loadConfig.value;
    var bedrockAgent, e := NewBedrockAgentClient(cfg, awsConfigErr, listing, startError);
    if e.Some? {
      return e, calls;
    }
    var inProgressCount, countErr := bedrockAgent.InProgressJobCount(1);
    calls := bedrockAgent.calls;
    if countErr.Some? {
      return countErr, calls;
    }
    FirstListedDecides(listing.value);
    if inProgressCount > 0 {
      return None, calls;
    }
    var startErr := bedrockAgent.StartIngestionJob();
    calls := bedrockAgent.calls;
    if startErr.Some? {
      return startErr, calls;
    }
    return None, calls;
  }

  /** An active job on the page the check reads makes the count positive, so no job is started. */
  lemma StartsOnlyWhenIdle(jobs: seq<IngestionJobSummary>, limit: int32, i: int)
    requires 1 <= limit
    requires 0 <= i < |jobs| && i < limit as int && Active(jobs[i])
    ensures CountActive(Page(jobs, limit)) > 0
  {
    var page := Page(jobs, limit);
    assert page[i] == jobs[i];
    CountZeroIffNoneActive(page);
  }

  /**
   * The check reads one page: jobs listed after it change nothing, so an
   * active job there is missed and, with limit 1, a job is started whenever
   * the first listed one is not active.
   */
  lemma BeyondPageUnseen(jobs: seq<IngestionJobSummary>, more: seq<IngestionJobSummary>, limit: int32)
    requires 1 <= limit && limit as int <= |jobs|
    ensures CountActive(Page(jobs + more, limit)) == CountActive(Page(jobs, limit))
  {
    assert Page(jobs + more, limit) == Page(jobs, limit);
  }
}
