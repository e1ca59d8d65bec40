/**
 * AbstractInstanceSyncV2TaskExecutor.runOnce: fetches the deployment release details of a
 * perpetual task, retrieves the server instances of each, and publishes them to the manager in
 * batches whose size is bounded by an instance limit and a release limit. The manager calls are
 * parameters: the fetch is its outcome, the retrieval a function, and each publish is recorded in
 * the sequence of published responses.
 */
module InstanceSync {
  import opened Wrappers

  datatype ExecutionStatus = Success | Failure | Skipped

  /** InstanceSyncStatus; an unset protobuf field is false or the empty string. */
  datatype SyncStatus = SyncStatus(isSuccessful: bool, executionStatus: ExecutionStatus, errorMessage: string)

  datatype ServerInstanceInfo = ServerInstanceInfo(name: string)

  /** DeploymentReleaseDetails, kept as its printed form. */
  datatype ReleaseDetails = ReleaseDetails(printed: string)

  datatype InstanceSyncData = InstanceSyncData(
    serverInstanceInfos: seq<ServerInstanceInfo>,
    status: SyncStatus,
    taskInfoId: string,
    deploymentType: string)

  datatype BatchConfig = BatchConfig(instanceCount: int, releaseCount: int)

  datatype TaskDetails = TaskDetails(details: seq<ReleaseDetails>, responseBatchConfig: BatchConfig)

  /** InstanceSyncResponseV2 as it is published. */
  datatype SyncResponse = SyncResponse(
    perpetualTaskId: string,
    accountId: string,
    instanceData: seq<InstanceSyncData>,
    status: SyncStatus)

  datatype TaskResponse = TaskResponse(responseCode: int, responseMessage: string)

  /** The outcome of fetchInstanceSyncV2TaskDetails: an IOException, or the (possibly null) details. */
  datatype Fetched = IOFailure | FetchedDetails(details: Option<TaskDetails>)

  const ScOk: int := 200
  const ScNotFound: int := 404
  const SuccessResponseMessage: string := "success"

  function FailureResponseMessage(taskId: string, accountId: string): string
  {
    "Failed to fetch InstanceSyncTaskDetails for perpetual task Id: [" + taskId + "], accountId [" + accountId + "]"
  }

  /**
   * retrieveServiceInstances(taskId, params, details, accountId, instanceSyncData): the instances
   * and the data built for one release. `retrieve` is the subclass's retrieval, None when it throws;
   * an empty list throws too, at the lookup of its first element for the deployment type.
   */
  function RetrieveServiceInstances(taskId: string, detail: ReleaseDetails,
                                    retrieve: ReleaseDetails -> Option<seq<ServerInstanceInfo>>,
                                    deploymentTypeOf: ServerInstanceInfo -> string): (r: (InstanceSyncData, seq<ServerInstanceInfo>))
    ensures r.0.taskInfoId == taskId
    ensures r.0.status.isSuccessful <==> retrieve(detail).Some? && |retrieve(detail).value| > 0
    ensures r.0.status.isSuccessful ==> r.1 == retrieve(detail).value && r.0.status.executionStatus == Success
    ensures r.0.status.isSuccessful ==> r.0.deploymentType == deploymentTypeOf(r.1[0])
    ensures !r.0.status.isSuccessful ==> r.1 == [] && r.0.status.executionStatus == Failure
  {
    var infos := retrieve(detail);
    if infos.Some? && |infos.value| > 0 then
      (InstanceSyncData(infos.value, SyncStatus(true, Success, ""), taskId, deploymentTypeOf(infos.value[0])), infos.value)
    else
      var message := "Failed to fetch serverInstanceInfos for DeploymentReleaseDetails [" + detail.printed + "]";
      (InstanceSyncData([], SyncStatus(false, Failure, message), taskId, ""), [])
  }

  /** The counters, the builder's instance data and everything published so far. */
  datatype Batch = Batch(
    instanceCount: int,
    releaseCount: int,
    pending: seq<InstanceSyncData>,
    published: seq<SyncResponse>)

  /** The status of a publish made because a limit was exceeded. */
  const FlushStatus: SyncStatus := SyncStatus(true, Success, "")
  /** The status of the publish after the loop: isSuccessful is never set. */
  const FinalStatus: SyncStatus := SyncStatus(false, Success, "")
  /** The status published when there is nothing to track. */
  const NothingToTrackStatus: SyncStatus := SyncStatus(false, Skipped, "")

  /** createBatchAndPublish on the batch `b`, for one release with `infoCount` instances. */
  function Step(b: Batch, data: InstanceSyncData, infoCount: nat, config: BatchConfig,
                taskId: string, accountId: string): Batch
  {
    var instanceCount := b.instanceCount + infoCount;
    var releaseCount := b.releaseCount + 1;
    var pending := b.pending + [data];
    if instanceCount > config.instanceCount || releaseCount > config.releaseCount then
      Batch(0, 0, [], b.published + [SyncResponse(taskId, accountId, pending, FlushStatus)])
    else
      Batch(instanceCount, releaseCount, pending, b.published)
  }

  /**
   * One release flushes iff, counted in, the instance counter or the release counter exceeds its
   * limit; a flush publishes everything pending as a success and resets both counters, otherwise
   * the release is only added to what is pending.
   */
  lemma StepFlushesIffOverLimit(b: Batch, data: InstanceSyncData, infoCount: nat, config: BatchConfig,
                                taskId: string, accountId: string)
    ensures var s := Step(b, data, infoCount, config, taskId, accountId);
      (|s.published| == |b.published| + 1) <==>
        (b.instanceCount + infoCount > config.instanceCount || b.releaseCount + 1 > config.releaseCount)
    ensures var s := Step(b, data, infoCount, config, taskId, accountId);
      |s.published| == |b.published| + 1 ==>
        s.instanceCount == 0 && s.releaseCount == 0 && s.pending == [] &&
        s.published == b.published + [SyncResponse(taskId, accountId, b.pending + [data], FlushStatus)]
    ensures var s := Step(b, data, infoCount, config, taskId, accountId);
      |s.published| != |b.published| + 1 ==>
        s.instanceCount == b.instanceCount + infoCount && s.releaseCount == b.releaseCount + 1 &&
        s.pending == b.pending + [data] && s.published == b.published
  {
  }

  /** The batch after the loop has handled `details` in order. */
  function Run(details: seq<ReleaseDetails>, config: BatchConfig, taskId: string, accountId: string,
               retrieve: ReleaseDetails -> Option<seq<ServerInstanceInfo>>,
               deploymentTypeOf: ServerInstanceInfo -> string): Batch
  {
    if details == [] then Batch(0, 0, [], [])
    else
      var b := Run(details[..|details| - 1], config, taskId, accountId, retrieve, deploymentTypeOf);
      var r := RetrieveServiceInstances(taskId, details[|details| - 1], retrieve, deploymentTypeOf);
      Step(b, r.0, |r.1|, config, taskId, accountId)
  }

  /** The response builder and the two counters of one runOnce. */
  class ResponseBatcher {
    const taskId: string
    const accountId: string
    const config: BatchConfig
    var batchInstanceCount: int
    var batchReleaseDetailsCount: int
    var instanceData: seq<InstanceSyncData>
    var published: seq<SyncResponse>

    function State(): Batch
      reads this
    {
      Batch(batchInstanceCount, batchReleaseDetailsCount, instanceData, published)
    }

    constructor(taskId: string, accountId: string, config: BatchConfig)
      ensures this.taskId == taskId && this.accountId == accountId && this.config == config
      ensures State() == Batch(0, 0, [], [])
    {
      this.taskId := taskId;
      this.accountId := accountId;
      this.config := config;
      batchInstanceCount := 0;
      batchReleaseDetailsCount := 0;
      instanceData := [];
      published := [];
    }

    /**
     * createBatchAndPublish: adds the data and counts the release and its instances; when either
     * counter exceeds its limit the batch is published as a success and both counters restart at 0.
     */
    method CreateBatchAndPublish(data: InstanceSyncData, serverInstanceInfos: seq<ServerInstanceInfo>)
      modifies this
      ensures State() == Step(old(State()), data, |serverInstanceInfos|, config, taskId, accountId)
    {
      instanceData := instanceData + [data];
      batchInstanceCount := batchInstanceCount + |serverInstanceInfos|;
      batchReleaseDetailsCount := batchReleaseDetailsCount + 1;
      if batchInstanceCount > config.instanceCount || batchReleaseDetailsCount > config.releaseCount {
        published := published + [SyncResponse(taskId, accountId, instanceData, FlushStatus)];
        instanceData := [];
        batchInstanceCount := 0;
        batchReleaseDetailsCount := 0;
      }
    }

    /** The publish after the loop, made when either counter is not 0. */
    method PublishRemainder()
      modifies this`published
      ensures published == old(if batchInstanceCount != 0 || batchReleaseDetailsCount != 0
                               then published + [SyncResponse(taskId, accountId, instanceData, FinalStatus)]
                               else published)
    {
      if batchInstanceCount != 0 || batchReleaseDetailsCount != 0 {
        published := published + [SyncResponse(taskId, accountId, instanceData, FinalStatus)];
      }
    }
  }

  /** The publishes of a whole run on fetched details: the loop's, then the remainder if any. */
  function FinalPublished(b: Batch, taskId: string, accountId: string): seq<SyncResponse>
  {
    if b.instanceCount != 0 || b.releaseCount != 0
    then b.published + [SyncResponse(taskId, accountId, b.pending, FinalStatus)]
    else b.published
  }

  /** What runOnce answers and publishes. */
  function Outcome(taskId: string, accountId: string, fetched: Fetched,
                   retrieve: ReleaseDetails -> Option<seq<ServerInstanceInfo>>,
                   deploymentTypeOf: ServerInstanceInfo -> string): (TaskResponse, seq<SyncResponse>)
  {
    match fetched
    case IOFailure => (TaskResponse(ScNotFound, FailureResponseMessage(taskId, accountId)), [])
    case FetchedDetails(d) =>
      if d.None? || d.value.details == [] then
        (TaskResponse(ScOk, SuccessResponseMessage), [SyncResponse("", "", [], NothingToTrackStatus)])
      else
        var b := Run(d.value.details, d.value.responseBatchConfig, taskId, accountId, retrieve, deploymentTypeOf);
        (TaskResponse(ScOk, SuccessResponseMessage), FinalPublished(b, taskId, accountId))
  }

  /** runOnce. */
  method RunOnce(taskId: string, accountId: string, fetched: Fetched,
                 retrieve: ReleaseDetails -> Option<seq<ServerInstanceInfo>>,
                 deploymentTypeOf: ServerInstanceInfo -> string)
    returns (response: TaskResponse, published: seq<SyncResponse>)
    ensures (response, published) == Outcome(taskId, accountId, fetched, retrieve, deploymentTypeOf)
  {
    if fetched.IOFailure? {
      return TaskResponse(ScNotFound, FailureResponseMessage(taskId, accountId)), [];
    }
    var instanceSyncTaskDetails := fetched.details;
    if instanceSyncTaskDetails.None? || instanceSyncTaskDetails.value.details == [] {
      return TaskResponse(ScOk, SuccessResponseMessage), [SyncResponse("", "", [], NothingToTrackStatus)];
    }
    var details := instanceSyncTaskDetails.value.details;
    var config := instanceSyncTaskDetails.value.responseBatchConfig;
    var batcher := new ResponseBatcher(taskId, accountId, config);
    var i := 0;
    while i < |details|
      invariant 0 <= i <= |details|
      invariant batcher.taskId == taskId && batcher.accountId == accountId && batcher.config == config
      invariant batcher.State() == Run(details[..i], config, taskId, accountId, retrieve, deploymentTypeOf)
    {
      assert details[..i + 1][..i] == details[..i];
      var r := RetrieveServiceInstances(taskId, details[i], retrieve, deploymentTypeOf);
      batcher.CreateBatchAndPublish(r.0, r.1);
      i := i + 1;
    }
    assert details[..|details|] == details;
    batcher.PublishRemainder();
    response := TaskResponse(ScOk, SuccessResponseMessage);
    published := batcher.published;
  }

  // ---- properties of a run ----

  function InstanceTotal(data: seq<InstanceSyncData>): int
  {
    if data == [] then 0 else InstanceTotal(data[..|data| - 1]) + |data[|data| - 1].serverInstanceInfos|
  }

  /** The instance data of the published responses, one after the other. */
  function PublishedData(published: seq<SyncResponse>): seq<InstanceSyncData>
  {
    if published == [] then [] else PublishedData(published[..|published| - 1]) + published[|published| - 1].instanceData
  }

  /** The data built for each release, in order. */
  function DataOf(details: seq<ReleaseDetails>, taskId: string,
                  retrieve: ReleaseDetails -> Option<seq<ServerInstanceInfo>>,
                  deploymentTypeOf: ServerInstanceInfo -> string): (r: seq<InstanceSyncData>)
    ensures |r| == |details|
  {
    if details == [] then []
    else DataOf(details[..|details| - 1], taskId, retrieve, deploymentTypeOf)
         + [RetrieveServiceInstances(taskId, details[|details| - 1], retrieve, deploymentTypeOf).0]
  }

  lemma PublishedDataSnoc(published: seq<SyncResponse>, r: SyncResponse)
    ensures PublishedData(published + [r]) == PublishedData(published) + r.instanceData
  {
    assert (published + [r])[..|published|] == published;
  }

  /** The release counter counts the pending releases and the instance counter their instances. */
  lemma {:induction false} RunCounters(details: seq<ReleaseDetails>, config: BatchConfig, taskId: string, accountId: string,
                                       retrieve: ReleaseDetails -> Option<seq<ServerInstanceInfo>>,
                                       deploymentTypeOf: ServerInstanceInfo -> string)
    ensures var b := Run(details, config, taskId, accountId, retrieve, deploymentTypeOf);
      b.releaseCount == |b.pending| && b.instanceCount == InstanceTotal(b.pending)
  {
    if details != [] {
      var prefix := details[..|details| - 1];
      RunCounters(prefix, config, taskId, accountId, retrieve, deploymentTypeOf);
      var b := Run(prefix, config, taskId, accountId, retrieve, deploymentTypeOf);
      var r := RetrieveServiceInstances(taskId, details[|details| - 1], retrieve, deploymentTypeOf);
      var pending := b.pending + [r.0];
      assert pending[..|pending| - 1] == b.pending;
    }
  }

  /** What is published followed by what is pending is the data of every release handled, each once and in order. */
  lemma {:induction false} RunPublishesInOrder(details: seq<ReleaseDetails>, config: BatchConfig, taskId: string,
                                               accountId: string,
                                               retrieve: ReleaseDetails -> Option<seq<ServerInstanceInfo>>,
                                               deploymentTypeOf: ServerInstanceInfo -> string)
    ensures var b := Run(details, config, taskId, accountId, retrieve, deploymentTypeOf);
      PublishedData(b.published) + b.pending == DataOf(details, taskId, retrieve, deploymentTypeOf)
  {
    if details != [] {
      var prefix := details[..|details| - 1];
      RunPublishesInOrder(prefix, config, taskId, accountId, retrieve, deploymentTypeOf);
      var b := Run(prefix, config, taskId, accountId, retrieve, deploymentTypeOf);
      var r := RetrieveServiceInstances(taskId, details[|details| - 1], retrieve, deploymentTypeOf);
      var pending := b.pending + [r.0];
      PublishedDataSnoc(b.published, SyncResponse(taskId, accountId, pending, FlushStatus));
    }
  }

  /** Every publish of the loop is a non-empty success of this task and account. */
  lemma {:induction false} RunFlushes(details: seq<ReleaseDetails>, config: BatchConfig, taskId: string, accountId: string,
                                      retrieve: ReleaseDetails -> Option<seq<ServerInstanceInfo>>,
                                      deploymentTypeOf: ServerInstanceInfo -> string)
    ensures var b := Run(details, config, taskId, accountId, retrieve, deploymentTypeOf);
      forall r :: r in b.published ==>
        r.status == FlushStatus && r.instanceData != [] && r.perpetualTaskId == taskId && r.accountId == accountId
  {
    if details != [] {
      RunFlushes(details[..|details| - 1], config, taskId, accountId, retrieve, deploymentTypeOf);
    }
  }

  /** Unless nothing is pending, both counters are within their limits after each release. */
  lemma {:induction false} RunWithinLimits(details: seq<ReleaseDetails>, config: BatchConfig, taskId: string,
                                           accountId: string,
                                           retrieve: ReleaseDetails -> Option<seq<ServerInstanceInfo>>,
                                           deploymentTypeOf: ServerInstanceInfo -> string)
    ensures var b := Run(details, config, taskId, accountId, retrieve, deploymentTypeOf);
      b.pending == [] || (b.instanceCount <= config.instanceCount && b.releaseCount <= config.releaseCount)
  {
    if details != [] {
      RunWithinLimits(details[..|details| - 1], config, taskId, accountId, retrieve, deploymentTypeOf);
    }
  }

  /** When there are details to track, every release's data is published exactly once, in order. */
  lemma EveryReleasePublishedOnce(taskId: string, accountId: string, d: TaskDetails,
                                  retrieve: ReleaseDetails -> Option<seq<ServerInstanceInfo>>,
                                  deploymentTypeOf: ServerInstanceInfo -> string)
    requires d.details != []
    ensures var o := Outcome(taskId, accountId, FetchedDetails(Some(d)), retrieve, deploymentTypeOf);
      o.0 == TaskResponse(ScOk, SuccessResponseMessage)
      && PublishedData(o.1) == DataOf(d.details, taskId, retrieve, deploymentTypeOf)
  {
    var b := Run(d.details, d.responseBatchConfig, taskId, accountId, retrieve, deploymentTypeOf);
    RunPublishesInOrder(d.details, d.responseBatchConfig, taskId, accountId, retrieve, deploymentTypeOf);
    RunCounters(d.details, d.responseBatchConfig, taskId, accountId, retrieve, deploymentTypeOf);
    if b.instanceCount != 0 || b.releaseCount != 0 {
      PublishedDataSnoc(b.published, SyncResponse(taskId, accountId, b.pending, FinalStatus));
    }
  }

  /** The final publish happens exactly when some release is pending after the loop. */
  lemma FinalPublishIffPending(details: seq<ReleaseDetails>, config: BatchConfig, taskId: string, accountId: string,
                               retrieve: ReleaseDetails -> Option<seq<ServerInstanceInfo>>,
                               deploymentTypeOf: ServerInstanceInfo -> string)
    ensures var b := Run(details, config, taskId, accountId, retrieve, deploymentTypeOf);
      (|FinalPublished(b, taskId, accountId)| == |b.published| + 1) <==> b.pending != []
  {
    RunCounters(details, config, taskId, accountId, retrieve, deploymentTypeOf);
  }

  /** An IOException while fetching the details answers SC_NOT_FOUND and publishes nothing. */
  lemma FetchFailureNotFound(taskId: string, accountId: string,
                             retrieve: ReleaseDetails -> Option<seq<ServerInstanceInfo>>,
                             deploymentTypeOf: ServerInstanceInfo -> string)
    ensures var o := Outcome(taskId, accountId, IOFailure, retrieve, deploymentTypeOf);
      o.0 == TaskResponse(ScNotFound, FailureResponseMessage(taskId, accountId)) && o.1 == []
  {
  }

  /** Nothing to track: one SKIPPED publish that is not a success, and SC_OK. */
  lemma NothingToTrack(taskId: string, accountId: string, d: Option<TaskDetails>,
                       retrieve: ReleaseDetails -> Option<seq<ServerInstanceInfo>>,
                       deploymentTypeOf: ServerInstanceInfo -> string)
    requires d.None? || d.value.details == []
    ensures var o := Outcome(taskId, accountId, FetchedDetails(d), retrieve, deploymentTypeOf);
      o.0.responseCode == ScOk && |o.1| == 1
      && !o.1[0].status.isSuccessful && o.1[0].status.executionStatus == Skipped
  {
  }

  /** A release whose retrieval fails contributes no instance and a FAILURE, yet counts as one release. */
  lemma FailedRetrievalCountsAsRelease(b: Batch, taskId: string, detail: ReleaseDetails, config: BatchConfig,
                                       accountId: string, retrieve: ReleaseDetails -> Option<seq<ServerInstanceInfo>>,
                                       deploymentTypeOf: ServerInstanceInfo -> string)
    requires retrieve(detail).None?
    requires b.instanceCount <= config.instanceCount && b.releaseCount + 1 <= config.releaseCount
    ensures var r := RetrieveServiceInstances(taskId, detail, retrieve, deploymentTypeOf);
      r.0.status.executionStatus == Failure && r.1 == []
      && Step(b, r.0, |r.1|, config, taskId, accountId).instanceCount == b.instanceCount
      && Step(b, r.0, |r.1|, config, taskId, accountId).releaseCount == b.releaseCount + 1
  {
  }

  /** One release with one instance under the limits 100 and 5 gives exactly one publish. */
  lemma OneReleaseOnePublish(taskId: string, accountId: string, detail: ReleaseDetails, info: ServerInstanceInfo,
                             retrieve: ReleaseDetails -> Option<seq<ServerInstanceInfo>>,
                             deploymentTypeOf: ServerInstanceInfo -> string)
    requires retrieve(detail) == Some([info])
    ensures var o := Outcome(taskId, accountId, FetchedDetails(Some(TaskDetails([detail], BatchConfig(100, 5)))),
                             retrieve, deploymentTypeOf);
      |o.1| == 1 && o.1[0].status == FinalStatus
  {
    assert [detail][..0] == [];
    var r := RetrieveServiceInstances(taskId, detail, retrieve, deploymentTypeOf);
    assert r.1 == [info];
    var b := Run([detail], BatchConfig(100, 5), taskId, accountId, retrieve, deploymentTypeOf);
    assert Run([detail][..0], BatchConfig(100, 5), taskId, accountId, retrieve, deploymentTypeOf) == Batch(0, 0, [], []);
    assert b == Step(Batch(0, 0, [], []), r.0, 1, BatchConfig(100, 5), taskId, accountId);
    assert b == Batch(1, 1, [r.0], []);
  }
}
