/**
 * Rollback re-execution of a pipeline run: the new plan keeps pipeline, stage and fan-out
 * boundaries as freshly planned nodes and turns every node that already ran into an identity
 * node that replays its original execution; the execution metadata and the processed YAML of
 * the new run are rewritten for the rollback mode.
 *
 * The node-execution store is a function parameter (`fetch...`), the run-sequence counter and
 * the principal are plain values, and YAML is kept as its parsed list of stage entries.
 */
module RollbackMode {
  import opened Wrappers
  import opened PlanModel

  // ---------------------------------------------------------------------------------------
  // Rollback target of a stage execution
  // ---------------------------------------------------------------------------------------

  datatype PostExecutionRollbackInfo = PostExecutionRollbackInfo(
    postExecutionRollbackStageId: string,
    rollbackStageStrategyMetadata: Option<string>)

  /**
   * The stage to roll back: under a strategy (multi-deployment) it is the strategy's setup id,
   * the level just above the current one, together with the current level's strategy metadata;
   * otherwise it is the current setup id. Indexing below the first level, or an ambiance with no
   * level at all, fails as the Java code would.
   */
  function CreatePostExecutionRollbackInfo(a: Ambiance): (r: Result<PostExecutionRollbackInfo>)
    ensures r.Ok? <==> (if HasStrategyLevel(a) then |a.levels| >= 2 else |a.levels| >= 1)
    ensures r.Ok? && HasStrategyLevel(a) ==>
      r.value.postExecutionRollbackStageId == a.levels[|a.levels| - 2].setupId &&
      r.value.rollbackStageStrategyMetadata == Some(a.levels[|a.levels| - 1].strategyMetadata)
    ensures r.Ok? && !HasStrategyLevel(a) ==>
      r.value.postExecutionRollbackStageId == a.levels[|a.levels| - 1].setupId &&
      r.value.rollbackStageStrategyMetadata == None
  {
    if HasStrategyLevel(a) then
      if |a.levels| < 2 then Err(IndexOutOfBounds)
      else Ok(PostExecutionRollbackInfo(a.levels[|a.levels| - 2].setupId, Some(a.levels[|a.levels| - 1].strategyMetadata)))
    else
      match CurrentLevel(a)
      case Err(e) => Err(e)
      case Ok(level) => Ok(PostExecutionRollbackInfo(level.setupId, None))
  }

  /** One rollback info per node execution, in order; the first failing ambiance fails the whole list. */
  function RollbackInfos(execs: seq<NodeExecution>): (r: Result<seq<PostExecutionRollbackInfo>>)
    ensures r.Ok? <==> forall i :: 0 <= i < |execs| ==> CreatePostExecutionRollbackInfo(execs[i].ambiance).Ok?
    ensures r.Ok? ==> |r.value| == |execs|
    ensures r.Ok? ==> forall i :: 0 <= i < |execs| ==> Ok(r.value[i]) == CreatePostExecutionRollbackInfo(execs[i].ambiance)
  {
    if execs == [] then Ok([])
    else
      match CreatePostExecutionRollbackInfo(execs[0].ambiance)
      case Err(e) => Err(e)
      case Ok(info) =>
        match RollbackInfos(execs[1..])
        case Err(e) => Err(e)
        case Ok(rest) => Ok([info] + rest)
  }

  // ---------------------------------------------------------------------------------------
  // Execution metadata
  // ---------------------------------------------------------------------------------------

  datatype ExecutionMetadata = ExecutionMetadata(
    executionUuid: string,
    triggerInfo: string,
    runSequence: int,
    principalInfo: string,
    executionMode: ExecutionMode,
    pipelineIdentifier: string,
    pipelineStageInfo: Option<string>,
    postExecutionRollbackInfo: seq<PostExecutionRollbackInfo>)

  /**
   * Rewrites the metadata of the original run for the rollback run. `runSequence` is the value the
   * pipeline's execution counter hands out and `principal` the principal of the security context;
   * `fetchById` stands for the node-execution store, asked only when there are stage executions.
   */
  function TransformExecutionMetadata(
    md: ExecutionMetadata, planExecutionId: string, triggerInfo: string, mode: ExecutionMode,
    parentStageInfo: Option<string>, stageNodeExecutionIds: seq<string>,
    runSequence: int, principal: string, fetchById: set<string> -> seq<NodeExecution>): (r: Result<ExecutionMetadata>)
    ensures |stageNodeExecutionIds| == 0 ==> r.Ok?
    ensures r.Ok? ==>
      r.value.executionUuid == planExecutionId && r.value.triggerInfo == triggerInfo &&
      r.value.runSequence == runSequence && r.value.principalInfo == principal &&
      r.value.executionMode == mode && r.value.pipelineIdentifier == md.pipelineIdentifier
    ensures r.Ok? ==> r.value.pipelineStageInfo == (if parentStageInfo.Some? then parentStageInfo else md.pipelineStageInfo)
    ensures r.Ok? && |stageNodeExecutionIds| == 0 ==> r.value.postExecutionRollbackInfo == md.postExecutionRollbackInfo
    ensures |stageNodeExecutionIds| > 0 ==>
      var fetched := fetchById(set id | id in stageNodeExecutionIds);
      (r.Ok? <==> RollbackInfos(fetched).Ok?) &&
      (r.Ok? ==> r.value.postExecutionRollbackInfo == md.postExecutionRollbackInfo + RollbackInfos(fetched).value &&
                 |r.value.postExecutionRollbackInfo| == |md.postExecutionRollbackInfo| + |fetched|)
  {
    var base := md.(executionUuid := planExecutionId, triggerInfo := triggerInfo, runSequence := runSequence,
                    principalInfo := principal, executionMode := mode);
    var withParent := if parentStageInfo.Some? then base.(pipelineStageInfo := parentStageInfo) else base;
    if |stageNodeExecutionIds| == 0 then Ok(withParent)
    else
      match RollbackInfos(fetchById(set id | id in stageNodeExecutionIds))
      case Err(e) => Err(e)
      case Ok(infos) => Ok(withParent.(postExecutionRollbackInfo := withParent.postExecutionRollbackInfo + infos))
  }

  // ---------------------------------------------------------------------------------------
  // Processed YAML: the list of stage entries
  // ---------------------------------------------------------------------------------------

  datatype StageNode = StageNode(identifier: string, body: string)

  /** An entry of `pipeline.stages`: one stage, or a `parallel` block (never empty). */
  datatype StageEntry = SingleStage(stage: StageNode) | ParallelBlock(first: StageNode, rest: seq<StageNode>)

  /** The processed YAML, or text the YAML reader cannot read. */
  datatype ProcessedYaml = PipelineYaml(stages: seq<StageEntry>) | Unparsable(text: string)

  datatype StageDetail = StageDetail(name: string, identifier: string)

  /** The stage id that decides an entry's fate: a parallel block is judged by its first child. */
  function EntryStageId(e: StageEntry): string
  {
    match e
    case SingleStage(s) => s.identifier
    case ParallelBlock(f, _) => f.identifier
  }

  function Reversed<T>(s: seq<T>): seq<T>
  {
    if s == [] then [] else Reversed(s[1..]) + [s[0]]
  }

  lemma {:induction false} ReversedAt<T>(s: seq<T>, k: nat)
    requires k < |s|
    ensures |Reversed(s)| == |s| && Reversed(s)[k] == s[|s| - 1 - k]
  {
    ReversedLength(s);
    if k < |s| - 1 {
      ReversedAt(s[1..], k);
    }
  }

  lemma {:induction false} ReversedLength<T>(s: seq<T>)
    ensures |Reversed(s)| == |s|
  {
    if s != [] {
      ReversedLength(s[1..]);
    }
  }

  /** Reversing the stage list twice gives back the original list. */
  lemma ReversedTwice<T>(s: seq<T>)
    ensures Reversed(Reversed(s)) == s
  {
    ReversedLength(s);
    ReversedLength(Reversed(s));
    forall k | 0 <= k < |s|
      ensures Reversed(Reversed(s))[k] == s[k]
    {
      ReversedAt(Reversed(s), k);
      ReversedAt(s, |s| - 1 - k);
    }
  }

  /** The entries whose stage ran in the original execution, in the given order. */
  function KeepExecuted(s: seq<StageEntry>, executed: seq<string>): seq<StageEntry>
  {
    if s == [] then []
    else KeepExecuted(s[..|s| - 1], executed) + (if EntryStageId(s[|s| - 1]) in executed then [s[|s| - 1]] else [])
  }

  /** An entry survives iff it is in the list and its stage id was executed; blocks move as one entry. */
  lemma {:induction false} KeepExecutedMembers(s: seq<StageEntry>, executed: seq<string>, e: StageEntry)
    ensures e in KeepExecuted(s, executed) <==> e in s && EntryStageId(e) in executed
  {
    if s != [] {
      KeepExecutedMembers(s[..|s| - 1], executed, e);
      assert s == s[..|s| - 1] + [s[|s| - 1]];
    }
  }

  lemma {:induction false} KeepExecutedAppend(a: seq<StageEntry>, b: seq<StageEntry>, executed: seq<string>)
    ensures KeepExecuted(a + b, executed) == KeepExecuted(a, executed) + KeepExecuted(b, executed)
  {
    if b != [] {
      assert (a + b)[..|a + b| - 1] == a + b[..|b| - 1];
      KeepExecutedAppend(a, b[..|b| - 1], executed);
    } else {
      assert a + b == a;
    }
  }

  /** Filtering the reversed list is reversing the filtered list: the output is the executed stages, last first. */
  lemma {:induction false} KeepExecutedOfReversed(s: seq<StageEntry>, executed: seq<string>)
    ensures KeepExecuted(Reversed(s), executed) == Reversed(KeepExecuted(s, executed))
  {
    if s != [] {
      KeepExecutedOfReversed(s[1..], executed);
      KeepExecutedAppend(Reversed(s[1..]), [s[0]], executed);
      assert KeepExecuted([s[0]], executed) == (if EntryStageId(s[0]) in executed then [s[0]] else []) by {
        assert [s[0]][..0] == [];
      }
      assert s == [s[0]] + s[1..];
      KeepExecutedAppend([s[0]], s[1..], executed);
      ReversedAppend([s[0]], KeepExecuted(s[1..], executed));
      ReversedAppend(KeepExecuted([s[0]], executed), KeepExecuted(s[1..], executed));
    }
  }

  lemma {:induction false} ReversedAppend<T>(a: seq<T>, b: seq<T>)
    ensures Reversed(a + b) == Reversed(b) + Reversed(a)
  {
    if a == [] {
      assert a + b == b;
    } else {
      assert (a + b)[1..] == a[1..] + b;
      ReversedAppend(a[1..], b);
    }
  }

  /**
   * Pipeline rollback of s1, s2, s3 when s3 never ran gives s2, s1; a parallel block judged by
   * its first child moves as one entry, its own order untouched.
   */
  lemma PipelineRollbackExample(s1: StageNode, s2: StageNode, s3: StageNode, p: StageNode, q: StageNode)
    requires s1.identifier == "s1" && s2.identifier == "s2" && s3.identifier == "s3"
    requires p.identifier == "p" && q.identifier == "q"
    ensures KeepExecuted(Reversed([SingleStage(s1), SingleStage(s2), SingleStage(s3)]), ["s1", "s2"])
            == [SingleStage(s2), SingleStage(s1)]
    ensures KeepExecuted(Reversed([SingleStage(s1), ParallelBlock(p, [q]), SingleStage(s3)]), ["s1", "p"])
            == [ParallelBlock(p, [q]), SingleStage(s1)]
  {
    Reversed3(SingleStage(s1), SingleStage(s2), SingleStage(s3));
    KeepExecuted3(SingleStage(s3), SingleStage(s2), SingleStage(s1), ["s1", "s2"]);
    Reversed3(SingleStage(s1), ParallelBlock(p, [q]), SingleStage(s3));
    KeepExecuted3(SingleStage(s3), ParallelBlock(p, [q]), SingleStage(s1), ["s1", "p"]);
  }

  lemma Reversed3<T>(x: T, y: T, z: T)
    ensures Reversed([x, y, z]) == [z, y, x]
  {
    assert [x, y, z][1..] == [y, z] && [y, z][1..] == [z] && [z][1..] == [];
    assert Reversed([z]) == [z];
    assert Reversed([y, z]) == [z, y];
  }

  lemma KeepExecuted3(x: StageEntry, y: StageEntry, z: StageEntry, executed: seq<string>)
    ensures KeepExecuted([x, y, z], executed) ==
      (if EntryStageId(x) in executed then [x] else []) + (if EntryStageId(y) in executed then [y] else [])
      + (if EntryStageId(z) in executed then [z] else [])
  {
    assert [x, y, z][..2] == [x, y] && [x, y][..1] == [x] && [x][..0] == [];
    assert KeepExecuted([x], executed) == (if EntryStageId(x) in executed then [x] else []);
    assert KeepExecuted([x, y], executed) == KeepExecuted([x], executed) + (if EntryStageId(y) in executed then [y] else []);
  }

  predicate NamesExecutedStage(d: StageDetail, rollbackStageName: string, id: string)
  {
    d.name != rollbackStageName && d.identifier == id
  }

  /** The identifiers of the stages that ran, without the synthetic pipeline-rollback stage. */
  function ExecutedStageIds(details: seq<StageDetail>, rollbackStageName: string): (r: seq<string>)
    ensures forall id :: id in r <==> exists i :: 0 <= i < |details| && NamesExecutedStage(details[i], rollbackStageName, id)
  {
    if details == [] then []
    else
      var prefix := details[..|details| - 1];
      var last := details[|details| - 1];
      assert forall i :: 0 <= i < |prefix| ==> prefix[i] == details[i];
      ExecutedStageIds(prefix, rollbackStageName) + (if last.name != rollbackStageName then [last.identifier] else [])
  }

  /** PIPELINE_ROLLBACK: walk the stages from last to first and keep the executed ones. */
  method ReverseExecutedStages(stages: seq<StageEntry>, executed: seq<string>) returns (reversed: seq<StageEntry>)
    ensures reversed == KeepExecuted(Reversed(stages), executed)
  {
    reversed := [];
    var i := |stages|;
    while i > 0
      invariant 0 <= i <= |stages|
      invariant reversed == KeepExecuted(Reversed(stages[i..]), executed)
    {
      i := i - 1;
      assert stages[i..][1..] == stages[i + 1..];
      assert Reversed(stages[i..]) == Reversed(stages[i + 1..]) + [stages[i]];
      ghost var before := Reversed(stages[i + 1..]);
      assert (before + [stages[i]])[..|before + [stages[i]]| - 1] == before;
      if EntryStageId(stages[i]) in executed {
        reversed := reversed + [stages[i]];
      }
    }
    assert stages[0..] == stages;
  }

  /** POST_EXECUTION_ROLLBACK: every stage entry, last first. */
  method ReverseAllStages(stages: seq<StageEntry>) returns (reversed: seq<StageEntry>)
    ensures reversed == Reversed(stages)
    ensures |reversed| == |stages|
    ensures forall k :: 0 <= k < |stages| ==> reversed[k] == stages[|stages| - 1 - k]
  {
    reversed := [];
    var i := |stages|;
    while i > 0
      invariant 0 <= i <= |stages|
      invariant reversed == Reversed(stages[i..])
    {
      i := i - 1;
      assert stages[i..][1..] == stages[i + 1..];
      reversed := reversed + [stages[i]];
    }
    assert stages[0..] == stages;
    forall k | 0 <= k < |stages|
      ensures |reversed| == |stages| && reversed[k] == stages[|stages| - 1 - k]
    {
      ReversedAt(stages, k);
    }
    ReversedLength(stages);
  }

  function ModeName(mode: ExecutionMode): string
  {
    match mode
    case UndefinedMode => "UNDEFINED_MODE"
    case Normal => "NORMAL"
    case PipelineRollback => "PIPELINE_ROLLBACK"
    case PostExecutionRollback => "POST_EXECUTION_ROLLBACK"
  }

  const UnreadableYamlMessage := "Unable to transform processed YAML while executing in Rollback Mode"

  function UnsupportedModeMessage(mode: ExecutionMode, originalPlanExecutionId: string): string
  {
    "Unsupported Execution Mode " + ModeName(mode)
      + " in RollbackModeExecutionHelper while transforming plan for execution with id " + originalPlanExecutionId
  }

  /**
   * The processed YAML for the rollback run. `stageDetailsOf` stands for the store's stage details of
   * a plan execution; `rollbackStageName` is the name of the synthetic pipeline-rollback stage.
   */
  method TransformProcessedYaml(
    processed: ProcessedYaml, mode: ExecutionMode, originalPlanExecutionId: string,
    stageDetailsOf: string -> seq<StageDetail>, rollbackStageName: string) returns (r: Result<ProcessedYaml>)
    ensures mode != PipelineRollback && mode != PostExecutionRollback ==>
      r == Err(InvalidRequest(UnsupportedModeMessage(mode, originalPlanExecutionId)))
    ensures (mode == PipelineRollback || mode == PostExecutionRollback) && processed.Unparsable? ==>
      r == Err(Unexpected(UnreadableYamlMessage))
    ensures mode == PostExecutionRollback && processed.PipelineYaml? ==>
      r == Ok(PipelineYaml(Reversed(processed.stages)))
    ensures mode == PipelineRollback && processed.PipelineYaml? ==>
      r == Ok(PipelineYaml(KeepExecuted(Reversed(processed.stages),
                                        ExecutedStageIds(stageDetailsOf(originalPlanExecutionId), rollbackStageName))))
  {
    match mode {
      case PipelineRollback =>
        var executed := ExecutedStageIds(stageDetailsOf(originalPlanExecutionId), rollbackStageName);
        if processed.Unparsable? {
          return Err(Unexpected(UnreadableYamlMessage));
        }
        var stages := ReverseExecutedStages(processed.stages, executed);
        r := Ok(PipelineYaml(stages));
      case PostExecutionRollback =>
        if processed.Unparsable? {
          return Err(Unexpected(UnreadableYamlMessage));
        }
        var stages := ReverseAllStages(processed.stages);
        r := Ok(PipelineYaml(stages));
      case _ =>
        r := Err(InvalidRequest(UnsupportedModeMessage(mode, originalPlanExecutionId)));
    }
  }

  // ---------------------------------------------------------------------------------------
  // Plan-execution metadata
  // ---------------------------------------------------------------------------------------

  datatype StagesExecutionMetadata = StagesExecutionMetadata(fullPipelineYaml: string, stageIdentifiers: seq<string>)

  datatype PlanExecutionMetadata = PlanExecutionMetadata(
    uuid: Option<string>,
    planExecutionId: string,
    yaml: string,
    processedYaml: ProcessedYaml,
    stagesExecutionMetadata: Option<StagesExecutionMetadata>)

  function StageFqnsOf(execs: seq<NodeExecution>): (r: seq<string>)
    ensures |r| == |execs| && forall i :: 0 <= i < |execs| ==> r[i] == execs[i].node.stageFqn
  {
    if execs == [] then [] else [execs[0].node.stageFqn] + StageFqnsOf(execs[1..])
  }

  /**
   * The plan-execution metadata of the rollback run: new plan-execution id, no storage uuid (so a
   * new record is stored), the rewritten processed YAML, and the stages to roll back when some
   * stage executions were given.
   */
  method TransformPlanExecutionMetadata(
    pem: PlanExecutionMetadata, planExecutionId: string, mode: ExecutionMode, stageNodeExecutionIds: seq<string>,
    stageDetailsOf: string -> seq<StageDetail>, rollbackStageName: string,
    fetchById: set<string> -> seq<NodeExecution>) returns (r: Result<PlanExecutionMetadata>)
    ensures mode != PipelineRollback && mode != PostExecutionRollback ==>
      r == Err(InvalidRequest(UnsupportedModeMessage(mode, pem.planExecutionId)))
    ensures (mode == PipelineRollback || mode == PostExecutionRollback) && pem.processedYaml.Unparsable? ==>
      r == Err(Unexpected(UnreadableYamlMessage))
    ensures (mode == PipelineRollback || mode == PostExecutionRollback) && pem.processedYaml.PipelineYaml? ==> r.Ok?
    ensures r.Ok? ==>
      r.value.planExecutionId == planExecutionId && r.value.uuid == None && r.value.yaml == pem.yaml &&
      r.value.processedYaml.PipelineYaml?
    ensures r.Ok? && mode == PostExecutionRollback ==> r.value.processedYaml.stages == Reversed(pem.processedYaml.stages)
    ensures r.Ok? && mode == PipelineRollback ==>
      r.value.processedYaml.stages == KeepExecuted(Reversed(pem.processedYaml.stages),
                                                   ExecutedStageIds(stageDetailsOf(pem.planExecutionId), rollbackStageName))
    ensures r.Ok? && |stageNodeExecutionIds| == 0 ==> r.value.stagesExecutionMetadata == pem.stagesExecutionMetadata
    ensures r.Ok? && |stageNodeExecutionIds| > 0 ==>
      r.value.stagesExecutionMetadata ==
        Some(StagesExecutionMetadata(pem.yaml, StageFqnsOf(fetchById(set id | id in stageNodeExecutionIds))))
  {
    var yaml := TransformProcessedYaml(pem.processedYaml, mode, pem.planExecutionId, stageDetailsOf, rollbackStageName);
    if yaml.Err? {
      return Err(yaml.error);
    }
    var metadata := pem.(planExecutionId := planExecutionId, processedYaml := yaml.value, uuid := None);
    if |stageNodeExecutionIds| == 0 {
      return Ok(metadata);
    }
    var fqns := StageFqnsOf(fetchById(set id | id in stageNodeExecutionIds));
    r := Ok(metadata.(stagesExecutionMetadata := Some(StagesExecutionMetadata(pem.yaml, fqns))));
  }

  // ---------------------------------------------------------------------------------------
  // The rollback plan
  // ---------------------------------------------------------------------------------------

  datatype Plan<N> = Plan(
    uuid: string,
    planNodes: seq<N>,
    startingNodeId: string,
    setupAbstractions: map<string, string>,
    graphLayoutInfo: string,
    validUntil: int,
    valid: bool,
    errorResponse: string)

  /** Pipeline, stages, stage, fork and strategy nodes are always planned afresh. */
  predicate IsStageOrAncestorOfSomeStage(n: PlanNode)
  {
    n.stepType.category in {Pipeline, Stages, Stage, Fork, Strategy}
  }

  /** The stage FQNs of the plan's STAGE nodes, in plan order: what the history is fetched for. */
  function StageFqns(nodes: seq<PlanNode>): (r: seq<string>)
    ensures |r| <= |nodes|
    ensures forall f :: f in r <==> exists i :: 0 <= i < |nodes| && nodes[i].stepType.category == Stage && nodes[i].stageFqn == f
  {
    if nodes == [] then []
    else
      var prefix := nodes[..|nodes| - 1];
      var last := nodes[|nodes| - 1];
      assert forall i :: 0 <= i < |prefix| ==> prefix[i] == nodes[i];
      StageFqns(prefix) + (if last.stepType.category == Stage then [last.stageFqn] else [])
  }

  /** IdentityPlanNode.mapPlanNodeToIdentityNode for a node execution of the previous run. */
  function IdentityNodeOf(ne: NodeExecution): IdentityNode
  {
    IdentityNode(ne.node.uuid, ne.node.identifier, ne.node.name, ne.node.stageFqn, ne.stepType, ne.uuid, [], false)
  }

  predicate BuildsIdentity(ne: NodeExecution, k: string)
  {
    ne.node.stepType.category != Stage && ne.node.uuid == k
  }

  /** The identity-node map after putting every non-stage execution in order (a later put overwrites). */
  function IdentityNodes(execs: seq<NodeExecution>): map<string, IdentityNode>
  {
    if execs == [] then map[]
    else
      var m := IdentityNodes(execs[..|execs| - 1]);
      var ne := execs[|execs| - 1];
      if ne.node.stepType.category == Stage then m else m[ne.node.uuid := IdentityNodeOf(ne)]
  }

  /**
   * No identity node for a STAGE execution; each identity node is keyed by the uuid of its
   * original plan node and replays an execution of that plan node.
   */
  lemma {:induction false} IdentityNodesSpec(execs: seq<NodeExecution>, k: string)
    ensures k in IdentityNodes(execs) <==> exists i :: 0 <= i < |execs| && BuildsIdentity(execs[i], k)
    ensures k in IdentityNodes(execs) ==>
      exists i :: 0 <= i < |execs| && BuildsIdentity(execs[i], k) && IdentityNodes(execs)[k] == IdentityNodeOf(execs[i])
  {
    if execs != [] {
      var prefix := execs[..|execs| - 1];
      IdentityNodesSpec(prefix, k);
      assert forall i :: 0 <= i < |prefix| ==> prefix[i] == execs[i];
    }
  }

  /** The mode-scoped advisers of `n` are attached to its identity node. */
  predicate AdviserEligible(n: PlanNode, mode: ExecutionMode, rollbackStageFqns: seq<string>)
  {
    |n.advisersByMode| > 0 &&
    // an empty rollback list contains no stage FQN, so it also rules the node out
    (mode == PostExecutionRollback ==> n.stageFqn in rollbackStageFqns) &&
    mode in n.advisersByMode && |n.advisersByMode[mode]| > 0
  }

  function WithAdvisers(v: IdentityNode, advisers: seq<string>): IdentityNode
  {
    v.(adviserObtainments := advisers, useAdviserObtainments := true)
  }

  /** The identity map after the adviser pass over `nodes`. */
  function AddAdvisers(m: map<string, IdentityNode>, nodes: seq<PlanNode>, mode: ExecutionMode, rollbackStageFqns: seq<string>): map<string, IdentityNode>
  {
    if nodes == [] then m
    else
      var prev := AddAdvisers(m, nodes[..|nodes| - 1], mode, rollbackStageFqns);
      var n := nodes[|nodes| - 1];
      if AdviserEligible(n, mode, rollbackStageFqns) && n.uuid in prev
      then prev[n.uuid := WithAdvisers(prev[n.uuid], n.advisersByMode[mode])]
      else prev
  }

  predicate AdvisesKey(n: PlanNode, mode: ExecutionMode, rollbackStageFqns: seq<string>, k: string)
  {
    AdviserEligible(n, mode, rollbackStageFqns) && n.uuid == k
  }

  /**
   * The adviser pass never adds or removes an entry; an entry changes only when an eligible plan
   * node has its uuid, and then it gets exactly that node's list for the mode, with the flag set.
   */
  lemma {:induction false} AddAdvisersSpec(m: map<string, IdentityNode>, nodes: seq<PlanNode>, mode: ExecutionMode, rollbackStageFqns: seq<string>, k: string)
    ensures AddAdvisers(m, nodes, mode, rollbackStageFqns).Keys == m.Keys
    ensures k in m && (forall i :: 0 <= i < |nodes| ==> !AdvisesKey(nodes[i], mode, rollbackStageFqns, k)) ==>
      AddAdvisers(m, nodes, mode, rollbackStageFqns)[k] == m[k]
    ensures k in m && (exists i :: 0 <= i < |nodes| && AdvisesKey(nodes[i], mode, rollbackStageFqns, k)) ==>
      exists i :: 0 <= i < |nodes| && AdvisesKey(nodes[i], mode, rollbackStageFqns, k) &&
        AddAdvisers(m, nodes, mode, rollbackStageFqns)[k] == WithAdvisers(m[k], nodes[i].advisersByMode[mode])
  {
    if nodes != [] {
      var prefix := nodes[..|nodes| - 1];
      AddAdvisersSpec(m, prefix, mode, rollbackStageFqns, k);
      assert forall i :: 0 <= i < |prefix| ==> prefix[i] == nodes[i];
    }
  }

  predicate PreservedNode(n: PlanNode, nodeIdsToPreserve: seq<string>)
  {
    n.uuid in nodeIdsToPreserve || IsStageOrAncestorOfSomeStage(n)
  }

  function AsPreserved(n: PlanNode): Node
  {
    Planned(n.(preserveInRollbackMode := true))
  }

  /** The node map after the preservation pass over `nodes`. */
  function AddPreserved(m: map<string, Node>, nodes: seq<PlanNode>, nodeIdsToPreserve: seq<string>): map<string, Node>
  {
    if nodes == [] then m
    else
      var prev := AddPreserved(m, nodes[..|nodes| - 1], nodeIdsToPreserve);
      var n := nodes[|nodes| - 1];
      if PreservedNode(n, nodeIdsToPreserve) then prev[n.uuid := AsPreserved(n)] else prev
  }

  predicate PreservesKey(n: PlanNode, nodeIdsToPreserve: seq<string>, k: string)
  {
    PreservedNode(n, nodeIdsToPreserve) && n.uuid == k
  }

  /** A preserved node overrides whatever the map held for its uuid; every other entry is left alone. */
  lemma {:induction false} AddPreservedSpec(m: map<string, Node>, nodes: seq<PlanNode>, nodeIdsToPreserve: seq<string>, k: string)
    ensures k in AddPreserved(m, nodes, nodeIdsToPreserve) <==>
      k in m || exists i :: 0 <= i < |nodes| && PreservesKey(nodes[i], nodeIdsToPreserve, k)
    ensures (forall i :: 0 <= i < |nodes| ==> !PreservesKey(nodes[i], nodeIdsToPreserve, k)) && k in m ==>
      AddPreserved(m, nodes, nodeIdsToPreserve)[k] == m[k]
    ensures (exists i :: 0 <= i < |nodes| && PreservesKey(nodes[i], nodeIdsToPreserve, k)) ==>
      exists i :: 0 <= i < |nodes| && PreservesKey(nodes[i], nodeIdsToPreserve, k) &&
        AddPreserved(m, nodes, nodeIdsToPreserve)[k] == AsPreserved(nodes[i])
  {
    if nodes != [] {
      var prefix := nodes[..|nodes| - 1];
      AddPreservedSpec(m, prefix, nodeIdsToPreserve, k);
      assert forall i :: 0 <= i < |prefix| ==> prefix[i] == nodes[i];
    }
  }

  function Lift(m: map<string, IdentityNode>): (r: map<string, Node>)
    ensures r.Keys == m.Keys && forall k :: k in m ==> r[k] == Identity(m[k])
  {
    map k | k in m :: Identity(m[k])
  }

  /** The node map of the rollback plan, built by the three passes in order. */
  function RollbackNodes(created: seq<PlanNode>, execs: seq<NodeExecution>, nodeIdsToPreserve: seq<string>,
                         mode: ExecutionMode, rollbackStageFqns: seq<string>): map<string, Node>
  {
    AddPreserved(Lift(AddAdvisers(IdentityNodes(execs), created, mode, rollbackStageFqns)), created, nodeIdsToPreserve)
  }

  /**
   * What the rollback plan holds under each uuid: a preserved created node (with the flag set)
   * wins over any identity node; otherwise an identity node built from a non-stage execution of
   * the previous run, carrying the advisers of an eligible created node when there is one.
   */
  lemma RollbackNodeAt(created: seq<PlanNode>, execs: seq<NodeExecution>, nodeIdsToPreserve: seq<string>,
                       mode: ExecutionMode, rollbackStageFqns: seq<string>, k: string)
    ensures var r := RollbackNodes(created, execs, nodeIdsToPreserve, mode, rollbackStageFqns);
      (k in r <==> (exists i :: 0 <= i < |execs| && BuildsIdentity(execs[i], k)) ||
                   (exists j :: 0 <= j < |created| && PreservesKey(created[j], nodeIdsToPreserve, k))) &&
      ((exists j :: 0 <= j < |created| && PreservesKey(created[j], nodeIdsToPreserve, k)) ==>
         exists j :: 0 <= j < |created| && PreservesKey(created[j], nodeIdsToPreserve, k) && r[k] == AsPreserved(created[j])) &&
      (k in r && (forall j :: 0 <= j < |created| ==> !PreservesKey(created[j], nodeIdsToPreserve, k)) ==>
         r[k].Identity? &&
         (exists i :: 0 <= i < |execs| && BuildsIdentity(execs[i], k) &&
            r[k].identity.originalNodeExecutionId == execs[i].uuid && r[k].identity.uuid == k) &&
         ((forall j :: 0 <= j < |created| ==> !AdvisesKey(created[j], mode, rollbackStageFqns, k)) ==>
            !r[k].identity.useAdviserObtainments) &&
         ((exists j :: 0 <= j < |created| && AdvisesKey(created[j], mode, rollbackStageFqns, k)) ==>
            exists j :: 0 <= j < |created| && AdvisesKey(created[j], mode, rollbackStageFqns, k) &&
              r[k].identity.useAdviserObtainments && r[k].identity.adviserObtainments == created[j].advisersByMode[mode]))
  {
    var ids := IdentityNodes(execs);
    var advised := AddAdvisers(ids, created, mode, rollbackStageFqns);
    IdentityNodesSpec(execs, k);
    AddAdvisersSpec(ids, created, mode, rollbackStageFqns, k);
    AddPreservedSpec(Lift(advised), created, nodeIdsToPreserve, k);
  }

  /** A created node is preserved in the rollback plan whenever its id is listed or it is a stage boundary. */
  lemma PreservedNodesAreKept(created: seq<PlanNode>, execs: seq<NodeExecution>, nodeIdsToPreserve: seq<string>,
                              mode: ExecutionMode, rollbackStageFqns: seq<string>, j: nat)
    requires j < |created| && PreservedNode(created[j], nodeIdsToPreserve)
    ensures var r := RollbackNodes(created, execs, nodeIdsToPreserve, mode, rollbackStageFqns);
      created[j].uuid in r && r[created[j].uuid].Planned? && r[created[j].uuid].plan.preserveInRollbackMode &&
      r[created[j].uuid].plan.uuid == created[j].uuid
  {
    var k := created[j].uuid;
    assert PreservesKey(created[j], nodeIdsToPreserve, k);
    RollbackNodeAt(created, execs, nodeIdsToPreserve, mode, rollbackStageFqns, k);
  }

  /** The stage FQNs the history fetch is asked for (getNodeExecutionsWithOnlyRequiredFields). */
  function NodeExecutionsWithOnlyRequiredFields(
    previousExecutionId: string, createdPlanNodes: seq<PlanNode>,
    fetchForStageFqns: (string, seq<string>) -> seq<NodeExecution>): seq<NodeExecution>
  {
    fetchForStageFqns(previousExecutionId, StageFqns(createdPlanNodes))
  }

  /** Steps 1-3: fetch the previous run's executions of the plan's stages and build identity nodes. */
  method BuildIdentityNodes(previousExecutionId: string, createdPlanNodes: seq<PlanNode>,
                            fetchForStageFqns: (string, seq<string>) -> seq<NodeExecution>)
    returns (m: map<string, IdentityNode>)
    ensures m == IdentityNodes(NodeExecutionsWithOnlyRequiredFields(previousExecutionId, createdPlanNodes, fetchForStageFqns))
  {
    var execs := NodeExecutionsWithOnlyRequiredFields(previousExecutionId, createdPlanNodes, fetchForStageFqns);
    m := map[];
    var i := 0;
    while i < |execs|
      invariant 0 <= i <= |execs|
      invariant m == IdentityNodes(execs[..i])
    {
      var ne := execs[i];
      assert execs[..i + 1][..i] == execs[..i];
      if ne.node.stepType.category != Stage {
        m := m[ne.node.uuid := IdentityNodeOf(ne)];
      }
      i := i + 1;
    }
    assert execs[..i] == execs;
  }

  /** Step 4: attach the advisers a created node declares for the rollback mode to its identity node. */
  method AddAdvisorsToIdentityNodes(createdPlanNodes: seq<PlanNode>, m0: map<string, IdentityNode>,
                                    mode: ExecutionMode, rollbackStageFqns: seq<string>)
    returns (m: map<string, IdentityNode>)
    ensures m == AddAdvisers(m0, createdPlanNodes, mode, rollbackStageFqns)
  {
    m := m0;
    var i := 0;
    while i < |createdPlanNodes|
      invariant 0 <= i <= |createdPlanNodes|
      invariant m == AddAdvisers(m0, createdPlanNodes[..i], mode, rollbackStageFqns)
    {
      var n := createdPlanNodes[i];
      assert createdPlanNodes[..i + 1][..i] == createdPlanNodes[..i];
      if |n.advisersByMode| > 0 && (mode == PostExecutionRollback ==> n.stageFqn in rollbackStageFqns) {
        if mode in n.advisersByMode && |n.advisersByMode[mode]| > 0 && n.uuid in m {
          var updated := m[n.uuid];
          m := m[n.uuid := WithAdvisers(updated, n.advisersByMode[mode])];
        }
      }
      i := i + 1;
    }
    assert createdPlanNodes[..i] == createdPlanNodes;
  }

  /** Steps 5-6: put every preserved created node, flagged, over whatever the map held. */
  method AddPreservedPlanNodes(createdPlanNodes: seq<PlanNode>, nodeIdsToPreserve: seq<string>, m0: map<string, Node>)
    returns (m: map<string, Node>)
    ensures m == AddPreserved(m0, createdPlanNodes, nodeIdsToPreserve)
  {
    m := m0;
    var i := 0;
    while i < |createdPlanNodes|
      invariant 0 <= i <= |createdPlanNodes|
      invariant m == AddPreserved(m0, createdPlanNodes[..i], nodeIdsToPreserve)
    {
      var n := createdPlanNodes[i];
      assert createdPlanNodes[..i + 1][..i] == createdPlanNodes[..i];
      if n.uuid in nodeIdsToPreserve || IsStageOrAncestorOfSomeStage(n) {
        m := m[n.uuid := AsPreserved(n)];
      }
      i := i + 1;
    }
    assert createdPlanNodes[..i] == createdPlanNodes;
  }

  /** HashMap.values(): one value per key, in an order the map chooses. */
  method ValuesOf(m: map<string, Node>) returns (values: seq<Node>, ghost keys: seq<string>)
    ensures |keys| == |values| == |m.Keys|
    ensures forall i, j :: 0 <= i < j < |keys| ==> keys[i] != keys[j]
    ensures forall k :: k in m <==> k in keys
    ensures forall i :: 0 <= i < |keys| ==> keys[i] in m && values[i] == m[keys[i]]
  {
    values, keys := [], [];
    var rest := m.Keys;
    while rest != {}
      invariant rest <= m.Keys
      invariant |keys| == |values| && |keys| + |rest| == |m.Keys|
      invariant forall i, j :: 0 <= i < j < |keys| ==> keys[i] != keys[j]
      invariant forall k :: k in m <==> k in keys || k in rest
      invariant forall i :: 0 <= i < |keys| ==> keys[i] in m && keys[i] !in rest && values[i] == m[keys[i]]
      decreases |rest|
    {
      var k :| k in rest;
      keys, values := keys + [k], values + [m[k]];
      rest := rest - {k};
    }
  }

  /**
   * The rollback plan: identity nodes for what already ran, mode-scoped advisers attached, stage
   * boundaries and listed nodes preserved; every plan-level field is copied from `createdPlan`.
   */
  method TransformPlanForRollbackMode(
    createdPlan: Plan<PlanNode>, previousExecutionId: string, nodeIdsToPreserve: seq<string>,
    mode: ExecutionMode, rollbackStageFqns: seq<string>,
    fetchForStageFqns: (string, seq<string>) -> seq<NodeExecution>)
    returns (plan: Plan<Node>, ghost keys: seq<string>)
    ensures plan.uuid == createdPlan.uuid && plan.startingNodeId == createdPlan.startingNodeId
    ensures plan.setupAbstractions == createdPlan.setupAbstractions && plan.graphLayoutInfo == createdPlan.graphLayoutInfo
    ensures plan.validUntil == createdPlan.validUntil && plan.valid == createdPlan.valid
    ensures plan.errorResponse == createdPlan.errorResponse
    ensures var nodes := RollbackNodes(createdPlan.planNodes,
                                       NodeExecutionsWithOnlyRequiredFields(previousExecutionId, createdPlan.planNodes, fetchForStageFqns),
                                       nodeIdsToPreserve, mode, rollbackStageFqns);
      |keys| == |plan.planNodes| == |nodes.Keys| &&
      (forall i, j :: 0 <= i < j < |keys| ==> keys[i] != keys[j]) &&
      (forall k :: k in nodes <==> k in keys) &&
      (forall i :: 0 <= i < |keys| ==> keys[i] in nodes && plan.planNodes[i] == nodes[keys[i]])
  {
    var identities := BuildIdentityNodes(previousExecutionId, createdPlan.planNodes, fetchForStageFqns);
    identities := AddAdvisorsToIdentityNodes(createdPlan.planNodes, identities, mode, rollbackStageFqns);
    var nodes := AddPreservedPlanNodes(createdPlan.planNodes, nodeIdsToPreserve, Lift(identities));
    var values;
    values, keys := ValuesOf(nodes);
    plan := Plan(createdPlan.uuid, values, createdPlan.startingNodeId, createdPlan.setupAbstractions,
                 createdPlan.graphLayoutInfo, createdPlan.validUntil, createdPlan.valid, createdPlan.errorResponse);
  }
}
