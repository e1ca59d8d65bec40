/**
 * The pipeline engine's plan and execution records shared by the rollback helper and the
 * identity strategy step: plan nodes, identity (proxy) nodes, ambiance levels and node executions.
 * Only the fields the modelled code reads or writes are kept.
 */
module PlanModel {
  import opened Wrappers

  datatype StepCategory = Pipeline | Stages | Stage | Fork | Strategy | StepGroup | Step | Unknown

  datatype ExecutionMode = UndefinedMode | Normal | PipelineRollback | PostExecutionRollback

  datatype StepType = StepType(typeName: string, category: StepCategory)

  /** A freshly planned node; `advisersByMode` maps an execution mode to its adviser obtainments. */
  datatype PlanNode = PlanNode(
    uuid: string,
    identifier: string,
    name: string,
    stageFqn: string,
    stepType: StepType,
    advisersByMode: map<ExecutionMode, seq<string>>,
    preserveInRollbackMode: bool)

  /** A proxy node that replays the outcome of the node execution `originalNodeExecutionId`. */
  datatype IdentityNode = IdentityNode(
    uuid: string,
    identifier: string,
    name: string,
    stageFqn: string,
    stepType: StepType,
    originalNodeExecutionId: string,
    adviserObtainments: seq<string>,
    useAdviserObtainments: bool)

  datatype Node = Planned(plan: PlanNode) | Identity(identity: IdentityNode)
  {
    function Uuid(): string
    {
      match this
      case Planned(p) => p.uuid
      case Identity(i) => i.uuid
    }
  }

  datatype Level = Level(setupId: string, runtimeId: string, stepType: StepType, strategyMetadata: string)

  datatype Ambiance = Ambiance(planExecutionId: string, planId: string, levels: seq<Level>)

  datatype Status = Running | Succeeded | Failed | Errored | Expired | Aborted | ApprovalRejected | Skipped | IgnoreFailed

  datatype ExecutableResponse = ChildrenResponse(maxConcurrency: int) | OtherResponse

  datatype NodeExecution = NodeExecution(
    uuid: string,
    node: PlanNode,
    stepType: StepType,
    ambiance: Ambiance,
    identifier: string,
    name: string,
    status: Status,
    oldRetry: Option<bool>,
    executableResponses: seq<ExecutableResponse>)

  /** AmbianceUtils.obtainCurrentLevel: the innermost level; the Java code dereferences null when there is none. */
  function CurrentLevel(a: Ambiance): (r: Result<Level>)
    ensures r.Ok? <==> |a.levels| > 0
    ensures r.Ok? ==> r.value == a.levels[|a.levels| - 1]
  {
    if |a.levels| == 0 then Err(NullPointer) else Ok(a.levels[|a.levels| - 1])
  }

  /** AmbianceUtils.getStrategyLevelFromAmbiance is present: some level is a strategy step. */
  predicate HasStrategyLevel(a: Ambiance)
  {
    exists i :: 0 <= i < |a.levels| && a.levels[i].stepType.category == Strategy
  }
}
