/**
 * The identity strategy step: during a rollback run it rebuilds a fan-out (matrix, loop,
 * parallelism) from the children of the original strategy execution. Children that broke or
 * were aborted are re-run from their original plan node; every other child is replayed through
 * a new identity node.
 *
 * The node-execution store is given as functions, the UUID generator as `freshId` (its n-th
 * uuid), and StatusUtils.brokeAndAbortedStatuses() as the set `brokeAndAborted`.
 */
module IdentityStrategy {
  import opened Wrappers
  import opened PlanModel

  datatype Child = Child(childNodeId: string, strategyMetadata: string)

  datatype ChildrenExecutableResponse = ChildrenExecutableResponse(children: seq<Child>, maxConcurrency: int)

  datatype IdentityStepParameters = IdentityStepParameters(originalNodeExecutionId: string)

  /** planService.saveIdentityNodesForMatrix(nodes, planId). */
  datatype SaveRequest = SaveRequest(planId: string, nodes: seq<IdentityNode>)

  /** `Boolean.FALSE.equals(oldRetry)`: a child of the latest attempt, not a retried one. */
  predicate IsLatestAttempt(ne: NodeExecution)
  {
    ne.oldRetry == Some(false)
  }

  function LatestAttempts(execs: seq<NodeExecution>): (r: seq<NodeExecution>)
    ensures |r| <= |execs|
    ensures forall x :: x in r <==> x in execs && IsLatestAttempt(x)
  {
    if execs == [] then []
    else
      var prefix := execs[..|execs| - 1];
      var last := execs[|execs| - 1];
      assert execs == prefix + [last];
      LatestAttempts(prefix) + (if IsLatestAttempt(last) then [last] else [])
  }

  predicate HasCurrentLevel(ne: NodeExecution)
  {
    |ne.ambiance.levels| > 0
  }

  /** The strategy metadata of a child's current ambiance level. */
  function StrategyMetadataOf(ne: NodeExecution): string
    requires HasCurrentLevel(ne)
  {
    ne.ambiance.levels[|ne.ambiance.levels| - 1].strategyMetadata
  }

  /** The number of children before the end of `execs` that get a new identity node. */
  function NewCount(execs: seq<NodeExecution>, brokeAndAborted: set<Status>): (n: nat)
    ensures n <= |execs|
  {
    if execs == [] then 0
    else NewCount(execs[..|execs| - 1], brokeAndAborted) + (if execs[|execs| - 1].status in brokeAndAborted then 0 else 1)
  }

  /** IdentityPlanNode.mapPlanNodeToIdentityNode(uuid, node, identifier, name, node's step type, origin). */
  function NewIdentityNode(uuid: string, ne: NodeExecution): IdentityNode
  {
    IdentityNode(uuid, ne.identifier, ne.name, ne.node.stageFqn, ne.node.stepType, ne.uuid, [], false)
  }

  /** The child reference emitted for `execs[i]`. */
  function ChildAt(execs: seq<NodeExecution>, i: nat, brokeAndAborted: set<Status>, freshId: nat -> string): Child
    requires i < |execs| && HasCurrentLevel(execs[i])
  {
    if execs[i].status in brokeAndAborted then Child(execs[i].node.uuid, StrategyMetadataOf(execs[i]))
    else Child(freshId(NewCount(execs[..i], brokeAndAborted)), StrategyMetadataOf(execs[i]))
  }

  /** The identity nodes to be created, in child order; the n-th takes the n-th fresh uuid. */
  function NewNodes(execs: seq<NodeExecution>, brokeAndAborted: set<Status>, freshId: nat -> string): (r: seq<IdentityNode>)
    ensures |r| == NewCount(execs, brokeAndAborted)
  {
    if execs == [] then []
    else
      var prefix := execs[..|execs| - 1];
      var last := execs[|execs| - 1];
      NewNodes(prefix, brokeAndAborted, freshId) +
        (if last.status in brokeAndAborted then [] else [NewIdentityNode(freshId(NewCount(prefix, brokeAndAborted)), last)])
  }

  lemma ChildrenSnoc(execs: seq<NodeExecution>, i: nat, children: seq<Child>, child: Child,
                     brokeAndAborted: set<Status>, freshId: nat -> string)
    requires i < |execs| && |children| == i
    requires forall j :: 0 <= j <= i ==> HasCurrentLevel(execs[j])
    requires forall j :: 0 <= j < i ==> children[j] == ChildAt(execs, j, brokeAndAborted, freshId)
    requires child == ChildAt(execs, i, brokeAndAborted, freshId)
    ensures forall j :: 0 <= j <= i ==> (children + [child])[j] == ChildAt(execs, j, brokeAndAborted, freshId)
  {
  }

  /** One more child adds one fresh node exactly when it is neither broken nor aborted. */
  lemma NewStep(execs: seq<NodeExecution>, i: nat, brokeAndAborted: set<Status>, freshId: nat -> string)
    requires i < |execs|
    ensures var isNew := execs[i].status !in brokeAndAborted;
      && NewCount(execs[..i + 1], brokeAndAborted) == NewCount(execs[..i], brokeAndAborted) + (if isNew then 1 else 0)
      && NewNodes(execs[..i + 1], brokeAndAborted, freshId) ==
           NewNodes(execs[..i], brokeAndAborted, freshId) +
           (if isNew then [NewIdentityNode(freshId(NewCount(execs[..i], brokeAndAborted)), execs[i])] else [])
  {
    assert execs[..i + 1][..i] == execs[..i];
  }

  lemma {:induction false} NewNodesPrefix(execs: seq<NodeExecution>, i: nat, brokeAndAborted: set<Status>, freshId: nat -> string)
    requires i <= |execs|
    ensures NewCount(execs[..i], brokeAndAborted) <= NewCount(execs, brokeAndAborted)
    ensures NewNodes(execs, brokeAndAborted, freshId)[..NewCount(execs[..i], brokeAndAborted)] == NewNodes(execs[..i], brokeAndAborted, freshId)
  {
    if i < |execs| {
      var prefix := execs[..|execs| - 1];
      assert execs[..i] == prefix[..i];
      NewNodesPrefix(prefix, i, brokeAndAborted, freshId);
    } else {
      assert execs[..i] == execs;
    }
  }

  /**
   * A child that did not break points to the new identity node made for it: the node has the
   * fresh uuid of the reference, the execution's identifier, name and step type, and replays
   * that execution.
   */
  lemma ChildPointsToItsNode(execs: seq<NodeExecution>, i: nat, brokeAndAborted: set<Status>, freshId: nat -> string)
    requires i < |execs| && HasCurrentLevel(execs[i]) && execs[i].status !in brokeAndAborted
    ensures var n := NewCount(execs[..i], brokeAndAborted);
      var nodes := NewNodes(execs, brokeAndAborted, freshId);
      n < |nodes| && nodes[n].uuid == ChildAt(execs, i, brokeAndAborted, freshId).childNodeId &&
      nodes[n].identifier == execs[i].identifier && nodes[n].name == execs[i].name &&
      nodes[n].stepType == execs[i].node.stepType && nodes[n].originalNodeExecutionId == execs[i].uuid
  {
    var upTo := execs[..i + 1];
    assert upTo[..i] == execs[..i];
    NewNodesPrefix(execs, i + 1, brokeAndAborted, freshId);
  }

  /** Every created identity node replays a child that did not break, and only those get one. */
  lemma {:induction false} NewNodesReplayUnbrokenChildren(execs: seq<NodeExecution>, brokeAndAborted: set<Status>, freshId: nat -> string, j: nat)
    requires j < |NewNodes(execs, brokeAndAborted, freshId)|
    ensures exists i :: 0 <= i < |execs| && execs[i].status !in brokeAndAborted &&
                        NewNodes(execs, brokeAndAborted, freshId)[j].originalNodeExecutionId == execs[i].uuid
  {
    var prefix := execs[..|execs| - 1];
    if j < |NewNodes(prefix, brokeAndAborted, freshId)| {
      NewNodesReplayUnbrokenChildren(prefix, brokeAndAborted, freshId, j);
      var i :| 0 <= i < |prefix| && prefix[i].status !in brokeAndAborted &&
        NewNodes(prefix, brokeAndAborted, freshId)[j].originalNodeExecutionId == prefix[i].uuid;
      assert execs[i] == prefix[i];
    } else {
      assert execs[|execs| - 1].status !in brokeAndAborted;
    }
  }

  /** With a generator that never repeats, the created identity nodes have pairwise distinct uuids. */
  lemma {:induction false} NewNodesDistinct(execs: seq<NodeExecution>, brokeAndAborted: set<Status>, freshId: nat -> string)
    requires forall a: nat, b: nat :: a != b ==> freshId(a) != freshId(b)
    ensures var nodes := NewNodes(execs, brokeAndAborted, freshId);
      forall a, b :: 0 <= a < b < |nodes| ==> nodes[a].uuid != nodes[b].uuid
    ensures var nodes := NewNodes(execs, brokeAndAborted, freshId);
      forall a :: 0 <= a < |nodes| ==> nodes[a].uuid == freshId(a)
  {
    if execs != [] {
      NewNodesDistinct(execs[..|execs| - 1], brokeAndAborted, freshId);
    }
  }

  /**
   * Children that succeeded, were aborted and are still running give three children: the aborted
   * one points at its original plan node, the other two at the first and second new identity nodes.
   */
  lemma ExpansionExample(a: NodeExecution, b: NodeExecution, c: NodeExecution, brokeAndAborted: set<Status>, freshId: nat -> string)
    requires a.status == Succeeded && b.status == Aborted && c.status == Running
    requires Aborted in brokeAndAborted && Succeeded !in brokeAndAborted && Running !in brokeAndAborted
    requires HasCurrentLevel(a) && HasCurrentLevel(b) && HasCurrentLevel(c)
    ensures var nodes := NewNodes([a, b, c], brokeAndAborted, freshId);
      |nodes| == 2 && nodes[0].originalNodeExecutionId == a.uuid && nodes[1].originalNodeExecutionId == c.uuid
    ensures ChildAt([a, b, c], 0, brokeAndAborted, freshId).childNodeId == freshId(0)
    ensures ChildAt([a, b, c], 1, brokeAndAborted, freshId).childNodeId == b.node.uuid
    ensures ChildAt([a, b, c], 2, brokeAndAborted, freshId).childNodeId == freshId(1)
  {
    var execs := [a, b, c];
    assert execs[..0] == [] && execs[..1] == [a] && execs[..2] == [a, b];
    assert [a][..0] == [] && [a, b][..1] == [a];
    assert NewCount([a], brokeAndAborted) == 1;
    assert NewCount([a, b], brokeAndAborted) == 1;
    assert [a, b, c][..2] == [a, b];
    assert NewNodes([a], brokeAndAborted, freshId) == [NewIdentityNode(freshId(0), a)];
    assert NewNodes([a, b], brokeAndAborted, freshId) == [NewIdentityNode(freshId(0), a)];
    assert NewNodes(execs, brokeAndAborted, freshId) == [NewIdentityNode(freshId(0), a), NewIdentityNode(freshId(1), c)];
  }

  /**
   * getChildrenFromNodeExecutions: one child per retained execution, in order, and the batch of new
   * identity nodes saved under `planId`. A child without an ambiance level fails the whole batch.
   */
  method GetChildrenFromNodeExecutions(execs: seq<NodeExecution>, planId: string,
                                       brokeAndAborted: set<Status>, freshId: nat -> string)
    returns (r: Result<seq<Child>>, saved: Option<SaveRequest>)
    ensures r.Ok? <==> forall i :: 0 <= i < |execs| ==> HasCurrentLevel(execs[i])
    ensures r.Ok? ==> |r.value| == |execs|
    ensures r.Ok? ==> forall i :: 0 <= i < |execs| ==> r.value[i] == ChildAt(execs, i, brokeAndAborted, freshId)
    ensures r.Ok? ==> saved == Some(SaveRequest(planId, NewNodes(execs, brokeAndAborted, freshId)))
    ensures r.Err? ==> saved == None
  {
    var children: seq<Child> := [];
    var nodes: seq<IdentityNode> := [];
    var generated: nat := 0;
    var i := 0;
    while i < |execs|
      invariant 0 <= i <= |execs|
      invariant forall j :: 0 <= j < i ==> HasCurrentLevel(execs[j])
      invariant |children| == i
      invariant nodes == NewNodes(execs[..i], brokeAndAborted, freshId) && generated == |nodes|
      invariant forall j :: 0 <= j < i ==> children[j] == ChildAt(execs, j, brokeAndAborted, freshId)
    {
      var ne := execs[i];
      NewStep(execs, i, brokeAndAborted, freshId);
      var level := CurrentLevel(ne.ambiance);
      if level.Err? {
        return Err(level.error), None;
      }
      assert generated == NewCount(execs[..i], brokeAndAborted);
      var child: Child;
      if ne.status in brokeAndAborted {
        child := Child(ne.node.uuid, level.value.strategyMetadata);
      } else {
        var node := NewIdentityNode(freshId(generated), ne);
        generated := generated + 1;
        child := Child(node.uuid, level.value.strategyMetadata);
        nodes := nodes + [node];
      }
      assert child == ChildAt(execs, i, brokeAndAborted, freshId);
      ChildrenSnoc(execs, i, children, child, brokeAndAborted, freshId);
      children := children + [child];
      i := i + 1;
    }
    assert execs[..i] == execs;
    r, saved := Ok(children), Some(SaveRequest(planId, nodes));
  }

  /** `executableResponses.get(0).getChildren().getMaxConcurrency()`; an unset oneof reads as 0. */
  function MaxConcurrencyOf(original: NodeExecution): (r: Result<int>)
    ensures r.Ok? <==> |original.executableResponses| > 0
    ensures r.Ok? && original.executableResponses[0].ChildrenResponse? ==> r.value == original.executableResponses[0].maxConcurrency
    ensures r.Ok? && original.executableResponses[0].OtherResponse? ==> r.value == 0
  {
    if |original.executableResponses| == 0 then Err(IndexOutOfBounds)
    else match original.executableResponses[0]
      case ChildrenResponse(mc) => Ok(mc)
      case OtherResponse => Ok(0)
  }

  /**
   * obtainChildren: the children of the ORIGINAL strategy execution are fetched under that
   * execution's own plan-execution id; only latest attempts are kept. `getNodeExecution` and
   * `fetchChildren(planExecutionId, parentId)` stand for the store.
   */
  method ObtainChildren(ambiance: Ambiance, params: IdentityStepParameters,
                        getNodeExecution: string -> Option<NodeExecution>,
                        fetchChildren: (string, string) -> seq<NodeExecution>,
                        brokeAndAborted: set<Status>, freshId: nat -> string)
    returns (r: Result<ChildrenExecutableResponse>, saved: Option<SaveRequest>)
    ensures getNodeExecution(params.originalNodeExecutionId).None? ==> r.Err? && saved == None
    ensures getNodeExecution(params.originalNodeExecutionId).Some? ==>
      var original := getNodeExecution(params.originalNodeExecutionId).value;
      var kept := LatestAttempts(fetchChildren(original.ambiance.planExecutionId, params.originalNodeExecutionId));
      ((forall i :: 0 <= i < |kept| ==> HasCurrentLevel(kept[i])) ==>
         saved == Some(SaveRequest(ambiance.planId, NewNodes(kept, brokeAndAborted, freshId)))) &&
      (r.Ok? <==> (forall i :: 0 <= i < |kept| ==> HasCurrentLevel(kept[i])) && MaxConcurrencyOf(original).Ok?) &&
      (r.Ok? ==>
         r.value.maxConcurrency == MaxConcurrencyOf(original).value &&
         |r.value.children| == |kept| &&
         forall i :: 0 <= i < |kept| ==> r.value.children[i] == ChildAt(kept, i, brokeAndAborted, freshId))
  {
    var found := getNodeExecution(params.originalNodeExecutionId);
    if found.None? {
      return Err(NullPointer), None;
    }
    var original := found.value;
    var all := fetchChildren(original.ambiance.planExecutionId, params.originalNodeExecutionId);
    var kept: seq<NodeExecution> := [];
    var i := 0;
    while i < |all|
      invariant 0 <= i <= |all|
      invariant kept == LatestAttempts(all[..i])
    {
      assert all[..i + 1][..i] == all[..i];
      if all[i].oldRetry == Some(false) {
        kept := kept + [all[i]];
      }
      i := i + 1;
    }
    assert all[..i] == all;
    var children;
    children, saved := GetChildrenFromNodeExecutions(kept, ambiance.planId, brokeAndAborted, freshId);
    if children.Err? {
      return Err(children.error), saved;
    }
    var maxConcurrency := MaxConcurrencyOf(original);
    if maxConcurrency.Err? {
      return Err(maxConcurrency.error), saved;
    }
    r := Ok(ChildrenExecutableResponse(children.value, maxConcurrency.value));
  }
}
