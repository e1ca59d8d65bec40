# Rollback re-execution and neighbouring services of the Harness platform, in Dafny

This project models, in Dafny, the core of the Harness pipeline engine's rollback re-execution,
together with a set of self-contained validators, mappers and small state machines from the same
repository, and proves properties of each.

- **RollbackMode** (`RollbackModeExecutionHelper`) builds the plan of a rollback run. Nodes that already
  ran become identity nodes that replay their original execution, keyed by the original plan-node id;
  mode-scoped advisers are attached to them; pipeline, stages, stage, fork and strategy nodes and the
  nodes to preserve are kept as freshly planned nodes. It also rewrites the execution and
  plan-execution metadata, reverses the stage list of the processed YAML (only the executed stages, a
  parallel block as one unit, for pipeline rollback; all of them for post-execution rollback) and picks
  the rollback target of a stage under a strategy. **PlanModel** holds the shared plan and execution records.
- **IdentityStrategy** (`IdentityStrategyStep`) rebuilds a fan-out from the original run's children: broken
  or aborted children point at their original node, every other child gets a new identity node, and
  the strategy metadata and `maxConcurrency` are carried over.
- **RuntimeInputForm** (`RuntimeInputFormHelper`) filters an FQN-to-value map into a runtime-input
  template, with default siblings, leaf inputs under runtime parents, FQN normalisation and the
  execution-input forms.
- **InstanceSync** (`AbstractInstanceSyncV2TaskExecutor`) is the batching-and-flush loop of the instance
  sync perpetual task.
- **GithubPackages** (`GithubPackagesRegistryServiceImpl`) covers package-type validation, HTTP status
  classification, the page loop, the version-to-build mapping, tag and pattern filtering and artifact paths.
- **Onboarding** (`OnboardingServiceImpl`) parses `org|project|service` identifiers into nested maps and
  checks and filters the entities of IDP onboarding.
- **CompositeSLO** (`CompositeSLORecordServiceImpl`) aggregates the SLI records of the SLOs of a composite
  SLO per minute, with weights as exact reals and running good and bad sums.
- **K8sBlueGreen** (`K8sBGRequestHandler`) is the blue/green preparation of a Kubernetes deployment as a
  class whose methods update the handler's fields.
- **ContainerStepInit** (`ContainerStepInitHelper`) covers container naming, step-type dispatch, connector
  references, environment-variable precedence and container flags.
- **EnvGroupExpansion** (`EnvironmentGroupExpandedHandler`) is the ordered validation chain of the
  environment-group expansion.
- **EnvAccessControl** (`EnvironmentNGAccessControlCheckHelper`) builds the two permission checks of an
  environment and allows access when either is permitted.
- **ConnectorPush** (`ConnectorProcessor`) and **BitbucketConnector** (`BitbucketConnectorProcessor`) push
  catalog files to a git provider: connector lookup, branch choice, repository name, file paths,
  change lists, and the Bitbucket credential checks.
- **Wrappers**, **Text** and **LinkedMap** are shared helpers: Option and Result, the `java.lang.String`
  operations the code uses over `seq<char>`, and `LinkedHashMap` as an entry sequence in insertion order.

Collaborators (stores, REST and gRPC clients, UUID generators, clocks, pattern matchers, decryption)
are parameters of the members that use them.

## Model

| member | source | states |
|---|---|---|
| PlanModel.CurrentLevel | pipeline-service/service/src/main/java/io/harness/pms/plan/execution/RollbackModeExecutionHelper.java:103-106 | the current level is the innermost level of the ambiance, and there is none for an ambiance without levels |
| RollbackMode.CreatePostExecutionRollbackInfo | pipeline-service/service/src/main/java/io/harness/pms/plan/execution/RollbackModeExecutionHelper.java:94-109 | under a strategy level the rollback stage id is the setup id of the level above the current one, with the current level's strategy metadata; otherwise it is the current setup id with no metadata; too few levels is an error |
| RollbackMode.RollbackInfos | pipeline-service/service/src/main/java/io/harness/pms/plan/execution/RollbackModeExecutionHelper.java:80-87 | exactly one rollback info per given node execution, in order, and the list fails iff some execution's ambiance does |
| RollbackMode.TransformExecutionMetadata | pipeline-service/service/src/main/java/io/harness/pms/plan/execution/RollbackModeExecutionHelper.java:71-92 | the new metadata has the new uuid, trigger info, run sequence, principal and mode; the parent stage info is replaced only when given; rollback infos for the fetched stage executions are appended only when stage execution ids are given |
| RollbackMode.ReversedTwice | pipeline-service/service/src/main/java/io/harness/pms/plan/execution/RollbackModeExecutionHelper.java:220-236 | reversing the stage list twice gives back the original list |
| RollbackMode.ReversedAt | pipeline-service/service/src/main/java/io/harness/pms/plan/execution/RollbackModeExecutionHelper.java:230-232 | the k-th entry of the reversed list is the k-th entry from the end, and the length is unchanged |
| RollbackMode.KeepExecutedMembers | pipeline-service/service/src/main/java/io/harness/pms/plan/execution/RollbackModeExecutionHelper.java:188-198 | an entry survives the filter iff it is in the list and the stage id that judges it (a parallel block's first child) was executed, so a block is kept or dropped as one unit |
| RollbackMode.KeepExecutedOfReversed | pipeline-service/service/src/main/java/io/harness/pms/plan/execution/RollbackModeExecutionHelper.java:186-198 | filtering the reversed list equals reversing the filtered list: the output is the executed entries, last first |
| RollbackMode.PipelineRollbackExample | pipeline-service/service/src/main/java/io/harness/pms/plan/execution/RollbackModeExecutionHelper.java:151-201 | pipeline rollback of s1, s2, s3 with s3 not run gives s2, s1; a parallel block judged by its first child moves as one entry with its inner order untouched |
| RollbackMode.ExecutedStageIds | pipeline-service/service/src/main/java/io/harness/pms/plan/execution/RollbackModeExecutionHelper.java:172-176 | an id is executed iff some stage detail of the original run has it and is not the pipeline-rollback stage |
| RollbackMode.ReverseExecutedStages | pipeline-service/service/src/main/java/io/harness/pms/plan/execution/RollbackModeExecutionHelper.java:184-199 | the descending loop yields exactly the executed entries of the reversed list |
| RollbackMode.ReverseAllStages | pipeline-service/service/src/main/java/io/harness/pms/plan/execution/RollbackModeExecutionHelper.java:226-234 | the descending loop yields the exact reverse of the stage list: same length, no filtering |
| RollbackMode.TransformProcessedYaml | pipeline-service/service/src/main/java/io/harness/pms/plan/execution/RollbackModeExecutionHelper.java:138-236 | a mode other than the two rollback modes is rejected with the mode and execution id; unreadable YAML is an unexpected error; post-execution rollback reverses every entry; pipeline rollback reverses and keeps only executed stages |
| RollbackMode.StageFqnsOf | pipeline-service/service/src/main/java/io/harness/pms/plan/execution/RollbackModeExecutionHelper.java:125-129 | one stage FQN per fetched stage execution, in order |
| RollbackMode.TransformPlanExecutionMetadata | pipeline-service/service/src/main/java/io/harness/pms/plan/execution/RollbackModeExecutionHelper.java:111-136 | a mode other than the two rollback modes fails with the unsupported-mode message naming the original execution id, and unreadable YAML with the unexpected-error message; otherwise the new metadata has the new plan-execution id, no uuid, the original YAML, and the processed stages reversed (post-execution rollback) or reversed and filtered to the executed stages (pipeline rollback); the stages metadata (full YAML plus stage FQNs) is attached only when stage execution ids are given |
| RollbackMode.StageFqns | pipeline-service/service/src/main/java/io/harness/pms/plan/execution/RollbackModeExecutionHelper.java:293-301 | history is asked for exactly the stage FQNs of the plan's STAGE nodes |
| RollbackMode.IdentityNodesSpec | pipeline-service/service/src/main/java/io/harness/pms/plan/execution/RollbackModeExecutionHelper.java:274-291 | no identity node for a STAGE execution; a key is present iff some non-stage execution has that plan-node uuid, and its node replays such an execution |
| RollbackMode.AddAdvisersSpec | pipeline-service/service/src/main/java/io/harness/pms/plan/execution/RollbackModeExecutionHelper.java:303-325 | the adviser pass adds and removes no key; an entry changes only for an eligible plan node with a non-empty mode list (and under post-execution rollback a rollback stage), and then gets exactly that list with the flag set |
| RollbackMode.AddPreservedSpec | pipeline-service/service/src/main/java/io/harness/pms/plan/execution/RollbackModeExecutionHelper.java:327-347 | a listed node or a pipeline, stages, stage, fork or strategy node overrides whatever the map held for its uuid, flagged as preserved; every other entry is left alone |
| RollbackMode.Lift | pipeline-service/service/src/main/java/io/harness/pms/plan/execution/RollbackModeExecutionHelper.java:252-254 | the identity map becomes a node map with the same keys, each value wrapped as an identity node |
| RollbackMode.RollbackNodeAt | pipeline-service/service/src/main/java/io/harness/pms/plan/execution/RollbackModeExecutionHelper.java:250-347 | under each uuid the rollback plan holds a preserved created node when there is one, otherwise an identity node replaying a non-stage execution, with the advisers of an eligible node exactly when there is one |
| RollbackMode.PreservedNodesAreKept | pipeline-service/service/src/main/java/io/harness/pms/plan/execution/RollbackModeExecutionHelper.java:256-260 | every listed or boundary node of the created plan ends up in the result as that planned node with preserveInRollbackMode set |
| RollbackMode.BuildIdentityNodes | pipeline-service/service/src/main/java/io/harness/pms/plan/execution/RollbackModeExecutionHelper.java:274-301 | the loop over the fetched executions builds exactly the identity-node map of the specification |
| RollbackMode.AddAdvisorsToIdentityNodes | pipeline-service/service/src/main/java/io/harness/pms/plan/execution/RollbackModeExecutionHelper.java:303-325 | the loop over the created nodes performs exactly the specified adviser pass |
| RollbackMode.AddPreservedPlanNodes | pipeline-service/service/src/main/java/io/harness/pms/plan/execution/RollbackModeExecutionHelper.java:327-335 | the loop over the created nodes performs exactly the specified preservation pass |
| RollbackMode.ValuesOf | pipeline-service/service/src/main/java/io/harness/pms/plan/execution/RollbackModeExecutionHelper.java:262-263 | the node collection holds one value per key of the map, no key twice |
| RollbackMode.TransformPlanForRollbackMode | pipeline-service/service/src/main/java/io/harness/pms/plan/execution/RollbackModeExecutionHelper.java:250-272 | uuid, starting node, setup abstractions, layout, validity and error response are copied from the created plan, and the nodes are exactly the values of the final map |
| IdentityStrategy.LatestAttempts | pipeline-service/modules/orchestration/src/main/java/io/harness/engine/pms/execution/strategy/identity/IdentityStrategyStep.java:60-66 | only children whose oldRetry is exactly false are kept; none is added |
| IdentityStrategy.NewNodesPrefix | pipeline-service/modules/orchestration/src/main/java/io/harness/engine/pms/execution/strategy/identity/IdentityStrategyStep.java:89-116 | the identity nodes made for a prefix of the children are a prefix of those made for all of them |
| IdentityStrategy.ChildPointsToItsNode | pipeline-service/modules/orchestration/src/main/java/io/harness/engine/pms/execution/strategy/identity/IdentityStrategyStep.java:101-110 | a child that did not break or abort points to its new identity node, which has the fresh uuid, the execution's identifier, name and step type, and replays that execution |
| IdentityStrategy.NewNodesReplayUnbrokenChildren | pipeline-service/modules/orchestration/src/main/java/io/harness/engine/pms/execution/strategy/identity/IdentityStrategyStep.java:94-110 | every created identity node replays a child that neither broke nor aborted |
| IdentityStrategy.NewNodesDistinct | pipeline-service/modules/orchestration/src/main/java/io/harness/engine/pms/execution/strategy/identity/IdentityStrategyStep.java:102-103 | the n-th created node takes the n-th fresh uuid, so with a generator that never repeats their uuids are distinct |
| IdentityStrategy.GetChildrenFromNodeExecutions | pipeline-service/modules/orchestration/src/main/java/io/harness/engine/pms/execution/strategy/identity/IdentityStrategyStep.java:89-116 | one child per retained execution, in order: a broke or aborted child refers to its original plan node, any other to a new identity node; each carries its level's strategy metadata; the saved batch is exactly the new nodes under the plan id |
| IdentityStrategy.ExpansionExample | pipeline-service/modules/orchestration/src/main/java/io/harness/engine/pms/execution/strategy/identity/IdentityStrategyStep.java:89-116 | children that succeeded, were aborted and are running give three children: the aborted one points at its original plan node, the other two at two new identity nodes replaying them |
| IdentityStrategy.MaxConcurrencyOf | pipeline-service/modules/orchestration/src/main/java/io/harness/engine/pms/execution/strategy/identity/IdentityStrategyStep.java:71-74 | maxConcurrency is that of the first stored executable response, 0 when it holds no children response, and an error when there is none |
| IdentityStrategy.ObtainChildren | pipeline-service/modules/orchestration/src/main/java/io/harness/engine/pms/execution/strategy/identity/IdentityStrategyStep.java:49-76 | children are fetched under the original execution's plan-execution id, only latest attempts are kept, one child per kept execution in order, the new nodes are saved under the current plan id, and maxConcurrency is carried over |
| RuntimeInputForm.FilterMembers | 953-yaml-commons/src/main/java/io/harness/pms/merger/helpers/RuntimeInputFormHelper.java:76-86 | an entry is in a filtered map iff it is an entry of the full map that the rule keeps; the runtime-input rule keeps execution inputs, input-set values when keepInput is set, and otherwise non-input values whose key is neither an identifier, a variable name nor a type |
| RuntimeInputForm.FilterIsSubMap | 953-yaml-commons/src/main/java/io/harness/pms/merger/helpers/RuntimeInputFormHelper.java:74-86 | the filtered map has distinct keys, a subset of the full map's keys, each with its value unchanged |
| RuntimeInputForm.PutKept | 953-yaml-commons/src/main/java/io/harness/pms/merger/helpers/RuntimeInputFormHelper.java:76-86 | the forEach putting kept entries into a new LinkedHashMap yields exactly the kept entries, in order |
| RuntimeInputForm.DefaultsSpec | 953-yaml-commons/src/main/java/io/harness/pms/merger/helpers/RuntimeInputFormHelper.java:102-111 | the default map holds exactly the default siblings of template keys that the full map has, with the full map's values |
| RuntimeInputForm.CreateRuntimeInputFormYamlConfig | 953-yaml-commons/src/main/java/io/harness/pms/merger/helpers/RuntimeInputFormHelper.java:72-116 | the loop builds the kept entries followed, when defaults are wanted and something was kept, by the default siblings |
| RuntimeInputForm.TemplateSpec | 953-yaml-commons/src/main/java/io/harness/pms/merger/helpers/RuntimeInputFormHelper.java:72-116 | the template is a sub-map of the full map, and a key is in it iff its entry is kept, or defaults are wanted, something was kept and it is the default sibling of a kept key present in the full map |
| RuntimeInputForm.NoDefaultsWithoutKeepDefaultValues | 953-yaml-commons/src/main/java/io/harness/pms/merger/helpers/RuntimeInputFormHelper.java:62-65 | without keepDefaultValues (the String overload) the template is the kept entries and nothing else |
| RuntimeInputForm.InputValuesMembers | 953-yaml-commons/src/main/java/io/harness/pms/merger/helpers/RuntimeInputFormHelper.java:127-134 | the result pairs each input-set key in the key set with its unquoted value |
| RuntimeInputForm.InputValuesKeys | 953-yaml-commons/src/main/java/io/harness/pms/merger/helpers/RuntimeInputFormHelper.java:127-134 | the result's keys are input-set keys that lie in the template |
| RuntimeInputForm.GetRuntimeInputFormYamlConfig | 953-yaml-commons/src/main/java/io/harness/pms/merger/helpers/RuntimeInputFormHelper.java:117-137 | the two loops yield the unquoted input-set values of exactly the keys the template keeps as execution input or non-type input-set fields |
| RuntimeInputForm.InputFormSpec | 953-yaml-commons/src/main/java/io/harness/pms/merger/helpers/RuntimeInputFormHelper.java:117-137 | an entry is in the result iff its key has that unquoted value in the input set and the template's value for the key is an execution input, or an input-set value of a non-type key |
| RuntimeInputForm.FirstKeyIndex | 953-yaml-commons/src/main/java/io/harness/pms/merger/helpers/RuntimeInputFormHelper.java:190-197 | the index found is a KEY node with the key and no earlier node is one, or -1 when there is none |
| RuntimeInputForm.NormalizeAgainstKey | 953-yaml-commons/src/main/java/io/harness/pms/merger/helpers/RuntimeInputFormHelper.java:189-200 | the suffix starting at the first KEY node equal to the key, or the unchanged list when there is none |
| RuntimeInputForm.HasRuntimeParent | 953-yaml-commons/src/main/java/io/harness/pms/merger/helpers/RuntimeInputFormHelper.java:168-183 | the search over the proper prefixes, longest first, answers true iff one of them, normalised to pipeline, is a runtime text field of the pipeline |
| RuntimeInputForm.LeafNodesWithParentsAsRuntimeInput | 953-yaml-commons/src/main/java/io/harness/pms/merger/helpers/RuntimeInputFormHelper.java:162-187 | a key is in the result iff it is an input key of length at least 2 one of whose proper prefixes, normalised to pipeline, maps in the pipeline to a text field that is a runtime input |
| RuntimeInputForm.CreateRuntimeInputFormForInputs | 953-yaml-commons/src/main/java/io/harness/pms/merger/helpers/RuntimeInputFormHelper.java:139-160 | the loop keeps exactly the input entries that the runtime-input rule keeps or, without keepInput, that lie under a runtime parent |
| RuntimeInputForm.InputsFormSpec | 953-yaml-commons/src/main/java/io/harness/pms/merger/helpers/RuntimeInputFormHelper.java:139-160 | the form is a sub-map of the inputs, and a key is in it iff its value is kept by the runtime-input rule or, without keepInput, it lies under a runtime parent |
| RuntimeInputForm.ExecutionInputs | 953-yaml-commons/src/main/java/io/harness/pms/merger/helpers/RuntimeInputFormHelper.java:206-216 | the template is the execution and updated execution inputs; each execution input is replaced in the full map by its input expression, every other value is kept |
| RuntimeInputForm.CreateExecutionInputFormAndUpdateYamlField | 953-yaml-commons/src/main/java/io/harness/pms/merger/helpers/RuntimeInputFormHelper.java:202-220 | every key is considered: the template and the updated full map are those of the execution-input rule |
| RuntimeInputForm.CreateExecutionInputFormAndUpdateYamlFieldForStage | 953-yaml-commons/src/main/java/io/harness/pms/merger/helpers/RuntimeInputFormHelper.java:222-250 | keys under stage.spec.execution are skipped, and nothing is returned or merged back exactly when no execution input was found |
| RuntimeInputForm.ExecutionTemplateSpec | 953-yaml-commons/src/main/java/io/harness/pms/merger/helpers/RuntimeInputFormHelper.java:222-250 | the execution-input template is a sub-map holding no skipped key, and it is empty iff no considered entry is an execution or updated execution input |
| InstanceSync.RetrieveServiceInstances | 260-delegate/src/main/java/io/harness/perpetualtask/AbstractInstanceSyncV2TaskExecutor.java:105-133 | a successful retrieval gives the instances and a successful SUCCESS status with the deployment type of the first instance; a retrieval that throws (or returns no instance) gives no instance and a FAILURE status; either way the task id is set |
| InstanceSync.StepFlushesIffOverLimit | 260-delegate/src/main/java/io/harness/perpetualtask/AbstractInstanceSyncV2TaskExecutor.java:135-156 | a release adds its data, its instance count and one release; a flush happens iff a counter strictly exceeds its limit, and then publishes the pending data as a success and resets both counters to 0 |
| InstanceSync.ResponseBatcher.constructor | 260-delegate/src/main/java/io/harness/perpetualtask/AbstractInstanceSyncV2TaskExecutor.java:57-61 | a batcher for the task and the account, with both counters at 0, nothing pending and nothing published |
| InstanceSync.ResponseBatcher.CreateBatchAndPublish | 260-delegate/src/main/java/io/harness/perpetualtask/AbstractInstanceSyncV2TaskExecutor.java:135-156 | the new state is Step of the old one: the data is added and the counters raised by the release's instances and by one; when a counter then strictly exceeds its limit, everything pending is published as a success and both counters restart at 0 (StepFlushesIffOverLimit) |
| InstanceSync.ResponseBatcher.PublishRemainder | 260-delegate/src/main/java/io/harness/perpetualtask/AbstractInstanceSyncV2TaskExecutor.java:88-94 | exactly one more publish, carrying the pending data and the final SUCCESS status, when either counter is not 0; otherwise nothing more is published |
| InstanceSync.RunOnce | 260-delegate/src/main/java/io/harness/perpetualtask/AbstractInstanceSyncV2TaskExecutor.java:54-104 | the loop over the details, driven by the batcher object, answers and publishes exactly what the specification of a run does |
| InstanceSync.RunCounters | 260-delegate/src/main/java/io/harness/perpetualtask/AbstractInstanceSyncV2TaskExecutor.java:139-141 | after any number of releases the release counter is the number of pending releases and the instance counter their total instances |
| InstanceSync.RunPublishesInOrder | 260-delegate/src/main/java/io/harness/perpetualtask/AbstractInstanceSyncV2TaskExecutor.java:80-87 | the published data followed by the pending data is the data of every release handled, each once and in order (the same file, lines 139-155, as well) |
| InstanceSync.RunFlushes | 260-delegate/src/main/java/io/harness/perpetualtask/AbstractInstanceSyncV2TaskExecutor.java:143-151 | every publish made inside the loop is a non-empty success for this task and account |
| InstanceSync.RunWithinLimits | 260-delegate/src/main/java/io/harness/perpetualtask/AbstractInstanceSyncV2TaskExecutor.java:143-155 | unless nothing is pending, both counters are within their limits after each release |
| InstanceSync.EveryReleasePublishedOnce | 260-delegate/src/main/java/io/harness/perpetualtask/AbstractInstanceSyncV2TaskExecutor.java:78-95 | with details to track the answer is SC_OK and every release's data is published exactly once, in order |
| InstanceSync.FinalPublishIffPending | 260-delegate/src/main/java/io/harness/perpetualtask/AbstractInstanceSyncV2TaskExecutor.java:88-94 | the publish after the loop happens iff some release is pending |
| InstanceSync.NothingToTrack | 260-delegate/src/main/java/io/harness/perpetualtask/AbstractInstanceSyncV2TaskExecutor.java:66-77 | null or empty details give exactly one publish, not successful and SKIPPED, and SC_OK (as the unit test at 260-delegate/src/test/java/io/harness/perpetualtask/AbstractInstanceSyncV2TaskExecutorTest.java:113-143 exercises) |
| InstanceSync.FetchFailureNotFound | 260-delegate/src/main/java/io/harness/perpetualtask/AbstractInstanceSyncV2TaskExecutor.java:97-103 | an IOException while fetching answers SC_NOT_FOUND with the failure message and publishes nothing |
| InstanceSync.FailedRetrievalCountsAsRelease | 260-delegate/src/main/java/io/harness/perpetualtask/AbstractInstanceSyncV2TaskExecutor.java:118-141 | a release whose retrieval throws contributes no instance and a FAILURE status but counts as one release |
| InstanceSync.OneReleaseOnePublish | 260-delegate/src/test/java/io/harness/perpetualtask/AbstractInstanceSyncV2TaskExecutorTest.java:72-111 | one release with one instance under the limits 100 and 5 gives exactly one publish, the final one |
| GithubPackages.IsPackageType | 960-api-services/src/main/java/io/harness/artifacts/githubpackages/service/GithubPackagesRegistryServiceImpl.java:506-514 | true exactly for container, nuget, maven, npm and rubygems, compared case-sensitively |
| GithubPackages.IsSuccessful | 960-api-services/src/main/java/io/harness/artifacts/githubpackages/service/GithubPackagesRegistryServiceImpl.java:473-498 | true exactly for a successful response, false exactly for an unsuccessful 400 or 404; a null response throws "Null response found" and 401 throws the unauthorized failure |
| GithubPackages.OtherCodesThrow | 960-api-services/src/main/java/io/harness/artifacts/githubpackages/service/GithubPackagesRegistryServiceImpl.java:488-497 | any other unsuccessful code throws an artifact-server failure carrying the response message when it is not blank |
| GithubPackages.FetchVersions | 960-api-services/src/main/java/io/harness/artifacts/githubpackages/service/GithubPackagesRegistryServiceImpl.java:328-371 | the page loop starting at page 1 collects exactly what the page specification collects, failing on the first unsuccessful page |
| GithubPackages.ConcatFront | 960-api-services/src/main/java/io/harness/artifacts/githubpackages/service/GithubPackagesRegistryServiceImpl.java:343-345 | the concatenation of pages i to k is page i followed by pages i+1 to k |
| GithubPackages.CollectedPagesInOrder | 960-api-services/src/main/java/io/harness/artifacts/githubpackages/service/GithubPackagesRegistryServiceImpl.java:329-371 | the collected versions are the pages in order up to the first empty or short one, every page before it being full (100 versions) |
| GithubPackages.TagMetadataSpec | 960-api-services/src/main/java/io/harness/artifacts/githubpackages/service/GithubPackagesRegistryServiceImpl.java:402-405 | the metadata of a version maps each of its tags, once, to the package name |
| GithubPackages.ProcessBuildDetails | 960-api-services/src/main/java/io/harness/artifacts/githubpackages/service/GithubPackagesRegistryServiceImpl.java:380-422 | the loop over the versions yields exactly one build per version with tags, in order |
| GithubPackages.BuildsSpec | 960-api-services/src/main/java/io/harness/artifacts/githubpackages/service/GithubPackagesRegistryServiceImpl.java:386-422 | a build is listed iff it is the build of some version that has tags: versions without tags are dropped |
| GithubPackages.BuildOfSpec | 960-api-services/src/main/java/io/harness/artifacts/githubpackages/service/GithubPackagesRegistryServiceImpl.java:395-418 | a build is numbered by the first tag, has success status, maps every tag to the package name and points at ghcr.io/owner/package:tag |
| GithubPackages.ArtifactPath | 960-api-services/src/main/java/io/harness/artifacts/githubpackages/service/GithubPackagesRegistryServiceImpl.java:301-313 | the path is ghcr.io, the owner (the org when given, else the user name) and the package, then @ for a SHA tag and : otherwise, then the tag (the same file, lines 570-572, as well) |
| GithubPackages.ListedPathIsArtifactPath | 960-api-services/src/main/java/io/harness/artifacts/githubpackages/service/GithubPackagesRegistryServiceImpl.java:301-313 | for a tag that is not a SHA, a listed build points where getArtifactPath would (the same file, lines 407-409, as well) |
| GithubPackages.GlobExample | 960-api-services/src/main/java/io/harness/artifacts/githubpackages/service/GithubPackagesRegistryServiceImpl.java:88 | the replacements happen in order, so "1.*" becomes "1\..*?": the dots inserted for ? and * are not escaped |
| GithubPackages.PlainGlob | 960-api-services/src/main/java/io/harness/artifacts/githubpackages/service/GithubPackagesRegistryServiceImpl.java:88 | a version pattern without ., ? or * is used literally |
| GithubPackages.GetBuildDetails | 960-api-services/src/main/java/io/harness/artifacts/githubpackages/service/GithubPackagesRegistryServiceImpl.java:315-378 | the builds of the paged versions, or the failure of a page |
| GithubPackages.KeepSelected | 960-api-services/src/main/java/io/harness/artifacts/githubpackages/service/GithubPackagesRegistryServiceImpl.java:90-92 | a build is kept iff its number does not end in / and the pattern is found in it, in order |
| GithubPackages.GetBuilds | 960-api-services/src/main/java/io/harness/artifacts/githubpackages/service/GithubPackagesRegistryServiceImpl.java:70-95 | an unknown package type is rejected before fetching; a failed fetch is wrapped with its hint and explanation; otherwise the builds the pattern selects, in order |
| GithubPackages.VersionFiltering | 960-api-services/src/main/java/io/harness/artifacts/githubpackages/service/GithubPackagesRegistryServiceImpl.java:285-299 | the loop over the builds returns what the specification of the version filter does |
| GithubPackages.VersionFilterSpec | 960-api-services/src/main/java/io/harness/artifacts/githubpackages/service/GithubPackagesRegistryServiceImpl.java:285-299 | the build found is the first, in list order, whose metadata has the version, renamed after it; it fails with the not-found error exactly when no build has the version |
| GithubPackages.MatchingKeys | 960-api-services/src/main/java/io/harness/artifacts/githubpackages/service/GithubPackagesRegistryServiceImpl.java:238-243 | the selected keys are the metadata keys that do not end in / and that the pattern is found in |
| GithubPackages.RestrictSpec | 960-api-services/src/main/java/io/harness/artifacts/githubpackages/service/GithubPackagesRegistryServiceImpl.java:249-255 | restricting to distinct keys lists exactly those keys in order, each with the metadata's value |
| GithubPackages.NarrowedIsStable | 960-api-services/src/main/java/io/harness/artifacts/githubpackages/service/GithubPackagesRegistryServiceImpl.java:245-255 | a narrowed build keeps exactly its selected keys, and narrowing it again changes nothing |
| GithubPackages.NarrowOneSpec | 960-api-services/src/main/java/io/harness/artifacts/githubpackages/service/GithubPackagesRegistryServiceImpl.java:236-262 | one build through the filter gives at most one build, named after one of its own selected tags |
| GithubPackages.RegexFilteredIdempotent | 960-api-services/src/main/java/io/harness/artifacts/githubpackages/service/GithubPackagesRegistryServiceImpl.java:234-266 | filtering builds that were already filtered changes nothing |
| GithubPackages.RegexFilteredSpec | 960-api-services/src/main/java/io/harness/artifacts/githubpackages/service/GithubPackagesRegistryServiceImpl.java:234-266 | every build kept has only selected tags, taken from one of the given builds, and is named after one of them |
| GithubPackages.FirstFilteredIsTag | 960-api-services/src/main/java/io/harness/artifacts/githubpackages/service/GithubPackagesRegistryServiceImpl.java:117-123 | the number of the first build kept is a tag of some fetched build |
| GithubPackages.RestartAfterRemoval | 960-api-services/src/main/java/io/harness/artifacts/githubpackages/service/GithubPackagesRegistryServiceImpl.java:256-260 | after the removal of a build with no selected tag, restarting on the shortened list gives the same result as filtering the original list |
| GithubPackages.RestrictMetadata | 960-api-services/src/main/java/io/harness/artifacts/githubpackages/service/GithubPackagesRegistryServiceImpl.java:249-255 | the finalMap loop yields exactly the restriction of the metadata to the selected keys |
| GithubPackages.RegexFilteringForGetBuilds | 960-api-services/src/main/java/io/harness/artifacts/githubpackages/service/GithubPackagesRegistryServiceImpl.java:234-266 | the narrowing loop with its remove-and-restart step yields exactly the filtered builds of the specification |
| GithubPackages.BuildsHaveDistinctMetadata | 960-api-services/src/main/java/io/harness/artifacts/githubpackages/service/GithubPackagesRegistryServiceImpl.java:402-405 | every build made from versions has distinct metadata keys |
| GithubPackages.ConstructBuildDetails | 960-api-services/src/main/java/io/harness/artifacts/githubpackages/service/GithubPackagesRegistryServiceImpl.java:268-283 | the build made from the manifest digests carries the version, success status, both digests as metadata, the V2 digest as full display name and the artifact path |
| GithubPackages.GetBuild | 960-api-services/src/main/java/io/harness/artifacts/githubpackages/service/GithubPackagesRegistryServiceImpl.java:125-169 | an unknown package type is rejected; otherwise the build is made from the manifest digests or, without them, looked up by version among the fetched builds |
| GithubPackages.GetLastSuccessfulBuildFromRegex | 960-api-services/src/main/java/io/harness/artifacts/githubpackages/service/GithubPackagesRegistryServiceImpl.java:98-123 | an unknown package type is rejected before fetching; a failed fetch is wrapped; no build surviving the filter fails with "No version with matching regex is present"; otherwise the build of the first surviving number |
| GithubPackages.ChosenVersionIsFound | 960-api-services/src/main/java/io/harness/artifacts/githubpackages/service/GithubPackagesRegistryServiceImpl.java:117-123 | the version getLastSuccessfulBuildFromRegex chooses is always found again by the version filter (the same file, lines 285-299, as well) |
| GithubPackages.PackageEntrySpec | 960-api-services/src/main/java/io/harness/artifacts/githubpackages/service/GithubPackagesRegistryServiceImpl.java:212-232 | the map made for a package holds its id, name, type, visibility and url under their keys |
| GithubPackages.ListPackages | 960-api-services/src/main/java/io/harness/artifacts/githubpackages/service/GithubPackagesRegistryServiceImpl.java:171-210 | an unknown package type is rejected; an empty listing fails with its wrapped message; otherwise one map per package, in order |
| Onboarding.EntitiesByType | idp-service/src/main/java/io/harness/idp/onboarding/service/impl/OnboardingServiceImpl.java:569-574 | the selected identifiers are exactly those of the entries of the given type, and there are no more of them than entries |
| Onboarding.EntitiesByTypeAppend | idp-service/src/main/java/io/harness/idp/onboarding/service/impl/OnboardingServiceImpl.java:569-574 | selection keeps input order: selecting from a concatenation is concatenating the selections |
| Onboarding.EntitiesByTypeCount | idp-service/src/main/java/io/harness/idp/onboarding/service/impl/OnboardingServiceImpl.java:569-574 | for three distinct types covering every entry, the three selections together count every entry once |
| Onboarding.CheckSomethingToImport | idp-service/src/main/java/io/harness/idp/onboarding/service/impl/OnboardingServiceImpl.java:576-581 | fails with the entity-required InvalidRequest exactly when the import is not "all" and all three lists are empty |
| Onboarding.CheckFoundMatchesProvided | idp-service/src/main/java/io/harness/idp/onboarding/service/impl/OnboardingServiceImpl.java:638-646 | passes exactly when the import is "all" or each count found equals the count requested, and otherwise fails with the mismatch UnexpectedException |
| Onboarding.ChecksPassedMeansSomethingFound | idp-service/src/main/java/io/harness/idp/onboarding/service/impl/OnboardingServiceImpl.java:576-581 | an individual import that passes both checks found as many entities as were asked for, and at least one (the same file, lines 638-646, as well) |
| Onboarding.GetOrgProjectsMapping | idp-service/src/main/java/io/harness/idp/onboarding/service/impl/OnboardingServiceImpl.java:583-596 | the forEach over the identifiers yields what ProjectsMappingOf describes, failure included |
| Onboarding.ProjectsMappingFails | idp-service/src/main/java/io/harness/idp/onboarding/service/impl/OnboardingServiceImpl.java:583-596 | once a prefix of the identifiers fails, the whole list fails with that same failure |
| Onboarding.ProjectsMappingSpec | idp-service/src/main/java/io/harness/idp/onboarding/service/impl/OnboardingServiceImpl.java:583-596 | succeeds exactly when every identifier has an org and a project part and no org repeats (a second project for an org adds to an immutable singleton list); then each org maps, in input order, to the list holding its one project |
| Onboarding.PrefixParts | idp-service/src/main/java/io/harness/idp/onboarding/service/impl/OnboardingServiceImpl.java:583-596 | the identifiers before the last keep the part and distinct-org properties of the whole list |
| Onboarding.OrgsOfMapping | idp-service/src/main/java/io/harness/idp/onboarding/service/impl/OnboardingServiceImpl.java:583-596 | the orgs of the mapping are exactly the orgs of the identifiers |
| Onboarding.ProjectsStep | idp-service/src/main/java/io/harness/idp/onboarding/service/impl/OnboardingServiceImpl.java:585-594 | one more identifier keeps the success condition and the mapping contents of ProjectsMappingSpec |
| Onboarding.FreshOrg | idp-service/src/main/java/io/harness/idp/onboarding/service/impl/OnboardingServiceImpl.java:592-593 | an identifier with a new org extends the mapping with that org and its one project |
| Onboarding.GetOrgProjectsServicesMapping | idp-service/src/main/java/io/harness/idp/onboarding/service/impl/OnboardingServiceImpl.java:598-620 | the forEach over the identifiers, with its three branches, yields what ServicesMappingOf describes |
| Onboarding.AddServiceCases | idp-service/src/main/java/io/harness/idp/onboarding/service/impl/OnboardingServiceImpl.java:602-617 | the three branches (new org, new project under a known org, service added to a known project) each add the service to the mapping |
| Onboarding.ServicesMappingFails | idp-service/src/main/java/io/harness/idp/onboarding/service/impl/OnboardingServiceImpl.java:598-620 | once a prefix of the identifiers fails, the whole list fails with that same failure |
| Onboarding.ServicesAtAfterAdd | idp-service/src/main/java/io/harness/idp/onboarding/service/impl/OnboardingServiceImpl.java:602-617 | adding an identifier appends its service under its org and project and changes no other org and project |
| Onboarding.ServicesMappingSpec | idp-service/src/main/java/io/harness/idp/onboarding/service/impl/OnboardingServiceImpl.java:598-620 | succeeds exactly when every identifier has org, project and service parts; then each org and project holds exactly the services of the identifiers naming them, in input order |
| Onboarding.ServicesStep | idp-service/src/main/java/io/harness/idp/onboarding/service/impl/OnboardingServiceImpl.java:600-618 | one more identifier keeps the success condition and the contents of ServicesMappingSpec |
| Onboarding.ServicesStepContents | idp-service/src/main/java/io/harness/idp/onboarding/service/impl/OnboardingServiceImpl.java:600-618 | the contents property carries over to the list extended by one identifier |
| Onboarding.ServiceIdentifierLands | idp-service/src/main/java/io/harness/idp/onboarding/service/impl/OnboardingServiceImpl.java:598-620 | an identifier made of an org, a project and a service joined by the separator, none of them holding it, lands, last, under its org and project |
| Onboarding.EntitiesFolderPath | idp-service/src/main/java/io/harness/idp/onboarding/service/impl/OnboardingServiceImpl.java:726-733 | the connector path when set and the default otherwise, prefixed with the slash unless it already starts with it; the result always starts with the slash |
| Onboarding.EntitiesFolderPathIdempotent | idp-service/src/main/java/io/harness/idp/onboarding/service/impl/OnboardingServiceImpl.java:726-733 | a folder path computed once is its own folder path |
| Onboarding.FilterByProject | idp-service/src/main/java/io/harness/idp/onboarding/service/impl/OnboardingServiceImpl.java:428-437 | an empty filter keeps all services; otherwise exactly the services whose project identifier is present and contains the filter are kept |
| Onboarding.KeepInProject | idp-service/src/main/java/io/harness/idp/onboarding/service/impl/OnboardingServiceImpl.java:431-434 | exactly the services in the project are kept, and no more than were given |
| Onboarding.FilterByProjectIdempotent | idp-service/src/main/java/io/harness/idp/onboarding/service/impl/OnboardingServiceImpl.java:428-437 | filtering twice by the same project is filtering once |
| Onboarding.KeepInProjectIdempotent | idp-service/src/main/java/io/harness/idp/onboarding/service/impl/OnboardingServiceImpl.java:431-434 | keeping the services of a project twice is keeping them once |
| Onboarding.FirstEntitySpec | idp-service/src/main/java/io/harness/idp/onboarding/service/impl/OnboardingServiceImpl.java:735-757 | there is no first entity exactly when every list is empty; otherwise it is the first entity of the first non-empty list |
| Onboarding.GetFirstAmongAll | idp-service/src/main/java/io/harness/idp/onboarding/service/impl/OnboardingServiceImpl.java:735-757 | no entity throws "Found invalid entity ..."; a first entity of another kind throws "Entity should be off one among ..."; otherwise that entity with both paths extended by its kind's folder and the slash |
| Onboarding.PrepareEntitiesTarget | idp-service/src/main/java/io/harness/idp/onboarding/service/impl/OnboardingServiceImpl.java:768-772 | one target per entity, in order, each the prefix, the entity's name and the YAML extension; entities with distinct names get distinct targets, so no location is registered twice |
| Onboarding.TargetDeterminesName | idp-service/src/main/java/io/harness/idp/onboarding/service/impl/OnboardingServiceImpl.java:768-772 | under one prefix, two entities get the same catalog location exactly when they have the same name |
| CompositeSLO.ClassifySpec | srm-service/modules/cv-nextgen-service/service/src/main/java/io/harness/cvng/servicelevelobjective/services/impl/CompositeSLORecordServiceImpl.java:318-334 | a record counts nowhere exactly when it is skipped, or has no data and its SLO's missing-data type is IGNORE; no data counts as good or bad under GOOD or BAD |
| CompositeSLO.TabulateRecord | srm-service/modules/cv-nextgen-service/service/src/main/java/io/harness/cvng/servicelevelobjective/services/impl/CompositeSLORecordServiceImpl.java:317-335 | one record counted into the good, bad and total maps keeps them equal to the tallies of the records seen so far |
| CompositeSLO.TabulateEntry | srm-service/modules/cv-nextgen-service/service/src/main/java/io/harness/cvng/servicelevelobjective/services/impl/CompositeSLORecordServiceImpl.java:316-336 | after all records of one SLO the maps tally every record of the SLOs seen so far |
| CompositeSLO.CountRecords | srm-service/modules/cv-nextgen-service/service/src/main/java/io/harness/cvng/servicelevelobjective/services/impl/CompositeSLORecordServiceImpl.java:317-335 | the inner loop over one SLO's records extends the tallies by that SLO |
| CompositeSLO.TimeStampToValueMaps | srm-service/modules/cv-nextgen-service/service/src/main/java/io/harness/cvng/servicelevelobjective/services/impl/CompositeSLORecordServiceImpl.java:311-337 | for every minute the good and bad maps hold the summed weightages of the good and bad records, and the total map holds the number of contributing records, with a key exactly where something contributed |
| CompositeSLO.SortedCopy | srm-service/modules/cv-nextgen-service/service/src/main/java/io/harness/cvng/servicelevelobjective/services/impl/CompositeSLORecordServiceImpl.java:152 | ImmutableSortedSet.copyOf gives the keys, each once, in ascending order |
| CompositeSLO.KeySetOrder | srm-service/modules/cv-nextgen-service/service/src/main/java/io/harness/cvng/servicelevelobjective/services/impl/CompositeSLORecordServiceImpl.java:177 | a key set iterates each key exactly once |
| CompositeSLO.Stamps | srm-service/modules/cv-nextgen-service/service/src/main/java/io/harness/cvng/servicelevelobjective/services/impl/CompositeSLORecordServiceImpl.java:152-166 | the timestamps of the records, position by position |
| CompositeSLO.EmittedSpec | srm-service/modules/cv-nextgen-service/service/src/main/java/io/harness/cvng/servicelevelobjective/services/impl/CompositeSLORecordServiceImpl.java:152-153 | keeping the complete minutes of an ascending list keeps it ascending and keeps exactly the complete ones |
| CompositeSLO.RunningSnoc | srm-service/modules/cv-nextgen-service/service/src/main/java/io/harness/cvng/servicelevelobjective/services/impl/CompositeSLORecordServiceImpl.java:154-165 | a record carrying the running counts up to its minute extends a record list that carries them |
| CompositeSLO.SumTallySnoc | srm-service/modules/cv-nextgen-service/service/src/main/java/io/harness/cvng/servicelevelobjective/services/impl/CompositeSLORecordServiceImpl.java:154-155 | the weight summed over one more minute adds that minute's tally |
| CompositeSLO.EmittedSnoc | srm-service/modules/cv-nextgen-service/service/src/main/java/io/harness/cvng/servicelevelobjective/services/impl/CompositeSLORecordServiceImpl.java:152-153 | one more minute adds its record exactly when it is complete |
| CompositeSLO.AccumulateRecord | srm-service/modules/cv-nextgen-service/service/src/main/java/io/harness/cvng/servicelevelobjective/services/impl/CompositeSLORecordServiceImpl.java:153-165 | a complete minute adds its record, with the running counts raised by its good and bad weights |
| CompositeSLO.AccumulateNothing | srm-service/modules/cv-nextgen-service/service/src/main/java/io/harness/cvng/servicelevelobjective/services/impl/CompositeSLORecordServiceImpl.java:153 | an incomplete minute changes nothing |
| CompositeSLO.AccumulatedAll | srm-service/modules/cv-nextgen-service/service/src/main/java/io/harness/cvng/servicelevelobjective/services/impl/CompositeSLORecordServiceImpl.java:152-166 | once every minute is seen, the records are those of exactly the complete minutes, ascending |
| CompositeSLO.WindowRecords | srm-service/modules/cv-nextgen-service/service/src/main/java/io/harness/cvng/servicelevelobjective/services/impl/CompositeSLORecordServiceImpl.java:142-168 | one record per minute at which every SLO contributed, ascending, each carrying the starting counts plus the weights of the complete minutes up to and including its own, with the composite's id and version |
| CompositeSLO.AddRecordsSpec | srm-service/modules/cv-nextgen-service/service/src/main/java/io/harness/cvng/servicelevelobjective/services/impl/CompositeSLORecordServiceImpl.java:197-207 | adding one SLO's records makes a key of every minute it has a record at, and places its scoped identifier under exactly the minutes of its records that are not skipped |
| CompositeSLO.RecordMapSpec | srm-service/modules/cv-nextgen-service/service/src/main/java/io/harness/cvng/servicelevelobjective/services/impl/CompositeSLORecordServiceImpl.java:194-209 | every minute of some record is a key, even a skipped one; under it sit exactly the scoped identifiers with a record there that is not skipped, each with a record of that minute |
| CompositeSLO.TimeStampToSLIRecordMap | srm-service/modules/cv-nextgen-service/service/src/main/java/io/harness/cvng/servicelevelobjective/services/impl/CompositeSLORecordServiceImpl.java:194-209 | the nested loops build the map RecordMapSpec describes |
| CompositeSLO.RequestRecords | srm-service/modules/cv-nextgen-service/service/src/main/java/io/harness/cvng/servicelevelobjective/services/impl/CompositeSLORecordServiceImpl.java:170-192 | one record per minute at which every SLO has a record that is not skipped, each minute once, each carrying that minute's records and the unchanged running counts |
| CompositeSLO.RecordsFromSLIsDetails | srm-service/modules/cv-nextgen-service/service/src/main/java/io/harness/cvng/servicelevelobjective/services/impl/CompositeSLORecordServiceImpl.java:129-140 | REQUEST goes to the request builder and every other type to the window builder, with their guarantees; all records carry the composite's id and version |
| CompositeSLO.ByTimestamp | srm-service/modules/cv-nextgen-service/service/src/main/java/io/harness/cvng/servicelevelobjective/services/impl/CompositeSLORecordServiceImpl.java:217-218 | the stored records keyed by timestamp, each under its own; a repeated timestamp is the IllegalStateException of toMap |
| CompositeSLO.UpdateWindowAsWritten | srm-service/modules/cv-nextgen-service/service/src/main/java/io/harness/cvng/servicelevelobjective/services/impl/CompositeSLORecordServiceImpl.java:252-275 | the loop as written emits one record per minute with data, complete or not |
| CompositeSLO.TallyOfTwo | srm-service/modules/cv-nextgen-service/service/src/main/java/io/harness/cvng/servicelevelobjective/services/impl/CompositeSLORecordServiceImpl.java:316-336 | the tally of two SLOs at a minute is the sum of their own tallies |
| CompositeSLO.TallyOfOne | srm-service/modules/cv-nextgen-service/service/src/main/java/io/harness/cvng/servicelevelobjective/services/impl/CompositeSLORecordServiceImpl.java:317-335 | the tally of a single record is that record's contribution |
| CompositeSLO.PartialMinute | srm-service/modules/cv-nextgen-service/service/src/main/java/io/harness/cvng/servicelevelobjective/services/impl/CompositeSLORecordServiceImpl.java:153 | two SLOs whose only records are a good minute 1 and a minute 2: minute 1 has data and is not complete (the same file, line 254, as well) |
| CompositeSLO.UpdateWindowFirstIncomplete | srm-service/modules/cv-nextgen-service/service/src/main/java/io/harness/cvng/servicelevelobjective/services/impl/CompositeSLORecordServiceImpl.java:253-273 | as written, an incomplete first minute still gets a fresh record of its own |
| CompositeSLO.UpdateWindowWritesIncompleteMinute | srm-service/modules/cv-nextgen-service/service/src/main/java/io/harness/cvng/servicelevelobjective/services/impl/CompositeSLORecordServiceImpl.java:241-276 | as written, minute 1 of the two SLOs above is written although one SLO has no record there |
| CompositeSLO.UpdateWindowRecords | srm-service/modules/cv-nextgen-service/service/src/main/java/io/harness/cvng/servicelevelobjective/services/impl/CompositeSLORecordServiceImpl.java:241-276 | as intended: only complete minutes, ascending, each the stored record of that minute refreshed or a new one, with the same running counts a fresh build gives |
| CompositeSLO.UpdateRequestAsWritten | srm-service/modules/cv-nextgen-service/service/src/main/java/io/harness/cvng/servicelevelobjective/services/impl/CompositeSLORecordServiceImpl.java:286-306 | the loop as written emits one record per minute of the map, complete or not |
| CompositeSLO.PartialRecordMap | srm-service/modules/cv-nextgen-service/service/src/main/java/io/harness/cvng/servicelevelobjective/services/impl/CompositeSLORecordServiceImpl.java:194-209 | the record map of the two SLOs above: minute 1 under the first SLO, minute 2 under the second unless it is skipped |
| CompositeSLO.AddOneRecord | srm-service/modules/cv-nextgen-service/service/src/main/java/io/harness/cvng/servicelevelobjective/services/impl/CompositeSLORecordServiceImpl.java:199-205 | one record lands under its minute, and under its scoped identifier unless it is skipped |
| CompositeSLO.UpdateRequestWritesIncompleteMinute | srm-service/modules/cv-nextgen-service/service/src/main/java/io/harness/cvng/servicelevelobjective/services/impl/CompositeSLORecordServiceImpl.java:278-309 | as written, minute 1, where only one of the two SLOs has a record, is written when it is iterated first |
| CompositeSLO.UpdateRequestRecords | srm-service/modules/cv-nextgen-service/service/src/main/java/io/harness/cvng/servicelevelobjective/services/impl/CompositeSLORecordServiceImpl.java:278-309 | as intended: only minutes at which every SLO has a record, each once, each the stored record refreshed with that minute's records or a new one |
| CompositeSLO.UpdateRecords | srm-service/modules/cv-nextgen-service/service/src/main/java/io/harness/cvng/servicelevelobjective/services/impl/CompositeSLORecordServiceImpl.java:212-239 | the corrected update (see Findings): fails on repeated stored timestamps or an evaluation type other than WINDOW and REQUEST ("Invalid Evaluation Type"); otherwise each type goes to its corrected builder and writes exactly its complete minutes, WINDOW with the running counts |
| CompositeSLO.UpdateRecordsAsWritten | srm-service/modules/cv-nextgen-service/service/src/main/java/io/harness/cvng/servicelevelobjective/services/impl/CompositeSLORecordServiceImpl.java:212-239 | the update as written: the same failures; otherwise WINDOW runs the as-written window builder over the ascending minutes with data and REQUEST the as-written request builder over the record map's minutes in key-set order, so incomplete minutes are written too |
| CompositeSLO.Create | srm-service/modules/cv-nextgen-service/service/src/main/java/io/harness/cvng/servicelevelobjective/services/impl/CompositeSLORecordServiceImpl.java:56-96 | nothing is written unless the records cover every SLO detail and are not empty; the counts start from the last record before the start; a latest record after the start takes the update flow with the corrected builders (see Findings), otherwise a fresh batch is saved; both write exactly the complete minutes |
| K8sBlueGreen.Matching | 930-delegate-tasks/src/main/java/io/harness/delegate/k8s/K8sBGRequestHandler.java:345 | the positions of exactly the resources a ManifestHelper filter keeps, in increasing order |
| K8sBlueGreen.FirstMatching | 930-delegate-tasks/src/main/java/io/harness/delegate/k8s/K8sBGRequestHandler.java:372-373 | the first position whose resource satisfies the lookup, or none when no resource does (the same file, line 447, as well) |
| K8sBlueGreen.ExactlyOneMatching | 930-delegate-tasks/src/main/java/io/harness/delegate/k8s/K8sBGRequestHandler.java:347 | exactly one resource satisfies the filter iff the filter keeps one position |
| K8sBlueGreen.WorkloadCheck | 930-delegate-tasks/src/main/java/io/harness/delegate/k8s/K8sBGRequestHandler.java:345-370 | passes exactly when there is one workload; no workload and several workloads (listing their ids) are different errors |
| K8sBlueGreen.ResolvePrimarySpec | 930-delegate-tasks/src/main/java/io/harness/delegate/k8s/K8sBGRequestHandler.java:372-395 | the annotated primary service when there is one; otherwise the only service, and the no-service and multiple-services errors (listing the services) for none and several |
| K8sBlueGreen.StageClone | 930-delegate-tasks/src/main/java/io/harness/delegate/k8s/K8sBGRequestHandler.java:397-404 | the clone has the primary's kind, namespace and selector, and its name with "-stage" appended |
| K8sBlueGreen.InitSpec | 930-delegate-tasks/src/main/java/io/harness/delegate/k8s/K8sBGRequestHandler.java:274-333 | init changes neither the request fields nor the release, the saved releases or the flag, and fails only at rendering or the dry run |
| K8sBlueGreen.ResolveServicesSpec | 930-delegate-tasks/src/main/java/io/harness/delegate/k8s/K8sBGRequestHandler.java:337-404 | the versioning mark is recorded; on success both services are resolved, the primary is ResolvePrimary's and the resources are the staged ones |
| K8sBlueGreen.LocateServicesSpec | 930-delegate-tasks/src/main/java/io/harness/delegate/k8s/K8sBGRequestHandler.java:372-404 | on success both services lie among the resources, the primary is ResolvePrimary's, and a missing stage service is appended |
| K8sBlueGreen.ChooseColorsSpec | 930-delegate-tasks/src/main/java/io/harness/delegate/k8s/K8sBGRequestHandler.java:406-445 | on success the primary colour is the cluster's colour of the primary service, the stage colour its inverse, the release new with the current number, and the versioning and colour-suffix edits recorded |
| K8sBlueGreen.LabelSpec | 930-delegate-tasks/src/main/java/io/harness/delegate/k8s/K8sBGRequestHandler.java:447-469 | on success the managed workload is found and lies among the resources, and the release keeps its number |
| K8sBlueGreen.Prepare | 930-delegate-tasks/src/main/java/io/harness/delegate/k8s/K8sBGRequestHandler.java:336-472 | prepareForBlueGreen keeps the request fields; on success the colours are chosen, the stage colour is the inverse of the primary, the workload is found and the release has the current number |
| K8sBlueGreen.SaveReleaseSpec | 930-delegate-tasks/src/main/java/io/harness/delegate/k8s/K8sBGRequestHandler.java:268-272 | the release takes the status and is appended to the saved releases |
| K8sBlueGreen.DeploySpec | 930-delegate-tasks/src/main/java/io/harness/delegate/k8s/K8sBGRequestHandler.java:179-254 | the flag is set; a failure comes from apply, the steady state, wrap-up or pruning, and pruning fails exactly when it is enabled and the pruning step fails; success reports the two colours and the release number and saves the release twice, last as succeeded, and a pruning failure leaves those same two saves behind |
| K8sBlueGreen.Execute | 930-delegate-tasks/src/main/java/io/harness/delegate/k8s/K8sBGRequestHandler.java:138-254 | a handler with a release to save still has one after the run; the run's other properties are the lemmas ExecuteRejectsOtherRequests, ExecuteDeploys, FailedReleaseSavedOnlyAfterPreparation and PruningFailureSavesReleaseAsFailed |
| K8sBlueGreen.BlueGreenHandler.constructor | 930-delegate-tasks/src/main/java/io/harness/delegate/k8s/K8sBGRequestHandler.java:118-135 | a fresh handler holds no release, resources, services or colours, and the flag is clear |
| K8sBlueGreen.BlueGreenHandler.Init | 930-delegate-tasks/src/main/java/io/harness/delegate/k8s/K8sBGRequestHandler.java:274-333 | the fields after init are those of InitSpec |
| K8sBlueGreen.BlueGreenHandler.ResolveServices | 930-delegate-tasks/src/main/java/io/harness/delegate/k8s/K8sBGRequestHandler.java:337-404 | the fields after the first part of preparation are those of ResolveServicesSpec |
| K8sBlueGreen.BlueGreenHandler.LocateServices | 930-delegate-tasks/src/main/java/io/harness/delegate/k8s/K8sBGRequestHandler.java:372-404 | the service fields are those of LocateServicesSpec |
| K8sBlueGreen.BlueGreenHandler.ChooseColors | 930-delegate-tasks/src/main/java/io/harness/delegate/k8s/K8sBGRequestHandler.java:406-445 | the colour and release fields are those of ChooseColorsSpec |
| K8sBlueGreen.BlueGreenHandler.Label | 930-delegate-tasks/src/main/java/io/harness/delegate/k8s/K8sBGRequestHandler.java:447-469 | the resources, release and workload fields are those of LabelSpec |
| K8sBlueGreen.BlueGreenHandler.PrepareForBlueGreen | 930-delegate-tasks/src/main/java/io/harness/delegate/k8s/K8sBGRequestHandler.java:336-472 | the fields after preparation are those of Prepare |
| K8sBlueGreen.BlueGreenHandler.SaveRelease | 930-delegate-tasks/src/main/java/io/harness/delegate/k8s/K8sBGRequestHandler.java:268-272 | the fields after saving are those of SaveReleaseSpec |
| K8sBlueGreen.BlueGreenHandler.Deploy | 930-delegate-tasks/src/main/java/io/harness/delegate/k8s/K8sBGRequestHandler.java:179-254 | the fields and outcome after apply, steady state, wrap-up and pruning are those of DeploySpec |
| K8sBlueGreen.BlueGreenHandler.ExecuteTaskInternal | 930-delegate-tasks/src/main/java/io/harness/delegate/k8s/K8sBGRequestHandler.java:138-254 | the fields and outcome of the whole run are those of Execute |
| K8sBlueGreen.BlueGreenHandler.HandleTaskFailure | 930-delegate-tasks/src/main/java/io/harness/delegate/k8s/K8sBGRequestHandler.java:261-266 | the fields after a failure are those of AfterFailure: the failed release is saved only when the flag is set |
| K8sBlueGreen.PrepareChecksWorkloads | 930-delegate-tasks/src/main/java/io/harness/delegate/k8s/K8sBGRequestHandler.java:345-370 | preparation succeeds only with exactly one workload; none and several are their errors, and then only the versioning mark has been made |
| K8sBlueGreen.PrepareResolvesPrimary | 930-delegate-tasks/src/main/java/io/harness/delegate/k8s/K8sBGRequestHandler.java:372-395 | with one workload, the primary is the annotated service if any, else the only service; no or several services are their errors |
| K8sBlueGreen.PrepareStageService | 930-delegate-tasks/src/main/java/io/harness/delegate/k8s/K8sBGRequestHandler.java:373-404 | an annotated stage service is used as is; otherwise the clone of the primary is appended after the resources, named with "-stage" |
| K8sBlueGreen.PrepareColors | 930-delegate-tasks/src/main/java/io/harness/delegate/k8s/K8sBGRequestHandler.java:406-427 | the primary colour is the cluster's colour of the primary service and the stage colour its inverse; a primary service without a colour is the conflicting-service error, naming it |
| K8sBlueGreen.PrepareLabels | 930-delegate-tasks/src/main/java/io/harness/delegate/k8s/K8sBGRequestHandler.java:447-469 | the managed workload gets the "-<stage>" suffix, the release-name and colour pod labels and the colour selector; the stage service selects the stage colour and a distinct primary the primary colour; no other resource changes; the release is new, in progress, holds the labelled resources and the pruning flag, and carries the colour label under declarative rollback or enters the legacy history otherwise |
| K8sBlueGreen.LabelFacts | 930-delegate-tasks/src/main/java/io/harness/delegate/k8s/K8sBGRequestHandler.java:447-469 | the labelling on the resources as they are before it, with the release data and the colour label |
| K8sBlueGreen.PrepareVersioning | 930-delegate-tasks/src/main/java/io/harness/delegate/k8s/K8sBGRequestHandler.java:337-340 | the versioning mark and the revision number are added exactly when versioning is not skipped and the rollback is not declarative; the colour suffix on config maps and secrets exactly under declarative rollback (the same file, lines 436-445, as well) |
| K8sBlueGreen.EditsRecorded | 930-delegate-tasks/src/main/java/io/harness/delegate/k8s/K8sBGRequestHandler.java:337-340 | the same, on the edits recorded by the two steps (the same file, lines 436-445, as well) |
| K8sBlueGreen.InitNumbersAndColours | 930-delegate-tasks/src/main/java/io/harness/delegate/k8s/K8sBGRequestHandler.java:284-305 | the release number comes from the history, or from the old history when a declarative rollback finds the history empty; under declarative rollback the release colour is the inverse of the latest release's colour, or of the default colour without a latest release |
| K8sBlueGreen.ExecuteRejectsOtherRequests | 930-delegate-tasks/src/main/java/io/harness/delegate/k8s/K8sBGRequestHandler.java:141-143 | a request that is not blue/green is rejected and nothing changes |
| K8sBlueGreen.ExecuteDeploys | 930-delegate-tasks/src/main/java/io/harness/delegate/k8s/K8sBGRequestHandler.java:179-254 | a successful run was a blue/green request; it reports the stage colour as the inverse of the primary and the current release number, sets the flag and saves the release twice, last as succeeded |
| K8sBlueGreen.FailedReleaseSavedOnlyAfterPreparation | 930-delegate-tasks/src/main/java/io/harness/delegate/k8s/K8sBGRequestHandler.java:179 | after a failed run the flag is set exactly when the failure came after preparation, and only then does handleTaskFailure save the release as failed (the same file, lines 261-266, as well) |
| K8sBlueGreen.PruningFailureSavesReleaseAsFailed | 930-delegate-tasks/src/main/java/io/harness/delegate/k8s/K8sBGRequestHandler.java:231-249 | a run that fails while pruning was a blue/green request with pruning enabled; the release was already saved as succeeded, and handleTaskFailure then saves the same release again as failed |
| ContainerStepInit.StandardPodName | pipeline-service/modules/orchestration-steps/src/main/java/io/harness/steps/container/ContainerStepInitHelper.java:172-174 | the identifier with every underscore removed, so no underscore is left |
| ContainerStepInit.StandardPodNameIdempotent | pipeline-service/modules/orchestration-steps/src/main/java/io/harness/steps/container/ContainerStepInitHelper.java:172-174 | standardising a standard name changes nothing |
| ContainerStepInit.ContainerName | pipeline-service/modules/orchestration-steps/src/main/java/io/harness/steps/container/ContainerStepInitHelper.java:429-469 | the step prefix followed by the standard name, lower-cased: as long as the two together, each character the lower-cased character at the same place of the prefix followed by the standard name, and so holding no upper-case letter |
| ContainerStepInit.ContainerNameIgnoresUnderscores | pipeline-service/modules/orchestration-steps/src/main/java/io/harness/steps/container/ContainerStepInitHelper.java:468-469 | underscores in an identifier never change the container name |
| ContainerStepInit.PluginStepIdentifier | pipeline-service/modules/orchestration-steps/src/main/java/io/harness/steps/container/ContainerStepInitHelper.java:422-428 | the standard name of the step identifier, prefixed by the step group and an underscore when the group is not blank |
| ContainerStepInit.PluginStepIdentifierJoins | pipeline-service/modules/orchestration-steps/src/main/java/io/harness/steps/container/ContainerStepInitHelper.java:425-428 | under a step group the identifier is the two standard names run together, since the joining underscore is removed too |
| ContainerStepInit.PluginStepIdentifiersCollide | pipeline-service/modules/orchestration-steps/src/main/java/io/harness/steps/container/ContainerStepInitHelper.java:425-428 | different group and step pairs can give the same identifier: group "a_b" with step "c" and group "a" with step "b_c" both give "abc" |
| ContainerStepInit.RunContainerDefinition | pipeline-service/modules/orchestration-steps/src/main/java/io/harness/steps/container/ContainerStepInitHelper.java:458-500 | a null image and a null connector reference are refused, in that order, with their messages; otherwise one RUN container named after the step with its image, connector, variables, first free port and security flags, not harness-managed |
| ContainerStepInit.PluginContainerDefinition | pipeline-service/modules/orchestration-steps/src/main/java/io/harness/steps/container/ContainerStepInitHelper.java:420-456 | one harness-managed PLUGIN container named after the plugin step identifier, with the plugin's variables, the first free port, and no connector or security flags |
| ContainerStepInit.StepContainerDefinitions | pipeline-service/modules/orchestration-steps/src/main/java/io/harness/steps/container/ContainerStepInitHelper.java:401-418 | RUN_CONTAINER gives the run definition, CD_SSCA_ORCHESTRATION the plugin one, INIT_CONTAINER_V2 whatever the version-2 creator gives, and any other type "Container step initialization not handled" |
| ContainerStepInit.DispatchFailures | pipeline-service/modules/orchestration-steps/src/main/java/io/harness/steps/container/ContainerStepInitHelper.java:401-418 | the dispatch fails exactly for an unhandled step type or a run step without image or connector, only with one of those three messages (the same file, lines 460-466, as well) |
| ContainerStepInit.SingleContainerSteps | pipeline-service/modules/orchestration-steps/src/main/java/io/harness/steps/container/ContainerStepInitHelper.java:405-410 | run and plugin steps give exactly one container, whose name comes from its underscore-free step identifier |
| ContainerStepInit.StepConnectorRefsOf | pipeline-service/modules/orchestration-steps/src/main/java/io/harness/steps/container/ContainerStepInitHelper.java:234-249 | the map getStepConnectorRefs builds: empty unless the step is a plugin step; then one key, the step's standard name, whose list holds the one connector info exactly when the connector reference is not empty |
| ContainerStepInit.StepConnectorRefs | pipeline-service/modules/orchestration-steps/src/main/java/io/harness/steps/container/ContainerStepInitHelper.java:234-249 | empty unless the step is a plugin step; then one key, the step's standard name, whose list holds the connector info exactly when the connector reference is not empty; the map is StepConnectorRefsOf's |
| ContainerStepInit.ConversionInfosFor | pipeline-service/modules/orchestration-steps/src/main/java/io/harness/steps/container/ContainerStepInitHelper.java:277-280 | the infos of the container's step identifier, or none |
| ContainerStepInit.DetailsStep | pipeline-service/modules/orchestration-steps/src/main/java/io/harness/steps/container/ContainerStepInitHelper.java:282-288 | recording the next info keeps the details map describing the infos seen so far |
| ContainerStepInit.DetailKeysStep | pipeline-service/modules/orchestration-steps/src/main/java/io/harness/steps/container/ContainerStepInitHelper.java:282-288 | the keys after one more info are the qualified references of the infos seen |
| ContainerStepInit.DetailValuesStep | pipeline-service/modules/orchestration-steps/src/main/java/io/harness/steps/container/ContainerStepInitHelper.java:282-288 | each key holds the details of the last info seen with that reference |
| ContainerStepInit.CollectConnectorDetails | pipeline-service/modules/orchestration-steps/src/main/java/io/harness/steps/container/ContainerStepInitHelper.java:276-290 | the map has one key per fully qualified reference among the infos, holding the details of the last info with it |
| ContainerStepInit.SecretRefEntries | pipeline-service/modules/orchestration-steps/src/main/java/io/harness/steps/container/ContainerStepInitHelper.java:311 | the entries whose value is a secret reference, unchanged |
| ContainerStepInit.PlainEntries | pipeline-service/modules/orchestration-steps/src/main/java/io/harness/steps/container/ContainerStepInitHelper.java:311 | the entries whose value is not a secret reference, unchanged |
| ContainerStepInit.MergeEnvVars | pipeline-service/modules/orchestration-steps/src/main/java/io/harness/steps/container/ContainerStepInitHelper.java:273-316 | the variables are the customer's without secret references, then the common ones over them, then for a service the log key "<logPrefix>/serviceId:<id>" over all; the secret references are set apart |
| ContainerStepInit.CreateContainerParams | pipeline-service/modules/orchestration-steps/src/main/java/io/harness/steps/container/ContainerStepInitHelper.java:268-357 | name, type and ports come from the definition; the environment as MergeEnvVars says; the internal image connector for harness-managed images, else the named one or none; the qualified image name; the definition's flags over the base security context; the privileged and user flags only off Windows; a working directory exactly for non-service containers; the connector details of the step |
| ContainerStepInit.LastInfoWithRef | pipeline-service/modules/orchestration-steps/src/main/java/io/harness/steps/container/ContainerStepInitHelper.java:282-288 | a reference that occurs among the infos has a last occurrence |
| ContainerStepInit.DetailsDetermined | pipeline-service/modules/orchestration-steps/src/main/java/io/harness/steps/container/ContainerStepInitHelper.java:276-290 | the connector details are fully determined by the infos |
| ContainerStepInit.EnvDetermined | pipeline-service/modules/orchestration-steps/src/main/java/io/harness/steps/container/ContainerStepInitHelper.java:273-316 | the environment rules leave exactly one pair of maps |
| ContainerStepInit.ParamsDetermined | pipeline-service/modules/orchestration-steps/src/main/java/io/harness/steps/container/ContainerStepInitHelper.java:268-357 | the parameter contract leaves exactly one parameter set per definition |
| ContainerStepInit.ContainerParamsList | pipeline-service/modules/orchestration-steps/src/main/java/io/harness/steps/container/ContainerStepInitHelper.java:217-232 | one parameter set per definition, in order, each as CreateContainerParams says |
| ContainerStepInit.CleanupContainerNames | pipeline-service/modules/orchestration-steps/src/main/java/io/harness/steps/container/ContainerStepInitHelper.java:369-372 | the names of the pod's containers in order, then the set-up add-on's |
| ContainerStepInit.K8InitializeTaskParams | pipeline-service/modules/orchestration-steps/src/main/java/io/harness/steps/container/ContainerStepInitHelper.java:517-531 | another infrastructure type is "Invalid infrastructure type: <type>"; otherwise fails exactly when the dispatch does; on success one container per definition in order, each built from its definition as CreateContainerParams does (ParamsFor with the refs of StepConnectorRefsOf), and then the lite engine, the set-up add-on as init container, the clean-up names, and the base labels with the infrastructure's over them (the same file, lines 128-165, 176-215, as well) |
| ContainerStepInit.CleanupNamesOrder | pipeline-service/modules/orchestration-steps/src/main/java/io/harness/steps/container/ContainerStepInitHelper.java:210-213 | the clean-up list names each step container, then the lite engine, then the set-up add-on (the same file, lines 369-372, as well) |
| EnvGroupExpansion.Get | 125-cd-nextgen/src/main/java/io/harness/pms/governance/EnvironmentGroupExpandedHandler.java:43 | JsonNode.get: a node exactly when the node is an object with that field, and then that field's value (the same file, lines 54, 62, 112, as well) |
| EnvGroupExpansion.ExpandedEnvironments | 125-cd-nextgen/src/main/java/io/harness/pms/governance/EnvironmentGroupExpandedHandler.java:117-120 | the environments exist exactly when every element converts, and are then the conversions of the elements, in order |
| EnvGroupExpansion.FirstThrownMessage | 125-cd-nextgen/src/main/java/io/harness/pms/governance/EnvironmentGroupExpandedHandler.java:118-119 | the message of an element that throws with every element before it converting |
| EnvGroupExpansion.GenerateEnvironmentsExpansion | 125-cd-nextgen/src/main/java/io/harness/pms/governance/EnvironmentGroupExpandedHandler.java:110-121 | a missing field throws, a non-array throws "environments field is not an array", and otherwise each element is converted in turn and the first exception ends the loop |
| EnvGroupExpansion.FirstThrownIsAt | 125-cd-nextgen/src/main/java/io/harness/pms/governance/EnvironmentGroupExpandedHandler.java:117-120 | when the elements before one convert and it throws, its message is the one the expansion throws |
| EnvGroupExpansion.MetadataMap | 125-cd-nextgen/src/main/java/io/harness/pms/governance/EnvironmentGroupExpandedHandler.java:43-52 | the map holds at most the key "parallel", and holds it exactly when the metadata is an object that parses with parallel set (the same file, lines 88-91, as well) |
| EnvGroupExpansion.DeployToAll | 125-cd-nextgen/src/main/java/io/harness/pms/governance/EnvironmentGroupExpandedHandler.java:62-66 | the flag exactly when the field is a boolean, and then its value |
| EnvGroupExpansion.Expand | 125-cd-nextgen/src/main/java/io/harness/pms/governance/EnvironmentGroupExpandedHandler.java:38-60 | a non-object field value is "field value is not an object", and a missing envGroupRef "environmentGroupRef value is not present in the yaml", in that order |
| EnvGroupExpansion.NonTextualRefFails | 125-cd-nextgen/src/main/java/io/harness/pms/governance/EnvironmentGroupExpandedHandler.java:68-73 | a present non-textual reference is "environmentGroupRef value is not a text field in the yaml", whatever else the field holds |
| EnvGroupExpansion.UnknownGroupFails | 125-cd-nextgen/src/main/java/io/harness/pms/governance/EnvironmentGroupExpandedHandler.java:77-85 | an unknown group is "Environment group ref <ref> not found", before the environments are looked at |
| EnvGroupExpansion.NonArrayEnvironmentsFail | 125-cd-nextgen/src/main/java/io/harness/pms/governance/EnvironmentGroupExpandedHandler.java:105-115 | a non-array environments field becomes the failure response "environments field is not an array" |
| EnvGroupExpansion.ExpandSucceeds | 125-cd-nextgen/src/main/java/io/harness/pms/governance/EnvironmentGroupExpandedHandler.java:87-104 | with a textual reference, the expansion succeeds exactly when the group is found and the environments expand; it then carries the environmentGroup key, the REPLACE placement, the group's name and identifier, the environments, the metadata map and deployToAll |
| EnvGroupExpansion.ExpandedEnvironmentsInOrder | 125-cd-nextgen/src/main/java/io/harness/pms/governance/EnvironmentGroupExpandedHandler.java:117-120 | on success there is one environment per element of the array, each its conversion, in order |
| EnvAccessControl.EnvironmentAttributes | 125-cd-nextgen/src/main/java/io/harness/cdng/serviceoverridesv2/validators/EnvironmentNGAccessControlCheckHelper.java:68-72 | the attribute map has the single key "type", holding the environment type |
| EnvAccessControl.PermissionChecks | 125-cd-nextgen/src/main/java/io/harness/cdng/serviceoverridesv2/validators/EnvironmentNGAccessControlCheckHelper.java:50-66 | two checks with the same permission, scope and resource type ENVIRONMENT: the first on the identifier without attributes, the second on the attributes without identifier |
| EnvAccessControl.CheckAccess | 125-cd-nextgen/src/main/java/io/harness/cdng/serviceoverridesv2/validators/EnvironmentNGAccessControlCheckHelper.java:33-48 | allowed exactly when some returned entry is permitted, a null list counting as none; a denial names the permission, the ENVIRONMENT type and the identifier, and carries both checks |
| ConnectorPush.GetConnectorInfo | idp-service/src/main/java/io/harness/idp/gitintegration/processor/base/ConnectorProcessor.java:68-76 | the connector found, or the InvalidRequest "Connector not found for identifier: [id], accountIdentifier: [account]" |
| ConnectorPush.ChooseBranch | idp-service/src/main/java/io/harness/idp/gitintegration/processor/base/ConnectorProcessor.java:107-116 | the catalog branch, not new, when the remote has refs/heads/<branch>; otherwise a new branch off the target of HEAD; a remote with neither is the NullPointerException of line 115 |
| ConnectorPush.NewBranchIffMissing | idp-service/src/main/java/io/harness/idp/gitintegration/processor/base/ConnectorProcessor.java:110-116 | a new branch is created exactly when the catalog branch is not on the remote |
| ConnectorPush.Substring | idp-service/src/main/java/io/harness/idp/gitintegration/processor/base/ConnectorProcessor.java:120-124 | Java's substring(begin): defined exactly for a begin within the string, and then its suffix from there |
| ConnectorPush.RepoNameAsWritten | idp-service/src/main/java/io/harness/idp/gitintegration/processor/base/ConnectorProcessor.java:119-124 | the name as the code computes it: the only failure is substring's IndexOutOfBounds, and every URL ending in "/" fails |
| ConnectorPush.TrailingSlashThrows | idp-service/src/main/java/io/harness/idp/gitintegration/processor/base/ConnectorProcessor.java:119-124 | as written, every repository URL ending in "/" throws IndexOutOfBounds: the cut string is shorter than the start index taken from the uncut one |
| ConnectorPush.AfterLastSlash | idp-service/src/main/java/io/harness/idp/gitintegration/processor/base/ConnectorProcessor.java:124 | the text after the last "/" holds no "/" and ends the string |
| ConnectorPush.RepoName | idp-service/src/main/java/io/harness/idp/gitintegration/processor/base/ConnectorProcessor.java:119-124 | as intended: fails only on an empty URL; the name holds no "/" and, without a trailing slash, ends the URL |
| ConnectorPush.RepoNameAgreesWithoutTrailingSlash | idp-service/src/main/java/io/harness/idp/gitintegration/processor/base/ConnectorProcessor.java:119-124 | without a trailing slash the code as written and the intended name agree |
| ConnectorPush.RepoNameIgnoresTrailingSlash | idp-service/src/main/java/io/harness/idp/gitintegration/processor/base/ConnectorProcessor.java:119-124 | as intended, a trailing slash does not change the name |
| ConnectorPush.RepoNameCounterexample | idp-service/src/main/java/io/harness/idp/gitintegration/processor/base/ConnectorProcessor.java:119-124 | for "h/o/catalog/" the code as written throws while the intended name is "catalog" |
| ConnectorPush.PathsRelativeToParent | idp-service/src/main/java/io/harness/idp/gitintegration/processor/base/ConnectorProcessor.java:128-171 | a file directly under the parent gets its relative path through gRPC and keeps its leading slash through JGit |
| ConnectorPush.GrpcSendsShape | idp-service/src/main/java/io/harness/idp/gitintegration/processor/base/ConnectorProcessor.java:127-156 | the loop sends one request per file, in order, for a prefix of the files, all of them when it succeeds; each with the gRPC path and the file's content |
| ConnectorPush.SendsStep | idp-service/src/main/java/io/harness/idp/gitintegration/processor/base/ConnectorProcessor.java:127-156 | one step of the loop: an unreadable file stops with nothing sent; otherwise its request is sent and a status of 300 or more or an exception stops the loop |
| ConnectorPush.SendFiles | idp-service/src/main/java/io/harness/idp/gitintegration/processor/base/ConnectorProcessor.java:127-156 | the for loop sends what GrpcSends describes |
| ConnectorPush.GrpcPushWith | idp-service/src/main/java/io/harness/idp/gitintegration/processor/base/ConnectorProcessor.java:96-161 | once the repository name (or its exception) is known: lists the remote with the catalog's repository, the credentials, the connector and the account; a failed name computation sends nothing; otherwise at most one request per file, all of them unless one fails; the only errors are the missing-HEAD NullPointerException, the name's own exception and the UnexpectedException "Error response while pushing files ..." |
| ConnectorPush.GrpcPushSpec | idp-service/src/main/java/io/harness/idp/gitintegration/processor/base/ConnectorProcessor.java:96-161 | the push as written: the same listing and per-file requests, and a repository URL ending in "/" throws (IndexOutOfBounds, or the missing-HEAD NullPointerException first) before any file is sent |
| ConnectorPush.GrpcPushCorrected | idp-service/src/main/java/io/harness/idp/gitintegration/processor/base/ConnectorProcessor.java:119-161 | the push with the intended repository name: for a non-empty URL it fails only with the missing-HEAD NullPointerException or the UnexpectedException, so a trailing "/" no longer stops it |
| ConnectorPush.GrpcPushAgreesWithoutTrailingSlash | idp-service/src/main/java/io/harness/idp/gitintegration/processor/base/ConnectorProcessor.java:119-124 | for a URL not ending in "/" the push as written and the corrected push are the same |
| ConnectorPush.PushGitServiceGrpc | idp-service/src/main/java/io/harness/idp/gitintegration/processor/base/ConnectorProcessor.java:96-161 | the method computes what GrpcPushSpec describes |
| ConnectorPush.GrpcRequestsInOrder | idp-service/src/main/java/io/harness/idp/gitintegration/processor/base/ConnectorProcessor.java:127-147 | once the branch and the as-written name are known, a failure is the UnexpectedException, and every request names the file's path and content, that repository name, the catalog branch, the account-scoped connector and the branch choice |
| ConnectorPush.GrpcStopsAtFirstFailure | idp-service/src/main/java/io/harness/idp/gitintegration/processor/base/ConnectorProcessor.java:148-155 | every request before the last one sent went through with a status below 300, and all of them did when the push succeeds |
| ConnectorPush.JGitChanges | idp-service/src/main/java/io/harness/idp/gitintegration/processor/base/ConnectorProcessor.java:166-181 | the ADD changes exist exactly when every file can be read, and are then one per file, in order, with the JGit path, the content and the account |
| ConnectorPush.JGitPushSpec | idp-service/src/main/java/io/harness/idp/gitintegration/processor/base/ConnectorProcessor.java:163-201 | the preparation error "Error in preparing git files for commit." exactly when some file cannot be read; otherwise one commit request to the catalog's repository and branch, marked possibly new, at depth 1, with the connector, the account and the credentials, the user as author, the configured e-mail and message, and one ADD change per file in order, holding that file's JGit path and content |
| ConnectorPush.PushJGit | idp-service/src/main/java/io/harness/idp/gitintegration/processor/base/ConnectorProcessor.java:163-201 | the outcome is JGitPushSpec's: an unreadable file is "Error in preparing git files for commit."; otherwise the commit request holds the repository, the branch as possibly new, depth 1, the connector, the account, the credentials, the changes, the user as author and the commit message |
| ConnectorPush.PushOperationInternal | idp-service/src/main/java/io/harness/idp/gitintegration/processor/base/ConnectorProcessor.java:84-94 | the gRPC push as written (GrpcPushSpec) exactly when asked for, otherwise the JGit push with exactly the commit JGitPushSpec describes; both use the given user name and password |
| BitbucketConnector.InfraConnectorType | idp-service/src/main/java/io/harness/idp/gitintegration/processor/impl/BitbucketConnectorProcessor.java:36-39 | PROXY for a connector that runs through a delegate, DIRECT otherwise |
| BitbucketConnector.ConnectorAndSecretsInfo | idp-service/src/main/java/io/harness/idp/gitintegration/processor/impl/BitbucketConnectorProcessor.java:43-78 | a connector that is not Bitbucket, then one without username and password authentication, then one with an empty password secret are refused with their messages, in that order; otherwise exactly two variables, the user name as a configuration value and the token as a reference to the password secret |
| BitbucketConnector.ConnectorTypeCheckedFirst | idp-service/src/main/java/io/harness/idp/gitintegration/processor/impl/BitbucketConnectorProcessor.java:45-58 | a wrong connector type is reported whatever the authentication and the secret are |
| BitbucketConnector.PushOperation | idp-service/src/main/java/io/harness/idp/gitintegration/processor/impl/BitbucketConnectorProcessor.java:80-98 | a missing connector and a refused connector stop the push with their errors; otherwise it pushes with the connector's user name and the decrypted token, through gRPC exactly when asked (GrpcPushSpec), else through JGit with the commit JGitPushSpec describes |

## Left out

- Persistence, the node-execution and plan stores, the Mongo queries, REST, gRPC and git clients, kubectl and logging are not modelled. Their answers are parameters of the members that use them.
- Concurrency is left out: the atomic run-sequence increment is a plain input value, and the retry-on-concurrent-modification of the composite SLO update is not modelled.
- UUID generation is a supply of distinct fresh ids, given as a function from an index to an id.
- YAML and JSON parsing and rendering are left out. The processed YAML is its list of stage entries (a stage, or a parallel block), FQNs are sequences of nodes, and the pattern matchers of the expression utilities are predicate parameters.
- Java HashMap iteration order is not modelled as such. A map that is iterated is an entry sequence whose order stands for the iteration order (LinkedMap), or a key order given as a parameter (CompositeSLO.KeySetOrder).
- Floating point: composite SLO weights, the division by 100 and the running counts are exact `real`, so IEEE rounding is not modelled. Timestamps are integers.
- Constants defined in classes outside the modelled files are parameters: the account scope name, the commit message, the Bitbucket connector and auth type names and environment variable names, the PROXY and DIRECT names, the container step prefix, the YAML file extension, the pipeline-rollback stage name and the onboarding constants. The access-control resource type is the string "ENVIRONMENT".
- mapPlanNodeToIdentityNode is not part of this model. The building of an identity node assumes that it copies the plan node's identifying fields and sets no adviser of its own.
- RollbackMode.TransformProcessedYaml: a parallel block is a first stage and the rest, so it is never empty. The source reads element 0 of the `parallel` array (RollbackModeExecutionHelper.java:190-194), and an empty array there would fail with a NullPointerException; that case is not modelled.
- RollbackMode.AddAdvisersSpec and RollbackMode.IdentityNodesSpec: when two node executions share a plan-node id, the last one written wins. The lemmas about the final map state that the entry comes from some execution with that id, and they are exact only when those ids are distinct.
- A test of the pipeline executor calls transformPlanExecutionMetadata with five arguments where the main source takes four. The model follows the main source.
- IdentityStrategy: handleChildrenResponse only delegates to the step-response aggregation of the children, which is outside the modelled files. Saving the identity nodes to the plan is recorded as the returned list of new nodes.
- RuntimeInputForm: the in-place update of the YAML JsonNode is modelled as the updated FQN-to-value map that is returned, and the race on the shared JsonNode is not modelled.
- InstanceSync: the final publish of a run carries isSuccessful = false together with the SUCCESS status. The model states this as the source does.
- GithubPackages: the JSON parsing of the responses (processResponse and processPackagesResponse) and the package labels are left out. listPackages is modelled on already parsed package entries.
- GithubPackages: build details are values, so the aliasing and in-place mutation of shared BuildDetails objects is not modelled.
- GithubPackages: ExceptionUtils.getMessage(e) is not modelled. An ArtifactServer error keeps its cause instead of that message text. GithubPackagesServerRuntimeException is not raised by any modelled path.
- GithubPackages: the Docker manifest and token fetches behind getBuild are parameters (the two SHA lookups), and java.util.regex matching and the SHA test are predicate parameters.
- GithubPackages.GetBuilds and GithubPackages.GetLastSuccessfulBuildFromRegex: the source compiles the version pattern before its try block, so an invalid pattern throws PatternSyntaxException to the caller. The matching predicate here cannot fail, so that error path is not modelled.
- GithubPackages.RegexFilteringForGetBuilds: a build's tags are in the order its metadata lists them, which stands for the source's HashMap key order. The build the loop keeps, named after the first selected tag, and NarrowedIsStable and RegexFilteredIdempotent hold for that order; with the real HashMap order a different tag may be chosen.
- GithubPackages.FetchVersions: the server's pages are a finite list, and past its end it answers an empty page, so the page loop always ends. A server that keeps answering full pages of 100 versions would make the source loop forever; that non-termination is not modelled.
- Onboarding: String.split is modelled with Java's rule that trailing empty strings are dropped. Adding a second project to an org's Collections.singletonList fails with UnsupportedOperationException, and the model reports it as an error.
- Onboarding: the orchestration in getOrgProjectService and the Backstage and NG fetches are left out. The found counts and entity lists are parameters, and so are file writes and event publishing.
- CompositeSLO: the missing-data map is assumed to hold every SLO detail, so the null-pointer failure for an absent detail is not modelled. The scoped identifier of an SLO is a field of its detail.
- CompositeSLO: evaluation types other than WINDOW and REQUEST are one constructor, OtherEvaluation. The IllegalStateException of the duplicate-timestamp toMap carries no message.
- CompositeSLO.UpdateRecords and CompositeSLO.Create: their update flow uses the corrected builders CompositeSLO.UpdateWindowRecords and CompositeSLO.UpdateRequestRecords, not the source's updateWindowCompositeSLORecords and updateRequestCompositeSLORecords, which also write incomplete minutes (see Findings). The update as written is CompositeSLO.UpdateRecordsAsWritten, and Create does not promise what the source writes for incomplete minutes.
- CompositeSLO.UpdateWindowAsWritten and CompositeSLO.UpdateRequestAsWritten use value semantics. The source mutates a shared record object and adds it again, so list entries that were already added also change; these functions do not capture that aliasing.
- CompositeSLO: the health-indicator upsert and persistence are left out. The stored records, the last record and the latest record are parameters. The update path of Create uses the corrected update builders (see Findings).
- K8sBlueGreen: kubectl apply, hooks, steady-state checks, pod listing, the cleanup of old releases (cleanupForBlueGreen), the deletion of resources by pruning (pruneForBg, in K8sBGBaseHandler, which is not part of this model) and release-history storage are left out. The manifest edits are recorded as values, not performed. Pruning is the step `Prune`, which runs only when pruning is enabled and may fail like any other external step.
- K8sBlueGreen: revision numbers, the hint and explanation texts of exceptions, and the cluster lookup of the stage service that is only logged are left out. The NotBlueGreenRequest failure carries no message text.
- K8sBlueGreen: getInverseColor, getPrimaryColor and the ManifestHelper lookups are parameters. A lookup is a predicate whose first matching resource is taken. A latest release without a colour is a None colour, and the release colour sits only in the override context.
- K8sBlueGreen.VersioningEdits, K8sBlueGreen.LabellingEdits and K8sBlueGreen.AfterFailure have no contracts of their own. The lemmas that use them (PrepareVersioning, PrepareLabels and FailedReleaseSavedOnlyAfterPreparation) state their properties.
- ContainerStepInit: removeEnvVarsWithSecretRef is modelled through an is-secret-reference predicate parameter.
- Text.ToLower (used by ContainerStepInit.ContainerName and GithubPackages.ConstructBuildDetails): only the ASCII letters A to Z are lower-cased. Java's toLowerCase also folds other Unicode letters, which the model does not.
- ContainerStepInit: each container gets its own security context from the infrastructure (ContainerStepInitHelper.java:228, and separately for the lite-engine and add-on containers at 257 and 264); the container builder then sets privileged and runAsUser on that object in place (lines 318-323). The model takes the infrastructure's context as the value ContainerStepInit.InitContext.baseSecurityContext and builds each container's context as a new value, so the in-place update of the context object is not captured.
- ContainerStepInit: only SSCA orchestration is a plugin step, and the first free port is a parameter.
- ContainerStepInit: pod-name generation (getPodName), the log context, the image pull policy (resolved for run steps, null for plugin steps and copied into the container parameters), resources, commands and args, volumes, the ports sweeping output, annotations, the node selector, tolerations, secret resolution and the Kubernetes connector lookup are left out.
- EnvGroupExpansion: a missing environments field is a null-pointer failure with no message (None). Metadata goes through a parse parameter, and a failed parse gives the default metadata. The group lookup folds in its scope, and the conversion of each environment is a parameter.
- EnvAccessControl: the access-control client's own failures are not modelled; its answer is a parameter.
- ConnectorPush: the gRPC log context, the principal and scope identifiers and the retry wrapper are left out. commitAndPush itself is not modelled; the model records the commit request handed to it. The author email is a parameter.
- BitbucketConnector: secret decryption is a parameter.

## Findings

| source | as written | input that shows it | evidently intended | confidence | as-written member | corrected member |
|---|---|---|---|---|---|---|
| srm-service/modules/cv-nextgen-service/service/src/main/java/io/harness/cvng/servicelevelobjective/services/impl/CompositeSLORecordServiceImpl.java:241-276 | updateWindowCompositeSLORecords adds a record for every minute of the window, reusing the previous record or building one from the running sums, even when not every SLO contributed to that minute | two SLOs, the first with only a good minute 1 and the second with only a minute 2, and no stored records: minute 1 gets a composite record although only one SLO contributed | only minutes to which every SLO contributed are written, as on the create path | not executed | CompositeSLO.UpdateWindowWritesIncompleteMinute | CompositeSLO.UpdateWindowRecords |
| srm-service/modules/cv-nextgen-service/service/src/main/java/io/harness/cvng/servicelevelobjective/services/impl/CompositeSLORecordServiceImpl.java:278-309 | updateRequestCompositeSLORecords adds a record for every minute in the key set, including minutes with fewer SLO records than SLOs | the same two SLOs with minute 1 first in the key order: minute 1 gets a composite record although only one SLO contributed | only minutes to which every SLO contributed are written, as on the create path | not executed | CompositeSLO.UpdateRequestWritesIncompleteMinute | CompositeSLO.UpdateRequestRecords |
| idp-service/src/main/java/io/harness/idp/gitintegration/processor/base/ConnectorProcessor.java:119-124 | for a repository URL ending in "/", the start index lastIndexOf("/") + 1 is taken from the uncut URL, so it equals the URL's length, one beyond the cut string, and substring throws StringIndexOutOfBoundsException | the URL "h/o/catalog/" | the last path segment, "catalog" | not executed | ConnectorPush.TrailingSlashThrows | ConnectorPush.RepoName |
