/**
 * K8sBGRequestHandler: the delegate task of a Kubernetes blue/green deployment. The handler checks
 * that the request is a blue/green one, then renders the manifests (init), then prepares them
 * (prepareForBlueGreen), then applies them while keeping the release history:
 *   - preparation finds the single workload, resolves the primary service and the stage service
 *     (cloning it from the primary when there is none), and derives the stage colour from the
 *     primary's colour in the cluster;
 *   - it then names and labels the workload and the services with those colours.
 *
 * Parameters stand for the collaborators:
 *   - kubectl, the cluster and the release store;
 *   - the ManifestHelper lookups, as predicates over resources;
 *   - getPrimaryColor and getInverseColor, as functions.
 *
 * The handler's fields are the class below. `State()` reads them as one value, and the
 * functions that specify the methods work on that value.
 */
module K8sBlueGreen {
  import opened Wrappers

  datatype ResourceId = ResourceId(kind: string, name: string, namespace: string)

  /** A KubernetesResource: its id and the label maps the handler edits. */
  datatype Resource = Resource(
    id: ResourceId,
    podLabels: map<string, string>,
    workloadSelector: map<string, string>,
    serviceSelector: map<string, string>)

  /**
   * The ManifestHelper lookups the handler relies on, each a predicate over one resource:
   *   - getWorkloadsForCanaryAndBG keeps every resource satisfying `isBlueGreenWorkload`;
   *   - getServices keeps those satisfying `isService`;
   *   - getPrimaryService, getStageService and getManagedWorkload give the first resource
   *     satisfying their predicate, or null.
   */
  datatype ManifestLookups = ManifestLookups(
    isBlueGreenWorkload: Resource -> bool,
    isManagedWorkload: Resource -> bool,
    isService: Resource -> bool,
    isPrimaryService: Resource -> bool,
    isStageService: Resource -> bool)

  /** HarnessLabelValues.colorDefault, the HarnessLabels keys and the release-secret colour key. */
  datatype HarnessConstants = HarnessConstants(
    colorDefault: string,
    releaseNameLabel: string,
    colorLabel: string,
    releaseColorKey: string)

  /** The external steps of a deployment whose failure the model follows. */
  datatype ExternalStep = FetchManifests | RenderManifests | DryRun | ApplyManifests | SteadyStateCheck | WrapUp | Prune

  /** What the release history answers during init. */
  datatype HistoryView = HistoryView(
    nextReleaseNumber: int,          // getAndIncrementLastReleaseNumber
    isEmpty: bool,
    latestReleaseColor: Option<string>, // the latest release's colour; None when there is none
    oldHistoryNextNumber: int)       // getNextReleaseNumberFromOldReleaseHistory

  /** Everything outside the handler that a run consults. */
  datatype Environment = Environment(
    lookups: ManifestLookups,
    constants: HarnessConstants,
    primaryColorOf: Resource -> Option<string>,
    inverseColor: string -> string,
    history: HistoryView,
    rendered: seq<Resource>,
    failsAt: Option<ExternalStep>)

  datatype DeployRequest =
    | BlueGreenRequest(releaseName: string, useDeclarativeRollback: bool, skipResourceVersioning: bool,
                       pruningEnabled: bool, skipDryRun: bool)
    | OtherRequest

  /**
   * The errors the handler raises. Each one is identified by its kind and the values formatted
   * into it. The hint, explanation and message texts are Kubernetes exception constants, kept out.
   */
  datatype BGError =
    | NotBlueGreenRequest
    | NoWorkloadsFound
    | MultipleWorkloads(workloads: seq<ResourceId>)
    | NoServiceFound
    | MultiplePrimaryServices(services: seq<ResourceId>)
    | ConflictingService(serviceName: string)
    | NoManagedWorkload            // getManagedWorkload answered null: a NullPointerException
    | StepFailed(step: ExternalStep)

  /** The edits of resources done by K8sTaskHelperBase, recorded in the order they are made. */
  datatype ResourceEdit = MarkVersioned | AddRevisionNumber(number: int) | AddColorSuffixToConfigsAndSecrets(color: string)

  datatype ReleaseStatus = InProgress | Succeeded | Failed

  datatype Release = Release(
    name: string,
    number: int,
    status: ReleaseStatus,
    resources: seq<Resource>,
    pruningEnabled: bool,
    secretLabels: map<string, string>,
    managedWorkload: Option<ResourceId>)

  /** releaseHandler.createRelease(name, number). */
  function NewRelease(name: string, number: int): Release
  {
    Release(name, number, InProgress, [], false, map[], None)
  }

  datatype BGResponse = BGResponse(
    releaseNumber: int,
    primaryServiceName: string,
    stageServiceName: string,
    stageColor: string,
    primaryColor: string)

  datatype Outcome = Deployed(response: BGResponse) | Aborted(error: BGError)

  datatype Checked<T> = Pass(value: T) | Fail(error: BGError)

  /** The handler's fields. Services and the workload are positions in `resources`, which they alias. */
  datatype HandlerState = HandlerState(
    releaseName: string,
    useDeclarativeRollback: bool,
    currentReleaseNumber: int,
    releaseColor: Option<string>,
    resources: seq<Resource>,
    edits: seq<ResourceEdit>,
    primaryService: Option<nat>,
    stageService: Option<nat>,
    managedWorkload: Option<nat>,
    primaryColor: Option<string>,
    stageColor: Option<string>,
    release: Option<Release>,
    releaseInHistory: bool,
    saved: seq<Release>,
    shouldSaveReleaseHistory: bool)

  /** The fields of a handler nothing has run on yet. */
  function Fresh(): HandlerState
  {
    HandlerState("", false, 0, None, [], [], None, None, None, None, None, None, false, [], false)
  }

  // ---------------------------------------------------------------- lookups

  /** The positions of the resources satisfying `p`, in order. */
  function Matching(rs: seq<Resource>, p: Resource -> bool): (r: seq<nat>)
    ensures forall k :: 0 <= k < |r| ==> r[k] < |rs| && p(rs[r[k]])
    ensures forall i :: 0 <= i < |rs| && p(rs[i]) ==> i in r
    ensures forall k, l :: 0 <= k < l < |r| ==> r[k] < r[l]
  {
    if rs == [] then []
    else
      var r0 := Matching(rs[..|rs| - 1], p);
      if p(rs[|rs| - 1]) then r0 + [|rs| - 1] else r0
  }

  /** The first position whose resource satisfies `p`. */
  function FirstMatching(rs: seq<Resource>, p: Resource -> bool): (r: Option<nat>)
    ensures r.Some? ==> r.value < |rs| && p(rs[r.value]) && forall j :: 0 <= j < r.value ==> !p(rs[j])
    ensures r.None? ==> forall j :: 0 <= j < |rs| ==> !p(rs[j])
  {
    if rs == [] then None
    else if p(rs[0]) then Some(0)
    else
      match FirstMatching(rs[1..], p)
      case None => None
      case Some(i) => Some(i + 1)
  }

  function Ids(rs: seq<Resource>, positions: seq<nat>): (r: seq<ResourceId>)
    requires forall k :: 0 <= k < |positions| ==> positions[k] < |rs|
    ensures |r| == |positions|
    ensures forall k :: 0 <= k < |positions| ==> r[k] == rs[positions[k]].id
  {
    seq(|positions|, k requires 0 <= k < |positions| => rs[positions[k]].id)
  }

  /** The first two positions of an increasing sequence differ. */
  lemma IncreasingStart(w: seq<nat>)
    requires forall k, l :: 0 <= k < l < |w| ==> w[k] < w[l]
    ensures |w| >= 2 ==> w[0] < w[1]
  {
  }

  ghost predicate ExactlyOne(rs: seq<Resource>, p: Resource -> bool)
  {
    exists i :: 0 <= i < |rs| && p(rs[i]) && forall j :: 0 <= j < |rs| && p(rs[j]) ==> j == i
  }

  lemma ExactlyOneMatching(rs: seq<Resource>, p: Resource -> bool)
    ensures ExactlyOne(rs, p) <==> |Matching(rs, p)| == 1
  {
    var w := Matching(rs, p);
    if |w| == 1 {
      var i := w[0];
      forall j | 0 <= j < |rs| && p(rs[j]) ensures j == i {
        assert j in w;
      }
    }
    if ExactlyOne(rs, p) {
      var i :| 0 <= i < |rs| && p(rs[i]) && forall j :: 0 <= j < |rs| && p(rs[j]) ==> j == i;
      assert i in w;
      forall k | 0 <= k < |w| ensures w[k] == i {
        assert p(rs[w[k]]);
      }
      IncreasingStart(w);
    }
  }

  /** The workload check of prepareForBlueGreen: exactly one workload, else one of two errors. */
  function WorkloadCheck(rs: seq<Resource>, isWorkload: Resource -> bool): (r: Option<BGError>)
    ensures r.Some? ==> !r.value.StepFailed?
    ensures r.None? <==> ExactlyOne(rs, isWorkload)
    ensures Matching(rs, isWorkload) == [] ==> r == Some(NoWorkloadsFound)
    ensures |Matching(rs, isWorkload)| > 1 ==>
              r == Some(MultipleWorkloads(Ids(rs, Matching(rs, isWorkload))))
  {
    ExactlyOneMatching(rs, isWorkload);
    var w := Matching(rs, isWorkload);
    if |w| == 1 then None
    else if w == [] then Some(NoWorkloadsFound)
    else Some(MultipleWorkloads(Ids(rs, w)))
  }

  /**
   * The primary service: the annotated one if any; otherwise the only service, and an error
   * when there is none or more than one.
   */
  function ResolvePrimary(rs: seq<Resource>, lookups: ManifestLookups): (r: Checked<nat>)
    ensures r.Fail? ==> !r.error.StepFailed?
    ensures r.Pass? ==> r.value < |rs|
  {
    match FirstMatching(rs, lookups.isPrimaryService)
    case Some(i) => Pass(i)
    case None =>
      var services := Matching(rs, lookups.isService);
      if |services| == 1 then Pass(services[0])
      else if services == [] then Fail(NoServiceFound)
      else Fail(MultiplePrimaryServices(Ids(rs, services)))
  }

  /** What ResolvePrimary answers, case by case. */
  lemma ResolvePrimarySpec(rs: seq<Resource>, lookups: ManifestLookups)
    ensures var r := ResolvePrimary(rs, lookups);
      && (FirstMatching(rs, lookups.isPrimaryService).Some? ==>
            r == Pass(FirstMatching(rs, lookups.isPrimaryService).value))
      && (FirstMatching(rs, lookups.isPrimaryService).None? ==>
            && (r.Pass? <==> ExactlyOne(rs, lookups.isService))
            && (r.Pass? ==> lookups.isService(rs[r.value]))
            && (Matching(rs, lookups.isService) == [] ==> r == Fail(NoServiceFound))
            && (|Matching(rs, lookups.isService)| > 1 ==>
                  r == Fail(MultiplePrimaryServices(Ids(rs, Matching(rs, lookups.isService))))))
  {
    ExactlyOneMatching(rs, lookups.isService);
  }

  /**
   * The stage service parsed from the primary's spec: a copy of the primary, with "-stage"
   * appended to its name.
   */
  function StageClone(primary: Resource): (r: Resource)
    ensures r.id.kind == primary.id.kind && r.id.namespace == primary.id.namespace
    ensures r.id.name == primary.id.name + "-stage"
    ensures r.serviceSelector == primary.serviceSelector
  {
    primary.(id := primary.id.(name := primary.id.name + "-stage"))
  }

  /** The resources once a missing stage service has been appended: the clone of the primary at `p`. */
  function Staged(rs: seq<Resource>, lookups: ManifestLookups, p: nat): (r: seq<Resource>)
    requires p < |rs|
    ensures |r| >= |rs| && r[..|rs|] == rs
  {
    if FirstMatching(rs, lookups.isStageService).None? then rs + [StageClone(rs[p])] else rs
  }

  /** Where the stage service is once it has been resolved or cloned. */
  function StagePosition(rs: seq<Resource>, lookups: ManifestLookups): (r: nat)
    ensures FirstMatching(rs, lookups.isStageService).Some? ==> r < |rs|
  {
    match FirstMatching(rs, lookups.isStageService)
    case Some(i) => i
    case None => |rs|
  }

  /**
   * The labelling at the end of prepareForBlueGreen, in order:
   *   - the workload at `w` gets the suffix "-<stage>", the release-name and colour pod labels and
   *     the colour in its selector;
   *   - the service at `p` gets the primary colour in its selector;
   *   - the service at `st` gets the stage colour in its selector.
   */
  function Relabel(rs: seq<Resource>, w: nat, p: nat, st: nat, releaseName: string,
                   primaryColor: string, stage: string, c: HarnessConstants): (r: seq<Resource>)
    requires w < |rs| && p < |rs| && st < |rs|
    ensures |r| == |rs|
  {
    var workload := rs[w];
    var rs1 := rs[w := workload.(
      id := workload.id.(name := workload.id.name + "-" + stage),
      podLabels := workload.podLabels[c.releaseNameLabel := releaseName][c.colorLabel := stage],
      workloadSelector := workload.workloadSelector[c.colorLabel := stage])];
    var rs2 := rs1[p := rs1[p].(serviceSelector := rs1[p].serviceSelector[c.colorLabel := primaryColor])];
    rs2[st := rs2[st].(serviceSelector := rs2[st].serviceSelector[c.colorLabel := stage])]
  }

  function VersioningEdits(skip: bool, declarative: bool): seq<ResourceEdit>
  {
    if !skip && !declarative then [MarkVersioned] else []
  }

  function LabellingEdits(skip: bool, declarative: bool, number: int, stage: string): seq<ResourceEdit>
  {
    (if !skip && !declarative then [AddRevisionNumber(number)] else [])
    + (if declarative then [AddColorSuffixToConfigsAndSecrets(stage)] else [])
  }

  /** A handler whose flag is set has a release to save. */
  predicate HasReleaseToSave(s: HandlerState)
  {
    s.shouldSaveReleaseHistory ==> s.release.Some?
  }

  // ---------------------------------------------------------------- specification of the steps

  /** init: the release number, the colour of the release details, and the rendered manifests. */
  function InitSpec(s: HandlerState, request: DeployRequest, env: Environment): (r: (HandlerState, Option<BGError>))
    requires request.BlueGreenRequest?
    ensures r.0.shouldSaveReleaseHistory == s.shouldSaveReleaseHistory && r.0.release == s.release
    ensures r.0.releaseName == s.releaseName && r.0.useDeclarativeRollback == s.useDeclarativeRollback
    ensures r.0.saved == s.saved
    ensures r.1.Some? ==> r.1 == Some(StepFailed(RenderManifests)) || r.1 == Some(StepFailed(DryRun))
  {
    var h := env.history;
    var number := if s.useDeclarativeRollback && h.isEmpty then h.oldHistoryNextNumber else h.nextReleaseNumber;
    var color := if s.useDeclarativeRollback
                 then Some(env.inverseColor(h.latestReleaseColor.GetOr(env.constants.colorDefault)))
                 else None;
    var s1 := s.(currentReleaseNumber := number, releaseColor := color);
    if env.failsAt == Some(RenderManifests) then (s1, Some(StepFailed(RenderManifests)))
    else
      var s2 := s1.(resources := env.rendered);
      if !request.skipDryRun && env.failsAt == Some(DryRun) then (s2, Some(StepFailed(DryRun)))
      else (s2, None)
  }

  /** The services are resolved: both positions lie inside `resources`. */
  predicate ServicesResolved(s: HandlerState)
  {
    && s.primaryService.Some? && s.primaryService.value < |s.resources|
    && s.stageService.Some? && s.stageService.value < |s.resources|
  }

  /** The colours are chosen and a release exists. */
  predicate ColorsChosen(s: HandlerState)
  {
    ServicesResolved(s) && s.release.Some? && s.primaryColor.Some? && s.stageColor.Some?
  }

  /** A step of preparation leaves the request's fields, the number and the flag as they were. */
  predicate KeepsRequest(s: HandlerState, t: HandlerState)
  {
    && t.releaseName == s.releaseName && t.useDeclarativeRollback == s.useDeclarativeRollback
    && t.currentReleaseNumber == s.currentReleaseNumber && t.releaseColor == s.releaseColor
    && t.shouldSaveReleaseHistory == s.shouldSaveReleaseHistory && t.saved == s.saved
  }

  /**
   * The first part of prepareForBlueGreen: the versioning mark, the workload check, the primary
   * service, and the stage service, cloned when missing.
   */
  function ResolveServicesSpec(s: HandlerState, skip: bool, env: Environment): (r: (HandlerState, Option<BGError>))
    ensures KeepsRequest(s, r.0) && r.0.release == s.release
    ensures r.0.edits == s.edits + VersioningEdits(skip, s.useDeclarativeRollback)
    ensures r.1.Some? ==> !r.1.value.StepFailed?
    ensures r.1.None? ==> && ServicesResolved(r.0)
                           && ResolvePrimary(s.resources, env.lookups) == Pass(r.0.primaryService.value)
                           && r.0.stageService == Some(StagePosition(s.resources, env.lookups))
                           && r.0.resources == Staged(s.resources, env.lookups, r.0.primaryService.value)
  {
    var lk := env.lookups;
    var s1 := s.(edits := s.edits + VersioningEdits(skip, s.useDeclarativeRollback));
    var rs := s1.resources;
    var w := WorkloadCheck(rs, lk.isBlueGreenWorkload);
    if w.Some? then (s1, w) else LocateServicesSpec(s1, lk)
  }

  /** The primary service and the stage service, cloned from the primary when missing. */
  function LocateServicesSpec(s: HandlerState, lk: ManifestLookups): (r: (HandlerState, Option<BGError>))
    ensures KeepsRequest(s, r.0) && r.0.release == s.release && r.0.edits == s.edits
    ensures r.1.Some? ==> !r.1.value.StepFailed?
    ensures r.1.None? ==> && ServicesResolved(r.0)
                           && ResolvePrimary(s.resources, lk) == Pass(r.0.primaryService.value)
                           && r.0.stageService == Some(StagePosition(s.resources, lk))
                           && r.0.resources == Staged(s.resources, lk, r.0.primaryService.value)
  {
    var rs := s.resources;
    var s1 := s.(primaryService := FirstMatching(rs, lk.isPrimaryService),
                 stageService := FirstMatching(rs, lk.isStageService));
    var p := ResolvePrimary(rs, lk);
    if p.Fail? then (s1, Some(p.error))
    else (s1.(primaryService := Some(p.value), stageService := Some(StagePosition(rs, lk)),
              resources := Staged(rs, lk, p.value)),
          None)
  }

  /** The second part: the primary colour from the cluster, the stage colour, the new release. */
  function ChooseColorsSpec(s: HandlerState, skip: bool, env: Environment): (r: (HandlerState, Option<BGError>))
    requires ServicesResolved(s)
    ensures KeepsRequest(s, r.0)
    ensures r.0.resources == s.resources && r.0.primaryService == s.primaryService && r.0.stageService == s.stageService
    ensures r.1.Some? ==> !r.1.value.StepFailed? && r.0.edits == s.edits
    ensures r.1.None? ==> && ColorsChosen(r.0)
                           && r.0.primaryColor == env.primaryColorOf(s.resources[s.primaryService.value])
                           && r.0.stageColor == Some(env.inverseColor(r.0.primaryColor.value))
                           && r.0.release == Some(NewRelease(s.releaseName, s.currentReleaseNumber))
                           && r.0.edits == s.edits + LabellingEdits(skip, s.useDeclarativeRollback,
                                                                   s.currentReleaseNumber, r.0.stageColor.value)
  {
    var p := s.primaryService.value;
    var color := env.primaryColorOf(s.resources[p]);
    var s1 := s.(primaryColor := color);
    if color.None? then (s1, Some(ConflictingService(s.resources[p].id.name)))
    else
      var stage := env.inverseColor(color.value);
      (s1.(stageColor := Some(stage),
           release := Some(NewRelease(s.releaseName, s.currentReleaseNumber)),
           edits := s1.edits + LabellingEdits(skip, s.useDeclarativeRollback, s.currentReleaseNumber, stage)),
       None)
  }

  /**
   * The last part: the managed workload is found and then renamed and labelled, the services get
   * their colour selectors, and the release takes the resources.
   */
  function LabelSpec(s: HandlerState, pruning: bool, env: Environment): (r: (HandlerState, Option<BGError>))
    requires ColorsChosen(s)
    ensures KeepsRequest(s, r.0) && r.0.edits == s.edits
    ensures r.0.primaryService == s.primaryService && r.0.stageService == s.stageService
    ensures r.0.primaryColor == s.primaryColor && r.0.stageColor == s.stageColor
    ensures r.1.Some? ==> !r.1.value.StepFailed?
    ensures r.1.None? ==> && ColorsChosen(r.0) && r.0.managedWorkload.Some?
                           && r.0.managedWorkload.value < |r.0.resources|
                           && r.0.release.value.number == s.release.value.number
  {
    var stage := s.stageColor.value;
    var declarative := s.useDeclarativeRollback;
    match FirstMatching(s.resources, env.lookups.isManagedWorkload)
    case None => (s.(managedWorkload := None), Some(NoManagedWorkload))
    case Some(mw) =>
      var labelled := Relabel(s.resources, mw, s.primaryService.value, s.stageService.value, s.releaseName,
                              s.primaryColor.value, stage, env.constants);
      var release := s.release.value.(resources := labelled, pruningEnabled := pruning);
      var release' := if declarative
                      then release.(secretLabels := release.secretLabels[env.constants.releaseColorKey := stage])
                      else release;
      (s.(managedWorkload := Some(mw), resources := labelled, release := Some(release'),
          releaseInHistory := s.releaseInHistory || !declarative),
       None)
  }

  /** prepareForBlueGreen, with the fields as they are when it returns or throws. */
  function Prepare(s: HandlerState, skip: bool, pruning: bool, env: Environment): (r: (HandlerState, Option<BGError>))
    ensures KeepsRequest(s, r.0)
    ensures r.1.Some? ==> !r.1.value.StepFailed?
    ensures HasReleaseToSave(s) ==> HasReleaseToSave(r.0)
    ensures r.1.None? ==> && ColorsChosen(r.0) && r.0.managedWorkload.Some?
                           && r.0.managedWorkload.value < |r.0.resources|
                           && r.0.stageColor == Some(env.inverseColor(r.0.primaryColor.value))
                           && r.0.release.value.number == s.currentReleaseNumber
  {
    var (s1, e1) := ResolveServicesSpec(s, skip, env);
    if e1.Some? then (s1, e1)
    else
      var (s2, e2) := ChooseColorsSpec(s1, skip, env);
      if e2.Some? then (s2, e2) else LabelSpec(s2, pruning, env)
  }

  /** saveRelease(status): the release gets the status and is persisted. */
  function SaveReleaseSpec(s: HandlerState, status: ReleaseStatus): (r: HandlerState)
    requires s.release.Some?
    ensures r.release.Some? && r.release.value.status == status
    ensures r.saved == s.saved + [r.release.value]
  {
    var release := s.release.value.(status := status);
    s.(release := Some(release), saved := s.saved + [release])
  }

  /** The steps at or after which a failure finds the flag `shouldSaveReleaseHistory` set. */
  predicate PastPreparation(e: BGError)
  {
    || e == StepFailed(ApplyManifests) || e == StepFailed(SteadyStateCheck) || e == StepFailed(WrapUp)
    || e == StepFailed(Prune)
  }

  /**
   * The part of executeTaskInternal after preparation: the flag, apply, the steady state, wrap-up
   * and, when `pruning` is set, the pruning of resources that runs after the release is saved as
   * succeeded.
   */
  function DeploySpec(s: HandlerState, pruning: bool, env: Environment): (r: (HandlerState, Outcome))
    requires ServicesResolved(s) && s.managedWorkload.Some? && s.managedWorkload.value < |s.resources|
    requires s.release.Some? && s.primaryColor.Some? && s.stageColor.Some?
    ensures HasReleaseToSave(r.0) && r.0.shouldSaveReleaseHistory
    ensures r.0.currentReleaseNumber == s.currentReleaseNumber
    ensures r.1.Aborted? ==> PastPreparation(r.1.error)
    ensures r.1.Deployed? ==>
              && r.1.response.primaryColor == s.primaryColor.value && r.1.response.stageColor == s.stageColor.value
              && r.1.response.releaseNumber == s.release.value.number
              && |r.0.saved| == |s.saved| + 2 && r.0.saved[..|s.saved|] == s.saved
              && r.0.saved[|s.saved| + 1] == r.0.release.value && r.0.release.value.status == Succeeded
    ensures r.1 == Aborted(StepFailed(Prune)) <==> pruning && env.failsAt == Some(Prune)
    ensures r.1 == Aborted(StepFailed(Prune)) ==>
              && |r.0.saved| == |s.saved| + 2 && r.0.saved[..|s.saved|] == s.saved
              && r.0.saved[|s.saved| + 1] == r.0.release.value && r.0.release.value.status == Succeeded
  {
    var release := s.release.value;
    var workloadId := s.resources[s.managedWorkload.value].id;
    var release' := if !s.useDeclarativeRollback then release.(managedWorkload := Some(workloadId)) else release;
    var s1 := s.(release := Some(release'), shouldSaveReleaseHistory := true);
    if env.failsAt == Some(ApplyManifests) then (s1, Aborted(StepFailed(ApplyManifests)))
    else
      var s2 := s1.(saved := s1.saved + [release']);
      if env.failsAt == Some(SteadyStateCheck) then (s2, Aborted(StepFailed(SteadyStateCheck)))
      else if env.failsAt == Some(WrapUp) then (s2, Aborted(StepFailed(WrapUp)))
      else
        var s3 := SaveReleaseSpec(s2, Succeeded);
        if pruning && env.failsAt == Some(Prune) then (s3, Aborted(StepFailed(Prune)))
        else
          (s3, Deployed(BGResponse(
              s3.release.value.number,
              s3.resources[s3.primaryService.value].id.name,
              s3.resources[s3.stageService.value].id.name,
              s3.stageColor.value,
              s3.primaryColor.value)))
  }

  /** executeTaskInternal. */
  function Execute(s: HandlerState, request: DeployRequest, env: Environment): (r: (HandlerState, Outcome))
    ensures HasReleaseToSave(s) ==> HasReleaseToSave(r.0)
  {
    if request.OtherRequest? then (s, Aborted(NotBlueGreenRequest))
    else
      var s0 := s.(releaseName := request.releaseName, useDeclarativeRollback := request.useDeclarativeRollback);
      if env.failsAt == Some(FetchManifests) then (s0, Aborted(StepFailed(FetchManifests)))
      else
        var (s1, e1) := InitSpec(s0, request, env);
        if e1.Some? then (s1, Aborted(e1.value))
        else
          var (s2, e2) := Prepare(s1, request.skipResourceVersioning, request.pruningEnabled, env);
          if e2.Some? then (s2, Aborted(e2.value))
          else DeploySpec(s2, request.pruningEnabled, env)
  }

  /** handleTaskFailure: the release is saved as failed only when the flag is set. */
  function AfterFailure(s: HandlerState): HandlerState
    requires HasReleaseToSave(s)
  {
    if s.shouldSaveReleaseHistory then SaveReleaseSpec(s, Failed) else s
  }

  // ---------------------------------------------------------------- the handler

  class BlueGreenHandler {
    var releaseName: string
    var useDeclarativeRollback: bool
    var currentReleaseNumber: int
    var releaseColor: Option<string>
    var resources: seq<Resource>
    var edits: seq<ResourceEdit>
    var primaryService: Option<nat>
    var stageService: Option<nat>
    var managedWorkload: Option<nat>
    var primaryColor: Option<string>
    var stageColor: Option<string>
    var release: Option<Release>
    var releaseInHistory: bool
    var saved: seq<Release>
    var shouldSaveReleaseHistory: bool

    function State(): HandlerState
      reads this
    {
      HandlerState(releaseName, useDeclarativeRollback, currentReleaseNumber, releaseColor, resources, edits,
                   primaryService, stageService, managedWorkload, primaryColor, stageColor, release,
                   releaseInHistory, saved, shouldSaveReleaseHistory)
    }

    constructor()
      ensures State() == Fresh()
    {
      releaseName, useDeclarativeRollback, currentReleaseNumber, releaseColor := "", false, 0, None;
      resources, edits := [], [];
      primaryService, stageService, managedWorkload := None, None, None;
      primaryColor, stageColor, release := None, None, None;
      releaseInHistory, saved, shouldSaveReleaseHistory := false, [], false;
    }

    method Init(request: DeployRequest, env: Environment) returns (err: Option<BGError>)
      requires request.BlueGreenRequest?
      modifies this`currentReleaseNumber, this`releaseColor, this`resources
      ensures (State(), err) == InitSpec(old(State()), request, env)
    {
      var h := env.history;
      currentReleaseNumber := h.nextReleaseNumber;
      if useDeclarativeRollback && h.isEmpty {
        currentReleaseNumber := h.oldHistoryNextNumber;
      }
      releaseColor := None;
      if useDeclarativeRollback {
        match h.latestReleaseColor {
          case None => releaseColor := Some(env.inverseColor(env.constants.colorDefault));
          case Some(latest) => releaseColor := Some(env.inverseColor(latest));
        }
      }
      if env.failsAt == Some(RenderManifests) {
        return Some(StepFailed(RenderManifests));
      }
      resources := env.rendered;
      if request.skipDryRun {
        return None;
      }
      if env.failsAt == Some(DryRun) {
        return Some(StepFailed(DryRun));
      }
      return None;
    }

    method ResolveServices(skip: bool, env: Environment) returns (err: Option<BGError>)
      modifies this`edits, this`primaryService, this`stageService, this`resources
      ensures (State(), err) == ResolveServicesSpec(old(State()), skip, env)
    {
      var lk := env.lookups;
      edits := edits + VersioningEdits(skip, useDeclarativeRollback);
      err := WorkloadCheck(resources, lk.isBlueGreenWorkload);
      if err.Some? {
        return;
      }
      err := LocateServices(lk);
    }

    method LocateServices(lk: ManifestLookups) returns (err: Option<BGError>)
      modifies this`primaryService, this`stageService, this`resources
      ensures (State(), err) == LocateServicesSpec(old(State()), lk)
    {
      ghost var rs := resources;
      primaryService := FirstMatching(resources, lk.isPrimaryService);
      stageService := FirstMatching(resources, lk.isStageService);
      var resolved := ResolvePrimary(resources, lk);
      if resolved.Fail? {
        return Some(resolved.error);
      }
      primaryService := Some(resolved.value);
      if stageService.None? {
        stageService := Some(|resources|);
        resources := resources + [StageClone(resources[resolved.value])];
      }
      assert stageService == Some(StagePosition(rs, lk)) && resources == Staged(rs, lk, resolved.value);
      err := None;
    }

    method ChooseColors(skip: bool, env: Environment) returns (err: Option<BGError>)
      requires ServicesResolved(State())
      modifies this`edits, this`primaryColor, this`stageColor, this`release
      ensures (State(), err) == ChooseColorsSpec(old(State()), skip, env)
    {
      primaryColor := env.primaryColorOf(resources[primaryService.value]);
      if primaryColor.None? {
        return Some(ConflictingService(resources[primaryService.value].id.name));
      }
      var stage := env.inverseColor(primaryColor.value);
      stageColor := Some(stage);
      release := Some(NewRelease(releaseName, currentReleaseNumber));
      edits := edits + LabellingEdits(skip, useDeclarativeRollback, currentReleaseNumber, stage);
      return None;
    }

    method Label(pruning: bool, env: Environment) returns (err: Option<BGError>)
      requires ColorsChosen(State())
      modifies this`resources, this`release, this`managedWorkload, this`releaseInHistory
      ensures (State(), err) == LabelSpec(old(State()), pruning, env)
    {
      var stage := stageColor.value;
      managedWorkload := FirstMatching(resources, env.lookups.isManagedWorkload);
      if managedWorkload.None? {
        return Some(NoManagedWorkload);
      }
      resources := Relabel(resources, managedWorkload.value, primaryService.value, stageService.value, releaseName,
                           primaryColor.value, stage, env.constants);
      release := Some(release.value.(resources := resources, pruningEnabled := pruning));
      if useDeclarativeRollback {
        release := Some(release.value.(secretLabels := release.value.secretLabels[env.constants.releaseColorKey := stage]));
      } else {
        releaseInHistory := true;
      }
      return None;
    }

    method PrepareForBlueGreen(skip: bool, pruning: bool, env: Environment) returns (err: Option<BGError>)
      modifies this`edits, this`primaryService, this`stageService, this`resources, this`primaryColor,
               this`stageColor, this`release, this`managedWorkload, this`releaseInHistory
      ensures (State(), err) == Prepare(old(State()), skip, pruning, env)
    {
      err := ResolveServices(skip, env);
      if err.Some? {
        return;
      }
      err := ChooseColors(skip, env);
      if err.Some? {
        return;
      }
      err := Label(pruning, env);
    }

    method SaveRelease(status: ReleaseStatus)
      requires release.Some?
      modifies this`release, this`saved
      ensures State() == SaveReleaseSpec(old(State()), status)
    {
      release := Some(release.value.(status := status));
      saved := saved + [release.value];
    }

    method Deploy(pruning: bool, env: Environment) returns (outcome: Outcome)
      requires ServicesResolved(State()) && managedWorkload.Some? && managedWorkload.value < |resources|
      requires release.Some? && primaryColor.Some? && stageColor.Some?
      modifies this`release, this`saved, this`shouldSaveReleaseHistory
      ensures (State(), outcome) == DeploySpec(old(State()), pruning, env)
    {
      if !useDeclarativeRollback {
        release := Some(release.value.(managedWorkload := Some(resources[managedWorkload.value].id)));
      }
      shouldSaveReleaseHistory := true;
      if env.failsAt == Some(ApplyManifests) {
        return Aborted(StepFailed(ApplyManifests));
      }
      saved := saved + [release.value];
      if env.failsAt == Some(SteadyStateCheck) {
        return Aborted(StepFailed(SteadyStateCheck));
      }
      if env.failsAt == Some(WrapUp) {
        return Aborted(StepFailed(WrapUp));
      }
      SaveRelease(Succeeded);
      if pruning && env.failsAt == Some(Prune) {
        return Aborted(StepFailed(Prune));
      }
      outcome := Deployed(BGResponse(
        release.value.number,
        resources[primaryService.value].id.name,
        resources[stageService.value].id.name,
        stageColor.value,
        primaryColor.value));
    }

    method ExecuteTaskInternal(request: DeployRequest, env: Environment) returns (outcome: Outcome)
      modifies this
      ensures (State(), outcome) == Execute(old(State()), request, env)
    {
      if !request.BlueGreenRequest? {
        return Aborted(NotBlueGreenRequest);
      }
      releaseName := request.releaseName;
      useDeclarativeRollback := request.useDeclarativeRollback;
      if env.failsAt == Some(FetchManifests) {
        return Aborted(StepFailed(FetchManifests));
      }
      var err := Init(request, env);
      if err.Some? {
        return Aborted(err.value);
      }
      err := PrepareForBlueGreen(request.skipResourceVersioning, request.pruningEnabled, env);
      if err.Some? {
        return Aborted(err.value);
      }
      outcome := Deploy(request.pruningEnabled, env);
    }

    method HandleTaskFailure()
      requires HasReleaseToSave(State())
      modifies this`release, this`saved
      ensures State() == AfterFailure(old(State()))
    {
      if shouldSaveReleaseHistory {
        SaveRelease(Failed);
      }
    }
  }

  // ---------------------------------------------------------------- properties

  /**
   * The workload check comes first: without exactly one workload, preparation stops with the
   * error for none or the error listing them all, having only marked the versioned resources.
   */
  lemma PrepareChecksWorkloads(s: HandlerState, skip: bool, pruning: bool, env: Environment)
    ensures var (t, err) := Prepare(s, skip, pruning, env);
            var workloads := Matching(s.resources, env.lookups.isBlueGreenWorkload);
            && (err.None? ==> ExactlyOne(s.resources, env.lookups.isBlueGreenWorkload))
            && (workloads == [] ==> err == Some(NoWorkloadsFound))
            && (|workloads| > 1 ==> err == Some(MultipleWorkloads(Ids(s.resources, workloads))))
            && (|workloads| != 1 ==> t == s.(edits := s.edits + VersioningEdits(skip, s.useDeclarativeRollback)))
  {
    ExactlyOneMatching(s.resources, env.lookups.isBlueGreenWorkload);
  }

  /**
   * The primary service is the annotated one when there is one; otherwise it is the only
   * service, and no service or several of them are errors.
   */
  lemma PrepareResolvesPrimary(s: HandlerState, skip: bool, pruning: bool, env: Environment)
    requires ExactlyOne(s.resources, env.lookups.isBlueGreenWorkload)
    ensures var (t, err) := Prepare(s, skip, pruning, env);
            var lk := env.lookups;
            var annotated := FirstMatching(s.resources, lk.isPrimaryService);
            var services := Matching(s.resources, lk.isService);
            && (annotated.None? && services == [] ==> err == Some(NoServiceFound))
            && (annotated.None? && |services| > 1 ==> err == Some(MultiplePrimaryServices(Ids(s.resources, services))))
            && (err.None? ==> && t.primaryService.Some? && t.primaryService.value < |s.resources|
                              && (annotated.Some? ==> t.primaryService == annotated)
                              && (annotated.None? ==> ExactlyOne(s.resources, lk.isService)
                                                      && lk.isService(s.resources[t.primaryService.value])))
  {
    ExactlyOneMatching(s.resources, env.lookups.isBlueGreenWorkload);
    ResolvePrimarySpec(s.resources, env.lookups);
  }

  /**
   * A stage service that the manifests lack is appended after them, and it is the primary with
   * "-stage" appended to its name; an annotated one is used as it is.
   */
  lemma PrepareStageService(s: HandlerState, skip: bool, pruning: bool, env: Environment)
    requires Prepare(s, skip, pruning, env).1.None?
    ensures var t := Prepare(s, skip, pruning, env).0;
            var annotated := FirstMatching(s.resources, env.lookups.isStageService);
            var primary := s.resources[t.primaryService.value];
            && (annotated.Some? ==> t.stageService == annotated && |t.resources| == |s.resources|)
            && (annotated.None? ==>
                  && t.stageService == Some(|s.resources|) && |t.resources| == |s.resources| + 1
                  && (t.managedWorkload != t.stageService ==>
                        t.resources[|s.resources|].id == primary.id.(name := primary.id.name + "-stage")))
  {
    var (s1, e1) := ResolveServicesSpec(s, skip, env);
    assert e1.None?;
    var (s2, e2) := ChooseColorsSpec(s1, skip, env);
    assert e2.None?;
    var (t, e3) := LabelSpec(s2, pruning, env);
    assert Prepare(s, skip, pruning, env) == (t, e3);
    var mw := FirstMatching(s2.resources, env.lookups.isManagedWorkload).value;
    if FirstMatching(s.resources, env.lookups.isStageService).None? && mw != |s.resources| {
      RelabelKeepsOtherIds(s2.resources, mw, s2.primaryService.value, s2.stageService.value, s.releaseName,
                           s2.primaryColor.value, s2.stageColor.value, env.constants, |s.resources|);
    }
  }

  /** Relabelling renames the managed workload only: every other resource keeps its id. */
  lemma RelabelKeepsOtherIds(rs: seq<Resource>, w: nat, p: nat, st: nat, releaseName: string,
                             primaryColor: string, stage: string, c: HarnessConstants, i: nat)
    requires w < |rs| && p < |rs| && st < |rs| && i < |rs| && i != w
    ensures Relabel(rs, w, p, st, releaseName, primaryColor, stage, c)[i].id == rs[i].id
  {
  }

  /**
   * The primary colour is what the cluster says of the primary service, and the stage colour is
   * its inverse; a primary service without a colour is a conflicting service.
   */
  lemma PrepareColors(s: HandlerState, skip: bool, pruning: bool, env: Environment)
    ensures var (t, err) := Prepare(s, skip, pruning, env);
            && (err.None? ==> && t.primaryColor == env.primaryColorOf(s.resources[t.primaryService.value])
                              && t.stageColor == Some(env.inverseColor(t.primaryColor.value)))
            && (ExactlyOne(s.resources, env.lookups.isBlueGreenWorkload) ==>
                  var p := ResolvePrimary(s.resources, env.lookups);
                  p.Pass? && env.primaryColorOf(s.resources[p.value]).None? ==>
                    err == Some(ConflictingService(s.resources[p.value].id.name)) && t.primaryColor.None?)
  {
    ExactlyOneMatching(s.resources, env.lookups.isBlueGreenWorkload);
    var lk := env.lookups;
    if ExactlyOne(s.resources, lk.isBlueGreenWorkload) {
      var p := ResolvePrimary(s.resources, lk);
      if p.Pass? {
        var staged := Staged(s.resources, lk, p.value);
        assert staged[p.value] == s.resources[p.value];
      }
    }
  }

  /**
   * The labelling, as the deployment needs it:
   *   - the managed workload is renamed with the suffix "-<stage colour>" and carries the release
   *     name and the stage colour in its pod labels and the stage colour in its selector;
   *   - the stage service selects the stage colour, and a distinct primary service the primary colour;
   *   - no other resource changes;
   *   - the release is the new one, holding the labelled resources.
   */
  lemma PrepareLabels(s: HandlerState, skip: bool, pruning: bool, env: Environment)
    requires Prepare(s, skip, pruning, env).1.None?
    ensures var t := Prepare(s, skip, pruning, env).0;
            var c := env.constants;
            var (mw, p, st) := (t.managedWorkload.value, t.primaryService.value, t.stageService.value);
            var staged := Staged(s.resources, env.lookups, p);
            var (primaryColor, stage) := (t.primaryColor.value, t.stageColor.value);
            && |t.resources| == |staged|
            && t.managedWorkload == FirstMatching(staged, env.lookups.isManagedWorkload)
            && t.resources[mw].id == staged[mw].id.(name := staged[mw].id.name + "-" + stage)
            && t.resources[mw].podLabels == staged[mw].podLabels[c.releaseNameLabel := s.releaseName][c.colorLabel := stage]
            && t.resources[mw].workloadSelector == staged[mw].workloadSelector[c.colorLabel := stage]
            && t.resources[st].serviceSelector[c.colorLabel] == stage
            && (p != st ==> t.resources[p].serviceSelector[c.colorLabel] == primaryColor)
            && (forall i :: 0 <= i < |staged| && i != mw && i != p && i != st ==> t.resources[i] == staged[i])
            && t.release.value.name == s.releaseName && t.release.value.number == s.currentReleaseNumber
            && t.release.value.status == InProgress && t.release.value.resources == t.resources
            && t.release.value.pruningEnabled == pruning
            && (s.useDeclarativeRollback ==> t.release.value.secretLabels == map[c.releaseColorKey := stage])
            && (!s.useDeclarativeRollback ==> t.releaseInHistory)
  {
    var (s1, e1) := ResolveServicesSpec(s, skip, env);
    var (s2, e2) := ChooseColorsSpec(s1, skip, env);
    LabelFacts(s2, pruning, env);
  }

  /** The labelling of LabelSpec, on the resources as they are before it. */
  lemma LabelFacts(s: HandlerState, pruning: bool, env: Environment)
    requires ColorsChosen(s) && LabelSpec(s, pruning, env).1.None?
    ensures var t := LabelSpec(s, pruning, env).0;
            var c := env.constants;
            var (mw, p, st) := (t.managedWorkload.value, s.primaryService.value, s.stageService.value);
            var rs := s.resources;
            var stage := s.stageColor.value;
            && |t.resources| == |rs|
            && t.managedWorkload == FirstMatching(rs, env.lookups.isManagedWorkload)
            && t.resources[mw].id == rs[mw].id.(name := rs[mw].id.name + "-" + stage)
            && t.resources[mw].podLabels == rs[mw].podLabels[c.releaseNameLabel := s.releaseName][c.colorLabel := stage]
            && t.resources[mw].workloadSelector == rs[mw].workloadSelector[c.colorLabel := stage]
            && t.resources[st].serviceSelector[c.colorLabel] == stage
            && (p != st ==> t.resources[p].serviceSelector[c.colorLabel] == s.primaryColor.value)
            && (forall i :: 0 <= i < |rs| && i != mw && i != p && i != st ==> t.resources[i] == rs[i])
            && t.release.value == s.release.value.(resources := t.resources, pruningEnabled := pruning,
                 secretLabels := if s.useDeclarativeRollback
                                 then s.release.value.secretLabels[c.releaseColorKey := stage]
                                 else s.release.value.secretLabels)
            && (!s.useDeclarativeRollback ==> t.releaseInHistory)
  {
  }

  /**
   * Versioning is marked and the revision number added exactly when versioning is not skipped and
   * the rollback is not declarative; the colour suffix goes on config maps and secrets exactly
   * when it is.
   */
  lemma PrepareVersioning(s: HandlerState, skip: bool, pruning: bool, env: Environment)
    ensures var (t, err) := Prepare(s, skip, pruning, env);
            var declarative := s.useDeclarativeRollback;
            && |t.edits| >= |s.edits| && t.edits[..|s.edits|] == s.edits
            && ((MarkVersioned in t.edits[|s.edits|..]) <==> !skip && !declarative)
            && (err.None? ==>
                  && ((AddRevisionNumber(s.currentReleaseNumber) in t.edits[|s.edits|..]) <==> !skip && !declarative)
                  && ((AddColorSuffixToConfigsAndSecrets(t.stageColor.value) in t.edits[|s.edits|..]) <==> declarative))
  {
    var declarative := s.useDeclarativeRollback;
    var versioning := VersioningEdits(skip, declarative);
    var (s1, e1) := ResolveServicesSpec(s, skip, env);
    assert s1.edits[|s.edits|..] == versioning;
    if e1.None? {
      var (s2, e2) := ChooseColorsSpec(s1, skip, env);
      if e2.None? {
        var stage := s2.stageColor.value;
        var labelling := LabellingEdits(skip, declarative, s.currentReleaseNumber, stage);
        assert s2.edits[|s.edits|..] == versioning + labelling;
        EditsRecorded(skip, declarative, s.currentReleaseNumber, stage);
      }
    }
  }

  lemma EditsRecorded(skip: bool, declarative: bool, number: int, stage: string)
    ensures var added := VersioningEdits(skip, declarative) + LabellingEdits(skip, declarative, number, stage);
            && ((MarkVersioned in added) <==> !skip && !declarative)
            && ((AddRevisionNumber(number) in added) <==> !skip && !declarative)
            && ((AddColorSuffixToConfigsAndSecrets(stage) in added) <==> declarative)
  {
  }

  /**
   * init numbers the release from the history, or from the old history when a declarative
   * rollback finds the history empty; with declarative rollback the release details get the
   * inverse of the latest release's colour, or of the default colour when there is no release.
   */
  lemma InitNumbersAndColours(s: HandlerState, request: DeployRequest, env: Environment)
    requires request.BlueGreenRequest?
    ensures var t := InitSpec(s, request, env).0;
            var h := env.history;
            && t.currentReleaseNumber == (if s.useDeclarativeRollback && h.isEmpty then h.oldHistoryNextNumber
                                          else h.nextReleaseNumber)
            && (!s.useDeclarativeRollback ==> t.releaseColor.None?)
            && (s.useDeclarativeRollback && h.latestReleaseColor.None? ==>
                  t.releaseColor == Some(env.inverseColor(env.constants.colorDefault)))
            && (s.useDeclarativeRollback && h.latestReleaseColor.Some? ==>
                  t.releaseColor == Some(env.inverseColor(h.latestReleaseColor.value)))
  {
  }

  /** A request that is not a blue/green one is rejected before anything is touched. */
  lemma ExecuteRejectsOtherRequests(s: HandlerState, env: Environment)
    ensures Execute(s, OtherRequest, env) == (s, Aborted(NotBlueGreenRequest))
  {
  }

  /**
   * A deployment that succeeds reports the two colours, the stage one the inverse of the primary
   * one, and the release number; it saves the release twice, the second time as succeeded.
   */
  lemma ExecuteDeploys(s: HandlerState, request: DeployRequest, env: Environment)
    requires Execute(s, request, env).1.Deployed?
    ensures var (t, outcome) := Execute(s, request, env);
            var response := outcome.response;
            && request.BlueGreenRequest?
            && response.stageColor == env.inverseColor(response.primaryColor)
            && response.releaseNumber == t.currentReleaseNumber
            && t.shouldSaveReleaseHistory
            && |t.saved| == |s.saved| + 2 && t.saved[..|s.saved|] == s.saved
            && t.saved[|s.saved| + 1] == t.release.value && t.release.value.status == Succeeded
  {
    var s0 := s.(releaseName := request.releaseName, useDeclarativeRollback := request.useDeclarativeRollback);
    var (s1, e1) := InitSpec(s0, request, env);
    var (s2, e2) := Prepare(s1, request.skipResourceVersioning, request.pruningEnabled, env);
    assert Execute(s, request, env) == DeploySpec(s2, request.pruningEnabled, env);
  }

  /**
   * The failed release is saved by handleTaskFailure exactly when the failure comes once
   * preparation is over: apply, the steady-state check, wrap-up or pruning. A failure before that
   * saves nothing.
   */
  lemma FailedReleaseSavedOnlyAfterPreparation(s: HandlerState, request: DeployRequest, env: Environment)
    requires !s.shouldSaveReleaseHistory
    ensures var (t, outcome) := Execute(s, request, env);
            outcome.Aborted? ==>
              && (t.shouldSaveReleaseHistory <==> PastPreparation(outcome.error))
              && (PastPreparation(outcome.error) ==>
                    AfterFailure(t).saved == t.saved + [t.release.value.(status := Failed)])
              && (!PastPreparation(outcome.error) ==> AfterFailure(t) == t)
  {
    if request.BlueGreenRequest? && env.failsAt != Some(FetchManifests) {
      var s0 := s.(releaseName := request.releaseName, useDeclarativeRollback := request.useDeclarativeRollback);
      var (s1, e1) := InitSpec(s0, request, env);
      if e1.None? {
        var (s2, e2) := Prepare(s1, request.skipResourceVersioning, request.pruningEnabled, env);
        if e2.None? {
          assert Execute(s, request, env) == DeploySpec(s2, request.pruningEnabled, env);
        }
      }
    }
  }

  /**
   * Pruning runs after the release has been saved as succeeded; when it fails, handleTaskFailure
   * saves the same release once more, now as failed.
   */
  lemma PruningFailureSavesReleaseAsFailed(s: HandlerState, request: DeployRequest, env: Environment)
    requires Execute(s, request, env).1 == Aborted(StepFailed(Prune))
    ensures var (t, _) := Execute(s, request, env);
            && request.BlueGreenRequest? && request.pruningEnabled
            && HasReleaseToSave(t)
            && var u := AfterFailure(t);
               && |u.saved| == |s.saved| + 3 && u.saved[..|s.saved|] == s.saved
               && u.saved[|s.saved| + 1].status == Succeeded
               && u.saved[|s.saved| + 2] == u.saved[|s.saved| + 1].(status := Failed)
               && u.release.value.status == Failed
  {
    var s0 := s.(releaseName := request.releaseName, useDeclarativeRollback := request.useDeclarativeRollback);
    var (s1, e1) := InitSpec(s0, request, env);
    var (s2, e2) := Prepare(s1, request.skipResourceVersioning, request.pruningEnabled, env);
    assert Execute(s, request, env) == DeploySpec(s2, request.pruningEnabled, env);
  }
}
