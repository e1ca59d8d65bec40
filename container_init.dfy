/**
 * Container step initialisation: the Kubernetes pod that runs a container step.
 * The helper names the step's containers, dispatches on the step type, merges the
 * environment variables of each container and sets its security flags.
 *
 * Collaborators (connector lookup, image-name qualification, the secret-reference
 * test, the lite-engine and set-up add-on containers, the version-2 definition
 * creator, the port finder) are fields of `InitContext`.
 */
module ContainerStepInit {
  import opened Wrappers
  import Text

  datatype InfraType = KubernetesDirect | OtherInfra(typeName: string)

  datatype OSType = Linux | MacOS | Windows

  datatype ContainerType = RunType | PluginType | ServiceType | OtherType(typeName: string)

  /** A run step's own fields; `None` is a null in the step's YAML. */
  datatype RunStepInfo = RunStepInfo(
    image: Option<string>,
    connectorRef: Option<string>,
    envVariables: map<string, string>,
    privileged: Option<bool>,
    runAsUser: Option<int>)

  /** A plugin step (the SSCA orchestration step); `connectorRef` is what the plugin reads. */
  datatype PluginStepInfo = PluginStepInfo(connectorRef: Option<string>, pluginImage: string)

  datatype StepKind =
    | RunContainer(run: RunStepInfo)
    | SscaOrchestration(plugin: PluginStepInfo)
    | InitContainerV2(v2Name: string)
    | OtherStep(typeName: string)

  datatype ContainerStepSpec = ContainerStepSpec(identifier: string, infra: InfraType, kind: StepKind)

  datatype Connector = Connector(details: string)

  datatype ConnectorConversionInfo = ConnectorConversionInfo(connectorRef: string, envToSecrets: map<string, string>)

  datatype SecurityContext = SecurityContext(privileged: Option<bool>, runAsUser: Option<int>)

  /** What the step asks one container to be, before the pod parameters are built. */
  datatype ContainerDefinition = ContainerDefinition(
    name: string,
    envVars: map<string, string>,
    stepIdentifier: string,
    imageName: string,
    connectorIdentifier: Option<string>,
    isHarnessManagedImage: bool,
    ports: seq<int>,
    containerType: ContainerType,
    privileged: Option<bool>,
    runAsUser: Option<int>)

  /** The Kubernetes parameters of one container. */
  datatype ContainerParams = ContainerParams(
    name: string,
    containerType: ContainerType,
    envVars: map<string, string>,
    envVarsWithSecretRef: map<string, string>,
    connectorDetails: map<string, Connector>,
    image: string,
    imageConnector: Option<Connector>,
    ports: seq<int>,
    securityContext: SecurityContext,
    privileged: Option<bool>,
    runAsUser: Option<int>,
    workingDir: Option<string>)

  datatype InitContext = InitContext(
    stepPrefix: string,
    serviceLogKey: string,
    logPrefix: string,
    workDir: string,
    os: OSType,
    stepGroupId: string,
    stepId: string,
    firstPort: int,
    commonEnvVars: map<string, string>,
    internalConnector: Connector,
    connectorOf: string -> Connector,
    conversionConnectorOf: ConnectorConversionInfo -> Connector,
    qualifiedRef: string -> string,
    fullImageName: (string, Option<Connector>) -> string,
    isSecretRef: string -> bool,
    baseSecurityContext: SecurityContext,
    pluginEnv: string -> map<string, string>,
    connectorSecretEnv: map<string, string>,
    v2Definitions: (string, string) -> seq<ContainerDefinition>,
    setupAddOn: ContainerParams,
    liteEngine: ContainerParams,
    baseLabels: map<string, string>,
    infraLabels: map<string, string>)

  // ---------------------------------------------------------------- naming

  /** getKubernetesStandardPodName: the identifier with every underscore removed. */
  function StandardPodName(id: string): (r: string)
    ensures '_' !in r
    ensures r == Text.Without(id, '_')
  {
    Text.ReplaceCharByNothing(id, '_');
    Text.ReplaceAll(id, "_", "")
  }

  lemma StandardPodNameIdempotent(id: string)
    ensures StandardPodName(StandardPodName(id)) == StandardPodName(id)
  {
    Text.WithoutIdempotent(id, '_');
  }

  /** The name of a step container: the lower-cased step prefix followed by the standard name. */
  function ContainerName(prefix: string, id: string): (r: string)
    ensures |r| == |prefix| + |StandardPodName(id)|
    ensures forall i :: 0 <= i < |r| ==> 'A' > r[i] || r[i] > 'Z'
    ensures forall i :: 0 <= i < |r| ==> r[i] == Text.LowerChar((prefix + StandardPodName(id))[i])
  {
    Text.ToLower(prefix + StandardPodName(id))
  }

  /** Underscores in an identifier never change the container name. */
  lemma ContainerNameIgnoresUnderscores(prefix: string, id: string)
    ensures ContainerName(prefix, StandardPodName(id)) == ContainerName(prefix, id)
  {
    StandardPodNameIdempotent(id);
  }

  /** The step identifier of a plugin container: `group_step` under a step group, then standardised. */
  function PluginStepIdentifier(stepGroupId: string, stepId: string): (r: string)
    ensures Text.IsBlank(stepGroupId) ==> r == StandardPodName(stepId)
    ensures !Text.IsBlank(stepGroupId) ==> r == StandardPodName(stepGroupId + "_" + stepId)
  {
    var stepIdentifier := if !Text.IsBlank(stepGroupId) then stepGroupId + "_" + stepId else stepId;
    StandardPodName(stepIdentifier)
  }

  /** The joining underscore is itself removed, so the identifier is the two standard names run together. */
  lemma PluginStepIdentifierJoins(stepGroupId: string, stepId: string)
    requires !Text.IsBlank(stepGroupId)
    ensures PluginStepIdentifier(stepGroupId, stepId) == StandardPodName(stepGroupId) + StandardPodName(stepId)
  {
    Text.WithoutAppend(stepGroupId + "_", stepId, '_');
    Text.WithoutAppend(stepGroupId, "_", '_');
    assert Text.Without("_", '_') == [];
  }

  /** Two different group and step pairs can therefore give the same plugin step identifier. */
  lemma PluginStepIdentifiersCollide()
    ensures PluginStepIdentifier("a_b", "c") == PluginStepIdentifier("a", "b_c") == "abc"
  {
    assert "a_b"[0] == 'a';
    assert !Text.IsBlank("a_b");
    assert "a"[0] == 'a';
    assert !Text.IsBlank("a");
    PluginStepIdentifierJoins("a_b", "c");
    PluginStepIdentifierJoins("a", "b_c");
    assert Text.Without("a_b", '_') == "ab";
    assert Text.Without("b_c", '_') == "bc";
    assert Text.Without("a", '_') == "a";
    assert Text.Without("c", '_') == "c";
  }

  // ---------------------------------------------------------------- definitions

  /** createStepContainerDefinition: a run step's container; a null image or connector is refused. */
  function RunContainerDefinition(id: string, run: RunStepInfo, ctx: InitContext): (r: Result<ContainerDefinition>)
    ensures run.image.None? ==>
      r == Err(ContainerStepExecution("image can't be empty in k8s infrastructure"))
    ensures run.image.Some? && run.connectorRef.None? ==>
      r == Err(ContainerStepExecution("connector ref can't be empty in k8s infrastructure"))
    ensures r.Ok? <==> run.image.Some? && run.connectorRef.Some?
    ensures r.Ok? ==>
      && r.value.name == ContainerName(ctx.stepPrefix, id)
      && r.value.stepIdentifier == StandardPodName(id)
      && r.value.containerType == RunType
      && r.value.imageName == run.image.value
      && r.value.connectorIdentifier == run.connectorRef
      && !r.value.isHarnessManagedImage
      && r.value.envVars == run.envVariables
      && r.value.ports == [ctx.firstPort]
      && r.value.privileged == run.privileged
      && r.value.runAsUser == run.runAsUser
  {
    if run.image.None? then
      Err(ContainerStepExecution("image can't be empty in k8s infrastructure"))
    else if run.connectorRef.None? then
      Err(ContainerStepExecution("connector ref can't be empty in k8s infrastructure"))
    else
      var identifier := StandardPodName(id);
      Ok(ContainerDefinition(
        Text.ToLower(ctx.stepPrefix + identifier), run.envVariables, identifier, run.image.value,
        run.connectorRef, false, [ctx.firstPort], RunType, run.privileged, run.runAsUser))
  }

  /** createPluginStepContainerDefinition: a harness-managed plugin image without flags. */
  function PluginContainerDefinition(plugin: PluginStepInfo, ctx: InitContext): (r: ContainerDefinition)
    ensures r.stepIdentifier == PluginStepIdentifier(ctx.stepGroupId, ctx.stepId)
    ensures r.name == ContainerName(ctx.stepPrefix, PluginStepIdentifier(ctx.stepGroupId, ctx.stepId))
    ensures r.containerType == PluginType && r.isHarnessManagedImage
    ensures r.connectorIdentifier.None? && r.privileged.None? && r.runAsUser.None?
    ensures r.envVars == ctx.pluginEnv(r.stepIdentifier) && r.ports == [ctx.firstPort]
  {
    var identifier := PluginStepIdentifier(ctx.stepGroupId, ctx.stepId);
    StandardPodNameIdempotent(if !Text.IsBlank(ctx.stepGroupId) then ctx.stepGroupId + "_" + ctx.stepId else ctx.stepId);
    ContainerDefinition(
      Text.ToLower(ctx.stepPrefix + identifier), ctx.pluginEnv(identifier), identifier, plugin.pluginImage,
      None, true, [ctx.firstPort], PluginType, None, None)
  }

  /** createStepContainerDefinitions: the dispatch on the step type. */
  function StepContainerDefinitions(spec: ContainerStepSpec, ctx: InitContext): (r: Result<seq<ContainerDefinition>>)
    ensures spec.kind.OtherStep? ==>
      r == Err(ContainerStepExecution("Container step initialization not handled"))
    ensures spec.kind.RunContainer? ==>
      (r.Ok? <==> RunContainerDefinition(spec.identifier, spec.kind.run, ctx).Ok?)
    ensures spec.kind.RunContainer? && r.Ok? ==>
      r.value == [RunContainerDefinition(spec.identifier, spec.kind.run, ctx).value]
    ensures spec.kind.SscaOrchestration? ==> r == Ok([PluginContainerDefinition(spec.kind.plugin, ctx)])
    ensures spec.kind.InitContainerV2? ==> r == Ok(ctx.v2Definitions(spec.kind.v2Name, ctx.stepGroupId))
  {
    match spec.kind
    case RunContainer(run) =>
      (match RunContainerDefinition(spec.identifier, run, ctx)
       case Ok(d) => Ok([d])
       case Err(e) => Err(e))
    case SscaOrchestration(plugin) => Ok([PluginContainerDefinition(plugin, ctx)])
    case InitContainerV2(v2) => Ok(ctx.v2Definitions(v2, ctx.stepGroupId))
    case OtherStep(_) => Err(ContainerStepExecution("Container step initialization not handled"))
  }

  /** Every refusal of the dispatch is one of the three messages the helper throws. */
  lemma DispatchFailures(spec: ContainerStepSpec, ctx: InitContext)
    ensures StepContainerDefinitions(spec, ctx).Err? <==>
      spec.kind.OtherStep? ||
      (spec.kind.RunContainer? && (spec.kind.run.image.None? || spec.kind.run.connectorRef.None?))
    ensures StepContainerDefinitions(spec, ctx).Err? ==>
      StepContainerDefinitions(spec, ctx).error.message in
        {"Container step initialization not handled",
         "image can't be empty in k8s infrastructure",
         "connector ref can't be empty in k8s infrastructure"}
  {
  }

  /** Run and plugin steps give exactly one container, named after the step. */
  lemma SingleContainerSteps(spec: ContainerStepSpec, ctx: InitContext)
    requires spec.kind.RunContainer? || spec.kind.SscaOrchestration?
    requires StepContainerDefinitions(spec, ctx).Ok?
    ensures |StepContainerDefinitions(spec, ctx).value| == 1
    ensures var d := StepContainerDefinitions(spec, ctx).value[0];
      '_' !in d.stepIdentifier && d.name == ContainerName(ctx.stepPrefix, d.stepIdentifier)
  {
    var d := StepContainerDefinitions(spec, ctx).value[0];
    if spec.kind.RunContainer? {
      ContainerNameIgnoresUnderscores(ctx.stepPrefix, spec.identifier);
    } else {
      var id := if !Text.IsBlank(ctx.stepGroupId) then ctx.stepGroupId + "_" + ctx.stepId else ctx.stepId;
      ContainerNameIgnoresUnderscores(ctx.stepPrefix, id);
      StandardPodNameIdempotent(id);
    }
  }

  // ---------------------------------------------------------------- connector references

  predicate IsPluginStep(spec: ContainerStepSpec)
  {
    spec.kind.SscaOrchestration?
  }

  /** The map getStepConnectorRefs builds: a plugin step's connector, keyed by the step's standard name. */
  function StepConnectorRefsOf(spec: ContainerStepSpec, ctx: InitContext): (m: map<string, seq<ConnectorConversionInfo>>)
    ensures !IsPluginStep(spec) ==> m == map[]
    ensures IsPluginStep(spec) ==> m.Keys == {StandardPodName(spec.identifier)}
    ensures IsPluginStep(spec) ==>
      var ref := spec.kind.plugin.connectorRef;
      var infos := m[StandardPodName(spec.identifier)];
      (|infos| == 1 <==> ref.Some? && ref.value != "") &&
      (|infos| == 0 <==> !(ref.Some? && ref.value != "")) &&
      (|infos| == 1 ==> infos[0] == ConnectorConversionInfo(ref.value, ctx.connectorSecretEnv))
  {
    if !IsPluginStep(spec) then map[]
    else
      var ref := spec.kind.plugin.connectorRef;
      if ref.None? || ref.value == "" then map[StandardPodName(spec.identifier) := []]
      else map[StandardPodName(spec.identifier) := [ConnectorConversionInfo(ref.value, ctx.connectorSecretEnv)]]
  }

  /** getStepConnectorRefs: a plugin step's connector, keyed by the step's standard name. */
  method StepConnectorRefs(spec: ContainerStepSpec, ctx: InitContext)
    returns (m: map<string, seq<ConnectorConversionInfo>>)
    ensures !IsPluginStep(spec) ==> m == map[]
    ensures IsPluginStep(spec) ==> m.Keys == {StandardPodName(spec.identifier)}
    ensures IsPluginStep(spec) ==>
      var ref := spec.kind.plugin.connectorRef;
      var infos := m[StandardPodName(spec.identifier)];
      (|infos| == 1 <==> ref.Some? && ref.value != "") &&
      (|infos| == 0 <==> !(ref.Some? && ref.value != "")) &&
      (|infos| == 1 ==> infos[0] == ConnectorConversionInfo(ref.value, ctx.connectorSecretEnv))
    ensures m == StepConnectorRefsOf(spec, ctx)
  {
    m := map[];
    if IsPluginStep(spec) {
      var identifier := StandardPodName(spec.identifier);
      m := m[identifier := []];
      var connectorRef := spec.kind.plugin.connectorRef;
      if connectorRef.None? || connectorRef.value == "" {
        return;
      }
      m := m[identifier := m[identifier] + [ConnectorConversionInfo(connectorRef.value, ctx.connectorSecretEnv)]];
      assert m.Keys == StepConnectorRefsOf(spec, ctx).Keys;
      assert m[identifier] == StepConnectorRefsOf(spec, ctx)[identifier];
    }
  }

  /** The conversion infos createCIK8ContainerParams looks up for one container. */
  function ConversionInfosFor(def: ContainerDefinition, refs: map<string, seq<ConnectorConversionInfo>>):
    (r: seq<ConnectorConversionInfo>)
    ensures r != [] ==> def.stepIdentifier in refs && r == refs[def.stepIdentifier]
    ensures def.stepIdentifier in refs && def.stepIdentifier != "" ==> r == refs[def.stepIdentifier]
  {
    if def.stepIdentifier != "" && |refs| > 0 && def.stepIdentifier in refs then refs[def.stepIdentifier] else []
  }

  /** The connector details map: one entry per qualified reference, the last info winning. */
  ghost predicate DetailsFor(m: map<string, Connector>, infos: seq<ConnectorConversionInfo>, ctx: InitContext)
  {
    DetailsUpTo(m, infos, |infos|, ctx)
  }

  /** The map after the first `n` infos. */
  ghost predicate DetailsUpTo(m: map<string, Connector>, infos: seq<ConnectorConversionInfo>, n: int, ctx: InitContext)
    requires 0 <= n <= |infos|
  {
    DetailKeys(m, infos, n, ctx) && DetailValues(m, infos, n, ctx)
  }

  ghost predicate DetailKeys(m: map<string, Connector>, infos: seq<ConnectorConversionInfo>, n: int, ctx: InitContext)
    requires 0 <= n <= |infos|
  {
    forall k :: k in m <==> exists i :: 0 <= i < n && ctx.qualifiedRef(infos[i].connectorRef) == k
  }

  ghost predicate DetailValues(m: map<string, Connector>, infos: seq<ConnectorConversionInfo>, n: int, ctx: InitContext)
    requires 0 <= n <= |infos|
  {
    forall i :: 0 <= i < n && LastWithRef(infos, i, n, ctx) ==>
      ctx.qualifiedRef(infos[i].connectorRef) in m &&
      m[ctx.qualifiedRef(infos[i].connectorRef)] == ctx.conversionConnectorOf(infos[i])
  }

  /** No info after position `i` and before `n` has the same qualified reference. */
  ghost predicate LastWithRef(infos: seq<ConnectorConversionInfo>, i: int, n: int, ctx: InitContext)
    requires 0 <= i < n <= |infos|
  {
    forall j :: i < j < n ==>
      ctx.qualifiedRef(infos[j].connectorRef) != ctx.qualifiedRef(infos[i].connectorRef)
  }

  /** Recording the next info keeps the map describing the infos seen so far. */
  lemma DetailsStep(m: map<string, Connector>, infos: seq<ConnectorConversionInfo>, n: int, ctx: InitContext)
    requires 0 <= n < |infos|
    requires DetailsUpTo(m, infos, n, ctx)
    ensures DetailsUpTo(m[ctx.qualifiedRef(infos[n].connectorRef) := ctx.conversionConnectorOf(infos[n])],
                        infos, n + 1, ctx)
  {
    DetailKeysStep(m, infos, n, ctx);
    DetailValuesStep(m, infos, n, ctx);
  }

  lemma DetailKeysStep(m: map<string, Connector>, infos: seq<ConnectorConversionInfo>, n: int, ctx: InitContext)
    requires 0 <= n < |infos|
    requires DetailKeys(m, infos, n, ctx)
    ensures DetailKeys(m[ctx.qualifiedRef(infos[n].connectorRef) := ctx.conversionConnectorOf(infos[n])],
                       infos, n + 1, ctx)
  {
    var key := ctx.qualifiedRef(infos[n].connectorRef);
    var m' := m[key := ctx.conversionConnectorOf(infos[n])];
    forall k
      ensures k in m' <==> exists i :: 0 <= i < n + 1 && ctx.qualifiedRef(infos[i].connectorRef) == k
    {
      if k == key {
        assert ctx.qualifiedRef(infos[n].connectorRef) == k;
      } else {
        assert k in m' <==> k in m;
      }
    }
  }

  lemma DetailValuesStep(m: map<string, Connector>, infos: seq<ConnectorConversionInfo>, n: int, ctx: InitContext)
    requires 0 <= n < |infos|
    requires DetailValues(m, infos, n, ctx)
    ensures DetailValues(m[ctx.qualifiedRef(infos[n].connectorRef) := ctx.conversionConnectorOf(infos[n])],
                         infos, n + 1, ctx)
  {
    var key := ctx.qualifiedRef(infos[n].connectorRef);
    var m' := m[key := ctx.conversionConnectorOf(infos[n])];
    forall i | 0 <= i < n + 1 && LastWithRef(infos, i, n + 1, ctx)
      ensures ctx.qualifiedRef(infos[i].connectorRef) in m'
      ensures m'[ctx.qualifiedRef(infos[i].connectorRef)] == ctx.conversionConnectorOf(infos[i])
    {
      var ki := ctx.qualifiedRef(infos[i].connectorRef);
      if i < n {
        assert ctx.qualifiedRef(infos[n].connectorRef) != ki;
        assert LastWithRef(infos, i, n, ctx);
        assert m'[ki] == m[ki];
      } else {
        assert ki == key;
      }
    }
  }

  method CollectConnectorDetails(infos: seq<ConnectorConversionInfo>, ctx: InitContext)
    returns (m: map<string, Connector>)
    ensures DetailsFor(m, infos, ctx)
  {
    m := map[];
    var n := 0;
    while n < |infos|
      invariant 0 <= n <= |infos|
      invariant DetailsUpTo(m, infos, n, ctx)
    {
      DetailsStep(m, infos, n, ctx);
      m := m[ctx.qualifiedRef(infos[n].connectorRef) := ctx.conversionConnectorOf(infos[n])];
      n := n + 1;
    }
  }

  // ---------------------------------------------------------------- container parameters

  predicate IsService(def: ContainerDefinition)
  {
    def.containerType == ServiceType
  }

  /** A customer variable that stays in `envVars`: not a secret reference and not overridden. */
  predicate KeptCustomerVar(def: ContainerDefinition, ctx: InitContext, k: string)
  {
    k in def.envVars && !ctx.isSecretRef(def.envVars[k])
  }

  /** Environment precedence: the service log key over the common variables over the customer's. */
  ghost predicate EnvRules(envVars: map<string, string>, withSecretRef: map<string, string>,
                           def: ContainerDefinition, ctx: InitContext)
  {
    EnvKeys(envVars, def, ctx) && EnvValues(envVars, def, ctx) && SecretRefRules(withSecretRef, def, ctx)
  }

  ghost predicate EnvKeys(envVars: map<string, string>, def: ContainerDefinition, ctx: InitContext)
  {
    forall k :: k in envVars <==>
      KeptCustomerVar(def, ctx, k) || k in ctx.commonEnvVars || (IsService(def) && k == ctx.serviceLogKey)
  }

  ghost predicate EnvValues(envVars: map<string, string>, def: ContainerDefinition, ctx: InitContext)
    requires EnvKeys(envVars, def, ctx)
  {
    && (IsService(def) ==>
          envVars[ctx.serviceLogKey] == ctx.logPrefix + "/serviceId:" + def.stepIdentifier)
    && (forall k :: k in ctx.commonEnvVars && !(IsService(def) && k == ctx.serviceLogKey) ==>
          envVars[k] == ctx.commonEnvVars[k])
    && (forall k ::
          (KeptCustomerVar(def, ctx, k) && k !in ctx.commonEnvVars && !(IsService(def) && k == ctx.serviceLogKey)) ==>
          envVars[k] == def.envVars[k])
  }

  ghost predicate SecretRefRules(withSecretRef: map<string, string>, def: ContainerDefinition, ctx: InitContext)
  {
    && (forall k :: k in withSecretRef <==> k in def.envVars && ctx.isSecretRef(def.envVars[k]))
    && (forall k :: k in withSecretRef ==> withSecretRef[k] == def.envVars[k])
  }

  /** The image connector: the internal one for a harness-managed image, else the named connector, if any. */
  ghost predicate ImageRules(imageConnector: Option<Connector>, def: ContainerDefinition, ctx: InitContext)
  {
    && (def.isHarnessManagedImage ==> imageConnector == Some(ctx.internalConnector))
    && (!def.isHarnessManagedImage && def.connectorIdentifier.Some? ==>
          imageConnector == Some(ctx.connectorOf(def.connectorIdentifier.value)))
    && (!def.isHarnessManagedImage && def.connectorIdentifier.None? ==> imageConnector.None?)
  }

  /** The image name, the security context and the OS and container-type flags. */
  ghost predicate FlagRules(p: ContainerParams, def: ContainerDefinition, ctx: InitContext)
  {
    && p.image == ctx.fullImageName(def.imageName, p.imageConnector)
    && p.securityContext.privileged ==
         (if def.privileged.Some? then def.privileged else ctx.baseSecurityContext.privileged)
    && p.securityContext.runAsUser ==
         (if def.runAsUser.Some? then def.runAsUser else ctx.baseSecurityContext.runAsUser)
    && (ctx.os != Windows ==> p.privileged == Some(def.privileged == Some(true)) && p.runAsUser == def.runAsUser)
    && (ctx.os == Windows ==> p.privileged.None? && p.runAsUser.None?)
    && (p.workingDir.Some? <==> !IsService(def))
    && (p.workingDir.Some? ==> p.workingDir.value == ctx.workDir)
  }

  ghost predicate ParamsFor(p: ContainerParams, def: ContainerDefinition,
                            refs: map<string, seq<ConnectorConversionInfo>>, ctx: InitContext)
  {
    && p.name == def.name
    && p.containerType == def.containerType
    && p.ports == def.ports
    && EnvRules(p.envVars, p.envVarsWithSecretRef, def, ctx)
    && ImageRules(p.imageConnector, def, ctx)
    && FlagRules(p, def, ctx)
    && DetailsFor(p.connectorDetails, ConversionInfosFor(def, refs), ctx)
  }

  /** The entries removeEnvVarsWithSecretRef takes out of the map. */
  function SecretRefEntries(env: map<string, string>, ctx: InitContext): (r: map<string, string>)
    ensures forall k :: k in r <==> k in env && ctx.isSecretRef(env[k])
    ensures forall k :: k in r ==> r[k] == env[k]
  {
    map k | k in env && ctx.isSecretRef(env[k]) :: env[k]
  }

  /** The entries removeEnvVarsWithSecretRef leaves in the map. */
  function PlainEntries(env: map<string, string>, ctx: InitContext): (r: map<string, string>)
    ensures forall k :: k in r <==> k in env && !ctx.isSecretRef(env[k])
    ensures forall k :: k in r ==> r[k] == env[k]
  {
    map k | k in env && !ctx.isSecretRef(env[k]) :: env[k]
  }

  /** The environment part of createCIK8ContainerParams. */
  method MergeEnvVars(def: ContainerDefinition, ctx: InitContext)
    returns (envVars: map<string, string>, envVarsWithSecretRef: map<string, string>)
    ensures EnvRules(envVars, envVarsWithSecretRef, def, ctx)
  {
    envVars := map[];
    if |def.envVars| > 0 {
      envVars := envVars + def.envVars;
    }
    assert envVars == def.envVars;
    envVarsWithSecretRef := SecretRefEntries(envVars, ctx);
    envVars := PlainEntries(envVars, ctx);
    envVars := envVars + ctx.commonEnvVars;
    if def.containerType == ServiceType {
      envVars := envVars[ctx.serviceLogKey := ctx.logPrefix + "/serviceId:" + def.stepIdentifier];
    }
    assert EnvKeys(envVars, def, ctx);
  }

  /** createCIK8ContainerParams. */
  method CreateContainerParams(def: ContainerDefinition, refs: map<string, seq<ConnectorConversionInfo>>,
                               ctx: InitContext)
    returns (p: ContainerParams)
    ensures ParamsFor(p, def, refs, ctx)
  {
    var stepConnectorDetails := CollectConnectorDetails(ConversionInfosFor(def, refs), ctx);

    var connectorDetails: Option<Connector> := None;
    if def.connectorIdentifier.Some? {
      connectorDetails := Some(ctx.connectorOf(def.connectorIdentifier.value));
    }
    var imgConnector := connectorDetails;
    if def.isHarnessManagedImage {
      imgConnector := Some(ctx.internalConnector);
    }
    var image := ctx.fullImageName(def.imageName, imgConnector);

    var envVars, envVarsWithSecretRef := MergeEnvVars(def, ctx);

    var securityContext := ctx.baseSecurityContext;
    if def.privileged.Some? {
      securityContext := securityContext.(privileged := def.privileged);
    }
    if def.runAsUser.Some? {
      securityContext := securityContext.(runAsUser := def.runAsUser);
    }
    var privileged := def.privileged.Some? && def.privileged.value;

    p := ContainerParams(def.name, def.containerType, envVars, envVarsWithSecretRef, stepConnectorDetails,
                         image, imgConnector, def.ports, securityContext, None, None, None);
    if ctx.os != Windows {
      p := p.(privileged := Some(privileged), runAsUser := def.runAsUser);
    }
    if def.containerType != ServiceType {
      p := p.(workingDir := Some(ctx.workDir));
    }
  }

  /** Some info carrying a reference that occurs among the first `n` is the last one before `n`. */
  lemma LastInfoWithRef(infos: seq<ConnectorConversionInfo>, n: int, k: string, ctx: InitContext) returns (i: int)
    requires 0 <= n <= |infos|
    requires exists j :: 0 <= j < n && ctx.qualifiedRef(infos[j].connectorRef) == k
    ensures 0 <= i < n && ctx.qualifiedRef(infos[i].connectorRef) == k && LastWithRef(infos, i, n, ctx)
    decreases n
  {
    if ctx.qualifiedRef(infos[n - 1].connectorRef) == k {
      i := n - 1;
    } else {
      i := LastInfoWithRef(infos, n - 1, k, ctx);
    }
  }

  /** The connector details are fully determined by the infos. */
  lemma DetailsDetermined(m1: map<string, Connector>, m2: map<string, Connector>,
                          infos: seq<ConnectorConversionInfo>, ctx: InitContext)
    requires DetailsFor(m1, infos, ctx) && DetailsFor(m2, infos, ctx)
    ensures m1 == m2
  {
    forall k | k in m1
      ensures k in m2 && m1[k] == m2[k]
    {
      var i := LastInfoWithRef(infos, |infos|, k, ctx);
    }
    assert m1.Keys == m2.Keys;
  }

  /** The environment rules leave exactly one pair of maps. */
  lemma EnvDetermined(e1: map<string, string>, s1: map<string, string>,
                      e2: map<string, string>, s2: map<string, string>, def: ContainerDefinition, ctx: InitContext)
    requires EnvRules(e1, s1, def, ctx) && EnvRules(e2, s2, def, ctx)
    ensures e1 == e2 && s1 == s2
  {
    forall k | k in e1
      ensures k in e2 && e1[k] == e2[k]
    {
      if IsService(def) && k == ctx.serviceLogKey {
      } else if k in ctx.commonEnvVars {
      } else {
        assert KeptCustomerVar(def, ctx, k);
      }
    }
    assert e1.Keys == e2.Keys;
    assert s1.Keys == s2.Keys;
  }

  /** createCIK8ContainerParams's contract pins down one parameter set for each definition. */
  lemma ParamsDetermined(p1: ContainerParams, p2: ContainerParams, def: ContainerDefinition,
                         refs: map<string, seq<ConnectorConversionInfo>>, ctx: InitContext)
    requires ParamsFor(p1, def, refs, ctx) && ParamsFor(p2, def, refs, ctx)
    ensures p1 == p2
  {
    EnvDetermined(p1.envVars, p1.envVarsWithSecretRef, p2.envVars, p2.envVarsWithSecretRef, def, ctx);
    DetailsDetermined(p1.connectorDetails, p2.connectorDetails, ConversionInfosFor(def, refs), ctx);
    assert p1.imageConnector == p2.imageConnector;
    assert p1.securityContext == p2.securityContext;
    assert p1.workingDir == p2.workingDir;
  }

  /** getContainerDefinitionInfos: one parameter set per definition, in order. */
  method ContainerParamsList(defs: seq<ContainerDefinition>, refs: map<string, seq<ConnectorConversionInfo>>,
                             ctx: InitContext)
    returns (ps: seq<ContainerParams>)
    ensures |ps| == |defs|
    ensures forall i :: 0 <= i < |defs| ==> ParamsFor(ps[i], defs[i], refs, ctx)
  {
    ps := [];
    for n := 0 to |defs|
      invariant |ps| == n
      invariant forall i :: 0 <= i < n ==> ParamsFor(ps[i], defs[i], refs, ctx)
    {
      var p := CreateContainerParams(defs[n], refs, ctx);
      ps := ps + [p];
    }
  }

  /** Names of the containers the clean-up removes: the pod's containers, then the set-up add-on. */
  function CleanupContainerNames(podContainers: seq<ContainerParams>, setupAddOn: ContainerParams): (r: seq<string>)
    ensures |r| == |podContainers| + 1
    ensures forall i :: 0 <= i < |podContainers| ==> r[i] == podContainers[i].name
    ensures r[|podContainers|] == setupAddOn.name
  {
    if podContainers == [] then [setupAddOn.name]
    else [podContainers[0].name] + CleanupContainerNames(podContainers[1..], setupAddOn)
  }

  // ---------------------------------------------------------------- the pod

  datatype PodPlan = PodPlan(
    labels: map<string, string>,
    containers: seq<ContainerParams>,
    initContainer: ContainerParams,
    cleanupNames: seq<string>)

  /** getK8InitializeTaskParams down to the pod's containers and the clean-up names. */
  method K8InitializeTaskParams(spec: ContainerStepSpec, ctx: InitContext) returns (r: Result<PodPlan>)
    ensures spec.infra.OtherInfra? ==>
      r == Err(ContainerStepExecution("Invalid infrastructure type: " + spec.infra.typeName))
    ensures spec.infra.KubernetesDirect? ==>
      (r.Err? <==> StepContainerDefinitions(spec, ctx).Err?)
    ensures spec.infra.KubernetesDirect? && r.Err? ==> r == Err(StepContainerDefinitions(spec, ctx).error)
    ensures r.Ok? ==>
      var defs := StepContainerDefinitions(spec, ctx).value;
      var plan := r.value;
      && |plan.containers| == |defs| + 1
      && (forall i :: 0 <= i < |defs| ==> plan.containers[i].name == defs[i].name)
      && plan.containers[|defs|] == ctx.liteEngine
      && plan.initContainer == ctx.setupAddOn
      && plan.cleanupNames == CleanupContainerNames(plan.containers, ctx.setupAddOn)
      && plan.labels == ctx.baseLabels + ctx.infraLabels
    ensures r.Ok? ==>
      var defs := StepContainerDefinitions(spec, ctx).value;
      forall i :: 0 <= i < |defs| ==> ParamsFor(r.value.containers[i], defs[i], StepConnectorRefsOf(spec, ctx), ctx)
  {
    if spec.infra.OtherInfra? {
      return Err(ContainerStepExecution("Invalid infrastructure type: " + spec.infra.typeName));
    }
    var labels := ctx.baseLabels;
    if |ctx.infraLabels| > 0 {
      labels := labels + ctx.infraLabels;
    }
    assert labels == ctx.baseLabels + ctx.infraLabels;
    var defsOrError := StepContainerDefinitions(spec, ctx);
    if defsOrError.Err? {
      return Err(defsOrError.error);
    }
    var refs := StepConnectorRefs(spec, ctx);
    var stepParams := ContainerParamsList(defsOrError.value, refs, ctx);
    var containers := stepParams + [ctx.liteEngine];
    r := Ok(PodPlan(labels, containers, ctx.setupAddOn, CleanupContainerNames(containers, ctx.setupAddOn)));
  }

  /** The clean-up list names every step container, then the lite engine, then the set-up add-on. */
  lemma CleanupNamesOrder(stepParams: seq<ContainerParams>, ctx: InitContext)
    ensures var names := CleanupContainerNames(stepParams + [ctx.liteEngine], ctx.setupAddOn);
      && |names| == |stepParams| + 2
      && (forall i :: 0 <= i < |stepParams| ==> names[i] == stepParams[i].name)
      && names[|stepParams|] == ctx.liteEngine.name
      && names[|stepParams| + 1] == ctx.setupAddOn.name
  {
    var all := stepParams + [ctx.liteEngine];
    assert forall i :: 0 <= i < |stepParams| ==> all[i] == stepParams[i];
    assert all[|stepParams|] == ctx.liteEngine;
  }
}
