/**
 * Governance expansion of an environment group: the JSON of a pipeline's
 * `environmentGroup` field is checked step by step and replaced by the expanded
 * group (its name, identifier, metadata and the expansion of each environment).
 *
 * Parsing the metadata object, the group lookup and the expansion of one
 * environment are collaborators, passed in as `ExpansionContext`.
 */
module EnvGroupExpansion {
  import opened Wrappers

  /** A Jackson JSON node. `JNull` is a JSON null, which `get` returns as a node, not as null. */
  datatype Json =
    | JObject(fields: map<string, Json>)
    | JArray(items: seq<Json>)
    | JText(text: string)
    | JBool(b: bool)
    | JNumber(n: int)
    | JNull

  /** JsonNode.get(name): a missing field (or any field of a non-object) is Java null. */
  function Get(node: Json, name: string): (r: Option<Json>)
    ensures r.Some? <==> node.JObject? && name in node.fields
    ensures r.Some? ==> r.value == node.fields[name]
  {
    if node.JObject? && name in node.fields then Some(node.fields[name]) else None
  }

  datatype GroupMetadata = GroupMetadata(parallel: Option<bool>)

  datatype GroupEntity = GroupEntity(name: string, identifier: string)

  datatype EnvironmentValue = EnvironmentValue(identifier: string)

  /** What expanding one environment node does: a value, or an exception with its message. */
  datatype Conversion = Converted(value: EnvironmentValue) | Thrown(message: Option<string>)

  datatype ExpansionContext = ExpansionContext(
    parseMetadata: Json -> Option<GroupMetadata>,
    findGroup: string -> Option<GroupEntity>,
    convert: Json -> Conversion)

  datatype Placement = Replace

  datatype EnvGroupExpandedValue = EnvGroupExpandedValue(
    name: string,
    identifier: string,
    environments: seq<EnvironmentValue>,
    metadata: map<string, bool>,
    deployToAll: Option<bool>)

  /** The response; a failure message is `None` where Java's exception message is unspecified. */
  datatype ExpansionResponse =
    | Rejected(errorMessage: Option<string>)
    | Expanded(key: string, value: EnvGroupExpandedValue, placement: Placement)

  const EnvGroupKey := "environmentGroup"

  // ---------------------------------------------------------------- environments

  /** The environments in order, or the exception of the first one that throws. */
  function ExpandedEnvironments(items: seq<Json>, convert: Json -> Conversion): (r: Option<seq<EnvironmentValue>>)
    ensures r.Some? <==> forall i :: 0 <= i < |items| ==> convert(items[i]).Converted?
    ensures r.Some? ==> |r.value| == |items| && forall i :: 0 <= i < |items| ==> r.value[i] == convert(items[i]).value
    decreases |items|
  {
    if items == [] then Some([])
    else
      var rest := ExpandedEnvironments(items[..|items| - 1], convert);
      if rest.None? then None
      else match convert(items[|items| - 1])
        case Thrown(_) => None
        case Converted(v) => Some(rest.value + [v])
  }

  /** The failure message of the first environment that throws. */
  function FirstThrownMessage(items: seq<Json>, convert: Json -> Conversion): (r: Option<string>)
    requires exists i :: 0 <= i < |items| && convert(items[i]).Thrown?
    ensures exists i :: 0 <= i < |items| && convert(items[i]).Thrown? && r == convert(items[i]).message &&
                        (forall j :: 0 <= j < i ==> convert(items[j]).Converted?)
  {
    if convert(items[0]).Thrown? then convert(items[0]).message
    else
      var r := FirstThrownMessage(items[1..], convert);
      assert forall j :: 0 <= j < |items| - 1 ==> items[1..][j] == items[j + 1];
      r
  }

  /** generateEnvironmentsExpansion: throws unless `environments` is an array, else expands each element. */
  function EnvironmentsExpansion(fieldValue: Json, ctx: ExpansionContext): (r: Conversions)
  {
    match Get(fieldValue, "environments")
    case None => Throws(None)
    case Some(JArray(items)) =>
      if ExpandedEnvironments(items, ctx.convert).Some? then Values(ExpandedEnvironments(items, ctx.convert).value)
      else Throws(FirstThrownMessage(items, ctx.convert))
    case Some(_) => Throws(Some("environments field is not an array"))
  }

  datatype Conversions = Values(values: seq<EnvironmentValue>) | Throws(message: Option<string>)

  /** The loop of generateEnvironmentsExpansion: each element in turn; the first exception ends it. */
  method GenerateEnvironmentsExpansion(fieldValue: Json, ctx: ExpansionContext) returns (r: Conversions)
    ensures r == EnvironmentsExpansion(fieldValue, ctx)
  {
    var environments := Get(fieldValue, "environments");
    if environments.None? {
      return Throws(None);
    }
    if !environments.value.JArray? {
      return Throws(Some("environments field is not an array"));
    }
    var items := environments.value.items;
    var values: seq<EnvironmentValue> := [];
    var n := 0;
    while n < |items|
      invariant 0 <= n <= |items|
      invariant ExpandedEnvironments(items[..n], ctx.convert) == Some(values)
    {
      assert items[..n + 1][..n] == items[..n];
      match ctx.convert(items[n]) {
        case Thrown(message) =>
          assert items[..n + 1][n] == items[n];
          assert exists i :: 0 <= i < |items| && ctx.convert(items[i]).Thrown?;
          FirstThrownIsAt(items, n, ctx.convert);
          return Throws(message);
        case Converted(v) =>
          values := values + [v];
      }
      n := n + 1;
    }
    assert items[..n] == items;
    r := Values(values);
  }

  /** When the first `n` elements convert and the next throws, that is the first thrown message. */
  lemma FirstThrownIsAt(items: seq<Json>, n: int, convert: Json -> Conversion)
    requires 0 <= n < |items|
    requires ExpandedEnvironments(items[..n], convert).Some?
    requires convert(items[n]).Thrown?
    ensures ExpandedEnvironments(items, convert).None?
    ensures FirstThrownMessage(items, convert) == convert(items[n]).message
  {
    forall j | 0 <= j < n
      ensures convert(items[j]).Converted?
    {
      assert items[..n][j] == items[j];
    }
    var m := FirstThrownMessage(items, convert);
    var i :| 0 <= i < |items| && convert(items[i]).Thrown? && m == convert(items[i]).message &&
             (forall j :: 0 <= j < i ==> convert(items[j]).Converted?);
    assert i == n;
  }

  // ---------------------------------------------------------------- expand

  /** The `parallel` entry of the metadata map: present only when the metadata parsed and named it. */
  function MetadataMap(fieldValue: Json, ctx: ExpansionContext): (r: map<string, bool>)
    ensures r.Keys <= {"parallel"}
    ensures "parallel" in r <==>
      (match Get(fieldValue, "metadata")
       case Some(JObject(_)) =>
         ctx.parseMetadata(Get(fieldValue, "metadata").value).Some? &&
         ctx.parseMetadata(Get(fieldValue, "metadata").value).value.parallel.Some?
       case _ => false)
  {
    var metadataNode := Get(fieldValue, "metadata");
    var metadata :=
      if metadataNode.Some? && metadataNode.value.JObject? && ctx.parseMetadata(metadataNode.value).Some?
      then ctx.parseMetadata(metadataNode.value).value
      else GroupMetadata(None);
    if metadata.parallel.Some? then map["parallel" := metadata.parallel.value] else map[]
  }

  /** deployToAll: the boolean when the node is boolean, else null. */
  function DeployToAll(fieldValue: Json): (r: Option<bool>)
    ensures r.Some? <==> Get(fieldValue, "deployToAll").Some? && Get(fieldValue, "deployToAll").value.JBool?
    ensures r.Some? ==> r.value == Get(fieldValue, "deployToAll").value.b
  {
    match Get(fieldValue, "deployToAll")
    case Some(JBool(b)) => Some(b)
    case _ => None
  }

  /** expand: the checks in their order, each returning a failure response. */
  function Expand(fieldValue: Json, ctx: ExpansionContext): (r: ExpansionResponse)
    ensures !fieldValue.JObject? ==> r == Rejected(Some("field value is not an object"))
    ensures fieldValue.JObject? && Get(fieldValue, "envGroupRef").None? ==>
      r == Rejected(Some("environmentGroupRef value is not present in the yaml"))
  {
    if !fieldValue.JObject? then Rejected(Some("field value is not an object"))
    else
      var metadataMap := MetadataMap(fieldValue, ctx);
      match Get(fieldValue, "envGroupRef")
      case None => Rejected(Some("environmentGroupRef value is not present in the yaml"))
      case Some(refNode) =>
        var deployToAll := DeployToAll(fieldValue);
        if !refNode.JText? then Rejected(Some("environmentGroupRef value is not a text field in the yaml"))
        else
          var envGroupRef := refNode.text;
          match ctx.findGroup(envGroupRef)
          case None => Rejected(Some("Environment group ref " + envGroupRef + " not found"))
          case Some(entity) =>
            match EnvironmentsExpansion(fieldValue, ctx)
            case Throws(message) => Rejected(message)
            case Values(environments) =>
              var value := EnvGroupExpandedValue(entity.name, entity.identifier, environments, metadataMap, deployToAll);
              Expanded(EnvGroupKey, value, Replace)
  }

  /** A present but non-textual reference fails, whatever else the field holds. */
  lemma NonTextualRefFails(fieldValue: Json, ctx: ExpansionContext)
    requires fieldValue.JObject? && Get(fieldValue, "envGroupRef").Some?
    requires !Get(fieldValue, "envGroupRef").value.JText?
    ensures Expand(fieldValue, ctx) == Rejected(Some("environmentGroupRef value is not a text field in the yaml"))
  {
  }

  /** An unknown group fails with a message naming the reference, before the environments are looked at. */
  lemma UnknownGroupFails(fieldValue: Json, ref: string, ctx: ExpansionContext)
    requires fieldValue.JObject? && Get(fieldValue, "envGroupRef") == Some(JText(ref))
    requires ctx.findGroup(ref).None?
    ensures Expand(fieldValue, ctx) == Rejected(Some("Environment group ref " + ref + " not found"))
  {
  }

  /** A non-array `environments` becomes a failure response. */
  lemma NonArrayEnvironmentsFail(fieldValue: Json, ref: string, ctx: ExpansionContext)
    requires fieldValue.JObject? && Get(fieldValue, "envGroupRef") == Some(JText(ref))
    requires ctx.findGroup(ref).Some?
    requires Get(fieldValue, "environments").Some? && !Get(fieldValue, "environments").value.JArray?
    ensures Expand(fieldValue, ctx) == Rejected(Some("environments field is not an array"))
  {
  }

  /** Success happens exactly when every check passes, and then carries the entity, key and placement. */
  lemma ExpandSucceeds(fieldValue: Json, ref: string, ctx: ExpansionContext)
    requires fieldValue.JObject? && Get(fieldValue, "envGroupRef") == Some(JText(ref))
    ensures Expand(fieldValue, ctx).Expanded? <==>
      ctx.findGroup(ref).Some? && EnvironmentsExpansion(fieldValue, ctx).Values?
    ensures Expand(fieldValue, ctx).Expanded? ==>
      var r := Expand(fieldValue, ctx);
      && r.key == EnvGroupKey
      && r.placement == Replace
      && r.value.name == ctx.findGroup(ref).value.name
      && r.value.identifier == ctx.findGroup(ref).value.identifier
      && r.value.environments == EnvironmentsExpansion(fieldValue, ctx).values
      && r.value.metadata == MetadataMap(fieldValue, ctx)
      && r.value.deployToAll == DeployToAll(fieldValue)
  {
  }

  /** On success the environments are the conversions of the array's elements, in order. */
  lemma ExpandedEnvironmentsInOrder(fieldValue: Json, ctx: ExpansionContext)
    requires Get(fieldValue, "environments").Some? && Get(fieldValue, "environments").value.JArray?
    requires EnvironmentsExpansion(fieldValue, ctx).Values?
    ensures var items := Get(fieldValue, "environments").value.items;
      var values := EnvironmentsExpansion(fieldValue, ctx).values;
      |values| == |items| && forall i :: 0 <= i < |items| ==> values[i] == ctx.convert(items[i]).value
  {
  }
}
