/**
 * RuntimeInputFormHelper: turns the FQN-to-value map of a pipeline YAML into the template of
 * its runtime inputs. A map is a LinkedHashMap, so it is an entry sequence with distinct keys in
 * insertion order (module LinkedMap). The expression patterns of NGExpressionUtils and the FQN
 * accessors are parameters; YAML parsing and rendering are not part of this model.
 */
module RuntimeInputForm {
  import opened Wrappers
  import opened Text
  import opened LinkedMap

  datatype NodeType = KeyNode | UuidNode | ParallelNode

  datatype FqnNode = FqnNode(nodeType: NodeType, key: string)

  /** FQN.getFqnList: the path from the YAML root to a leaf. */
  type Fqn = seq<FqnNode>

  /** A leaf of the YAML tree: its toString form and, when it is a text node, its text. */
  datatype YamlValue = YamlValue(rendered: string, text: Option<string>)

  type FqnMap = seq<(Fqn, YamlValue)>

  /** The NGExpressionUtils matchers. */
  datatype Patterns = Patterns(
    executionInput: string -> bool,
    inputSet: string -> bool,
    runtimeField: string -> bool,
    updatedExecutionInput: string -> bool)

  /** The FQN accessors the helper calls. */
  datatype FqnView = FqnView(
    isIdentifierOrVariableName: Fqn -> bool,
    isType: Fqn -> bool,
    parent: Fqn -> Fqn,
    expressionFqn: Fqn -> string,
    expressionFqnWithoutIgnoring: Fqn -> string)

  /** EXPR_START, NGExpressionUtils.EXPRESSION_INPUT_CONSTANT and EXPR_END_ESC. */
  datatype ExpressionSyntax = ExpressionSyntax(exprStart: string, inputConstant: string, exprEndEsc: string)

  const DefaultKey: string := "default"
  const PipelineKey: string := "pipeline"
  /** YAMLFieldNameConstants STAGE, SPEC and EXECUTION joined by dots. */
  const ExecutionFqnFromStage: string := "stage.spec.execution"

  /** HarnessStringUtils.removeLeadingAndTrailingQuotesBothOrNone. */
  function Unquote(s: string): string
  {
    if |s| >= 2 && s[0] == '"' && s[|s| - 1] == '"' then s[1..|s| - 1] else s
  }

  /** The value with every `\"` and then every `"` removed, as the execution-input forms compare it. */
  function Cleaned(v: YamlValue): string
  {
    ReplaceAll(ReplaceAll(v.rendered, "\\\"", ""), "\"", "")
  }

  /**
   * Which entries a forEach over a map puts into the template: the runtime-input form, the
   * template of getRuntimeInputFormYamlConfig, the form for an inputs YAML and the
   * execution-input forms (the stage one skipping keys under the stage's execution).
   */
  datatype Rule =
    | FormRule(keepInput: bool)
    | TemplateRule
    | InputsRule(keepInputs: bool, pipeline: FqnMap)
    | ExecutionInputRule(skipStageExecution: bool)

  predicate KeepsForForm(k: Fqn, value: string, keepInput: bool, pat: Patterns, view: FqnView)
  {
    pat.executionInput(value)
    || (keepInput && pat.inputSet(value))
    || (!keepInput && !pat.inputSet(value) && !view.isIdentifierOrVariableName(k) && !view.isType(k))
  }

  /** getRuntimeInputFormYamlConfig's template keeps execution inputs and input-set fields that are not types. */
  predicate IsTemplateInput(k: Fqn, value: string, pat: Patterns, view: FqnView)
  {
    pat.executionInput(value) || (pat.inputSet(value) && !view.isType(k))
  }

  predicate Considered(k: Fqn, skipStageExecution: bool, view: FqnView)
  {
    !(skipStageExecution && StartsWith(view.expressionFqn(k), ExecutionFqnFromStage))
  }

  predicate Keeps(rule: Rule, k: Fqn, v: YamlValue, pat: Patterns, view: FqnView)
  {
    match rule
    case FormRule(keepInput) => KeepsForForm(k, Unquote(v.rendered), keepInput, pat, view)
    case TemplateRule => IsTemplateInput(k, Unquote(v.rendered), pat, view)
    case InputsRule(keepInput, pipeline) =>
      KeepsForForm(k, Unquote(v.rendered), keepInput, pat, view)
      || (!keepInput && UnderRuntimeParent(pipeline, k, pat))
    case ExecutionInputRule(skip) =>
      Considered(k, skip, view) && (pat.executionInput(Cleaned(v)) || pat.updatedExecutionInput(Cleaned(v)))
  }

  /** The entries of `m` that `rule` keeps, in their order. */
  function Filter(m: FqnMap, rule: Rule, pat: Patterns, view: FqnView): FqnMap
  {
    if m == [] then []
    else
      var prefix := Filter(m[..|m| - 1], rule, pat, view);
      var e := m[|m| - 1];
      if Keeps(rule, e.0, e.1, pat, view) then prefix + [e] else prefix
  }

  /** Filtering one more entry either appends it or leaves the result as it was. */
  lemma FilterSnoc(m: FqnMap, i: int, rule: Rule, pat: Patterns, view: FqnView)
    requires 0 <= i < |m|
    ensures Filter(m[..i + 1], rule, pat, view) ==
            if Keeps(rule, m[i].0, m[i].1, pat, view) then Filter(m[..i], rule, pat, view) + [m[i]]
            else Filter(m[..i], rule, pat, view)
  {
    assert m[..i + 1][..i] == m[..i];
  }

  lemma {:induction false} FilterMembers(m: FqnMap, rule: Rule, pat: Patterns, view: FqnView)
    ensures forall e :: e in Filter(m, rule, pat, view) <==> e in m && Keeps(rule, e.0, e.1, pat, view)
  {
    if m != [] {
      FilterMembers(m[..|m| - 1], rule, pat, view);
      assert m == m[..|m| - 1] + [m[|m| - 1]];
    }
  }

  /** A filtered map keeps its keys distinct and each of its entries is the entry of `m`. */
  lemma {:induction false} FilterIsSubMap(m: FqnMap, rule: Rule, pat: Patterns, view: FqnView)
    requires DistinctKeys(m)
    ensures DistinctKeys(Filter(m, rule, pat, view))
    ensures AgreesWith(Filter(m, rule, pat, view), m)
    ensures KeySet(Filter(m, rule, pat, view)) <= KeySet(m)
  {
    FilterMembers(m, rule, pat, view);
    DistinctAgreesWithItself(m);
    if m != [] {
      var prefix := m[..|m| - 1];
      FilterIsSubMap(prefix, rule, pat, view);
      PrefixLacksKey(m, |m| - 1);
      var f := Filter(prefix, rule, pat, view);
      if Keeps(rule, m[|m| - 1].0, m[|m| - 1].1, pat, view) {
        forall i | 0 <= i < |f|
          ensures f[i].0 != m[|m| - 1].0
        {
          assert f[i] in f;
        }
      }
    }
  }

  /** Putting entries with fresh keys one by one into a map is appending them. */
  lemma PutFresh(t: FqnMap, m: FqnMap, i: int, rule: Rule, pat: Patterns, view: FqnView)
    requires DistinctKeys(m) && 0 <= i < |m| && t == Filter(m[..i], rule, pat, view)
    ensures Put(t, m[i].0, m[i].1) == t + [m[i]]
  {
    PrefixLacksKey(m, i);
    FilterMembers(m[..i], rule, pat, view);
    assert KeySet(t) <= KeySet(m[..i]);
  }

  /** A forEach over `m` that puts every entry `rule` keeps into a new LinkedHashMap. */
  method PutKept(m: FqnMap, rule: Rule, pat: Patterns, view: FqnView) returns (t: FqnMap)
    requires DistinctKeys(m)
    ensures t == Filter(m, rule, pat, view)
  {
    t := [];
    var i := 0;
    while i < |m|
      invariant 0 <= i <= |m|
      invariant t == Filter(m[..i], rule, pat, view)
    {
      assert m[..i + 1][..i] == m[..i];
      if Keeps(rule, m[i].0, m[i].1, pat, view) {
        PutFresh(t, m, i, rule, pat, view);
        t := Put(t, m[i].0, m[i].1);
      }
      i := i + 1;
    }
    assert m[..|m|] == m;
  }

  // ---- default siblings ----

  /** FQN.duplicateAndAddNode(parent, KEY "default"): the `default` key next to `k`. */
  function DefaultSibling(k: Fqn, view: FqnView): Fqn
  {
    view.parent(k) + [FqnNode(KeyNode, DefaultKey)]
  }

  predicate HasDefaultSiblingIn(t: FqnMap, k: Fqn, view: FqnView)
  {
    exists i :: 0 <= i < |t| && DefaultSibling(t[i].0, view) == k
  }

  /** The `defaultKeys` map: for each template key in order, its default sibling when the full map has one. */
  function Defaults(t: FqnMap, full: FqnMap, view: FqnView): FqnMap
  {
    if t == [] then []
    else
      var d := Defaults(t[..|t| - 1], full, view);
      var sibling := DefaultSibling(t[|t| - 1].0, view);
      if sibling in KeySet(full) then Put(d, sibling, Get(full, sibling).value) else d
  }

  /** A default is taken exactly for the default siblings present in the full map, with its value there. */
  lemma {:induction false} DefaultsSpec(t: FqnMap, full: FqnMap, view: FqnView)
    ensures AgreesWith(Defaults(t, full, view), full)
    ensures DistinctKeys(Defaults(t, full, view))
    ensures forall k :: k in KeySet(Defaults(t, full, view)) <==> k in KeySet(full) && HasDefaultSiblingIn(t, k, view)
  {
    if t != [] {
      var prefix := t[..|t| - 1];
      DefaultsSpec(prefix, full, view);
      var d := Defaults(prefix, full, view);
      var sibling := DefaultSibling(t[|t| - 1].0, view);
      forall k
        ensures HasDefaultSiblingIn(t, k, view) <==> HasDefaultSiblingIn(prefix, k, view) || k == sibling
      {
        if HasDefaultSiblingIn(t, k, view) {
          var i :| 0 <= i < |t| && DefaultSibling(t[i].0, view) == k;
          if i < |t| - 1 {
            assert prefix[i] == t[i];
          }
        }
        if HasDefaultSiblingIn(prefix, k, view) {
          var i :| 0 <= i < |prefix| && DefaultSibling(prefix[i].0, view) == k;
          assert t[i] == prefix[i];
        }
        if k == sibling {
          assert DefaultSibling(t[|t| - 1].0, view) == k;
        }
      }
      if sibling in KeySet(full) {
        PutEntries(d, sibling, Get(full, sibling).value);
        PutKeepsDistinct(d, sibling, Get(full, sibling).value);
      }
    }
  }

  /** The template of createRuntimeInputFormYamlConfig(yamlConfig, keepInput, keepDefaultValues). */
  function Template(full: FqnMap, keepInput: bool, keepDefaultValues: bool, pat: Patterns, view: FqnView): FqnMap
  {
    var kept := Filter(full, FormRule(keepInput), pat, view);
    if keepDefaultValues && kept != [] then PutAll(kept, Defaults(kept, full, view)) else kept
  }

  /**
   * createRuntimeInputFormYamlConfig(yamlConfig, keepInput, keepDefaultValues): the kept entries,
   * then, when defaults are wanted and something was kept, the default siblings of the kept keys.
   */
  method CreateRuntimeInputFormYamlConfig(full: FqnMap, keepInput: bool, keepDefaultValues: bool,
                                          pat: Patterns, view: FqnView) returns (template: FqnMap)
    requires DistinctKeys(full)
    ensures template == Template(full, keepInput, keepDefaultValues, pat, view)
  {
    template := PutKept(full, FormRule(keepInput), pat, view);
    if keepDefaultValues && template != [] {
      var defaultKeys: FqnMap := [];
      var i := 0;
      while i < |template|
        invariant 0 <= i <= |template|
        invariant defaultKeys == Defaults(template[..i], full, view)
      {
        assert template[..i + 1][..i] == template[..i];
        var defaultSibling := DefaultSibling(template[i].0, view);
        if defaultSibling in KeySet(full) {
          defaultKeys := Put(defaultKeys, defaultSibling, Get(full, defaultSibling).value);
        }
        i := i + 1;
      }
      assert template[..|template|] == template;
      template := PutAll(template, defaultKeys);
    }
  }

  /**
   * The template is a sub-map of the full map, and a key is in it exactly when its entry is kept,
   * or when defaults are wanted, something was kept and it is the default sibling of a kept key.
   */
  lemma TemplateSpec(full: FqnMap, keepInput: bool, keepDefaultValues: bool, pat: Patterns, view: FqnView, k: Fqn)
    requires DistinctKeys(full)
    ensures var t := Template(full, keepInput, keepDefaultValues, pat, view);
      DistinctKeys(t) && AgreesWith(t, full) && (k in KeySet(t) ==> Get(t, k) == Get(full, k))
    ensures var kept := Filter(full, FormRule(keepInput), pat, view);
      (k in KeySet(Template(full, keepInput, keepDefaultValues, pat, view)))
      <==> ((exists e :: e in full && e.0 == k && KeepsForForm(k, Unquote(e.1.rendered), keepInput, pat, view))
            || (keepDefaultValues && kept != [] && k in KeySet(full) && HasDefaultSiblingIn(kept, k, view)))
  {
    var kept := Filter(full, FormRule(keepInput), pat, view);
    FilterIsSubMap(full, FormRule(keepInput), pat, view);
    FilterMembers(full, FormRule(keepInput), pat, view);
    var t := Template(full, keepInput, keepDefaultValues, pat, view);
    if keepDefaultValues && kept != [] {
      DefaultsSpec(kept, full, view);
      PutAllAgrees(kept, Defaults(kept, full, view), full);
      PutAllKeepsDistinct(kept, Defaults(kept, full, view));
    }
    assert k in KeySet(kept) <==> exists e :: e in full && e.0 == k && KeepsForForm(k, Unquote(e.1.rendered), keepInput, pat, view) by {
      if k in KeySet(kept) {
        var e :| e in kept && e.0 == k;
        assert e in full;
      }
    }
    if k in KeySet(t) {
      AgreeingGet(t, full, k);
    }
  }

  /** Without default values, the template is the kept entries and nothing else. */
  lemma NoDefaultsWithoutKeepDefaultValues(full: FqnMap, keepInput: bool, pat: Patterns, view: FqnView)
    ensures Template(full, keepInput, false, pat, view) == Filter(full, FormRule(keepInput), pat, view)
  {
  }

  // ---- getRuntimeInputFormYamlConfig ----

  /** For each entry of the input set whose key is in `keys`, in order, its value with quotes stripped. */
  function InputValues(inputSet: FqnMap, keys: set<Fqn>): seq<(Fqn, string)>
  {
    if inputSet == [] then []
    else
      var prefix := InputValues(inputSet[..|inputSet| - 1], keys);
      var e := inputSet[|inputSet| - 1];
      if e.0 in keys then prefix + [(e.0, Unquote(e.1.rendered))] else prefix
  }

  lemma {:induction false} InputValuesMembers(inputSet: FqnMap, keys: set<Fqn>)
    ensures forall e :: e in InputValues(inputSet, keys) <==>
      (e.0 in keys && exists v :: (e.0, v) in inputSet && e.1 == Unquote(v.rendered))
  {
    if inputSet != [] {
      var prefix := inputSet[..|inputSet| - 1];
      InputValuesMembers(prefix, keys);
      assert inputSet == prefix + [inputSet[|inputSet| - 1]];
      assert forall x :: x in inputSet <==> x in prefix || x == inputSet[|inputSet| - 1];
    }
  }

  lemma {:induction false} InputValuesKeys(inputSet: FqnMap, keys: set<Fqn>)
    ensures KeySet(InputValues(inputSet, keys)) <= KeySet(inputSet)
    ensures KeySet(InputValues(inputSet, keys)) <= keys
  {
    InputValuesMembers(inputSet, keys);
    forall k | k in KeySet(InputValues(inputSet, keys))
      ensures k in KeySet(inputSet)
    {
      var e :| e in InputValues(inputSet, keys) && e.0 == k;
      var v :| (k, v) in inputSet && e.1 == Unquote(v.rendered);
    }
  }

  /**
   * getRuntimeInputFormYamlConfig: the template keeps execution inputs and non-type input-set
   * fields; the result maps each input-set key that the template holds to its unquoted value.
   */
  method GetRuntimeInputFormYamlConfig(pipelineTemplate: FqnMap, inputSet: FqnMap, pat: Patterns, view: FqnView)
    returns (inputKeyValueMap: seq<(Fqn, string)>)
    requires DistinctKeys(pipelineTemplate) && DistinctKeys(inputSet)
    ensures inputKeyValueMap == InputValues(inputSet, KeySet(Filter(pipelineTemplate, TemplateRule, pat, view)))
  {
    var templateMap := PutKept(pipelineTemplate, TemplateRule, pat, view);
    ghost var keys := KeySet(templateMap);
    inputKeyValueMap := [];
    var i := 0;
    while i < |inputSet|
      invariant 0 <= i <= |inputSet|
      invariant inputKeyValueMap == InputValues(inputSet[..i], keys)
    {
      assert inputSet[..i + 1][..i] == inputSet[..i];
      var key := inputSet[i].0;
      if key in KeySet(templateMap) {
        PrefixLacksKey(inputSet, i);
        InputValuesKeys(inputSet[..i], keys);
        inputKeyValueMap := Put(inputKeyValueMap, key, Unquote(inputSet[i].1.rendered));
      }
      i := i + 1;
    }
    assert inputSet[..|inputSet|] == inputSet;
  }

  /** A key of the result is an input-set key that the template holds because its value there is an input. */
  lemma InputFormSpec(pipelineTemplate: FqnMap, inputSet: FqnMap, pat: Patterns, view: FqnView, k: Fqn, s: string)
    ensures var r := InputValues(inputSet, KeySet(Filter(pipelineTemplate, TemplateRule, pat, view)));
      (k, s) in r <==>
        (exists v :: (k, v) in inputSet && s == Unquote(v.rendered))
        && (exists w :: (k, w) in pipelineTemplate && IsTemplateInput(k, Unquote(w.rendered), pat, view))
  {
    var t := Filter(pipelineTemplate, TemplateRule, pat, view);
    InputValuesMembers(inputSet, KeySet(t));
    FilterMembers(pipelineTemplate, TemplateRule, pat, view);
    if k in KeySet(t) {
      var e :| e in t && e.0 == k;
      assert (k, e.1) in pipelineTemplate;
    }
    if exists w :: (k, w) in pipelineTemplate && IsTemplateInput(k, Unquote(w.rendered), pat, view) {
      var w :| (k, w) in pipelineTemplate && IsTemplateInput(k, Unquote(w.rendered), pat, view);
      assert (k, w) in t;
    }
  }

  // ---- normalizeAgainstKey ----

  predicate IsKeyNode(n: FqnNode, key: string)
  {
    key == n.key && n.nodeType == KeyNode
  }

  predicate IsFirstKeyNode(fqn: Fqn, key: string, i: int)
  {
    0 <= i < |fqn| && IsKeyNode(fqn[i], key) && forall j :: 0 <= j < i ==> !IsKeyNode(fqn[j], key)
  }

  /** The index of the first KEY node named `key`, or -1. */
  function FirstKeyIndex(fqn: Fqn, key: string): (i: int)
    ensures -1 <= i < |fqn|
    ensures i >= 0 ==> IsKeyNode(fqn[i], key)
    ensures forall j :: 0 <= j < |fqn| && (i < 0 || j < i) ==> !IsKeyNode(fqn[j], key)
  {
    if fqn == [] then -1
    else if IsKeyNode(fqn[0], key) then 0
    else
      var i := FirstKeyIndex(fqn[1..], key);
      if i < 0 then -1 else i + 1
  }

  function Normalized(fqn: Fqn, key: string): Fqn
  {
    var i := FirstKeyIndex(fqn, key);
    if i < 0 then fqn else fqn[i..]
  }

  /**
   * normalizeAgainstKey: the suffix that starts at the first KEY node named `key`, or the whole
   * list when it has none.
   */
  method NormalizeAgainstKey(fqnList: Fqn, key: string) returns (r: Fqn)
    ensures r == Normalized(fqnList, key)
    ensures (forall j :: 0 <= j < |fqnList| ==> !IsKeyNode(fqnList[j], key)) ==> r == fqnList
    ensures forall i :: IsFirstKeyNode(fqnList, key, i) ==> r == fqnList[i..]
  {
    var indexWithKey := -1;
    var i := 0;
    while i < |fqnList|
      invariant 0 <= i <= |fqnList|
      invariant forall j :: 0 <= j < i ==> !IsKeyNode(fqnList[j], key)
    {
      if IsKeyNode(fqnList[i], key) {
        indexWithKey := i;
        break;
      }
      i := i + 1;
    }
    r := if indexWithKey != -1 then fqnList[indexWithKey..] else fqnList;
  }

  // ---- runtime parents ----

  /** The pipeline holds a text node at `p` whose text is a runtime field. */
  predicate RuntimeTextAt(pipeline: FqnMap, p: Fqn, pat: Patterns)
  {
    var v := Get(pipeline, p);
    v.Some? && v.value.text.Some? && pat.runtimeField(v.value.text.value)
  }

  /** The proper prefix of length `j` of `fqn`, normalised against `pipeline`, is a runtime field. */
  predicate RuntimePrefix(pipeline: FqnMap, fqn: Fqn, j: int, pat: Patterns)
  {
    1 <= j < |fqn| && RuntimeTextAt(pipeline, Normalized(fqn[..j], PipelineKey), pat)
  }

  predicate UnderRuntimeParent(pipeline: FqnMap, fqn: Fqn, pat: Patterns)
  {
    exists j | 1 <= j < |fqn| :: RuntimePrefix(pipeline, fqn, j, pat)
  }

  /**
   * The inner loop of leafNodesWithParentsAsRuntimeInput: the proper prefixes of `fqn`, longest
   * first, are normalised and looked up until one is a runtime text field.
   */
  method HasRuntimeParent(pipeline: FqnMap, fqn: Fqn, pat: Patterns) returns (found: bool)
    requires |fqn| > 1
    ensures found <==> UnderRuntimeParent(pipeline, fqn, pat)
  {
    var fqnList := fqn[..|fqn| - 1];
    while |fqnList| > 0
      invariant |fqnList| < |fqn| && fqnList == fqn[..|fqnList|]
      invariant forall j :: |fqnList| < j < |fqn| ==> !RuntimePrefix(pipeline, fqn, j, pat)
    {
      var parentFqn := NormalizeAgainstKey(fqnList, PipelineKey);
      var value := Get(pipeline, parentFqn);
      if value.Some? && value.value.text.Some? && pat.runtimeField(value.value.text.value) {
        assert RuntimePrefix(pipeline, fqn, |fqnList|, pat);
        return true;
      }
      fqnList := fqnList[..|fqnList| - 1];
    }
    return false;
  }

  /**
   * leafNodesWithParentsAsRuntimeInput: the input keys one of whose proper prefixes, normalised
   * against `pipeline`, is a runtime text field of the pipeline. Keys of length 0 or 1 are skipped.
   */
  method LeafNodesWithParentsAsRuntimeInput(pipeline: FqnMap, inputs: FqnMap, pat: Patterns) returns (result: set<Fqn>)
    ensures forall k :: k in result <==> k in KeySet(inputs) && UnderRuntimeParent(pipeline, k, pat)
  {
    result := {};
    var n := 0;
    while n < |inputs|
      invariant 0 <= n <= |inputs|
      invariant forall k :: k in result <==> k in KeySet(inputs[..n]) && UnderRuntimeParent(pipeline, k, pat)
    {
      KeySetSnoc(inputs[..n], inputs[n]);
      assert inputs[..n + 1] == inputs[..n] + [inputs[n]];
      var fqn := inputs[n].0;
      if |fqn| > 1 {
        var found := HasRuntimeParent(pipeline, fqn, pat);
        if found {
          result := result + {fqn};
        }
      }
      n := n + 1;
    }
    assert inputs[..|inputs|] == inputs;
  }

  /**
   * createRuntimeInputFormYamlConfig(pipeline, inputsConfig, keepInput): the input entries kept by
   * the runtime-input rule, and, when inputs are not kept, those under a runtime parent in the pipeline.
   */
  method CreateRuntimeInputFormForInputs(pipeline: FqnMap, inputs: FqnMap, keepInput: bool, pat: Patterns, view: FqnView)
    returns (template: FqnMap)
    requires DistinctKeys(inputs)
    ensures template == Filter(inputs, InputsRule(keepInput, pipeline), pat, view)
  {
    var fqnsWithSomeParentAsRuntimeOrExpression := LeafNodesWithParentsAsRuntimeInput(pipeline, inputs, pat);
    template := [];
    var i := 0;
    while i < |inputs|
      invariant 0 <= i <= |inputs|
      invariant template == Filter(inputs[..i], InputsRule(keepInput, pipeline), pat, view)
    {
      assert inputs[..i + 1][..i] == inputs[..i];
      var key := inputs[i].0;
      assert inputs[i] in inputs;
      if KeepsForForm(key, Unquote(inputs[i].1.rendered), keepInput, pat, view)
         || (!keepInput && key in fqnsWithSomeParentAsRuntimeOrExpression)
      {
        PutFresh(template, inputs, i, InputsRule(keepInput, pipeline), pat, view);
        template := Put(template, key, inputs[i].1);
      }
      i := i + 1;
    }
    assert inputs[..|inputs|] == inputs;
  }

  /**
   * The form for an inputs YAML is a sub-map of the inputs, and a key is in it exactly when its
   * value is kept by the runtime-input rule or, without keepInput, it lies under a runtime parent.
   */
  lemma InputsFormSpec(pipeline: FqnMap, inputs: FqnMap, keepInput: bool, pat: Patterns, view: FqnView, k: Fqn)
    requires DistinctKeys(inputs)
    ensures var t := Filter(inputs, InputsRule(keepInput, pipeline), pat, view);
      DistinctKeys(t) && AgreesWith(t, inputs)
    ensures var t := Filter(inputs, InputsRule(keepInput, pipeline), pat, view);
      (k in KeySet(t))
      <==> (exists v :: (k, v) in inputs
             && (KeepsForForm(k, Unquote(v.rendered), keepInput, pat, view)
                 || (!keepInput && UnderRuntimeParent(pipeline, k, pat))))
  {
    var t := Filter(inputs, InputsRule(keepInput, pipeline), pat, view);
    FilterIsSubMap(inputs, InputsRule(keepInput, pipeline), pat, view);
    FilterMembers(inputs, InputsRule(keepInput, pipeline), pat, view);
    if k in KeySet(t) {
      var e :| e in t && e.0 == k;
      assert (k, e.1) in inputs;
    }
  }

  // ---- execution-input forms ----

  /** The template of the execution inputs together with the full map after their replacement. */
  datatype ExecutionInputForm = ExecutionInputForm(template: FqnMap, updatedFull: FqnMap)

  /** The string `<+input>.<fqn>` (in the engine's expression syntax) that replaces an execution input. */
  function InputExpression(k: Fqn, view: FqnView, syntax: ExpressionSyntax): YamlValue
  {
    var s := syntax.exprStart + syntax.inputConstant + "." + view.expressionFqnWithoutIgnoring(k) + syntax.exprEndEsc;
    YamlValue(s, Some(s))
  }

  /** The value the full map holds for entry `e` once the forEach is over. */
  function UpdatedValue(e: (Fqn, YamlValue), skipStageExecution: bool, pat: Patterns, view: FqnView,
                        syntax: ExpressionSyntax): YamlValue
  {
    if Considered(e.0, skipStageExecution, view) && pat.executionInput(Cleaned(e.1))
    then InputExpression(e.0, view, syntax)
    else e.1
  }

  /** The full map once the first `n` entries have been visited. */
  function UpdatedUpTo(full: FqnMap, n: int, skipStageExecution: bool, pat: Patterns, view: FqnView,
                       syntax: ExpressionSyntax): FqnMap
    requires 0 <= n <= |full|
  {
    seq(|full|, j requires 0 <= j < |full| =>
      if j < n then (full[j].0, UpdatedValue(full[j], skipStageExecution, pat, view, syntax)) else full[j])
  }

  /** Visiting entry `i` replaces it by its input expression when it is a considered execution input. */
  lemma UpdatedStep(full: FqnMap, i: int, skipStageExecution: bool, pat: Patterns, view: FqnView,
                    syntax: ExpressionSyntax)
    requires 0 <= i < |full|
    ensures var before := UpdatedUpTo(full, i, skipStageExecution, pat, view, syntax);
            UpdatedUpTo(full, i + 1, skipStageExecution, pat, view, syntax) ==
            if Considered(full[i].0, skipStageExecution, view) && pat.executionInput(Cleaned(full[i].1))
            then before[i := (full[i].0, InputExpression(full[i].0, view, syntax))]
            else before
  {
  }

  /** Before entry `i` is visited the full map has distinct keys and still holds entry `i` as given. */
  lemma UpdatedAt(full: FqnMap, i: int, skipStageExecution: bool, pat: Patterns, view: FqnView,
                  syntax: ExpressionSyntax)
    requires DistinctKeys(full) && 0 <= i < |full|
    ensures var u := UpdatedUpTo(full, i, skipStageExecution, pat, view, syntax);
      DistinctKeys(u) && u[i] == full[i]
  {
    var u := UpdatedUpTo(full, i, skipStageExecution, pat, view, syntax);
    DistinctByIndex(u, full);
  }

  /** The template after entry `i`: the entry is put when the rule keeps it. */
  lemma TemplateStep(t: FqnMap, m: FqnMap, i: int, rule: Rule, pat: Patterns, view: FqnView)
    requires DistinctKeys(m) && 0 <= i < |m| && t == Filter(m[..i], rule, pat, view)
    ensures Filter(m[..i + 1], rule, pat, view) ==
            if Keeps(rule, m[i].0, m[i].1, pat, view) then Put(t, m[i].0, m[i].1) else t
  {
    FilterSnoc(m, i, rule, pat, view);
    if Keeps(rule, m[i].0, m[i].1, pat, view) {
      PutFresh(t, m, i, rule, pat, view);
    }
  }

  lemma DistinctByIndex(m: FqnMap, n: FqnMap)
    requires DistinctKeys(n) && |m| == |n|
    requires forall j :: 0 <= j < |m| ==> m[j].0 == n[j].0
    ensures DistinctKeys(m)
  {
  }

  /**
   * The forEach of both execution-input forms: an execution input joins the template with its
   * original value and is replaced in the full map by its input expression; an updated execution
   * input joins the template and keeps its value; the stage form skips keys under the stage's execution.
   */
  method ExecutionInputs(full: FqnMap, skipStageExecution: bool, pat: Patterns, view: FqnView, syntax: ExpressionSyntax)
    returns (form: ExecutionInputForm)
    requires DistinctKeys(full)
    ensures form.template == Filter(full, ExecutionInputRule(skipStageExecution), pat, view)
    ensures |form.updatedFull| == |full|
    ensures forall i :: 0 <= i < |full| ==>
      form.updatedFull[i] == (full[i].0, UpdatedValue(full[i], skipStageExecution, pat, view, syntax))
  {
    var templateMap: FqnMap := [];
    var fullMap := full;
    var i := 0;
    while i < |full|
      invariant 0 <= i <= |full|
      invariant templateMap == Filter(full[..i], ExecutionInputRule(skipStageExecution), pat, view)
      invariant fullMap == UpdatedUpTo(full, i, skipStageExecution, pat, view, syntax)
    {
      UpdatedStep(full, i, skipStageExecution, pat, view, syntax);
      TemplateStep(templateMap, full, i, ExecutionInputRule(skipStageExecution), pat, view);
      var key := full[i].0;
      UpdatedAt(full, i, skipStageExecution, pat, view, syntax);
      PutAt(fullMap, i, InputExpression(key, view, syntax));
      var value := Get(fullMap, key).value;
      if Considered(key, skipStageExecution, view) {
        var cleaned := Cleaned(value);
        if pat.executionInput(cleaned) {
          templateMap := Put(templateMap, key, value);
          fullMap := Put(fullMap, key, InputExpression(key, view, syntax));
        } else if pat.updatedExecutionInput(cleaned) {
          templateMap := Put(templateMap, key, value);
        }
      }
      i := i + 1;
    }
    assert full[..|full|] == full;
    form := ExecutionInputForm(templateMap, fullMap);
    assert forall j :: 0 <= j < |full| ==>
      form.updatedFull[j] == (full[j].0, UpdatedValue(full[j], skipStageExecution, pat, view, syntax));
  }

  /** createExecutionInputFormAndUpdateYamlField: every key is considered. */
  method CreateExecutionInputFormAndUpdateYamlField(full: FqnMap, pat: Patterns, view: FqnView, syntax: ExpressionSyntax)
    returns (form: ExecutionInputForm)
    requires DistinctKeys(full)
    ensures form.template == Filter(full, ExecutionInputRule(false), pat, view)
    ensures |form.updatedFull| == |full|
    ensures forall i :: 0 <= i < |full| ==> form.updatedFull[i] == (full[i].0, UpdatedValue(full[i], false, pat, view, syntax))
  {
    form := ExecutionInputs(full, false, pat, view, syntax);
  }

  /**
   * createExecutionInputFormAndUpdateYamlFieldForStage: keys under the stage's execution are
   * skipped, and nothing is returned (nor merged back) when no execution input was found.
   */
  method CreateExecutionInputFormAndUpdateYamlFieldForStage(full: FqnMap, pat: Patterns, view: FqnView,
                                                            syntax: ExpressionSyntax)
    returns (r: Option<ExecutionInputForm>)
    requires DistinctKeys(full)
    ensures r.None? <==> Filter(full, ExecutionInputRule(true), pat, view) == []
    ensures r.Some? ==> r.value.template == Filter(full, ExecutionInputRule(true), pat, view)
    ensures r.Some? ==> |r.value.updatedFull| == |full|
    ensures r.Some? ==>
      forall i :: 0 <= i < |full| ==> r.value.updatedFull[i] == (full[i].0, UpdatedValue(full[i], true, pat, view, syntax))
  {
    var form := ExecutionInputs(full, true, pat, view, syntax);
    if form.template != [] {
      r := Some(form);
    } else {
      r := None;
    }
  }

  /**
   * The execution-input template holds the original values of the entries whose cleaned value is
   * an (updated) execution input, never a key the stage form skips; it is empty exactly when no
   * considered entry is one.
   */
  lemma ExecutionTemplateSpec(full: FqnMap, skip: bool, pat: Patterns, view: FqnView)
    requires DistinctKeys(full)
    ensures var t := Filter(full, ExecutionInputRule(skip), pat, view);
      DistinctKeys(t) && AgreesWith(t, full)
    ensures var t := Filter(full, ExecutionInputRule(skip), pat, view);
      forall e :: e in t ==> !(skip && StartsWith(view.expressionFqn(e.0), ExecutionFqnFromStage))
    ensures (Filter(full, ExecutionInputRule(skip), pat, view) == [])
      <==> forall e :: e in full && Considered(e.0, skip, view) ==>
             !pat.executionInput(Cleaned(e.1)) && !pat.updatedExecutionInput(Cleaned(e.1))
  {
    var t := Filter(full, ExecutionInputRule(skip), pat, view);
    FilterIsSubMap(full, ExecutionInputRule(skip), pat, view);
    FilterMembers(full, ExecutionInputRule(skip), pat, view);
    if t != [] {
      assert t[0] in t;
    }
  }
}
