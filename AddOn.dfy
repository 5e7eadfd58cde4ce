/**
 * `NewRelicAddOn`: the options it keeps, and `deploy`, which turns them into the values document
 * and the chart request handed to the cluster's `addHelmChart`.
 */
module NewRelic {
  import opened Wrappers
  import opened Values
  import opened Paths
  import opened PathSetter
  import opened Options

  /** `if (guard) { setPath(values, path, val) }`, with the path already split into its keys. */
  datatype Rule = Rule(guard: Value, keys: Path, val: Value)

  /** A string property as a JavaScript value: absent reads as `undefined`. */
  function StrValue(x: Option<string>): Value {
    match x
    case Some(s) => VStr(s)
    case None => VUndefined
  }

  /** A boolean property as a JavaScript value: absent reads as `undefined`. */
  function BoolValue(x: Option<bool>): Value {
    match x
    case Some(b) => VBool(b)
    case None => VUndefined
  }

  /** The conditional writes of deploy, in the order it makes them. */
  function Rules(o: Props): (rs: seq<Rule>)
    ensures |rs| == 8
    ensures rs[6].guard == rs[5].guard == BoolValue(o.installInfrastructure)
    ensures rs[6].val == BoolValue(o.installInfrastructurePrivileged)
  {
    [ Rule(StrValue(o.newRelicClusterName), ["global", "cluster"], StrValue(o.newRelicClusterName)),
      Rule(StrValue(o.newRelicLicenseKey), ["global", "licenseKey"], StrValue(o.newRelicLicenseKey)),
      Rule(BoolValue(o.lowDataMode), ["global", "lowDataMode"], BoolValue(o.lowDataMode)),
      Rule(BoolValue(o.installPrometheus), ["prometheus"], BoolValue(o.installPrometheus)),
      Rule(BoolValue(o.installLogging), ["logging"], BoolValue(o.installLogging)),
      Rule(BoolValue(o.installInfrastructure), ["infrastructure", "enabled"], BoolValue(o.installInfrastructure)),
      Rule(BoolValue(o.installInfrastructure), ["newrelic-infrastructure", "privileged"], BoolValue(o.installInfrastructurePrivileged)),
      Rule(BoolValue(o.installKSM), ["ksm", "enabled"], BoolValue(o.installKSM)) ]
  }

  /** The TypeError a setPath throws when its path runs into a primitive. */
  datatype DeployError = CannotSetProperty(keys: Path)

  /**
   * The tree after one guarded write `if (guard) setPath(...)`: the write when the guard is truthy,
   * the same tree otherwise. A write that throws leaves the tree as it was, and that is its Write
   * too (BlockedLeavesTree).
   */
  function Step(m: Tree, r: Rule): Tree {
    if Truthy(r.guard) then Write(m, r.keys, r.val) else m
  }

  /** Makes the writes whose guards are truthy, in order (one Step each), stopping at the first one that throws. */
  function ApplyRules(m: Tree, rs: seq<Rule>): (r: Result<Tree, DeployError>)
    ensures r.Success? ==> m.Keys <= r.value.Keys
    decreases |rs|
  {
    if rs == [] then Success(m)
    else if Truthy(rs[0].guard) && Blocked(m, rs[0].keys) then Failure(CannotSetProperty(rs[0].keys))
    else ApplyRules(Step(m, rs[0]), rs[1..])
  }

  /** `{ ...props.values ?? {} }`. */
  function Base(o: Props): (b: Tree)
    ensures o.values.Some? ==> b == o.values.value
    ensures o.values.None? ==> b == map[]
  {
    match o.values
    case Some(t) => t
    case None => map[]
  }

  /** The values document deploy builds from the options. */
  function BuildValues(o: Props): (r: Result<Tree, DeployError>)
    ensures r.Success? ==> Base(o).Keys <= r.value.Keys
  {
    ApplyRules(Base(o), Rules(o))
  }

  /** The argument list of `addHelmChart(id, { chart, release, repository, namespace, version, values })`. */
  datatype HelmChart = HelmChart(
    id: string,
    chart: string,
    release: Option<string>,
    repository: Option<string>,
    namespace: Option<string>,
    version: Option<string>,
    values: Tree)

  /** `props.chart ? props.chart : "nri-bundle"`: the caller's chart unless it is missing or empty. */
  function ChartName(chart: Option<string>): (name: string)
    ensures name != ""
    ensures Truthy(StrValue(chart)) ==> name == chart.value
    ensures name == "nri-bundle" <==> !Truthy(StrValue(chart)) || chart.value == "nri-bundle"
  {
    if Truthy(StrValue(chart)) then chart.value else "nri-bundle"
  }

  /** What deploy hands to the cluster, or the error it throws. */
  function DeploySpec(o: Props): (r: Result<HelmChart, DeployError>)
    ensures r.Success? <==> BuildValues(o).Success?
    ensures r.Success? ==> r.value.chart != ""
    ensures r.Success? && o.chart.Some? && o.chart.value != "" ==> r.value.chart == o.chart.value
  {
    match BuildValues(o)
    case Failure(e) => Failure(e)
    case Success(t) =>
      Success(HelmChart("newrelic-bundle", ChartName(o.chart), o.release, o.repository, o.namespace, o.version, t))
  }

  // ----- what a sequence of writes does -----

  /** No two paths lead to the same place or one inside the other. */
  ghost predicate PathsDisjoint(rs: seq<Rule>) {
    forall i, j :: 0 <= i < j < |rs| ==> Diverge(rs[i].keys, rs[j].keys)
  }

  /** A path that parts ways with every written path reads as in the tree the writes started from. */
  lemma {:induction false} ApplyRulesUntouched(m: Tree, rs: seq<Rule>, t: Tree, q: seq<string>)
    requires ApplyRules(m, rs) == Success(t)
    requires forall r :: r in rs ==> Diverge(q, r.keys)
    ensures Get(t, q) == Get(m, q)
    decreases |rs|
  {
    if rs != [] {
      assert rs[0] in rs;
      assert forall r :: r in rs[1..] ==> r in rs;
      if !Truthy(rs[0].guard) {
        ApplyRulesUntouched(m, rs[1..], t, q);
      } else {
        var keys := rs[0].keys;
        WriteKeepsOthers(m, keys, rs[0].val, q);
        ApplyRulesUntouched(Write(m, keys, rs[0].val), rs[1..], t, q);
      }
    }
  }

  /**
   * With disjoint paths, each write's path ends up holding the written value when its guard is
   * truthy, and what the starting tree held there when it is falsy.
   */
  lemma {:induction false} ApplyRulesOutcome(m: Tree, rs: seq<Rule>, t: Tree, i: nat)
    requires ApplyRules(m, rs) == Success(t)
    requires PathsDisjoint(rs)
    requires i < |rs|
    ensures Get(t, rs[i].keys) ==
      if Truthy(rs[i].guard) then Some(rs[i].val) else Get(m, rs[i].keys)
    decreases |rs|
  {
    var keys := rs[0].keys;
    var next := if Truthy(rs[0].guard) then Write(m, keys, rs[0].val) else m;
    assert ApplyRules(next, rs[1..]) == Success(t);
    if i == 0 {
      forall r | r in rs[1..] ensures Diverge(keys, r.keys) {
        var j :| 0 <= j < |rs[1..]| && rs[1..][j] == r;
        assert rs[j + 1] == r;
      }
      ApplyRulesUntouched(next, rs[1..], t, keys);
      if Truthy(rs[0].guard) {
        WriteGet(m, keys, rs[0].val);
      }
    } else {
      assert PathsDisjoint(rs[1..]) by {
        forall a, b | 0 <= a < b < |rs[1..]|
          ensures Diverge(rs[1..][a].keys, rs[1..][b].keys)
        {
          assert rs[1..][a] == rs[a + 1] && rs[1..][b] == rs[b + 1];
        }
      }
      ApplyRulesOutcome(next, rs[1..], t, i - 1);
      if Truthy(rs[0].guard) {
        DivergeSymmetric(keys, rs[i].keys);
        WriteKeepsOthers(m, keys, rs[0].val, rs[i].keys);
      }
    }
  }

  /** Every path has one segment outside `g` or two segments starting inside `g`. */
  ghost predicate Shaped(rs: seq<Rule>, g: set<string>) {
    forall r :: r in rs ==>
      var keys := r.keys;
      (|keys| == 1 && keys[0] !in g) || (|keys| == 2 && keys[0] in g)
  }

  /** Top-level key `k` of `m` holds a truthy value that is not an object. */
  predicate ScalarKey(m: Tree, k: string) {
    k in m && Truthy(m[k]) && !m[k].VMap?
  }

  /** A truthy write of two segments whose first key holds a truthy non-object in `m`. */
  ghost predicate RunsIntoScalar(m: Tree, r: Rule) {
    Truthy(r.guard) && |r.keys| == 2 && ScalarKey(m, r.keys[0])
  }

  /** Writing below `g`, or beside it, keeps whether top-level key `g` holds a truthy non-object. */
  lemma WriteKeepsScalars(m: Tree, keys: seq<string>, v: Value, g: string)
    requires |keys| == 1 || |keys| == 2
    requires !Blocked(m, keys)
    requires g == keys[0] ==> |keys| == 2
    ensures ScalarKey(Write(m, keys, v), g) == ScalarKey(m, g)
  {
    var w := Write(m, keys, v);
    if g == keys[0] {
      assert w[g].VMap?;
    }
  }

  /**
   * Writes shaped like deploy's fail exactly when one of the active two-segment writes starts
   * at a key that the starting tree fills with a truthy non-object.
   */
  lemma {:induction false} ApplyRulesFailsIff(m: Tree, rs: seq<Rule>, g: set<string>)
    requires Shaped(rs, g)
    ensures ApplyRules(m, rs).Failure? <==> exists r :: r in rs && RunsIntoScalar(m, r)
    decreases |rs|
  {
    if rs != [] {
      var r0 := rs[0];
      assert rs == [r0] + rs[1..];
      assert forall r :: r in rs <==> r == r0 || r in rs[1..];
      assert Shaped(rs[1..], g);
      var keys := r0.keys;
      if !Truthy(r0.guard) {
        ApplyRulesFailsIff(m, rs[1..], g);
      } else if Blocked(m, keys) {
        assert |keys| == 2 && |keys[1..]| == 1;
        assert !m[keys[0]].VMap? by {
          if m[keys[0]].VMap? {
            assert !Blocked(m[keys[0]].m, keys[1..]);
          }
        }
        assert RunsIntoScalar(m, r0);
      } else {
        var w := Write(m, keys, r0.val);
        ApplyRulesFailsIff(w, rs[1..], g);
        forall r | r in rs[1..] ensures RunsIntoScalar(w, r) == RunsIntoScalar(m, r) {
          if Truthy(r.guard) && |r.keys| == 2 {
            WriteKeepsScalars(m, keys, r0.val, r.keys[0]);
          }
        }
        assert !RunsIntoScalar(m, r0);
      }
    }
  }

  // ----- deploy's own writes -----

  /** No two of deploy's paths overlap. */
  lemma RulesDisjoint(o: Props)
    ensures PathsDisjoint(Rules(o))
  {
  }

  /** One write of the sequence, taken at position k. */
  lemma ApplyRulesAt(m: Tree, rs: seq<Rule>, k: nat)
    requires k < |rs|
    ensures ApplyRules(m, rs[k..]) ==
      if !Truthy(rs[k].guard) then ApplyRules(m, rs[k + 1..])
      else if Blocked(m, rs[k].keys) then Failure(CannotSetProperty(rs[k].keys))
      else ApplyRules(Write(m, rs[k].keys, rs[k].val), rs[k + 1..])
  {
    assert rs[k..][0] == rs[k] && rs[k..][1..] == rs[k + 1..];
  }

  /** With every guard falsy, no write happens and the tree comes back as it was. */
  lemma {:induction false} ApplyRulesNoneEnabled(m: Tree, rs: seq<Rule>)
    requires forall i :: 0 <= i < |rs| ==> !Truthy(rs[i].guard)
    ensures ApplyRules(m, rs) == Success(m)
    decreases |rs|
  {
    if rs != [] {
      assert !Truthy(rs[0].guard);
      ApplyRulesNoneEnabled(m, rs[1..]);
    }
  }

  /** A failure is the error of an enabled write whose path has at least two keys. */
  lemma {:induction false} ApplyRulesFailureOrigin(m: Tree, rs: seq<Rule>)
    requires ApplyRules(m, rs).Failure?
    ensures exists i :: (0 <= i < |rs| && Truthy(rs[i].guard) && |rs[i].keys| >= 2
      && ApplyRules(m, rs).error == CannotSetProperty(rs[i].keys))
    decreases |rs|
  {
    var next := if Truthy(rs[0].guard) then Write(m, rs[0].keys, rs[0].val) else m;
    if Truthy(rs[0].guard) && Blocked(m, rs[0].keys) {
      assert Truthy(rs[0].guard) && |rs[0].keys| >= 2;
    } else {
      ApplyRulesFailureOrigin(next, rs[1..]);
      var j :| 0 <= j < |rs[1..]| && Truthy(rs[1..][j].guard) && |rs[1..][j].keys| >= 2
        && ApplyRules(next, rs[1..]).error == CannotSetProperty(rs[1..][j].keys);
      assert rs[1..][j] == rs[j + 1];
    }
  }

  /** Every write except `newrelic-infrastructure.privileged` stores the value its guard tests. */
  lemma RulesStoreGuards(o: Props)
    ensures forall i :: 0 <= i < |Rules(o)| && i != 6 ==> Rules(o)[i].val == Rules(o)[i].guard
  {
    var rs := Rules(o);
    forall i | 0 <= i < |rs| && i != 6 ensures rs[i].val == rs[i].guard {
    }
  }

  /** Deploy can only throw at a two-key path below one of the shared parents. */
  lemma BuildValuesFailureKeys(o: Props)
    requires BuildValues(o).Failure?
    ensures |BuildValues(o).error.keys| == 2 && BuildValues(o).error.keys[0] in Parents
  {
    ApplyRulesFailureOrigin(Base(o), Rules(o));
    var rs := Rules(o);
    var i :| 0 <= i < |rs| && Truthy(rs[i].guard) && |rs[i].keys| >= 2
      && BuildValues(o).error == CannotSetProperty(rs[i].keys);
    assert i != 3 && i != 4;
  }

  // ----- what deploy's values document holds -----

  /**
   * The `global` writes: each path holds its value when its guard is truthy, and what the
   * caller's values held there otherwise.
   */
  lemma BuildValuesGlobal(o: Props, t: Tree)
    requires BuildValues(o) == Success(t)
    ensures Get(t, ["global", "cluster"]) ==
      if Truthy(StrValue(o.newRelicClusterName)) then Some(StrValue(o.newRelicClusterName))
      else Get(Base(o), ["global", "cluster"])
    ensures Get(t, ["global", "licenseKey"]) ==
      if Truthy(StrValue(o.newRelicLicenseKey)) then Some(StrValue(o.newRelicLicenseKey))
      else Get(Base(o), ["global", "licenseKey"])
    ensures Get(t, ["global", "lowDataMode"]) ==
      if o.lowDataMode == Some(true) then Some(VBool(true)) else Get(Base(o), ["global", "lowDataMode"])
  {
    BuildValuesRule(o, t, 0);
    BuildValuesRule(o, t, 1);
    BuildValuesRule(o, t, 2);
  }

  /**
   * The component switches: each path holds its value when its guard is truthy, and what the
   * caller's values held there otherwise. `prometheus` and `logging` become the boolean itself,
   * whatever object the caller had there, and `newrelic-infrastructure.privileged` gets
   * installInfrastructurePrivileged, `false` included.
   */
  lemma BuildValuesSwitches(o: Props, t: Tree)
    requires BuildValues(o) == Success(t)
    ensures Get(t, ["prometheus"]) ==
      if o.installPrometheus == Some(true) then Some(VBool(true)) else Get(Base(o), ["prometheus"])
    ensures Get(t, ["logging"]) ==
      if o.installLogging == Some(true) then Some(VBool(true)) else Get(Base(o), ["logging"])
    ensures Get(t, ["infrastructure", "enabled"]) ==
      if o.installInfrastructure == Some(true) then Some(VBool(true))
      else Get(Base(o), ["infrastructure", "enabled"])
    ensures Get(t, ["newrelic-infrastructure", "privileged"]) ==
      if o.installInfrastructure == Some(true) then Some(BoolValue(o.installInfrastructurePrivileged))
      else Get(Base(o), ["newrelic-infrastructure", "privileged"])
    ensures Get(t, ["ksm", "enabled"]) ==
      if o.installKSM == Some(true) then Some(VBool(true)) else Get(Base(o), ["ksm", "enabled"])
  {
    BuildValuesRule(o, t, 3);
    BuildValuesRule(o, t, 4);
    BuildValuesRule(o, t, 5);
    BuildValuesRule(o, t, 6);
    BuildValuesRule(o, t, 7);
  }

  /** Rule i of deploy, from the sequence of writes. */
  lemma BuildValuesRule(o: Props, t: Tree, i: nat)
    requires BuildValues(o) == Success(t)
    requires i < |Rules(o)|
    ensures Get(t, Rules(o)[i].keys) ==
      if Truthy(Rules(o)[i].guard) then Some(Rules(o)[i].val) else Get(Base(o), Rules(o)[i].keys)
  {
    RulesDisjoint(o);
    ApplyRulesOutcome(Base(o), Rules(o), t, i);
  }

  /** Every other path of the caller's values, siblings at every level included, is kept. */
  lemma BuildValuesKeepsOthers(o: Props, t: Tree, q: seq<string>)
    requires BuildValues(o) == Success(t)
    requires Diverge(q, ["global", "cluster"]) && Diverge(q, ["global", "licenseKey"])
    requires Diverge(q, ["global", "lowDataMode"]) && Diverge(q, ["prometheus"]) && Diverge(q, ["logging"])
    requires Diverge(q, ["infrastructure", "enabled"]) && Diverge(q, ["newrelic-infrastructure", "privileged"])
    requires Diverge(q, ["ksm", "enabled"])
    ensures Get(t, q) == Get(Base(o), q)
  {
    ApplyRulesUntouched(Base(o), Rules(o), t, q);
  }

  /** A top-level key of the caller's values holds a truthy non-object. */
  predicate ScalarIn(o: Props, k: string) {
    ScalarKey(Base(o), k)
  }

  /** The top-level keys below which deploy writes two-segment paths. */
  const Parents: set<string> := {"global", "infrastructure", "newrelic-infrastructure", "ksm"}

  lemma RulesShaped(o: Props)
    ensures Shaped(Rules(o), Parents)
  {
    var rs := Rules(o);
    forall r | r in rs
      ensures (|r.keys| == 1 && r.keys[0] !in Parents) || (|r.keys| == 2 && r.keys[0] in Parents)
    {
      var i :| 0 <= i < |rs| && rs[i] == r;
    }
  }

  /** The caller's values block one of deploy's truthy writes. */
  predicate BlocksDeploy(o: Props) {
    || (ScalarIn(o, "global") &&
        (Truthy(StrValue(o.newRelicClusterName)) || Truthy(StrValue(o.newRelicLicenseKey)) || o.lowDataMode == Some(true)))
    || (ScalarIn(o, "infrastructure") && o.installInfrastructure == Some(true))
    || (ScalarIn(o, "newrelic-infrastructure") && o.installInfrastructure == Some(true))
    || (ScalarIn(o, "ksm") && o.installKSM == Some(true))
  }

  lemma RunningIntoScalarBlocks(o: Props, r: Rule)
    requires r in Rules(o) && RunsIntoScalar(Base(o), r)
    ensures BlocksDeploy(o)
  {
    var rs := Rules(o);
    var i :| 0 <= i < |rs| && rs[i] == r;
  }

  lemma BlocksRunIntoScalar(o: Props)
    requires BlocksDeploy(o)
    ensures exists r :: r in Rules(o) && RunsIntoScalar(Base(o), r)
  {
    var rs, b := Rules(o), Base(o);
    assert RunsIntoScalar(b, rs[0]) || RunsIntoScalar(b, rs[1]) || RunsIntoScalar(b, rs[2])
      || RunsIntoScalar(b, rs[5]) || RunsIntoScalar(b, rs[6]) || RunsIntoScalar(b, rs[7]);
  }

  /**
   * Deploy throws exactly when a truthy write has to go through a top-level key where the
   * caller's values hold a truthy non-object.
   */
  lemma BuildValuesFailsIff(o: Props)
    ensures BuildValues(o).Failure? <==> BlocksDeploy(o)
  {
    RulesShaped(o);
    ApplyRulesFailsIff(Base(o), Rules(o), Parents);
    if BlocksDeploy(o) {
      BlocksRunIntoScalar(o);
    }
    if r :| r in Rules(o) && RunsIntoScalar(Base(o), r) {
      RunningIntoScalarBlocks(o, r);
    }
  }

  /** Without caller values deploy never throws. */
  lemma BuildValuesFromNothing(o: Props)
    requires o.values.None?
    ensures BuildValues(o).Success?
  {
    BuildValuesFailsIff(o);
  }

  /** The writes add exactly the first keys of the truthy ones to the top level. */
  lemma {:induction false} ApplyRulesKeys(m: Tree, rs: seq<Rule>, t: Tree)
    requires ApplyRules(m, rs) == Success(t)
    ensures t.Keys == m.Keys + ActiveKeys(rs)
    decreases |rs|
  {
    if rs != [] {
      var r0 := rs[0];
      var next := if Truthy(r0.guard) then Write(m, r0.keys, r0.val) else m;
      ApplyRulesKeys(next, rs[1..], t);
    }
  }

  /** The first keys of the writes whose guards are truthy. */
  function ActiveKeys(rs: seq<Rule>): set<string>
    decreases |rs|
  {
    if rs == [] then {}
    else (if Truthy(rs[0].guard) then {rs[0].keys[0]} else {}) + ActiveKeys(rs[1..])
  }

  lemma ActiveKeysAt(rs: seq<Rule>, k: nat)
    requires k < |rs|
    ensures ActiveKeys(rs[k..]) == (if Truthy(rs[k].guard) then {rs[k].keys[0]} else {}) + ActiveKeys(rs[k + 1..])
  {
    assert rs[k..][0] == rs[k] && rs[k..][1..] == rs[k + 1..];
  }

  /** The top-level keys that deploy's truthy writes go through. */
  function WrittenKeys(o: Props): set<string> {
    (if Truthy(StrValue(o.newRelicClusterName)) || Truthy(StrValue(o.newRelicLicenseKey)) || o.lowDataMode == Some(true)
     then {"global"} else {})
    + SwitchKeys(o)
  }

  /** The top-level keys that the component switches write. */
  function SwitchKeys(o: Props): set<string> {
    (if o.installPrometheus == Some(true) then {"prometheus"} else {})
    + (if o.installLogging == Some(true) then {"logging"} else {})
    + ClusterAgentKeys(o)
  }

  /** The top-level keys of the infrastructure and kube-state-metrics writes. */
  function ClusterAgentKeys(o: Props): set<string> {
    (if o.installInfrastructure == Some(true) then {"infrastructure", "newrelic-infrastructure"} else {})
    + (if o.installKSM == Some(true) then {"ksm"} else {})
  }

  lemma RulesClusterAgentKeys(o: Props)
    ensures ActiveKeys(Rules(o)[5..]) == ClusterAgentKeys(o)
  {
    var rs := Rules(o);
    assert rs[8..] == [];
    ActiveKeysAt(rs, 5);
    ActiveKeysAt(rs, 6);
    ActiveKeysAt(rs, 7);
  }

  lemma RulesSwitchKeys(o: Props)
    ensures ActiveKeys(Rules(o)[3..]) == SwitchKeys(o)
  {
    var rs := Rules(o);
    ActiveKeysAt(rs, 3);
    ActiveKeysAt(rs, 4);
    RulesClusterAgentKeys(o);
  }

  lemma RulesWrittenKeys(o: Props)
    ensures ActiveKeys(Rules(o)) == WrittenKeys(o)
  {
    var rs := Rules(o);
    assert rs[0..] == rs;
    ActiveKeysAt(rs, 0);
    ActiveKeysAt(rs, 1);
    ActiveKeysAt(rs, 2);
    RulesSwitchKeys(o);
  }

  /** The top-level keys of deploy's document: the caller's, and those of the truthy writes. */
  lemma BuildValuesTopKeys(o: Props, t: Tree)
    requires BuildValues(o) == Success(t)
    ensures t.Keys == Base(o).Keys + WrittenKeys(o)
  {
    ApplyRulesKeys(Base(o), Rules(o), t);
    RulesWrittenKeys(o);
  }

  // ----- the defaults -----

  /** The values document of the default options. */
  const DefaultTree: Tree := map[
    "global" := VMap(map["lowDataMode" := VBool(true)]),
    "prometheus" := VBool(true),
    "logging" := VBool(true),
    "infrastructure" := VMap(map["enabled" := VBool(true)]),
    "newrelic-infrastructure" := VMap(map["privileged" := VBool(true)]),
    "ksm" := VMap(map["enabled" := VBool(true)])]

  // The default document is proved in steps of one or two writes (AllOnGlobal, AllOnTopLevel,
  // AllOnInfrastructure, AllOnPrivileged, AllOnKsm, then AllOnLastTwo, AllOnSubcharts and
  // AllOnSwitches). All eight writes in one proof exceed the solver's budget.

  /** Options as the defaults leave them: no caller values, no cluster name or key, every switch on. */
  ghost predicate AllOn(o: Props) {
    && o.values.None? && !Truthy(StrValue(o.newRelicClusterName)) && !Truthy(StrValue(o.newRelicLicenseKey))
    && o.lowDataMode == Some(true) && o.installPrometheus == Some(true) && o.installLogging == Some(true)
    && o.installInfrastructure == Some(true) && o.installInfrastructurePrivileged == Some(true)
    && o.installKSM == Some(true)
  }

  /** The first three writes: only `global.lowDataMode` has a truthy guard. */
  lemma AllOnGlobal(o: Props)
    requires AllOn(o)
    ensures BuildValues(o) ==
      ApplyRules(map["global" := VMap(map["lowDataMode" := VBool(true)])], Rules(o)[3..])
  {
    var rs := Rules(o);
    assert rs[0..] == rs;
    ApplyRulesAt(map[], rs, 0);
    ApplyRulesAt(map[], rs, 1);
    ApplyRulesAt(map[], rs, 2);
    WriteIntoEmpty(["global", "lowDataMode"], VBool(true));
  }

  /** Writing a single key below a top-level key the tree does not have. */
  lemma WriteNewParent(m: Tree, k: string, leaf: string, v: Value)
    requires k !in m
    ensures Write(m, [k, leaf], v) == m[k := VMap(map[leaf := v])]
    ensures !Blocked(m, [k, leaf])
  {
    FalsyIntermediateReplaced(m, [k, leaf], v);
    assert [k, leaf][1..] == [leaf];
  }

  /** The `prometheus` and `logging` writes. */
  lemma AllOnTopLevel(o: Props, t3: Tree)
    requires AllOn(o)
    ensures ApplyRules(t3, Rules(o)[3..]) ==
      ApplyRules(t3["prometheus" := VBool(true)]["logging" := VBool(true)], Rules(o)[5..])
  {
    var rs := Rules(o);
    ApplyRulesAt(t3, rs, 3);
    ApplyRulesAt(t3["prometheus" := VBool(true)], rs, 4);
  }

  /** The `infrastructure.enabled` write. */
  lemma AllOnInfrastructure(o: Props, t5: Tree)
    requires AllOn(o) && "infrastructure" !in t5
    ensures ApplyRules(t5, Rules(o)[5..]) ==
      ApplyRules(t5["infrastructure" := VMap(map["enabled" := VBool(true)])], Rules(o)[6..])
  {
    WriteNewParent(t5, "infrastructure", "enabled", VBool(true));
    ApplyRulesAt(t5, Rules(o), 5);
  }

  /** The `newrelic-infrastructure.privileged` write. */
  lemma AllOnPrivileged(o: Props, t6: Tree)
    requires AllOn(o) && "newrelic-infrastructure" !in t6
    ensures ApplyRules(t6, Rules(o)[6..]) ==
      ApplyRules(t6["newrelic-infrastructure" := VMap(map["privileged" := VBool(true)])], Rules(o)[7..])
  {
    WriteNewParent(t6, "newrelic-infrastructure", "privileged", VBool(true));
    ApplyRulesAt(t6, Rules(o), 6);
  }

  /** The `ksm.enabled` write, the last one. */
  lemma AllOnKsm(o: Props, t7: Tree)
    requires AllOn(o) && "ksm" !in t7
    ensures ApplyRules(t7, Rules(o)[7..]) == Success(t7["ksm" := VMap(map["enabled" := VBool(true)])])
  {
    var rs := Rules(o);
    WriteNewParent(t7, "ksm", "enabled", VBool(true));
    ApplyRulesAt(t7, rs, 7);
    assert rs[8..] == [];
  }

  /** The `newrelic-infrastructure.privileged` and `ksm.enabled` writes. */
  lemma AllOnLastTwo(o: Props, t6: Tree)
    requires AllOn(o) && "newrelic-infrastructure" !in t6 && "ksm" !in t6
    ensures ApplyRules(t6, Rules(o)[6..]) == Success(t6
      ["newrelic-infrastructure" := VMap(map["privileged" := VBool(true)])]
      ["ksm" := VMap(map["enabled" := VBool(true)])])
  {
    var t7 := t6["newrelic-infrastructure" := VMap(map["privileged" := VBool(true)])];
    AllOnPrivileged(o, t6);
    AllOnKsm(o, t7);
  }

  /** The three subchart writes, into a tree that has none of their parents yet. */
  lemma AllOnSubcharts(o: Props, t5: Tree)
    requires AllOn(o) && "infrastructure" !in t5 && "newrelic-infrastructure" !in t5 && "ksm" !in t5
    ensures ApplyRules(t5, Rules(o)[5..]) == Success(t5
      ["infrastructure" := VMap(map["enabled" := VBool(true)])]
      ["newrelic-infrastructure" := VMap(map["privileged" := VBool(true)])]
      ["ksm" := VMap(map["enabled" := VBool(true)])])
  {
    var t6 := t5["infrastructure" := VMap(map["enabled" := VBool(true)])];
    AllOnInfrastructure(o, t5);
    AllOnLastTwo(o, t6);
  }

  /** The writes after the `global` ones, into a tree that has none of the subchart parents yet. */
  lemma AllOnSwitches(o: Props, t3: Tree)
    requires AllOn(o) && "infrastructure" !in t3 && "newrelic-infrastructure" !in t3 && "ksm" !in t3
    ensures ApplyRules(t3, Rules(o)[3..]) == Success(t3
      ["prometheus" := VBool(true)]["logging" := VBool(true)]
      ["infrastructure" := VMap(map["enabled" := VBool(true)])]
      ["newrelic-infrastructure" := VMap(map["privileged" := VBool(true)])]
      ["ksm" := VMap(map["enabled" := VBool(true)])])
  {
    var t5 := t3["prometheus" := VBool(true)]["logging" := VBool(true)];
    AllOnTopLevel(o, t3);
    AllOnSubcharts(o, t5);
  }

  /** Every switch on and no caller values give exactly DefaultTree, whatever the chart identity. */
  lemma AllOnValues(o: Props)
    requires AllOn(o)
    ensures BuildValues(o) == Success(DefaultTree)
  {
    var t3 := map["global" := VMap(map["lowDataMode" := VBool(true)])];
    AllOnGlobal(o);
    AllOnSwitches(o, t3);
    assert t3
      ["prometheus" := VBool(true)]["logging" := VBool(true)]
      ["infrastructure" := VMap(map["enabled" := VBool(true)])]
      ["newrelic-infrastructure" := VMap(map["privileged" := VBool(true)])]
      ["ksm" := VMap(map["enabled" := VBool(true)])] == DefaultTree;
  }

  /** With the default options and no caller values, deploy's document is exactly DefaultTree. */
  lemma DefaultValues()
    ensures BuildValues(Merge(None)) == Success(DefaultTree)
  {
    AllOnValues(Merge(None));
  }

  /** What deploy hands to the cluster with no props at all. */
  lemma DefaultDeploy()
    ensures DeploySpec(Merge(None)) == Success(HelmChart(
      "newrelic-bundle", "nri-bundle", Some("newrelic-bundle"), Some("https://helm-charts.newrelic.com"),
      Some("newrelic"), Some("3.2.11"), DefaultTree))
  {
    DefaultValues();
  }

  // ----- the add-on -----

  /** Every path splits into the keys of the rule at the same index. */
  ghost predicate PathsSplit(rs: seq<Rule>, paths: seq<string>) {
    && |rs| == |paths|
    && forall j {:trigger Split(paths[j])} :: 0 <= j < |paths| ==> Split(paths[j]) == rs[j].keys
  }

  /**
   * One of deploy's guarded writes, `if (guard) setPath(values, path, val)`, for the rule at index `k`.
   * `goal` is what the writes from `k` on give: afterwards the writes from `k + 1` on give it too,
   * or the setPath threw (`ok` false) and `goal` is the error `err` it threw.
   */
  method GuardedSet(values: ValuesTree, ghost rs: seq<Rule>, ghost paths: seq<string>, ghost k: nat,
                    ghost goal: Result<Tree, DeployError>, guard: Value, path: string, val: Value)
    returns (ok: bool, err: DeployError)
    requires PathsSplit(rs, paths) && k < |rs|
    requires guard == rs[k].guard && path == paths[k] && val == rs[k].val
    requires ApplyRules(values.root, rs[k..]) == goal
    modifies values
    ensures values.root == Step(old(values.root), rs[k])
    ensures ok ==> ApplyRules(values.root, rs[k + 1..]) == goal
    ensures !ok ==> goal == Failure(err)
  {
    ApplyRulesAt(values.root, rs, k);
    assert Split(path) == rs[k].keys;
    if Truthy(guard) {
      ok := values.SetPath(path, val);
      if !ok {
        BlockedLeavesTree(old(values.root), Split(path), val);
      }
    } else {
      ok := true;
    }
    err := CannotSetProperty(Split(path));
  }

  /** The path strings deploy hands to setPath, in order. */
  const DeployPaths: seq<string> := ["global.cluster", "global.licenseKey", "global.lowDataMode", "prometheus", "logging", "infrastructure.enabled", "newrelic-infrastructure.privileged", "ksm.enabled"]

  /**
   * Deploy's rules as its proof uses them: what each guard and value is and which path splits into
   * its keys. The keys themselves are left out, so that deploy's proof does not unfold the writes.
   */
  ghost predicate DeployWrites(o: Props, rs: seq<Rule>) {
    && |rs| == 8
    && PathsSplit(rs, DeployPaths)
    && rs[0].guard == StrValue(o.newRelicClusterName) && rs[0].val == StrValue(o.newRelicClusterName)
    && rs[1].guard == StrValue(o.newRelicLicenseKey) && rs[1].val == StrValue(o.newRelicLicenseKey)
    && rs[2].guard == BoolValue(o.lowDataMode) && rs[2].val == BoolValue(o.lowDataMode)
    && rs[3].guard == BoolValue(o.installPrometheus) && rs[3].val == BoolValue(o.installPrometheus)
    && rs[4].guard == BoolValue(o.installLogging) && rs[4].val == BoolValue(o.installLogging)
    && rs[5].guard == BoolValue(o.installInfrastructure) && rs[5].val == BoolValue(o.installInfrastructure)
    && rs[6].guard == BoolValue(o.installInfrastructure) && rs[6].val == BoolValue(o.installInfrastructurePrivileged)
    && rs[7].guard == BoolValue(o.installKSM) && rs[7].val == BoolValue(o.installKSM)
  }
  /** DeployWrites, and writing the rules in order is BuildValues. */
  ghost predicate DeployRulesHold(o: Props, rs: seq<Rule>) {
    DeployWrites(o, rs) && ApplyRules(Base(o), rs) == BuildValues(o)
  }


  // The eight lemmas below prove one path each, and FirstPathsSplit and LastPathsSplit combine
  // four at a time. Splitting a literal path makes the verifier unfold `Split` character by
  // character. With one literal per lemma that stays cheap; with all eight in one proof it
  // exceeds the solver's budget.

  /** `global.cluster` splits into the keys of rule 0. */
  lemma ClusterPathSplits(o: Props)
    ensures Split(DeployPaths[0]) == Rules(o)[0].keys
  {
    var p := DeployPaths[0];
    assert p == "global.cluster";
    SplitTwo("global", "cluster", p);
  }

  /** `global.licenseKey` splits into the keys of rule 1. */
  lemma LicenseKeyPathSplits(o: Props)
    ensures Split(DeployPaths[1]) == Rules(o)[1].keys
  {
    var p := DeployPaths[1];
    assert p == "global.licenseKey";
    SplitTwo("global", "licenseKey", p);
  }

  /** `global.lowDataMode` splits into the keys of rule 2. */
  lemma LowDataModePathSplits(o: Props)
    ensures Split(DeployPaths[2]) == Rules(o)[2].keys
  {
    var p := DeployPaths[2];
    assert p == "global.lowDataMode";
    SplitTwo("global", "lowDataMode", p);
  }

  /** `prometheus` splits into the keys of rule 3. */
  lemma PrometheusPathSplits(o: Props)
    ensures Split(DeployPaths[3]) == Rules(o)[3].keys
  {
    var p := DeployPaths[3];
    assert p == "prometheus";
    SplitOne(p);
  }

  /** `logging` splits into the keys of rule 4. */
  lemma LoggingPathSplits(o: Props)
    ensures Split(DeployPaths[4]) == Rules(o)[4].keys
  {
    var p := DeployPaths[4];
    assert p == "logging";
    SplitOne(p);
  }

  /** `infrastructure.enabled` splits into the keys of rule 5. */
  lemma InfrastructurePathSplits(o: Props)
    ensures Split(DeployPaths[5]) == Rules(o)[5].keys
  {
    var p := DeployPaths[5];
    assert p == "infrastructure.enabled";
    assert '.' !in "infrastructure";
    SplitTwo("infrastructure", "enabled", p);
  }

  /** `newrelic-infrastructure.privileged` splits into the keys of rule 6. */
  lemma PrivilegedPathSplits(o: Props)
    ensures Split(DeployPaths[6]) == Rules(o)[6].keys
  {
    var p := DeployPaths[6];
    assert p == "newrelic-infrastructure.privileged";
    assert '.' !in "newrelic-infrastructure";
    SplitTwo("newrelic-infrastructure", "privileged", p);
  }

  /** `ksm.enabled` splits into the keys of rule 7. */
  lemma KsmPathSplits(o: Props)
    ensures Split(DeployPaths[7]) == Rules(o)[7].keys
  {
    var p := DeployPaths[7];
    assert p == "ksm.enabled";
    SplitTwo("ksm", "enabled", p);
  }

  /** The first four paths split into the keys of their rules. */
  lemma FirstPathsSplit(o: Props, j: nat)
    requires j < 4
    ensures Split(DeployPaths[j]) == Rules(o)[j].keys
  {
    if j == 0 {
      ClusterPathSplits(o);
    } else if j == 1 {
      LicenseKeyPathSplits(o);
    } else if j == 2 {
      LowDataModePathSplits(o);
    } else {
      PrometheusPathSplits(o);
    }
  }

  /** The last four paths split into the keys of their rules. */
  lemma LastPathsSplit(o: Props, j: nat)
    requires 4 <= j < 8
    ensures Split(DeployPaths[j]) == Rules(o)[j].keys
  {
    if j == 4 {
      LoggingPathSplits(o);
    } else if j == 5 {
      InfrastructurePathSplits(o);
    } else if j == 6 {
      PrivilegedPathSplits(o);
    } else {
      KsmPathSplits(o);
    }
  }

  /** Each of deploy's paths splits into the keys of the rule at its index. */
  lemma RulesPathsSplit(o: Props)
    ensures PathsSplit(Rules(o), DeployPaths)
  {
    forall j | 0 <= j < |DeployPaths|
      ensures Split(DeployPaths[j]) == Rules(o)[j].keys
    {
      if j < 4 {
        FirstPathsSplit(o, j);
      } else {
        LastPathsSplit(o, j);
      }
    }
  }

  /** Deploy's rules satisfy DeployRulesHold. */
  lemma DeployRules(o: Props) returns (rs: seq<Rule>)
    ensures DeployRulesHold(o, rs)
  {
    rs := Rules(o);
    RulesPathsSplit(o);
  }

  /**
   * The three guarded writes under `global` (cluster name, license key, low data mode), in order;
   * stops at the first that throws.
   */
  method SetGlobalValues(values: ValuesTree, o: Props, ghost rs: seq<Rule>, ghost goal: Result<Tree, DeployError>)
    returns (ok: bool, err: DeployError)
    requires DeployWrites(o, rs)
    requires ApplyRules(values.root, rs) == goal
    modifies values
    ensures ok ==> values.root == Step(Step(Step(old(values.root), rs[0]), rs[1]), rs[2])
    ensures ok ==> ApplyRules(values.root, rs[3..]) == goal
    ensures !ok ==> goal == Failure(err)
  {
    assert rs[0..] == rs;
    ok, err := GuardedSet(values, rs, DeployPaths, 0, goal, StrValue(o.newRelicClusterName), "global.cluster", StrValue(o.newRelicClusterName));
    if !ok { return; }
    ok, err := GuardedSet(values, rs, DeployPaths, 1, goal, StrValue(o.newRelicLicenseKey), "global.licenseKey", StrValue(o.newRelicLicenseKey));
    if !ok { return; }
    ok, err := GuardedSet(values, rs, DeployPaths, 2, goal, BoolValue(o.lowDataMode), "global.lowDataMode", BoolValue(o.lowDataMode));
  }

  /**
   * The guarded writes of the component switches (Prometheus, logging, the infrastructure block,
   * kube-state-metrics), in order; stops at the first that throws.
   */
  method SetSubchartSwitches(values: ValuesTree, o: Props, ghost rs: seq<Rule>, ghost goal: Result<Tree, DeployError>)
    returns (ok: bool, err: DeployError)
    requires DeployWrites(o, rs)
    requires ApplyRules(values.root, rs[3..]) == goal
    modifies values
    ensures ok ==> (values.root ==
      Step(Step(Step(Step(Step(old(values.root), rs[3]), rs[4]), rs[5]), rs[6]), rs[7]))
    ensures ok ==> ApplyRules(values.root, rs[8..]) == goal
    ensures !ok ==> goal == Failure(err)
  {
    ok, err := GuardedSet(values, rs, DeployPaths, 3, goal, BoolValue(o.installPrometheus), "prometheus", BoolValue(o.installPrometheus));
    if !ok { return; }
    ok, err := GuardedSet(values, rs, DeployPaths, 4, goal, BoolValue(o.installLogging), "logging", BoolValue(o.installLogging));
    if !ok { return; }
    ok, err := GuardedSet(values, rs, DeployPaths, 5, goal, BoolValue(o.installInfrastructure), "infrastructure.enabled", BoolValue(o.installInfrastructure));
    if !ok { return; }
    ok, err := GuardedSet(values, rs, DeployPaths, 6, goal, BoolValue(o.installInfrastructure), "newrelic-infrastructure.privileged", BoolValue(o.installInfrastructurePrivileged));
    if !ok { return; }
    ok, err := GuardedSet(values, rs, DeployPaths, 7, goal, BoolValue(o.installKSM), "ksm.enabled", BoolValue(o.installKSM));
  }

  /** The add-on object: its options are fixed when it is built, deploy reads them. */
  class NewRelicAddOn {
    const options: Props

    /** `{ ...defaultProps, ...props }`. */
    constructor (props: Option<Props>)
      ensures options == Merge(props)
    {
      options := Merge(props);
    }

    /** deploy: builds the values document with setPath, then the chart description; a setPath that throws ends it. */
    method Deploy() returns (r: Result<HelmChart, DeployError>)
      ensures r == DeploySpec(options)
    {
      var o := options;
      ghost var rs := DeployRules(o);
      ghost var goal := BuildValues(o);
      var values := new ValuesTree(Base(o));

      var ok, err := SetGlobalValues(values, o, rs, goal);
      if !ok { assert DeploySpec(o) == Failure(err); return Failure(err); }
      ok, err := SetSubchartSwitches(values, o, rs, goal);
      if !ok { assert DeploySpec(o) == Failure(err); return Failure(err); }
      assert rs[8..] == [];

      r := Success(HelmChart("newrelic-bundle", ChartName(o.chart), o.release, o.repository, o.namespace, o.version, values.root));
    }
  }
}
