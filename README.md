# New Relic add-on: options merge, `setPath` and the values document

This project models the core of the New Relic add-on for the AWS SSP EKS blueprint (`src/index.ts`):

- the option record `NewRelicAddOnProps` and the default table `defaultProps`;
- the constructor's merge `{ ...defaultProps, ...props }`;
- the nested path setter `setPath(obj, path, val)`;
- `deploy`, which turns the merged options into a Helm values document with a fixed sequence
  of guarded `setPath` calls, then describes the chart for `addHelmChart`.

Modules:

- `Wrappers`: `Option` and `Result`.
- `Values`: the values document as a JavaScript value tree, JavaScript truthiness, and reading
  at a key path.
- `Paths`: `path.split(".")` and its inverse `join(".")`.
- `PathSetter`: `setPath`. The functions `Write` and `Blocked` specify it; the class
  `ValuesTree` holds the object that deploy updates in place. Its `SetPath` walks the
  intermediate keys in a loop (`obj[key] = obj[key] || {}`), assigns at the last key, then puts
  the updated objects back along the path.
- `Options`: the props record, the default table and the merge.
- `NewRelic`: the guarded writes of deploy as a list of rules, `BuildValues` and `DeploySpec`
  (what deploy produces), and the class `NewRelicAddOn`. Its constructor merges the options.
  Its `Deploy` method makes the eight guarded `setPath` calls, in the source's order, on a
  `ValuesTree`.

How setPath treats a truthy non-object at an intermediate key:

- `obj[key] || {}` keeps such a value, so the walk reaches a primitive.
- The next property assignment on it throws a `TypeError`, because the compiled module is
  strict.
- So a truthy scalar is never replaced by an object. The model keeps the value (`Write`) and
  reports the throw (`Blocked`, a `false` result of `SetPath`, a
  `Failure(CannotSetProperty(keys))` from `Deploy`).

Deploy writes through the shared `global` key and the top-level `infrastructure`,
`newrelic-infrastructure` and `ksm` keys. So it throws exactly when the caller's `values` hold a
truthy non-object at one of those keys and one of the writes below it is enabled
(`BuildValuesFailsIff`). It never throws without caller values (`BuildValuesFromNothing`).

The proof of `Deploy` is grouped into two helper methods, `SetGlobalValues` and
`SetSubchartSwitches`. Each makes its writes in the source's order, one `GuardedSet` per
`if (...) setPath(...)`.

## Model

| member | source | states |
|---|---|---|
| `Values.Truthy` | src/index.ts:105 | JavaScript truthiness, as `obj[key] \|\| {}` and deploy's `if` guards use it: falsy exactly for `false`, `""`, `0`, `null` and `undefined`, so every object is truthy, the empty one included |
| `Paths.Split` | src/index.ts:102 | `path.split(".")`: at least one segment, and no segment holds a dot |
| `Paths.JoinSplit` | src/index.ts:102 | splitting loses nothing: joining the segments with dots gives back the path |
| `Paths.SplitJoin` | src/index.ts:102 | dot-free segments joined with dots split back into the same segments |
| `Paths.SplitPrefix` | src/index.ts:102 | a dot-free prefix glued to a string only extends the string's first segment |
| `Paths.SplitOne` | src/index.ts:102 | a dot-free key is a path of one segment |
| `Paths.SplitTwo` | src/index.ts:102 | two dot-free keys joined by a dot split into exactly those two keys |
| `PathSetter.Write` | src/index.ts:101-108 | setting a path adds only its first key at the top level; every other top-level key keeps its value |
| `PathSetter.Blocked` | src/index.ts:104-107 | the condition under which setPath throws: never for a one-key path, and only when the first key holds a truthy value |
| `PathSetter.BlockedIff` | src/index.ts:104-107 | setPath throws exactly when some proper prefix of the path holds a truthy value that is not an object |
| `PathSetter.BlockedLeavesTree` | src/index.ts:104-107 | when setPath throws it has changed nothing, and the path reads as missing |
| `PathSetter.WriteGet` | src/index.ts:101-108 | get after set: a path that does not throw reads back the value written |
| `PathSetter.WriteKeepsOthers` | src/index.ts:104-107 | every path that parts ways with the written one reads as before; siblings are kept at every level |
| `PathSetter.WriteIntoEmpty` | src/index.ts:104-107 | writing into an empty object never throws and builds the chain of nested objects down to the value |
| `PathSetter.FalsyIntermediateReplaced` | src/index.ts:105 | a missing or falsy intermediate value is replaced by a fresh object holding only the rest of the path |
| `PathSetter.DescendStep` | src/index.ts:105 | one walk step into an object or a falsy value: the write and the throw condition pass to the child object |
| `PathSetter.Walk` | src/index.ts:104-106 | the walk visits the objects that each intermediate key leads to (each level is `obj[key] \|\| {}` of the one before), and stops early exactly when setPath would throw |
| `PathSetter.WriteLast` | src/index.ts:107 | the last assignment puts the value at the last key |
| `PathSetter.Reassemble` | src/index.ts:104-107 | putting the walked objects back gives the tree `Write` specifies |
| `PathSetter.ValuesTree.constructor` | src/index.ts:122 | the values object starts as the given tree |
| `PathSetter.ValuesTree.SetPath` | src/index.ts:101-108 | the new tree is `Write` of the old one at the split path; the result is false exactly when the source throws |
| `Options.Spread` | src/index.ts:115 | `{ ...lower, ...upper }` property by property: spreading `{}` on top gives `lower` back, and spreading over `{}` gives `upper` |
| `Options.Merge` | src/index.ts:115 | every property with a default is present after the merge; no props at all gives exactly the default table |
| `Options.MergeDefaults` | src/index.ts:83-95 | no props and `{}` both give the default table, property by property as the source lists it |
| `Options.MergeTakesCaller` | src/index.ts:115 | a property the caller gives is kept as given (`false` and `""` included); one left out takes the default table's value |
| `Options.MergeIdempotent` | src/index.ts:115 | merging already merged options over the defaults changes nothing |
| `Options.MergeComplete` | src/index.ts:115 | a record that has every property merges to itself |
| `NewRelic.Rules` | src/index.ts:124-151 | deploy's eight guarded writes in the source's order; the `newrelic-infrastructure.privileged` write shares the guard installInfrastructure with `infrastructure.enabled` and stores installInfrastructurePrivileged |
| `NewRelic.RulesStoreGuards` | src/index.ts:124-151 | every write except `newrelic-infrastructure.privileged` stores the very value its guard tests |
| `NewRelic.ApplyRules` | src/index.ts:124-151 | the guarded writes made in order and stopped by the first throw; when they succeed, no top-level key of the starting tree is lost |
| `NewRelic.ApplyRulesNoneEnabled` | src/index.ts:124-151 | with every guard falsy, no write happens and the tree comes back unchanged |
| `NewRelic.ApplyRulesFailureOrigin` | src/index.ts:124-151 | a failure is the error of an enabled write whose path has at least two keys |
| `NewRelic.Base` | src/index.ts:122 | `{ ...props.values ?? {} }`: the caller's values when given, `{}` otherwise |
| `NewRelic.BuildValues` | src/index.ts:122-151 | the values document deploy builds; when it succeeds it keeps every top-level key of the caller's values |
| `NewRelic.BuildValuesFailureKeys` | src/index.ts:124-151 | deploy can only throw at a two-key path below `global`, `infrastructure`, `newrelic-infrastructure` or `ksm` |
| `NewRelic.ChartName` | src/index.ts:154 | the chart name is never empty; it is the caller's chart whenever that is non-empty, and `nri-bundle` exactly when the merged chart is missing, empty or `nri-bundle` itself |
| `NewRelic.DeploySpec` | src/index.ts:120-160 | deploy succeeds exactly when building the values succeeds; the chart is never empty and is the caller's chart whenever that is non-empty |
| `NewRelic.ApplyRulesUntouched` | src/index.ts:124-151 | a path that parts ways with every written path reads as in the caller's values |
| `NewRelic.ApplyRulesOutcome` | src/index.ts:124-151 | with disjoint paths, each path holds its value when its guard is truthy, and the starting tree's content when the guard is falsy |
| `NewRelic.WriteKeepsScalars` | src/index.ts:104-107 | a write below or beside a top-level key keeps whether that key holds a truthy non-object |
| `NewRelic.ApplyRulesFailsIff` | src/index.ts:124-151 | for writes whose paths are either one key outside a set `g` of parents or two keys starting in `g`, the writes fail exactly when an enabled two-key write starts at a key that holds a truthy non-object in the starting tree |
| `NewRelic.RulesDisjoint` | src/index.ts:124-151 | no two of deploy's eight paths overlap |
| `NewRelic.BuildValuesGlobal` | src/index.ts:124-134 | `global.cluster` and `global.licenseKey` hold the cluster name and the license key when those are non-empty strings, and `global.lowDataMode` holds `true` when lowDataMode is true; when a guard is falsy, the path holds what the caller's values held there |
| `NewRelic.BuildValuesSwitches` | src/index.ts:136-151 | each switch path is `true` when its flag is, and keeps the caller's content otherwise; `prometheus` and `logging` become the boolean itself; `newrelic-infrastructure.privileged` gets installInfrastructurePrivileged, `false` included, when installInfrastructure is true |
| `NewRelic.BuildValuesRule` | src/index.ts:124-151 | each of deploy's writes lands when its guard is truthy and leaves the caller's content when it is falsy |
| `NewRelic.BuildValuesKeepsOthers` | src/index.ts:122-151 | every path of the caller's values that parts ways with all eight written paths is kept |
| `NewRelic.BuildValuesFailsIff` | src/index.ts:124-151 | deploy throws exactly when an enabled write has to descend through a top-level key that holds a truthy non-object in the caller's values |
| `NewRelic.BuildValuesFromNothing` | src/index.ts:122 | without caller values deploy never throws |
| `NewRelic.ApplyRulesKeys` | src/index.ts:124-151 | the writes add exactly the first keys of the enabled writes to the top level |
| `NewRelic.BuildValuesTopKeys` | src/index.ts:122-151 | the document's top-level keys are the caller's plus exactly those of the enabled writes |
| `NewRelic.AllOnValues` | src/index.ts:122-151 | with every switch on, no cluster name, no license key and no caller values, the document is exactly the default document |
| `NewRelic.DefaultValues` | src/index.ts:83-95 | the default options give `{global:{lowDataMode:true}, prometheus:true, logging:true, infrastructure:{enabled:true}, newrelic-infrastructure:{privileged:true}, ksm:{enabled:true}}` |
| `NewRelic.DefaultDeploy` | src/index.ts:153-160 | with no props, deploy asks for chart `nri-bundle`, release `newrelic-bundle`, the official repository, namespace `newrelic`, version `3.2.11` and the default document |
| `NewRelic.RulesPathsSplit` | src/index.ts:124-151 | each of deploy's path strings splits into the keys of the write at the same position |
| `NewRelic.GuardedSet` | src/index.ts:124-151 | one `if (guard) setPath(values, path, val)`: the tree afterwards is the path written when the guard is truthy and the old tree otherwise (also when setPath throws); either the remaining writes still lead to the same outcome, or it throws the error that outcome holds |
| `NewRelic.SetGlobalValues` | src/index.ts:124-134 | the three `global` writes in order: when none throws, the tree is the result of the three guarded writes in turn and the remaining writes lead to the same outcome; otherwise deploy's outcome is the error thrown |
| `NewRelic.SetSubchartSwitches` | src/index.ts:136-151 | the five switch writes in order: when none throws, the tree is the result of the five guarded writes in turn and is the final document; otherwise deploy's outcome is the error thrown |
| `NewRelic.NewRelicAddOn.constructor` | src/index.ts:114-116 | the kept options are the caller's props merged over the defaults |
| `NewRelic.NewRelicAddOn.Deploy` | src/index.ts:118-162 | deploy's result is `DeploySpec` of the options: the chart description with the document the guarded writes build, or the error of the first setPath that throws |

## Left out

- `addHelmChart`, `Construct`, `ClusterAddOn`, `ClusterInfo` and `Promise.resolve` (src/index.ts:1-2, 153-161) belong to the AWS CDK and blueprint framework. The model stops at the `HelmChart` record that would be handed to `addHelmChart`.
- Aliasing from the shallow copy `{ ...props.values ?? {} }` (src/index.ts:122) is not modelled. Nested objects are values here, so the model does not capture that setPath also changes objects shared with the caller's `values`. Nor does it capture two keys of `values` that hold one and the same object: a write below one key shows under the other as well (with `foo` and `global` the same object, `foo.cluster` gets set). For such inputs ApplyRulesUntouched and BuildValuesKeepsOthers do not describe what JavaScript does.
- Sloppy-mode JavaScript, where assigning a property on a primitive does nothing instead of throwing, is not modelled. The module is strict, so the throw is the behaviour modelled.
- Not modelled: NaN, floating-point numbers, arrays, symbols and functions as values. Numbers are integers only.
- Not modelled: inherited (prototype) properties and key order. A JavaScript object is a map from strings to values here.
- Merge: a property that the caller sets explicitly to `undefined` is treated as absent. In the source, the spread would copy `undefined` over the default. So `Merge`'s promise that every defaulted property is present holds only for props without explicit `undefined`.
- The `infrastructure` block evaluates its guard once for its two writes. The model checks the same guard before each write, which gives the same result because nothing changes the options in between.
- The distinction between `null` and an absent `values` is not modelled: `values ?? {}` gives `{}` in both cases, and the option is `None` in the model.
