# Feature evaluator and feature selector — a Dafny model

This project models the two pieces of logic in a small feature-toggle library.

- **The feature evaluator** (`FeatureEvaluator`). It keeps one string-keyed attribute map. The map is built by flattening data objects into name/value pairs: first the shared-data objects given at construction, in order, and then the objects of every `With` call. Each property is inserted or overwritten, so on a name collision the object merged last wins. `IsOnAsync(name)` hands the name and the current map to an external resolver and returns the resolver's verdict unchanged.
- **The feature selector** (`FeatureSelector`). This is a factory. It asks a feature whether it is on, and builds the message "Creating *Type* because feature '*Name*' is toggled '*on/off*'.". It gives that message to the logger when there is one. Then it invokes exactly one of its two constructor functions.

The model is functional:

- A data object is the sequence of its public properties, in reflection order. It may also be a null reference.
- The attribute map is a `map<string, Value>`. Merging is a left fold of map update.
- The resolver is a pure, total function `(string, map<string, Value>) -> bool`. It is assumed not to throw and not to write to the map it is handed. Nothing else is assumed about its verdict.
- An evaluator is a value holding its resolver and its map. `With` returns the evaluator with the merged map, and also any exception the call threw.
- The selector's `CreateAsync` is a function. It takes the answer the feature gives at that call, and returns the instance built, the constructor functions invoked, and the messages logged.

Files:

- `results.dfy`: `Option`, `Result`, and the exceptions the code throws.
- `feature_data.dfy`: data objects, the attribute map, and merging, with reference semantics (`LastValue`, `LastWriter`) that the merge is proved against.
- `feature_evaluator.dfy`: construction, `IsOnAsync` and the two `With` overloads.
- `feature_selector.dfy`: construction, `CreateAsync`, and what the log message says.
- `scenarios.dfy`: the repository's own test cases, restated as lemmas on the same data.

## Behaviour as coded

- The evaluator has no value-matching query and no default-value argument. `IsOnAsync` takes only a name, and the resolver receives only the name and the map (Features/FeatureEvaluator.cs:42, Features/IFeatureResolver.cs:17). The model has neither.
- The selector calls the logger (Features/FeatureSelector.cs:48) before it invokes a constructor function (Features/FeatureSelector.cs:50), and it does not catch exceptions from the logger. So a throwing logger makes `CreateAsync` throw, and then no constructor function is invoked. The model keeps this ordering (`Logger.ThrowingLogger`, `Error.LoggerFailed`). It does not make logging failures harmless.
- A null data object throws a null-reference exception when its type is inspected (Features/FeatureEvaluator.cs:73). This applies to a null element of the shared data, to `With<T>(null)`, and to a null element of the `params` array. In `With(params)`, the objects before the null one are already merged, and they stay merged. A null `params` array throws too, but earlier: at the `foreach` over it (Features/FeatureEvaluator.cs:63), before any object is merged.
- `With` mutates the evaluator and returns the receiver itself (Features/FeatureEvaluator.cs:52-53, 63-68). So every holder of that evaluator sees its merges in every later query. In the model an evaluator is a value, and a holder sees the merges only if it keeps the evaluator that `With` returns. `Scenarios.DataFeature` models the tests' data-carrying feature that way. With it, data given to one query is still there at a later plain query.

## Model

| member | source | states |
|---|---|---|
| FeatureData.MergeObject | Features/FeatureEvaluator.cs:71-79 | merging one object gives the old keys plus the object's property names; each such name holds the object's last value for it; every other key keeps its old value |
| FeatureData.PopulateAllDataFrom | Features/FeatureEvaluator.cs:74-78 | the property loop, one insert-or-overwrite per property in order, computes exactly the merge of that object into the map |
| FeatureData.MergeAll | Features/FeatureEvaluator.cs:31-34 | merging a sequence of objects in order gives the old keys plus all their names; each merged name holds the value of the last object that has it; other keys are untouched |
| FeatureData.LaterObjectWins | Features/FeatureEvaluator.cs:31-34 | if object j has a property k and no later object has one, k's merged value is object j's value |
| FeatureData.MergeAllAppend | Features/FeatureEvaluator.cs:61-69 | merging a then b on top of a map equals merging a + b, so a later call continues the merge order of earlier ones |
| FeatureData.MergeAllCons | Features/FeatureEvaluator.cs:63-66 | merging the first object and then the rest equals merging the whole sequence |
| FeatureData.KeysNeverShrink | Features/FeatureEvaluator.cs:77 | merging only adds or updates: the key set never loses a key, either against the starting map or against an earlier prefix |
| FeatureData.LaterPropertyWins | Features/FeatureEvaluator.cs:74-78 | within one object, if property i is called k and no later property is, merging the object leaves k holding property i's value, whatever the map held before |
| FeatureData.MergeObjectIdempotent | Features/FeatureEvaluator.cs:77 | merging the same object a second time leaves the map as the first merge left it |
| FeatureData.DisjointMergesCommute | Features/FeatureEvaluator.cs:71-79 | two objects with no property name in common give the same map in either order, so order matters only on collisions |
| FeatureData.Populate | Features/FeatureEvaluator.cs:61-69 | objects are merged in order up to the first null one; a null object throws a null-reference exception, and the objects before it stay merged |
| FeatureEvaluator.New | Features/FeatureEvaluator.cs:24-35 | a null resolver fails with an argument error naming "resolver", before anything else; null shared data counts as empty; a null shared object throws; otherwise construction succeeds exactly when no shared object is null, keeps the resolver, and its map is the shared objects merged in sequence order into an empty map, which is the union of their names with the later object winning each name (MergeAll) |
| FeatureEvaluator.IsOn | Features/FeatureEvaluator.cs:42 | the verdict is the resolver's answer for exactly this name and the current map, passed through unchanged |
| FeatureEvaluator.WithOne | Features/FeatureEvaluator.cs:50-54 | With&lt;T&gt; keeps the resolver; a non-null object sets each of its names to its value and leaves every other key unchanged; a null object throws and changes nothing |
| FeatureEvaluator.With | Features/FeatureEvaluator.cs:61-69 | With(params) keeps the resolver; its map is its arguments merged left to right over the existing map (MergeAll); so on a collision a later argument beats an earlier one and any argument beats the existing value, and non-colliding keys are kept; a null array throws with the map unchanged; a null element throws NullReference once the arguments before it are merged |
| FeatureEvaluator.WithMergesAll | Features/FeatureEvaluator.cs:61-69 | with no null argument, With throws nothing, and its map is the arguments merged in order over the current map |
| FeatureEvaluator.WithOneIsWithSingleton | Features/FeatureEvaluator.cs:50-69 | With&lt;T&gt;(d) and With(params) called with the single argument d give the same evaluator and the same exception |
| FeatureEvaluator.WithContinuesSharedData | Features/FeatureEvaluator.cs:61-69 | With after construction gives the map of merging the shared objects and then the With objects, in order, into an empty map |
| FeatureEvaluator.ChainedQuerySeesMergedData | Features/FeatureEvaluator.cs:42 | a chained With(ds) then IsOn(name) asks the resolver about name with the old map overridden by ds |
| FeatureSelector.New | Features/FeatureSelector.cs:31-37 | construction succeeds exactly when feature, on and off are all non-null; a null one fails with an argument error naming it, checked in the order feature, on, off; any logger, null included, is accepted and kept |
| FeatureSelector.Create | Features/FeatureSelector.cs:43-51 | a failing feature query propagates with nothing built; a throwing logger propagates with nothing built; otherwise exactly one constructor function is invoked, on() when the answer is true and off() when it is false, and its result is returned; one message naming the chosen type, the feature and the answer is logged when a logger is present, and none when it is null |
| FeatureSelector.LogText | Features/FeatureSelector.cs:46-48 | the message opens with "Creating ", the type name and " because feature '"; the feature name follows right after; it closes with "' is toggled '", the answer word and "'."; nothing else is in it |
| FeatureSelector.LogNamesTheChoice | Features/FeatureSelector.cs:46-48 | the message contains the type name, the feature's name and the word "on"/"off", and ends with that word in quotes |
| FeatureSelector.LogDeterminesBranch | Features/FeatureSelector.cs:46-48 | reading the quoted word back out of the message recovers the branch that was chosen |
| FeatureSelector.LogMatchesBuiltBranch | Features/FeatureSelector.cs:46-50 | the logged message names the type of the constructor function that was invoked, and reads back as that function's branch |
| FeatureSelector.LoggerDoesNotAffectChoice | Features/FeatureSelector.cs:48-50 | with a null logger, the instance built and the constructor invoked are the same as with a logger, and nothing is logged |
| FeatureSelector.AnswerChangeSwitchesBranch | Features/FeatureSelector.cs:45-50 | the feature is asked on every call, so two calls with different answers invoke different constructor functions |
| Scenarios.SharedDataLaterObjectWins | Features.Test/FeatureEvaluatorTest.cs:168-189 | shared data person1, country, person2 gives exactly FirstName=John, LastName=Adams, CountryName=USA: three keys |
| Scenarios.ConstructorArguments | Features.Test/FeatureEvaluatorTest.cs:13-31 | a null resolver is refused with an argument error naming "resolver"; absent shared data gives an empty map |
| Scenarios.WithOverridesPartialConstructorData | Features.Test/FeatureEvaluatorTest.cs:235-257 | With(person2, country2) over a person and a country from construction gives FirstName="John Quincy", LastName=Adams and CountryName=USA |
| Scenarios.AskPlain | Features.Test/FeatureEvaluatorTest.cs:283 | the tests' feature IsOnAsync() asks the resolver about "Test Feature" with the held evaluator's map and changes nothing |
| Scenarios.AskWith | Features.Test/FeatureEvaluatorTest.cs:271-286 | the tests' feature IsOnAsync&lt;T&gt;(d) merges d into the evaluator it holds and asks about "Test Feature" with the merged map; a null d throws and changes nothing |
| Scenarios.LaterPlainQuerySeesEarlierData | Features.Test/FeatureEvaluatorTest.cs:271-286 | after the tests' feature is asked with a person, a later plain IsOnAsync() asks the resolver with the person's names and values in the map |
| Scenarios.WithStopsAtNullObject | Features/FeatureEvaluator.cs:63-66 | With(country, null, person) throws NullReference after the country has been merged, and before the person is merged |
| Scenarios.SelectorFollowsResolver | Features/FeatureSelector.cs:45 | generalising the tests' selector scenarios: a selector whose feature asks an evaluator builds the "on" type exactly when the resolver says on; re-stubbing the resolver between calls switches the branch |

## Left out

- Reflection is left out: how `GetProperties` lists public instance properties, and `GetValue`. A data object is given directly as its property list, in the order reflection would list it. Indexed properties and getters that throw, both of which make `GetValue` throw, are not modelled.
- Thread safety of the concurrent dictionary is left out. So are races between concurrent `With` calls, and between `With` and a query. The model is sequential. In particular, the resolver receives the map as it is at the call, not a live reference.
- `async`/`Task` is left out. The feature query and the resolver are synchronous, and cancellation is not modelled.
- The logging framework is left out. A logger is modelled as absent, present, or throwing. A recorded message is the formatted string.
- Type names are left out. `typeof(TOn).Name` and `typeof(TOff).Name` are string fields of the selector, and their content is not modelled.
- Constructor functions that throw or return null are left out. `on` and `off` are total functions.
- Exception messages are left out. An argument error carries only the parameter name.
- `AssemblyVersionFeatureData` and `MachineNameFeatureData` are left out. They only read the assembly version and the machine name from the environment. In this model they would be data objects with a single property each.
- The marker and contract interfaces (`ISharedFeatureData`, `IFeature`, `IFeatureResolver`, `IFeatureSelector`, `IFeatureEvaluator`) have no logic. They appear only as the signatures the model consumes. A feature is its name, plus the answer it gives at each call.
- Dependency-injection container registration is left out.
- FeatureEvaluator.IsOn: the resolver is assumed not to throw and not to write to the dictionary it is handed. In the source it receives the live `_allData` (Features/FeatureEvaluator.cs:42, Features/IFeatureResolver.cs:17). So it could remove, clear or set entries, and those changes would persist. It could also throw, and `IsOnAsync` would pass the exception on. Neither is modelled. `FeatureData.KeysNeverShrink` therefore speaks only of the merges.
- FeatureEvaluator.With: object identity is not modelled. In the source the evaluator is one shared mutable object, and every holder sees every `With` on it. In the model an evaluator is a value: a copy taken before a `With` keeps the old map, and only the evaluator that `With` returns carries the merges.
