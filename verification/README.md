# graphformation in Dafny

graphformation is a small infrastructure-as-code tool. A Python program
declares resources (directories, files and a `dummy_ref_resource` used to
exercise references) into a global graph. The graph is turned into a JSON
representation and validated against per-type schemas. It is then compared
with a recorded state, and the executor emits a shell script that brings the
recorded state to the desired one:

- deletions, in reverse dependency order over the old graph;
- creations, in dependency order over the new graph;
- in-place updates, in dependency order over the new graph.

This project models that core and proves properties about it. It has one
module per concern:

| module | file | models |
|---|---|---|
| `Types` | `types.dfy` | resource dictionaries (`ResourceRepr`), property values (`Value`: string, `{"!ref": id}` marker, embedded resource), `Result`/`Option`/`Outcome`, the error kinds, `dict.get` |
| `Strings` | `strings.dfy` | `"\n".join`, and the sorted key order of `json.dumps(..., sort_keys=True)` |
| `Text` | `text.dfy` | `str()` / `repr()` / JSON text of values, as they appear in emitted commands |
| `Schemas` | `schemas.dfy` | `schema.py`: `Property`, the required and one-of validators, `Schema.validate`, the three schemas, `from_type` |
| `Layering` | `layering.dfy` | `topological_sort`: the top-level references of a resource, the dependency map, and the layering the `toposort` package computes |
| `PropertyDiff` | `property_diff.dfy` | `_resource_diff` |
| `Handlers` | `handlers.dfy` | `OpCtx`, `ScriptCtx`, `ExecutableResource` and the per-type create / update / delete / requires_recreate, plus executor-side `from_type` |
| `Planner` | `planner.dfy` | `_diff`: the fixed-point split of changed resources into in-place updates and delete-then-create |
| `Executor` | `executor.dfy` | `execute`: the three phases, the script, and the new state with statuses |
| `Spec` | `spec.dfy` | `spec.py`: the `GRAPH` registry, `Resource`/`Ref` and their JSON form, `directory`/`file`/`dummy_ref_resource`, `graph_repr`, `execute_change_program` |

Objects that the Python code updates in place are classes:

- `Handlers.OpCtx`, `Handlers.ScriptCtx` and `Handlers.ExecutableResource` (whose `update_status` rewrites the resource dictionary);
- `Spec.Registry`, which stands for the module-level `GRAPH` dictionary. It has a `graph` map and an `order` sequence, because a Python dict keeps insertion order and `graph_repr` walks it in that order.

Loops of the source are methods with loop invariants: `Planner.Diff` and its passes, `Executor.RunLayer`/`RunPhase`/`Execute`, `Spec.Registry.RunProgram` and `Spec.Registry.GraphRepr`. Each is proved against a specification function:

- `Planner.PlanOf`;
- `Executor.Succeeds` / `Executor.Fails`;
- `Spec.Run`;
- `Spec.Repr` / `Spec.FirstFailure`.

Raised exceptions are `Err` results that carry the error kind.

Within one dependency layer the executor iterates a Python `set`, whose order is not specified. The model therefore picks any element of the layer. `Executor.Execute` returns, as ghost out-parameters, the orders it actually took in each phase. Its contract holds for every order that walks the layers in sequence (`Executor.Walks`).

Behaviours of the code that the model keeps as written:

- Only top-level `{"!ref": …}` properties count as dependencies. A reference inside an embedded resource is not one (`Layering.NestedReferencesIgnored`).
- A change of resource type with identical properties produces no action, because `_resource_diff` compares properties only.
- `ScriptCtx.get_ref` resolves references against the desired graph, also when deleting a file of the old state. A file whose parent is no longer declared cannot be deleted (`Handlers.DeleteFileNeedsParentInDesired`).
- `DummyRefResource.update` records the status `"deleted"`.
- `_diff` computes `actually_modified` and discards it (`Planner.Untouched`).
- Directories are created with `mkdir -f`.
- `from_type` in executor.py raises while formatting its own message. The model reports it as an unknown type.
- `file()` defaults `filename` to `None`, and the file schema requires `filename`. A file declared without a filename therefore always fails `graph_repr` (`Spec.FileConforms`).
- If a file has both `text` and `source`, the `wget` command wins (`Handlers.SourceWinsOverText`).

## Model

| member | source | states |
|---|---|---|
| `Types.Get` | src/graphformation/executor.py:183-184 | `properties.get(name, None)`: present iff the key is there, and then the stored value |
| `Types.Lookup` | src/graphformation/executor.py:67-68 | `props[name]`: succeeds iff the key is there, otherwise a missing-key error naming it |
| `Strings.Join` | src/graphformation/executor.py:46-48 | `"\n".join`: empty for no parts, the part itself for one |
| `Strings.JoinAppend` | src/graphformation/executor.py:19 | joining a concatenation is joining each half with one separator between |
| `Strings.SortedKeys` | src/graphformation/executor.py:142 | the keys of a dict in strictly increasing order, each key exactly once |
| `Strings.LeastExists` | src/graphformation/executor.py:154 | every non-empty key set has a least key under the string order used by `sort_keys` |
| `Strings.PrependLeast` | src/graphformation/executor.py:160 | putting the least key in front of a sorted rest yields a sorted listing of the whole set |
| `Text.PyStr` | src/graphformation/executor.py:84 | a string value formats as itself |
| `Text.StringRepr` | src/graphformation/executor.py:68 | a str nested in a formatted dict prints between single quotes, or double quotes when it holds a single quote and no double quote; the result is at least two characters longer than the text |
| `Text.PlainStringRepr` | src/graphformation/executor.py:84 | a string without quotes, backslashes or control characters prints as itself between single quotes |
| `Schemas.LastTruthy` | src/graphformation/schema.py:19-24 | the one-of loop finds a truthy property iff one of the names has a truthy value, and the one it keeps is such a name |
| `Schemas.OneOfValidator` | src/graphformation/schema.py:25-29 | a failing one-of check reports the expected names |
| `Schemas.OneOfValidatorMeaning` | src/graphformation/schema.py:19-29 | the one-of check passes iff some expected property is present and truthy |
| `Schemas.RequiredValidator` | src/graphformation/schema.py:32-37 | a required property passes iff it is present (absent = `None`), else a missing-property error naming it |
| `Schemas.CheckProperties` | src/graphformation/schema.py:67-73 | the property loop passes iff every property definition is satisfied, and fails only on an unsatisfied one |
| `Schemas.Validate` | src/graphformation/schema.py:57-73 | validation passes iff the operation is `define`, the type matches the schema and every property is satisfied; wrong operation and wrong type give their own errors |
| `Schemas.FromType` | src/graphformation/schema.py:127-134 | known exactly for `directory`, `file`, `dummy_ref_resource`, with the schema of that type; otherwise an unknown-type error |
| `Schemas.DirectoryRequirements` | src/graphformation/schema.py:76-85 | a directory validates iff its type is `directory` and `location` and `permissions` are present |
| `Schemas.FileRequirements` | src/graphformation/schema.py:88-103 | a file validates iff `filename` and `parent` are present and `source` or `text` is truthy |
| `Schemas.DummyRefResourceRequirements` | src/graphformation/schema.py:106-117 | a dummy ref resource validates iff its type matches: both parents are optional |
| `Layering.References` | src/graphformation/executor.py:250-256 | the dependencies of a resource are exactly the targets of its top-level `!ref` properties |
| `Layering.NestedReferencesIgnored` | src/graphformation/executor.py:253 | a reference inside an embedded resource is not a dependency |
| `Layering.Targets` | src/graphformation/executor.py:252-255 | exactly the ids that some resource of the graph references |
| `Layering.Dependencies` | src/graphformation/executor.py:248-257 | the map handed to `toposort`, as it reads it: one entry per resource with its references minus itself (self-dependencies are ignored), plus dependency-free entries for referenced but undeclared ids |
| `Layering.Reverse` | src/graphformation/executor.py:267 | `[::-1]`: same length, layer `i` is layer `n-1-i` of the input |
| `Layering.ReverseLayers` | src/graphformation/executor.py:267 | reversing keeps the layers disjoint and covers the same ids |
| `Layering.Ready` | src/graphformation/executor.py:257 | the next layer is exactly the unplaced ids whose dependencies are all placed |
| `Layering.Layers` | src/graphformation/executor.py:257 | a successful layering places every id once, each after all its dependencies, each layer non-empty; otherwise a cycle error |
| `Layering.TopologicalSort` | src/graphformation/executor.py:248-257 | on success a layering of the dependency map covering all declared and referenced ids; on failure a reference-cycle error |
| `Layering.SortReadsOnlyProperties` | src/graphformation/executor.py:250-256 | the sort depends only on the keys and properties, not on statuses |
| `Layering.TargetsReadOnlyProperties` | src/graphformation/executor.py:252-255 | references and targets depend only on properties |
| `Layering.ReferenceTargetEarlier` | src/graphformation/executor.py:257 | a referenced resource sits in a strictly earlier layer than the resource referring to it |
| `Layering.StuckFails` | src/graphformation/executor.py:257 | a non-empty set of ids each depending on another id of the set makes the layering fail |
| `Layering.FailureIsStuck` | src/graphformation/executor.py:257 | when the layering fails, such a stuck set exists |
| `Layering.SortFailsIffStuck` | src/graphformation/executor.py:248-257 | the sort fails iff the dependency map has a stuck set |
| `Layering.CycleFails` | src/graphformation/executor.py:248-257 | a reference cycle between resources makes the sort fail |
| `Layering.CycleStuck` | src/graphformation/executor.py:250-256 | the ids of a reference cycle form a stuck set |
| `PropertyDiff.ResourceDiff` | src/graphformation/executor.py:178-191 | one change per property that is in either resource and whose `get` values differ, carrying the old and the new value |
| `PropertyDiff.DiffEmptyIffSameProperties` | src/graphformation/executor.py:178-191 | the diff is empty iff the two property maps are equal |
| `Handlers.FromType` | src/graphformation/executor.py:165-175 | the handler is Directory, File or DummyRefResource exactly for those type tags; any other tag is an unknown-type error |
| `Handlers.RequiresRecreate` | src/graphformation/executor.py:71-76 | a directory is recreated iff `location` changed; a file always; a dummy ref resource iff `immutable_parent` changed |
| `Handlers.Header` | src/graphformation/executor.py:8-12 | the comment line of an operation starts with `# ` |
| `Handlers.DumpAction` | src/graphformation/executor.py:18-23 | an operation dumps as its header, its commands each followed by a space, and the `# end` trailer |
| `Handlers.DumpActionFrame` | src/graphformation/executor.py:18-23 | every dumped operation starts with its header line and ends with `\n# end\n\n` |
| `Handlers.DumpScript` | src/graphformation/executor.py:46-48 | an empty script for no operations, the single dump for one |
| `Handlers.DumpScriptAppend` | src/graphformation/executor.py:43-48 | the script of two runs of operations is their scripts joined by a newline |
| `Handlers.Resolve` | src/graphformation/executor.py:36-40 | `get_ref` succeeds iff the value is a reference to a declared id, and yields that resource; a non-reference and a dangling id are distinct errors |
| `Handlers.PathJoin` | src/graphformation/executor.py:104 | `os.path.join` of two POSIX paths: ends with the second; an absolute second path replaces the first; otherwise starts with the first, with one slash between unless the first is empty or already ends in a slash |
| `Handlers.FilePath` | src/graphformation/executor.py:103-104 | the path exists iff the parent reference resolves, the parent has a `location`, the file has a `filename`, and both are strings; it is then their `os.path.join`; a non-string location, then a non-string filename, is a not-a-string error |
| `Handlers.FileNameMustBeString` | src/graphformation/executor.py:124-128 | a file whose filename is not a string can be neither created nor deleted |
| `Handlers.CreateAction` | src/graphformation/executor.py:65-144 | one create command: `mkdir -f location` for a directory, `wget` or the heredoc for a file (source wins), an echo for a dummy ref resource; a file needs a path (string location and filename) and text or source |
| `Handlers.UpdateAction` | src/graphformation/executor.py:78-156 | a file cannot be updated; a directory emits `chmod permissions location` iff `permissions` changed; a dummy ref resource always emits one echo |
| `Handlers.DeleteAction` | src/graphformation/executor.py:87-162 | `rm -fr location` for a directory, `rm -f path` for a file (fails iff the path cannot be built, which includes a non-string location or filename), an echo for a dummy ref resource |
| `Handlers.DeleteFileNeedsParentInDesired` | src/graphformation/executor.py:124-128 | deleting a file whose parent is absent from the desired graph fails with a dangling reference |
| `Handlers.SourceWinsOverText` | src/graphformation/executor.py:106-112 | with both `text` and `source` the create command is the `wget` one |
| `Handlers.WithStatus` | src/graphformation/executor.py:55-57 | only `status` and `computed_props` change, to the given status and `{}` |
| `Handlers.OpCtx.constructor` | src/graphformation/executor.py:7-13 | a new operation has its kind, type and id and no commands |
| `Handlers.OpCtx.Command` | src/graphformation/executor.py:15-16 | appends one command |
| `Handlers.ActionsOfSnoc` | src/graphformation/executor.py:33 | appending an operation appends its value to the recorded actions |
| `Handlers.ScriptCtx.constructor` | src/graphformation/executor.py:27-29 | keeps the desired graph and starts with no operations |
| `Handlers.ScriptCtx.Operation` | src/graphformation/executor.py:31-34 | appends one fresh, empty operation for the resource |
| `Handlers.Appended` | src/graphformation/executor.py:31-34 | the actions of a context are those of its earlier operations followed by the last one |
| `Handlers.Fill` | src/graphformation/executor.py:115 | filling the last operation with its commands leaves earlier actions untouched |
| `Handlers.ExecutableResource.constructor` | src/graphformation/executor.py:52-53 | wraps the handler and the resource dictionary |
| `Handlers.ExecutableResource.UpdateStatus` | src/graphformation/executor.py:55-57 | the resource becomes `WithStatus` of the old one |
| `Handlers.ExecutableResource.Create` | src/graphformation/executor.py:65-144 | succeeds iff `CreateAction` does, then appends exactly that action and records the create status |
| `Handlers.ExecutableResource.Update` | src/graphformation/executor.py:78-156 | succeeds iff `UpdateAction` does, then appends exactly that action and records the update status |
| `Handlers.ExecutableResource.Delete` | src/graphformation/executor.py:87-162 | succeeds iff `DeleteAction` does, then appends exactly that action and records `deleted` |
| `Planner.Changed` | src/graphformation/executor.py:203-205 | the candidates with a non-empty diff: exactly the shared ids whose properties differ |
| `Planner.Recreated` | src/graphformation/executor.py:211-221 | the recreated ids are among the changed ones |
| `Planner.PlanOf` | src/graphformation/executor.py:194-244 | created ids are desired ids, deleted ids are old ids, modified ids are in both |
| `Planner.PlanShape` | src/graphformation/executor.py:228-244 | modified ids are changed and neither created nor deleted; created-and-deleted is exactly the recreated set; the rest are plain inserts and removals |
| `Planner.UnchangedIgnored` | src/graphformation/executor.py:204 | a resource with unchanged properties is in no part of the plan |
| `Planner.RecreateRule` | src/graphformation/executor.py:214-222 | a changed resource is deleted and created iff its type changed or its handler requires recreation; otherwise it is updated in place |
| `Planner.ModifiedKeepsType` | src/graphformation/executor.py:210-222 | an in-place update keeps its type and its handler does not require recreation |
| `Planner.SamePropertiesEmptyPlan` | src/graphformation/executor.py:194-244 | same ids and same properties give an empty plan that cannot fail |
| `Planner.ChangedAmong` | src/graphformation/executor.py:202-205 | the loop collects exactly the candidates whose properties changed |
| `Planner.SplitRecreated` | src/graphformation/executor.py:208-222 | splits the changed ids into recreated and kept, or fails iff one of them has an unknown type |
| `Planner.Diff` | src/graphformation/executor.py:194-244 | the fixed-point loop returns `PlanOf` after at most two passes, or the unknown-type error of a changed resource iff planning fails |
| `Planner.FirstPass` | src/graphformation/executor.py:201-222 | the first pass sees every changed id and every recreated one |
| `Planner.SecondPass` | src/graphformation/executor.py:224-226 | the second pass keeps all its candidates and recreates none, so the loop stops |
| `Planner.FinalPlan` | src/graphformation/executor.py:228-244 | what the loop leaves in `inserted`, `deleted` and `modified` is `PlanOf` |
| `Planner.Untouched` | src/graphformation/executor.py:234-238 | `actually_modified` is the ids neither inserted nor deleted |
| `Executor.StepAction` | src/graphformation/executor.py:270-291 | an action produced for an id has the phase's kind and the resource's type and id; an unknown type is reported as such |
| `Executor.PhaseSteps` | src/graphformation/executor.py:267-292 | one planned step per id of the phase |
| `Executor.PhaseStepsAgree` | src/graphformation/executor.py:267-292 | each planned step is the handler action for that id |
| `Executor.PhaseActions` | src/graphformation/executor.py:267-292 | a phase emits one action per handled id |
| `Executor.Marked` | src/graphformation/executor.py:55-57 | a handled resource keeps id, type and properties and gets the status its handler records |
| `Executor.MarkAll` | src/graphformation/executor.py:276-292 | marking resources keeps the set of ids |
| `Executor.RunStep` | src/graphformation/executor.py:270-291 | one handler call fails iff its action fails, with that error; on success the action is appended and the resource marked |
| `Executor.HandleOne` | src/graphformation/executor.py:268-273 | handling one id of a layer extends the emitted actions and the marked graph by that id |
| `Executor.RunLayer` | src/graphformation/executor.py:268-273 | a layer fails iff some selected id of it fails; otherwise every selected id is handled once and its actions appended |
| `Executor.RunPhase` | src/graphformation/executor.py:267-273 | a phase fails iff some selected id of some layer fails; otherwise it walks the layers in order and appends their actions |
| `Executor.DeleteSteps` | src/graphformation/executor.py:267-273 | the deletion steps are exactly the planned deletions |
| `Executor.CreateSteps` | src/graphformation/executor.py:276-282 | the creation steps are exactly the planned creations |
| `Executor.UpdateSteps` | src/graphformation/executor.py:285-292 | the update steps are exactly the planned in-place updates |
| `Executor.NewState` | src/graphformation/executor.py:298 | the returned graph has the desired ids and properties |
| `Executor.ScriptActions` | src/graphformation/executor.py:260-298 | the script has one action per deletion, creation and update |
| `Executor.UpdateStepsAgree` | src/graphformation/executor.py:285-292 | updates see the desired resources and the old versions unchanged by the earlier phases |
| `Executor.MarkedIsNewState` | src/graphformation/executor.py:276-298 | the graph after creations and updates is `NewState` |
| `Executor.Concluded` | src/graphformation/executor.py:260-298 | three successful phases make a successful `execute` |
| `Executor.PhaseFailsIff` | src/graphformation/executor.py:267-292 | a phase meets a failing step iff one of its planned steps fails |
| `Executor.Execute` | src/graphformation/executor.py:260-298 | fails iff a graph has a cycle, planning fails or a planned step fails (a cycle in the desired graph is reported as such); otherwise the script and the new state are those of a walk of the layers |
| `Executor.PhaseActionsNamed` | src/graphformation/executor.py:268-272 | the i-th action of a phase is of the phase's kind, for the i-th handled resource |
| `Executor.PhasesInOrder` | src/graphformation/executor.py:267-292 | the actions are all deletions, then all creations, then all updates, each for the resource handled at that position |
| `Executor.ScriptOrder` | src/graphformation/executor.py:260-298 | the same ordering stated of a successful `execute` |
| `Executor.WalkFollowsReferences` | src/graphformation/executor.py:276-278 | in a walk of the layers, a referenced id comes before the id referring to it |
| `Executor.WalkOrder` | src/graphformation/executor.py:276-278 | ids of earlier layers are handled earlier |
| `Executor.ReverseWalkOrder` | src/graphformation/executor.py:267-268 | walking reversed layers handles ids of later layers earlier |
| `Executor.ReverseWalkPrecedesReferences` | src/graphformation/executor.py:267-268 | in a reversed walk, an id comes before the ids it references |
| `Executor.CreationsFollowReferences` | src/graphformation/executor.py:276-282 | a resource is created after every resource it references that is also created |
| `Executor.UpdatesFollowReferences` | src/graphformation/executor.py:285-292 | a resource is updated after every resource it references that is also updated |
| `Executor.DeletionsPrecedeReferences` | src/graphformation/executor.py:267-273 | a resource is deleted before every resource it referenced that is also deleted |
| `Executor.RecreatedIsDeletedThenCreated` | src/graphformation/executor.py:267-282 | a recreated id is deleted and created, never updated; a new id is only created; a removed id is only deleted |
| `Executor.ActionCount` | src/graphformation/executor.py:294-296 | the script has as many actions as the plan has deletions, creations and updates |
| `Executor.UnchangedGraphEmptyScript` | src/graphformation/executor.py:260-298 | with the same ids and properties nothing is handled, the script is empty and the state is returned unchanged |
| `Executor.NothingPlannedNothingMarked` | src/graphformation/executor.py:298 | an empty plan returns the desired graph as it is |
| `Executor.UnchangedGraphFailsOnlyOnCycle` | src/graphformation/executor.py:260-265 | with the same ids and properties `execute` fails iff the desired graph has a cycle |
| `Executor.NothingPlannedNeverFails` | src/graphformation/executor.py:267-292 | an empty plan has no failing step |
| `Executor.SecondRunChangesNothing` | src/graphformation/executor.py:260-298 | running again against the state a run returned succeeds with an empty script and the desired graph: `execute` is idempotent |
| `Spec.VerifyId` | src/graphformation/spec.py:19-25 | an id is rejected iff it is the reserved word `!ref`, with a reserved-id error |
| `Spec.JsonReprMeaning` | src/graphformation/spec.py:39-57 | `json_repr` keeps id and type, drops `None` properties, keeps strings, turns references into `{"!ref": id}` and embeds resources by their own `json_repr` |
| `Spec.RefIsMarker` | src/graphformation/spec.py:67-74 | a `Ref` serialises as the marker naming the referenced id |
| `Spec.DeclaredDependencies` | src/graphformation/spec.py:44-51 | the dependencies the executor reads from a serialised resource are exactly its top-level `ref` properties |
| `Spec.DefaultPermissions` | src/graphformation/spec.py:94-123 | directories default to `700`, files to `600`, and a file's filename defaults to `None` |
| `Spec.DirectoryConforms` | src/graphformation/spec.py:94-104 | a declared directory validates iff location and permissions are not `None` |
| `Spec.FileConforms` | src/graphformation/spec.py:107-123 | a declared file validates iff parent and filename are not `None` and text or source is a non-empty value |
| `Spec.DummyRefResourceConforms` | src/graphformation/spec.py:126-137 | a declared dummy ref resource always validates |
| `Spec.Definition` | src/graphformation/spec.py:86-91 | defining succeeds iff the type is known, the id is not reserved and not yet in the graph; the errors come in that order; the result carries the given id, type, properties and the type's schema |
| `Spec.DefinitionKeepsConsistent` | src/graphformation/spec.py:77-83 | adding a defined resource keeps the graph keyed by id, free of the reserved id, and in insertion order |
| `Spec.ReprKeyedById` | src/graphformation/spec.py:152-154 | the JSON graph has the registry's ids, each entry with its own id and no status |
| `Spec.ReprOfAll` | src/graphformation/spec.py:152-156 | the dictionary built by the loop over the whole registry is the JSON graph |
| `Spec.Checks` | src/graphformation/spec.py:153-155 | one schema check per resource, in insertion order |
| `Spec.FirstFailure` | src/graphformation/spec.py:153-155 | no error iff every check passes; otherwise the error of the first failing check |
| `Spec.FirstFailureCoversGraph` | src/graphformation/spec.py:148-156 | `graph_repr` raises nothing iff every resource in the registry validates against its schema |
| `Spec.Run` | src/graphformation/spec.py:197-201 | running a program keeps the registry consistent, appends the declared ids in order and never changes earlier resources |
| `Spec.DesiredIff` | src/graphformation/spec.py:201-202 | a program yields a graph iff all its declarations succeed and every declared resource validates |
| `Spec.DesiredDeclares` | src/graphformation/spec.py:201-202 | the graph a program yields holds exactly the ids it declares, each under its own id |
| `Spec.RepeatedIdFails` | src/graphformation/spec.py:78-82 | declaring the same id twice makes the program raise |
| `Spec.RedeclaredFails` | src/graphformation/spec.py:78-82 | declaring an id already in the graph makes the program raise |
| `Spec.RunErrors` | src/graphformation/spec.py:86-91 | declarations raise only for a reserved or duplicate id: the resource types they use are all known |
| `Spec.Registry.constructor` | src/graphformation/spec.py:16 | the graph starts empty |
| `Spec.Registry.AddToGraph` | src/graphformation/spec.py:77-83 | raises a duplicate-id error iff the id is already in the graph, leaving it unchanged; otherwise adds the resource at the end |
| `Spec.Registry.Define` | src/graphformation/spec.py:86-91 | returns `Definition` and adds the resource exactly when it succeeds |
| `Spec.Registry.Directory` | src/graphformation/spec.py:94-104 | defines a `directory` with location and permissions (default `700`) |
| `Spec.Registry.File` | src/graphformation/spec.py:107-123 | defines a `file` with parent, filename, text, source and permissions (default `600`) |
| `Spec.Registry.DummyRefResource` | src/graphformation/spec.py:126-137 | defines a `dummy_ref_resource` with its two optional parents |
| `Spec.Registry.Declare` | src/graphformation/spec.py:201 | runs one declaration of a program |
| `Spec.Registry.RunProgram` | src/graphformation/spec.py:201 | runs the declarations in order, stopping at the first that raises: the registry ends as `Run` says |
| `Spec.Registry.GraphRepr` | src/graphformation/spec.py:148-156 | raises the first failing check in insertion order; otherwise returns the JSON form of every resource under its id |
| `Spec.Registry.BuildDesired` | src/graphformation/spec.py:201-202 | from an empty graph, running the program and `graph_repr` yields `Desired` |
| `Spec.Registry.ExecuteChangeProgram` | src/graphformation/spec.py:190-206 | the saved graph is restored on every path; a program or validation error is returned as is; otherwise the result fails iff `execute` fails on the old state and the program's graph, and succeeds as `execute` does |

## Left out

- The `toposort` package is not part of this model. Its result is modelled by its documented contract: Kahn layering, self-dependencies ignored, referenced but undeclared ids added without dependencies, and an error on a cycle. The order of ids inside a layer, and the layer order `toposort` would choose among several valid ones, are not modelled (the layering computed is the unique "ready first" one).
- File I/O is left out: `_read_state`, `spec.execute(filename)` (which also writes `json.dumps(graph_repr)` of the function object, spec.py:186), `print_graph` and `ScriptCtx.dump`'s `print`. The recorded state is a parameter.
- The `deleted`/`created`/`modified` counters and their prints in `execute` are left out (`Executor.ActionCount` states the counts).
- Text.PyRepr: an embedded resource's properties print in sorted key order, not in the insertion order Python keeps, because the model's property map has no order. The `\x`/`\u` escapes `repr` uses for non-ASCII characters that are not printable are not modelled.
- Exact `json.dumps` escaping and spacing are left out. The model emits its own sorted-key JSON text for the dummy ref resource commands.
- Exception messages are not modelled, only the kind of error and the names it carries.
- `Property.mutable` is carried by the schemas but never read, as in the source.
- Thread safety of `execute_change_program` is left out: the model is sequential.
- Python dict aliasing is not modelled. `update_status` mutates the resource dictionaries of the graph passed to `execute`; the model writes the marked resources back into the returned map. The statuses written into the recorded state's dictionaries by deletions are not returned.
- When a handler raises, the operation it already opened stays in the Python context. The model returns the error only and says nothing of the context after a failure.
- Spec.Registry.File (and the other declaration methods): a Python program `f` is modelled as a sequence of declarations. Property values are `None`, strings, references and resources. Other Python values (numbers, lists, nested dicts) are not modelled.
- Spec.RefIsMarker: a `Ref` holds only the id of the resource it points to, which is all its `json_repr` reads.
- Executor.Execute: the order inside a layer is stated relationally, through ghost orders, instead of Python's set iteration order.
