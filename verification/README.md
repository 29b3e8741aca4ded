# Concourse, verified

A Dafny model of the hard parts of Concourse's `atc`: how a pipeline's YAML becomes a
step tree, how that tree is validated and compiled into an execution plan, how builds are
scheduled under concurrency limits, how a resource's versions are ordered and paged
through, and how build events and database notifications reach those who wait for them.
`dafny verify dfyconfig.toml` checks everything.

Where the source changes state the model does too: classes with the source's fields, and
methods proved equal to a function of the old state. What the source promises is then
proved about that function, for all inputs, or about every run of a state machine whose
steps are the source's transactions or channel operations.

| module | about |
|---|---|
| `Steps`, `StepFields`, `StepJson`, `StepReading` | the step tree; its fields as decoded; reading and writing it as layered JSON objects; what a step that was read holds |
| `Validator`, `StepFaults`, `Planner`, `Plans`, `ValidatedPlans` | the stateful validator and compiler, which faults the first records, and that it rules out the errors of the second |
| `PlanMeaning`, `Execution` | that a plan means what its step means, under every interpretation and under the engine's |
| `PlanFacts`, `Images`, `TypeSlices` | ids, versions and run counts of plans; image plans of custom types |
| `CycleCheck`, `VarSources` | the graph checks on configurations |
| `References`, `VarTrees`, `Flattening`, `InstanceVars` | variable references, nested variables, flattening them over shared slices, and the query-parameter encoding |
| `EventStream` | the build event reader against a concurrent writer |
| `JobTables`, `SerialGroups`, `JobPointers`, `JobDatabase` | builds and jobs: scheduling limits and cached pointers |
| `VersionOrder`, `Pagination` | check_order, and the keyset pagination that relies on it |
| `Listener` | turn-taking on the LISTEN/NOTIFY connection |
| `Wrappers` | options, results, and facts about sequences and sets |

How things outside the model appear in it:

- Glob matching, identifier and duration syntax, the escaping of single characters,
  encoding of leaf values and sorting are function-valued parameters. Where a proof needs
  something of them it is named by a predicate (`Lawful`, `LawfulCodec`, `Permutes`).
- Each committed database transaction is one atomic step; a failing one leaves the tables
  as they were. Digests of versions are taken to be injective.
- Clocks, notifications and failures of the database are free choices in a run.
- In `StepJson` a leaf step is the map of its decoded fields. A field is decoded by the
  source's rules where those lose something (task configs and container limits) and by a
  codec that reads back what it wrote everywhere else. Printing works on a copy of the
  unknown fields, which the source's map assignment writes into.
- How far `append` grows a slice is a parameter; it is only taken to grow.

Places where the code does less than one might expect, and what holds instead:

- `OrderByDependency` makes one pass over the pending sources for each source it adds, so
  a chain listed dependents first is rejected (`VarSources.OnePassIsNotEnough`);
  `VarSources.SucceedsByRounds` says on exactly which inputs it succeeds.
- `validateCycle` marks jobs by name, so repeated names can hide a cycle
  (`CycleCheck.RepeatedNamesHideCycle`); `CycleCheck.ValidateCycle` says exactly what it
  finds, which is every cycle if names are distinct.
- `flatten` appends to slices that siblings share, so one reference can overwrite another
  (`Flattening.SiblingsOverwrite`); `Flattening.FlattenExact` says exactly on which trees no
  order of the maps does that.
- A task config's unknown fields are read but not written, and a memory limit written as a
  string can be a number no float holds, so a step need not survive printing
  (`StepJson.TypoIsLost`, `StepJson.LargeLimitIsLost`); `StepJson.Fixpoint` says exactly
  when it does.
- A rerun that finishes before any other build of its job has completed makes
  `latest_completed_build_id` refer to row 0, and the transaction fails
  (`JobPointers.FinishRolledBack`, `JobPointers.RerunFirst`).
- All tokens on the listener's channel are the same empty struct, so the loop cannot tell
  a request for the turn from its return; that it never needs to is part of the turn
  invariant.

## Model

| member | source | states |
|---|---|---|
| `EventStream.StreamIsPrefix` | atc/db/build_event_source.go:127-245 | At every moment of every interleaving of writer, consumer and reader, what the consumer has taken is an initial segment of the table's events with id at least `from`: in order, no gap, no repeat |
| `EventStream.EndMeansEverything` | atc/db/build_event_source.go:151-235 | If the stream ends with the end-of-stream error, the build is completed, everything from `from` on has been sent including the final status event, and nothing changes in any continuation of the run |
| `EventStream.RunKeepsInv` | atc/db/build_event_source.go:127-245 | The invariant behind both: sent events are the wanted ones up to the cursor, a fetched batch is the next stretch, and `completed` read before the query means the query saw all |
| `EventStream.WriteKeepsInv` | atc/db/build.go:2027-2046 | Every writer transaction (saving an event, a burnt id, refreshing the sequence, finishing) keeps the invariant wherever the reader is in its loop |
| `EventStream.WriteKeepsDb` | atc/db/build.go:648-679 | Saving an event adds exactly that event with an id above all others, finishing adds the final one together with `completed`, and nothing else touches the events |
| `EventStream.ReadKeepsInv` | atc/db/build_event_source.go:136-243 | Every step of the reader, failures included, keeps the invariant |
| `EventStream.WaitingMeansCaughtUp` | atc/db/build_event_source.go:171-241 | Whenever the reader waits, what it has sent is exactly the events with id at least `from` that were in the table at its last query, whether the build has completed or not |
| `EventStream.RunKeepsQuery` | atc/db/build_event_source.go:171-218 | Between a query and the end of its batch, what was sent and what is left of the batch are the wanted events the query found, all of them unless the batch is full |
| `EventStream.WantedExact` | atc/db/build_event_source.go:173-178 | The wanted events are those of the table with id at least `from`, in the table's order |
| `EventStream.EndIsStable` | atc/db/build_event_source.go:127-245 | Once the reader has ended on a completed build nothing is sent or written any more |
| `EventStream.BuildEventSource.constructor` | atc/db/build_event_source.go:26-84 | A source over a build's table is the start of a run, with the cursor before `from` |
| `EventStream.BuildEventSource.BeginBatch` | atc/db/build_event_source.go:136-159 | Checks for Close, begins, reads `completed`; a stream that was closed ends with that error, a failing flag with the database's, and a failing begin leaves the channel open |
| `EventStream.BuildEventSource.FetchBatch` | atc/db/build_event_source.go:136-183 | On success the batch is the next events above the cursor in the table: the first 2000, or all of them; a failing query ends the stream with the database's error |
| `EventStream.BuildEventSource.SendBatch` | atc/db/build_event_source.go:185-218 | Sends a batch event by event with anything happening in between; on success the cursor is at the last one sent, otherwise the reader has ended |
| `EventStream.BuildEventSource.SendOne` | atc/db/build_event_source.go:187-217 | Sends exactly the next event and moves the cursor to it, or ends the reader with nothing sent |
| `EventStream.BuildEventSource.FinishBatch` | atc/db/build_event_source.go:220-243 | The stream ends with end-of-stream if and only if the commit succeeded, the batch was not full and `completed` was read; a failed commit ends it without an error, and otherwise it waits and goes round again or is closed |
| `EventStream.BuildEventSource.CollectEvents` | atc/db/build_event_source.go:127-245 | Every execution of the loop, whatever the others do meanwhile, is a run of the machine, so what it sent is a prefix and everything if it ends with end-of-stream |
| `CycleCheck.ValidateCycle` | atc/configvalidate/validate.go:555-565 | An error always names a job on a cycle of the `passed` graph; for any list of jobs there is an error if and only if, for some root, a cycle can be reached from it in the graph where the root's name stands for the root and every other name for the first job that has it |
| `CycleCheck.DistinctMissesNothing` | atc/configvalidate/validate.go:518-565 | With distinct job names that is the case if and only if the `passed` graph has a cycle, self-loops included |
| `CycleCheck.RepeatedNamesHideCycle` | atc/configvalidate/validate.go:518-565 | Jobs a, b, a passed b, b passed a, in that order: the last two form a cycle, and no root sees it |
| `CycleCheck.Traversal.DetectCycle` | atc/configvalidate/validate.go:518-553 | Depth-first visit of one job: an error names a job on a cycle, success finishes the job with everything it reaches, and the set of unvisited names shrinks at each nested call |
| `CycleCheck.Traversal.VisitInputs` | atc/configvalidate/validate.go:529-544 | All gets of the job anywhere in its plan are followed; success means every job any of them names is finished |
| `CycleCheck.Traversal.VisitPassed` | atc/configvalidate/validate.go:530-543 | The same for the patterns of one get |
| `CycleCheck.Traversal.VisitMatches` | atc/configvalidate/validate.go:532-540 | The same for the jobs one pattern matches |
| `CycleCheck.Traversal.VisitMatch` | atc/configvalidate/validate.go:533-539 | The same for one of them; a name still on the stack closes a cycle |
| `CycleCheck.OrderExcludesLasso` | atc/configvalidate/validate.go:518-565 | A list in which every name comes after all it leads to admits no path from its members that meets itself, so finishing jobs in order is a proof of absence |
| `CycleCheck.PathClosesCycle` | atc/configvalidate/validate.go:519-521 | Meeting a job that is on the stack exhibits a cycle through it |
| `CycleCheck.FinishKeepsOrder` | atc/configvalidate/validate.go:550-551 | Marking a job visited keeps the finished jobs in such an order |
| `VarSources.OrderByDependency` | atc/config.go:102-178 | The loops compute the ordering function about which the next rows speak, errors with the pending names included |
| `VarSources.DepsAre` | atc/config.go:115-121 | A source depends on exactly what stands in front of a colon in a variable of its config |
| `VarSources.SourceIs` | atc/config.go:115-121 | That is the text up to the first colon, if there is one |
| `VarSources.SweepPending` | atc/config.go:148-167 | One pass over the pending sources adds each that is ready at its turn and keeps the others in order |
| `VarSources.OrderSound` | atc/config.go:102-178 | A result is a permutation of the input with every dependency strictly earlier |
| `VarSources.OrderedStays` | atc/config.go:102-178 | An input already in order is returned unchanged |
| `VarSources.UnmetIsError` | atc/config.go:170-176 | A dependency on a name that is not listed is an error |
| `VarSources.CycleIsError` | atc/config.go:170-176 | A cycle among the sources is an error, whatever their order |
| `VarSources.OnePassIsNotEnough` | atc/config.go:148-167 | An error does not mean there is no order: a chain of three listed dependents first is rejected although its reverse is in order |
| `VarSources.SucceedsByRounds` | atc/config.go:102-178 | It succeeds if and only if each source can be given a round, its own place or a later place that is its own round, so that each of its dependencies has an earlier round, or the same late round as its opener or a source listed before |
| `References.ParseReference` | vars/variables.go:29-60 | The loop computes the parse function, its two errors included |
| `References.FindUnquoted` | vars/variables.go:62-75 | Finds the first occurrence outside quotes, or none |
| `References.ReadPathSegment` | vars/variables.go:77-90 | Splits at the first unquoted dot and cleans the segment |
| `References.String` | vars/variables.go:92-105 | The loop computes the print function |
| `References.FindIsFirst` | vars/variables.go:62-75 | The position found is the least that holds the character with an even number of quotes before it, and none is found if and only if there is none |
| `References.ParseText` | vars/variables.go:29-60 | Pieces with closed quotations and no free separator, put together with dots and behind an optional source and colon, are read as that source and these pieces, cleaned; a quote in the source or a piece that is empty then is refused |
| `References.CleanIs` | vars/variables.go:84-89 | Cleaning drops the space around a piece and all its quotes, and nothing else |
| `References.RemoveQuotesRune` | vars/variables.go:88 | Removing quotes goes rune by rune: a quote is dropped and any other rune is kept in its place |
| `References.ParsePrint` | vars/variables.go:29-112 | What printing and parsing does to any reference without quotes in it: each segment is reread on its own |
| `References.RoundTrip` | vars/variables.go:29-112 | Parsing the printed form returns the reference if and only if it is canonical, a condition on its source and each segment alone |
| `References.PlainIsCanonical` | vars/variables.go:107-112 | Non-empty segments of printable characters without quotes or backslashes are canonical |
| `References.PrintInjective` | vars/variables.go:92-112 | Canonical references with the same text are equal |
| `References.ParseShape` | vars/variables.go:29-60 | What parsing accepts has non-empty segments without quotes and a source without colon or quote |
| `References.ParsePrintParse` | vars/variables.go:29-112 | For every accepted text of printable characters, quotes and padding included, parsing what it prints as gives the same reference |
| `Flattening.Flatten` | vars/static_vars.go:65-71 | The loop computes the flattened pairs, read when all has been written, for every order of the maps and every growth of slices |
| `Flattening.Heap.FlattenValue` | vars/static_vars.go:73-98 | The same for one value, writing into the backing arrays that references share |
| `Flattening.AppendHeld` | vars/static_vars.go:79 | Appending to a slice made by appends writes into its array exactly if its length is below the capacity for that length, and else leaves all arrays alone and allocates one |
| `Flattening.FlattenExact` | vars/static_vars.go:65-98 | The pairs are exactly the leaves of the tree, each once, for every order the maps may be walked in, if and only if no map is crowded: reached by n fields that have spare capacity, with two keys and a leaf within that capacity |
| `Flattening.SpacedEnumerates` | vars/static_vars.go:65-98 | Without a crowded map the pairs are exactly the leaves, whatever the order |
| `Flattening.LosingOrder` | vars/static_vars.go:73-80 | With one, there is an order in which a leaf is in none of the pairs |
| `Flattening.SiblingsOverwrite` | vars/static_vars.go:79 | With capacities that double, the tree a.b.c.d.e = 1, a.b.c.d.f = 2, which has no empty map, loses a leaf in some order |
| `Flattening.SomeLeafIsLost` | vars/static_vars.go:65-98 | There are as many pairs as leaves, so pairs that are not exactly the leaves lack one |
| `VarTrees.ExpandPairs` | vars/static_vars.go:107-131 | The loop of upserts computes the expansion |
| `VarTrees.UpsertExactly` | vars/static_vars.go:115-131 | Whatever is there, an upsert sets its own leaf, drops the leaves on the way to it and below it, and keeps all others |
| `VarTrees.UpsertAddsLeaf` | vars/static_vars.go:115-131 | Upserting at a path that no present leaf blocks adds that leaf and keeps all others |
| `VarTrees.ExpandOnly` | vars/static_vars.go:107-131 | Every leaf of an expansion is the value of a pair at that pair's path |
| `VarTrees.ConstructFromFront` | vars/static_vars.go:133-138 | Building the nested value from the last field inwards is building it from the first field outwards |
| `VarTrees.ExpandUndoesFlatten` | vars/static_vars.go:65-138 | Expanding any ordering of a tree's leaves gives back the tree less its empty nested maps |
| `VarTrees.VarsDetermine` | vars/static_vars.go:65-138 | Trees without empty nested maps and with the same leaves are equal |
| `InstanceVars.QueryParams` | atc/pipeline.go:98-108 | Each flattened pair has its parameter, named by its printed reference under `vars`, and each parameter holds the value of such a pair; without a crowded map the pairs are the leaves |
| `InstanceVars.ParamKeyParses` | atc/pipeline.go:98-138 | Such a key is recognised and parses back to the path of its pair |
| `InstanceVars.InstanceVarsFromQueryParams` | atc/pipeline.go:110-138 | Decodes the parameters that are `vars` or start with `vars.`, in any order, and fails exactly if one of them does not decode |
| `InstanceVars.QueryRoundTrip` | atc/pipeline.go:98-138 | If keys survive printing and parsing, reading back the query parameters of instance vars gives them less their empty nested maps if and only if the flattened pairs are the leaves, which holds in every order if and only if no map is crowded; without a crowded map it gives them exactly if and only if no nested map is empty |
| `InstanceVars.LostStaysLost` | atc/pipeline.go:98-138 | A leaf in no flattened pair is not in what is read back |
| `Images.FetchImagePlan` | atc/config.go:343-403 | The check plan is there unless a version is pinned, and the get takes its version from exactly one place |
| `Images.ImageSize` | atc/config.go:304-403 | A chain of d custom types gives 2^(d+1) - 2 image plans, and the base type is the name at its end |
| `Images.ImageOnWay` | atc/config.go:304-403 | Follow an image down, each time into its check or its get: after k turns there is a plan exactly if there are k custom types above the name, it is named by the turns, and it checks or fetches the k-th type with that type's own source, params, interval and privileges and the nearest tags |
| `Images.ImageEnds` | atc/config.go:304-341 | An image has the base type its chain of types ends in, the privileges of the first, and plans exactly if there is one |
| `Images.LookupFirst` | atc/config.go:279-287 | Looking up a name finds the first type that has it |
| `Images.LookupWithout` | atc/config.go:279-302 | Looking a name up without another one's types is looking it up in the whole list |
| `TypeSlices.Filter` | atc/db/resource_type.go:76-88 | Terminates and returns exactly the chain of ancestors, if the types have no cycle beyond self-loops |
| `TypeSlices.ChainExcludesCycle` | atc/db/resource_type.go:76-88 | If some ancestor chain ends, there is no such cycle, so the requirement of Filter is what termination needs |
| `TypeSlices.DeserializeTypes` | atc/db/resource_type.go:90-119 | The loop computes the deserialised list, defaults of the parent or base type merged in |
| `TypeSlices.DeserializedSource` | atc/db/resource_type.go:90-119 | Each type keeps all it has; in its source its own keys win, and the other keys are those of its parent type's defaults or else its base type's |
| `TypeSlices.ParentFirst` | atc/db/resource_type.go:65-74 | The parent is the first type of the pipeline with the name, other than the type itself |
| `TypeSlices.SlicePlansSameImage` | atc/db/resource_type.go:65-119 | Planning an image from the ancestor chain equals planning it from all the types, if and only if the thing planned for is not a type that overrides its own name |
| `TypeSlices.AgreeSameImage` | atc/config.go:304-403 | Lists that look up the same along the chain give the same image plan |
| `Planner.Create` | atc/builds/planner.go:20-60 | The stateful visitor refines the environment-passing translation: same plan or error, and the counter where the translation leaves it |
| `PlanMeaning.PlanMeansStep` | atc/builds/planner.go:62-469 | Under every interpretation of base plans and of the ways of composing them, a step and the plan it compiles to mean the same: same base plans with the same fields, composed in the same order by the same hooks, limits, durations, variables and attempts |
| `PlanMeaning.IdsDoNotMatter` | atc/config.go:304-403 | The image of a type is the same under any id, up to ids |
| `Execution.PlanRunsStep` | atc/engine/builder.go:180-283 | Under the engine's interpretation: however base steps end and whenever the build is aborted, the plan runs the base steps the step asks for, in the same order and contexts, and ends the same way |
| `Execution.HookFires` | atc/exec/on_error.go:31-50 | In a compiled plan the step of a hook runs first and the hook after it exactly if it fires: on success, on failure, on abort, on an error that is no abort, or always; and how the two end together |
| `Execution.DoStopsAtFailure` | atc/engine/builder.go:204-215 | A do, built as nested success hooks, runs its steps up to the first that does not succeed and ends as that one |
| `Execution.RetryStopsAtSuccess` | atc/exec/retry_step.go:22-44 | Attempts run up to the first that succeeds and end as the last that ran, unless the build is aborted |
| `Execution.ModifiersEnd` | atc/exec/timeout_step.go:32-47 | A try succeeds unless aborted, and a step that runs out of its time has failed without error |
| `Planner.PlanFactory.NewPlan` | atc/plan_factory.go:23-75 | The plan carries the next number in hexadecimal |
| `Planner.OwnSourceWins` | atc/resource_types.go:42-60 | A resource's own keys win, and the other keys are those of the defaults of its custom type or else of its base type |
| `Planner.FindVersionFirst` | atc/builds/planner.go:125-136 | The version of a get is that of the first input of its name |
| `Planner.PlanVisitor.Visit` | atc/builds/planner.go:62-469 | Every visit leaves in `plan` what the translation gives, reports its error, and restores `tags` on every way out |
| `Planner.PlanVisitor.VisitTask` | atc/builds/planner.go:71-92 | As Visit, for tasks |
| `Planner.PlanVisitor.VisitRun` | atc/builds/planner.go:94-113 | As Visit, for runs, unknown prototypes included |
| `Planner.PlanVisitor.VisitGet` | atc/builds/planner.go:115-157 | As Visit, for gets, unknown resources and missing versions included |
| `Planner.PlanVisitor.VisitPut` | atc/builds/planner.go:159-216 | As Visit, for puts: the put, and unless told otherwise a get on success that takes its version from it |
| `Planner.PlanVisitor.VisitDo` | atc/builds/planner.go:218-239 | As Visit, for do; the tags are put back also when a step fails |
| `Planner.PlanVisitor.VisitInParallel` | atc/builds/planner.go:241-266 | As Visit, for in_parallel; the tags are put back also when a step fails |
| `Planner.PlanVisitor.VisitAcross` | atc/builds/planner.go:268-292 | As Visit, for across, whose template is the inner plan |
| `Planner.PlanVisitor.VisitTry` | atc/builds/planner.go:318-329 | As Visit, for try |
| `Planner.PlanVisitor.VisitTimeout` | atc/builds/planner.go:331-343 | As Visit, for timeout |
| `Planner.PlanVisitor.VisitRetry` | atc/builds/planner.go:345-360 | As Visit, for attempts: the inner step planned afresh for each attempt |
| `Planner.PlanVisitor.VisitHook` | atc/builds/planner.go:362-469 | As Visit, for the five hooks: first the step, then the hook |
| `PlanFacts.PlanIds` | atc/builds/planner.go:62-469 | All plans of a tree, image plans and across templates included, have pairwise different ids, all made from numbers the counter went through |
| `PlanFacts.ImageIds` | atc/config.go:304-403 | All image plans under one id have pairwise different ids that extend it |
| `PlanFacts.HexBack` | atc/plan_factory.go:72 | Read in base 16, the id of a plan is its number, so different numbers print differently |
| `PlanFacts.PlanVersions` | atc/builds/planner.go:115-216 | Every get has exactly one of a version and a plan to take it from, and that plan is the put it follows on success or the check beside it |
| `PlanFacts.ImageVersions` | atc/config.go:343-403 | The same for all image plans |
| `PlanFacts.PlanRuns` | atc/builds/planner.go:62-469 | Every leaf is planned exactly as often as the product of its enclosing attempts, an across template counting once, and with its own tags or else those of the nearest tagged do or in_parallel or else the job's |
| `PlanFacts.WantsScale` | atc/builds/planner.go:345-360 | Attempts multiply: nested in n attempts a step is wanted n times as often |
| `Validator.StepValidator.constructor` | atc/step_validator.go:43-50 | A new validator has recorded nothing and has one empty scope |
| `Validator.AlwaysNil` | atc/step_validator.go:52-439 | No visit ever returns an error, early returns included: all findings are recorded |
| `Validator.StepValidator.Validate` | atc/step_validator.go:52-62 | Returns what the visits return; without an error it appends exactly the errors and warnings the pure check gives, leaves the context as it was and the scopes as the check says |
| `Validator.StepValidator.Visit` | atc/step_validator.go:64-439 | The same for every kind of step |
| `Validator.StepValidator.VisitTask` | atc/step_validator.go:64-123 | The same for tasks |
| `Validator.StepValidator.VisitGet` | atc/step_validator.go:125-191 | The same for gets, repeated names and `passed` constraints included |
| `Validator.StepValidator.VisitPut` | atc/step_validator.go:193-213 | The same for puts |
| `Validator.StepValidator.VisitRun` | atc/step_validator.go:215-236 | The same for runs |
| `Validator.StepValidator.VisitSetPipeline` | atc/step_validator.go:238-255 | The same for set_pipeline |
| `Validator.StepValidator.VisitLoadVar` | atc/step_validator.go:257-276 | The same for load_var, which declares a local variable |
| `Validator.StepValidator.VisitSteps` | atc/step_validator.go:285-319 | The same for the steps of do and in_parallel, whose early return would leave a context pushed |
| `Validator.StepValidator.VisitAcross` | atc/step_validator.go:321-346 | The same for across; the scope it pushes is popped |
| `Validator.StepValidator.VisitTimeout` | atc/step_validator.go:348-363 | The same for timeout |
| `Validator.StepValidator.VisitRetry` | atc/step_validator.go:365-379 | The same for attempts |
| `Validator.StepValidator.VisitHook` | atc/step_validator.go:381-439 | The same for the five hooks |
| `Validator.Check` | atc/step_validator.go:64-439 | The stack of scopes below the innermost is left as it was, at its old height |
| `StepFaults.FaultsRecorded` | atc/step_validator.go:52-501 | A message is recorded, as an error or as a warning and in its context, exactly if the step has its fault: unknown fields, invalid names, task config and file, repeated gets, unknown resources and prototypes, `passed` patterns without a job or with a job that ignores the resource, missing files, missing, repeated and shadowing vars, limits, attempts and durations |
| `StepFaults.PassedErrorsNoted` | atc/step_validator.go:150-186 | An error for each pattern that no job matches and for each job a pattern matches that neither gets nor puts the resource, and no other |
| `StepFaults.CheckSeen` | atc/step_validator.go:144-148 | A step leaves behind the get names of all its base steps, and as local vars those it loads outside any across |
| `Steps.LeavesOccur` | atc/step_recursor.go:10-174 | The recursor comes to a base step exactly if it occurs in the tree |
| `Steps.JobLeaves` | atc/job_config.go:40-81 | The base steps of a job are those of its plan and of its five hooks |
| `ValidatedPlans.PlanningSucceeds` | atc/builds/planner.go:94-216 | The planner succeeds if and only if every leaf's resource, prototype and version are supplied and no attempts are negative |
| `ValidatedPlans.ValidationClean` | atc/step_validator.go:52-439 | No recorded error means known resources and prototypes, positive attempts, and get names not seen before |
| `ValidatedPlans.PlannedRetriesRun` | atc/builds/planner.go:345-360 | With positive attempts, no retry in the plan is empty |
| `ValidatedPlans.ValidJobCompiles` | atc/configvalidate/validate.go:406-414 | A job that validates without error compiles whenever the names it was validated against and versions for its inputs are supplied, with no empty retry, and its inputs have distinct names |
| `ValidatedPlans.ValidateThenPlan` | atc/configvalidate/validate.go:406-414 | The validator followed by the planner: if the first records nothing, the second returns a plan |
| `StepJson.UnmarshalJSON` | atc/steps.go:47-108 | The loop over the precedence table computes the parse function, its three errors included |
| `StepReading.ReadExactly` | atc/steps.go:47-108 | A value is read as a step exactly if the step is what the value says: modifiers by precedence around one core step, each holding the values of its fields or their zero values, nested steps in order, and as unknown fields all that belong to no layer |
| `StepReading.BranchesRead` | atc/steps.go:436-465 | A list of branches has limit 0 and no fail_fast; an object has the limit, flag and steps it gives or else 0, false and none |
| `StepReading.ListOrObject` | atc/steps.go:436-465 | Reading a list as in_parallel is reading the object with just these steps |
| `StepReading.ConfigDecodes` | atc/task.go:72-96 | A task config is read as its known fields, its limits, and as unknown all others |
| `StepJson.MarshalJSON` | atc/steps.go:113-136 | The unwrapping loop computes the print function |
| `StepJson.DeleteKnownFields` | atc/steps.go:139-156 | Removes exactly the fields of the step type |
| `StepJson.Fixpoint` | atc/steps.go:47-156 | Printing a step that was read and reading it again gives the same step if and only if no task config anywhere in it has unknown fields and every container limit in it survives floating point |
| `StepJson.Reprint` | atc/steps.go:47-156 | In every case it gives the step with the unknown fields of task configs gone and the limits as floating point keeps them, nested steps and the steps' own unknown fields included |
| `StepJson.TypoIsLost` | atc/task.go:41-44 | A task config with `ouputs` is read, and what it prints as reads as a different step |
| `StepJson.LargeLimitIsLost` | atc/container_limits.go:29-47 | A memory limit given as a string whose number no float equals is read, printed and read as a different one |
| `StepFields.ConfigBack` | atc/task.go:72-96 | A task config reads back without its unknown fields and with its limits as floating point keeps them |
| `StepFields.LimitsBack` | atc/container_limits.go:13-47 | Limits are written as numbers and read back through floating point |
| `StepFields.ValueBack` | atc/steps.go:139-156 | Every field of a step reads back as what printing keeps of it |
| `StepJson.KeptIsExact` | atc/task.go:41-44 | Printing keeps all of a step, at any depth, if and only if no task config in it has unknown fields and no limit in it is changed by floating point |
| `StepJson.ParsedShape` | atc/steps.go:47-108 | What is read is a strictly increasing chain of modifiers around one core step; each field goes to exactly one layer or, unchanged, to the unknown fields, which hold no key tried before the core step |
| `StepJson.Refused` | atc/steps.go:95-101 | No step is configured if and only if no key of a step type is present; no core step is declared only if no core key is |
| `StepJson.NamesApart` | atc/steps.go:223-292 | No field of a step type is the key of one tried earlier, and a modifier shares no field with a later type |
| `StepJson.Reread` | atc/steps.go:47-136 | Reading the printed layers together with left-over fields finds the same layers, as far as printing keeps them, and the same left-over fields |
| `StepJson.AcrossVarsBack` | atc/steps.go:467-484 | Across variables and their limits read back as written, through strict decoding |
| `StepJson.InParallelBack` | atc/steps.go:438-465 | An in_parallel body reads back as written |
| `JobTables.RunKeepsSound` | atc/db/job.go:903-957 | In every reachable state reruns point at builds of the same job that are not reruns, and `completed` agrees with the status |
| `SerialGroups.SerialGroupLimit` | atc/db/job.go:617-687 | At every moment of every run, a serial group whose members by configuration all allow at most m builds in flight has at most m builds that are scheduled and not completed |
| `SerialGroups.MutualExclusion` | atc/db/job.go:1004-1037 | In every run, two builds that are scheduled and not completed, of jobs of one pipeline that share a serial group by their configuration and are serial or list their groups, are the same build, whatever other jobs are in the group |
| `SerialGroups.ListedGroupExcludes` | atc/db/job.go:1004-1037 | So are two such builds of jobs that list a common serial group |
| `SerialGroups.RowsMeanLimit` | atc/db/team.go:1762-1776 | The rows of a job are the groups it lists, or else its own name if it is serial or limited; the limit is one for serial jobs and those with groups; there are rows exactly if there is a limit |
| `SerialGroups.StepKeepsLimit` | atc/db/job.go:1004-1064 | No step takes a group over its limit |
| `SerialGroups.ScheduledExactly` | atc/db/job.go:617-687 | Scheduling schedules its build exactly if the configuration allows it: no limit, or fewer builds of jobs sharing a group in flight than the limit, and it is pending with inputs determined, not paused, and first by rerun origin, then id, among such builds |
| `SerialGroups.ScheduledInTurn` | atc/db/job.go:1125-1154 | A build becomes scheduled by no other step, and only when allowed |
| `JobPointers.PointersAlwaysAgree` | atc/db/build.go:2161-2244 | In every reachable state `next` is the least pending or started build of the job that is no rerun or a rerun of L, and `latest` the greatest completed rerun of L or else L, where L is the greatest completed build that is no rerun; each is none exactly if there is no such build |
| `JobPointers.RecomputedNext` | atc/db/build.go:2179-2199 | The query for the next build gives that build |
| `JobPointers.RecomputedLatest` | atc/db/build.go:2201-2244 | The query for the latest completed build gives that build |
| `JobPointers.TransitionExactly` | atc/db/build.go:2246-2293 | A finish that goes through makes the build the transition exactly if no build but reruns had completed, or it is above the latest completed build, ends otherwise than that, and is no rerun or a rerun of just that build |
| `JobPointers.FinishRolledBack` | atc/db/build.go:2201-2244 | Finishing fails if and only if the build is a rerun and no build of the job that is not a rerun has completed |
| `JobPointers.RerunFirst` | atc/db/build.go:2201-2244 | Such a run: a build and its rerun are created, and the rerun cannot finish with any status |
| `JobPointers.TransitionIsBlockStart` | atc/db/build.go:2246-2293 | Without reruns and with each build finishing once, in any order, the transition build is the first of the block of equal statuses that the finishes with record ids end in |
| `JobPointers.LatestIsLastRecord` | atc/db/build.go:2161-2177 | In such runs the latest completed build is the last finish with a record id |
| `JobDatabase.Database.ScheduleBuild` | atc/db/job.go:617-687 | A step of the run; true exactly if the caller's copy was scheduled, or nothing was paused and the configuration allows it, and then the row is scheduled |
| `JobDatabase.Database.IsMaxInFlightReached` | atc/db/job.go:1004-1037 | Reached exactly when there is no room for that build |
| `JobDatabase.Database.GetRunningBuildsBySerialGroup` | atc/db/job.go:1094-1123 | Exactly the scheduled, uncompleted builds of jobs in any of the groups |
| `JobDatabase.Database.GetNextPendingBuildBySerialGroup` | atc/db/job.go:1125-1154 | The first eligible pending build, or none if there is none |
| `JobDatabase.Database.EnsurePendingBuildExists` | atc/db/job.go:748-806 | A step of the run after which the job has a pending build, added only if there was none |
| `JobDatabase.Database.CreateBuild` | atc/db/job.go:838-886 | A step of the run; adds one pending build |
| `JobDatabase.Database.TryRerunBuild` | atc/db/job.go:903-957 | A step of the run; adds one pending rerun, and a rerun of a rerun reruns the original |
| `JobDatabase.Database.Start` | atc/db/build.go:602-646 | A step of the run; sets exactly builds that are pending and not aborted to started |
| `JobDatabase.Database.MarkAsAborted` | atc/db/build.go:923-953 | A step of the run that sets the flag and nothing else |
| `JobDatabase.Database.Finish` | atc/db/build.go:648-860 | A step of the run; sets status and completed, or fails with the tables untouched, exactly for a rerun of a job none of whose other builds has completed |
| `JobDatabase.Database.UpdateTransitionBuildForJob` | atc/db/build.go:2246-2293 | Points at the finished build exactly when the transition rule says so, by the latest pointer from before |
| `JobDatabase.Database.UpdateLatestCompletedBuildForJob` | atc/db/build.go:2201-2244 | Points at the greatest completed rerun of the greatest completed original or else at that, and fails exactly if there is none |
| `JobDatabase.Database.UpdateNextBuildForJob` | atc/db/build.go:2179-2199 | Points at the least pending or started build that is no rerun or a rerun of the greatest completed original, and at none exactly if there is none |
| `JobDatabase.Database.KeepsLimit` | atc/db/job.go:617-687 | After any calls, group limits hold in the tables |
| `JobDatabase.Database.KeepsPointers` | atc/db/build.go:815-840 | After any calls, the pointers in the tables are right |
| `VersionOrder.ResourceConfigScope.SaveVersions` | atc/db/resource_config_scope.go:96-141 | Positive distinct orders before and after; all or nothing, failing exactly on an empty version; the table is the one of the next rows |
| `VersionOrder.ResourceConfigScope.SaveResourceVersion` | atc/db/resource_config_scope.go:266-299 | Inserts a missing version with order 0, leaves a present one, and says whether the order is 0 |
| `VersionOrder.ResourceConfigScope.IncrementCheckOrder` | atc/db/resource_config_scope.go:305-320 | Raises the version above the maximum and touches no other |
| `VersionOrder.ResourceConfigScope.SaveOutput` | atc/db/build.go:1340-1356 | Positive distinct orders before and after; only a new version is raised |
| `VersionOrder.ResourceConfigScope.LatestVersion` | atc/db/resource_config_scope.go:172-193 | The version above all others, or none in an empty scope |
| `VersionOrder.ResourceConfigScope.ClearVersions` | atc/db/resource.go:492-507 | Leaves an empty scope |
| `VersionOrder.SaveOrders` | atc/db/resource_config_scope.go:96-141 | After a save that saw a new version, listed versions stand above all others, ordered by last occurrence in the list; the others keep their order; the latest is the list's last |
| `VersionOrder.BumpAllAt` | atc/db/resource_config_scope.go:117-127 | Each listed version ends at the old maximum plus the place of its last occurrence, and no other moves |
| `VersionOrder.SaveIdempotent` | atc/db/resource_config_scope.go:104-133 | A save without a new version changes nothing, so repeating a save does not either |
| `VersionOrder.SaveKeepsOrdered` | atc/db/resource_config_scope.go:96-141 | Saving keeps the orders positive and distinct |
| `VersionOrder.OutputOrders` | atc/db/build.go:1340-1356 | Saving an output puts a new version on top and moves nothing else |
| `Pagination.Versions` | atc/db/resource.go:510-672 | The rows and links of one page, for each form of page and any filter, whatever scope the row a bound names is in |
| `Pagination.PageExactly` | atc/db/resource.go:545-596 | A page holds rows on its side of the bound that fit the filter, by descending order, as many as there are up to the limit, and those it leaves out are all beyond it |
| `Pagination.OlderComplete` | atc/db/resource.go:510-672 | For any filter and any limit of at least one, following Older ends, and the pages together are exactly the rows that have the filter's keys and values and are not above the bound, by descending order, each once, although links ignore the filter |
| `Pagination.NewerComplete` | atc/db/resource.go:510-672 | The same for following Newer from a lower bound |
| `Pagination.DescSorts` | atc/db/resource.go:562 | The sorted list has each row once, by strictly descending order |
| `Pagination.DescSplit` | atc/db/resource.go:545-574 | Around any row, the sorted list is the sorted rows above it and the sorted rows below it |
| `Pagination.OlderIsRest` | atc/db/resource.go:632-647 | What the Older link leads to is exactly what is left below a page |
| `Pagination.NewerIsRest` | atc/db/resource.go:649-664 | What the Newer link leads to is exactly what is left above a page |
| `Pagination.ScopeIsDistinct` | atc/db/resource_config_scope.go:96-141 | Tables of committed scopes have the distinct orders that paging relies on |
| `Listener.NeverTogether` | atc/db/listener.go:54-153 | In every interleaving with one outstanding call, the loop's side and a caller are never on the connection together, and nobody is on it once it is released |
| `Listener.CloseEndsLoop` | atc/db/listener.go:54-67 | After Close every step takes the loop strictly nearer its exit and one is always possible, so it exits without touching the connection |
| `Listener.NeverStuck` | atc/db/listener.go:69-87 | While a call is outstanding some step other than a new call is possible |
| `Listener.RunKeepsTurns` | atc/db/listener.go:93-153 | The turn invariant: who holds the turn decides where loop, waiter and caller can be |
| `Listener.ChannelsAreRegistered` | atc/db/notifications_bus.go:123-150 | Between calls the listener's channels are those with a registered sink plus those whose last LISTEN failed; so exactly the registered ones if and only if no such failure is left |
| `Listener.ServedAreRegistered` | atc/db/notifications_bus.go:123-150 | While nothing has failed, the connection listens to exactly the channels with a registered sink |
| `Listener.SinksListen` | atc/db/notifications_bus.go:123-150 | In every run a sink is registered exactly if the last call about it to take effect was one to listen: a LISTEN without error, or a call on a channel others listened to already |
| `Listener.NotificationsMap.Empty` | atc/db/notifications_bus.go:260-265 | A channel is empty exactly if it has no entry |
| `Listener.NotificationsMap.Add` | atc/db/notifications_bus.go:267-278 | Adds the sink to the channel's set and keeps all other registrations |
| `Listener.NotificationsMap.Remove` | atc/db/notifications_bus.go:280-294 | Removes exactly that registration, and the channel with its last sink |

## Left out

- JobDatabase.Database.CreateBuild: build names, one-off builds, the legacy rerun_of_old column and deletion of builds are not in the tables.
- JobDatabase.Database.ScheduleBuild: transactions are atomic here; schedulers of different jobs of a group that interleave inside their transactions are not modelled.
- JobDatabase.Database.Finish: archiving of child pipelines, image caches and schedule requests for downstream jobs are not modelled.
- Flattening.Heap.FlattenValue: maps keyed by arbitrary values, whose non-string keys the source skips, and the difference between nil and empty maps are not modelled.
- StepJson.UnmarshalJSON: case-insensitive field matching and repeated keys of the JSON library are not modelled, and nil and empty lists are one value; wrappers are collected and then nested instead of being linked in place.
- StepJson.Fixpoint: fields other than task configs and container limits go through a codec that reads back what it writes; their own decoders are not modelled one by one.
- Listener.NeverStuck: takes for granted that notifications are taken from the listener's buffer; retry timing of reconnecting is not modelled.
- EventStream.BuildEventSource.CollectEvents: terminates because Close is called after some number of passes; events that commit out of id order are not modelled.
- Execution.PlanRunsStep: how in_parallel and across run their branches side by side, and how long anything takes, is left to the engine, which step and plan share.
- StepFaults.FaultsRecorded: says which messages are recorded, not how often; their order is that of the walk.
- PlanFacts.PlanRuns: how often an across template is instantiated is decided when the build runs.
- Pagination.Versions: whether a version is enabled and its metadata are not modelled.
- Integer widths: counters, ids and orders are unbounded, so overflow is not modelled.
- Liveness of notifications: the bus drops them on overflow and for unwatched builds by design.
- Build-list pagination, whose order by rerun origin does not match its filter by id.
- Template interpolation by regular expressions, secret caches, var-source pools.
- HTTP handlers, authentication, SQL text, encryption, YAML and byte encodings, garbage collection.
