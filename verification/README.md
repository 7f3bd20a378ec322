# The durable workflow protocol, modelled and proved

A run is a checkpoint that changes only by compare-and-swap commits. A worker walks a tree of
control nodes over that checkpoint, calls operations whose effects may or may not have
happened, and may die between any two commits, while cancellation, signals, timeouts,
reconciliation commands and other readers and writers go on. This project models that
protocol and proves what it promises about every run, not about single calls.

Four layers, bottom up:

* **Text and data.** `Text`, `Json`, `Pointer`, `DataBinding`, `BodyOrder`, `Reports`: byte lengths and key order,
  a printer for compact JSON text, RFC 6901 pointers (sections 3 and 4) and scope path keys, the
  static check and the budgeted evaluation of bindings with what a selection selects, the ordering of
  a body, and a linked chain of reports that tells of its whole source.
* **Checkpoints and stores.** `Protocol`, `Checkpoint`, `WaitHistory` hold the snapshot, the two validators and what every
  history of accepted commits keeps. `StoreSpec` is a map of snapshots; `MemoryStore` and `SqlStore` are the
  indexed in-memory store and the SQL tables, both proved against that map. `Updates` is the retry
  loop of the engine over the memory store; `Signals` the delivery loop; `Artifacts` the chunked artifact tables;
  `Idempotence` repeats a creation on both stores while everything else goes on.
* **The effect protocol.** `Effects` classifies a failure, `Dispatch` is one logical invocation with a ghost account of the
  outside world, `DispatchLaws` what all its histories obey, `DispatchLoop` the loop that drives it, `Reconciliation`
  the commands that settle unknown effects, `RunEdits` every edit the engine commits, and `RunMachine`, `RunSafety`,
  `RunInvariant`, `RunTheorems` one whole run under all actors at once; `RunCommits` says what each commit changes and
  `RunOutcome` how a run ends and that none of its effects is hidden. `Recovery` is start-up after a crash and the
  supervisor; `WaitStart` says which starts of waits can hide an unresolved effect.
* **The interpreter.** `Programs` gives bodies their plain recursive meaning, `ControlLaws` says what that meaning is on
  values, `Resumption` says when a checkpoint agrees with it, `Interpreter` separates scopes and interleaves them, `Steps` says what one step does to the agreement,
  `Execution` is the resumable interpreter as a class that runs the dispatch loop for its operations, and `Groups` the
  bounded scheduler of parallel and foreach groups.

Code that updates state in the original is a class or a method with loops here; pure matches
and folds are functions. Nondeterministic statements stand for the environment: how long
anything takes, where a lifetime ends, what an operation answers, which other commits come
first. Loops that retry until a race is won terminate because a lost race moved the revision.

Assumptions, each visible in a `requires` clause or a guard: a report of non-application is true
of its attempt; evidence of non-application is accepted as quiescent only when nothing is in
flight; the clock does not go back; attempt, run and artifact identifiers are fresh; a commit
is made below the last representable revision.

## Model

| member | source | states |
|---|---|---|
| Text.SlashRangeIsPrefix | crates/modules/src/sqlite/query.rs:69-93 | for binary-collated keys, the half-open range from `p/` to `p0` is exactly the set of strings with prefix `p/` |
| Text.BytesConcat | crates/engine/src/binding.rs:101-108 | byte lengths of UTF-8 text add up over concatenation |
| Text.DecimalReads | crates/engine/src/binding.rs:148-157 | reading a decimal numeral gives back the number it was written from, and numerals have no leading zero |
| Text.NumeralWrites | crates/engine/src/binding.rs:148-157 | every digit string without a leading zero is the numeral of the number it reads as |
| Json.ArraySize | crates/engine/src/binding.rs:191-198 | the printed length of an array is its brackets, commas and items |
| Json.ObjectSize | crates/engine/src/binding.rs:175-190 | the printed length of an object is its braces, commas, quoted keys and values |
| Json.ScalarSizes | crates/engine/src/binding.rs:109-116 | the printed length of every scalar, with each escape of a string counted |
| Json.DepthMeans | crates/engine/src/binding.rs:201-210 | the depth of a value is the length of its longest chain of nesting |
| Json.LookupMeans | crates/engine/src/binding.rs:142-143 | a lookup finds the entry of that key, or nothing when there is none |
| Pointer.DecodeToken | crates/engine/src/binding.rs:16-34 | the character loop decodes a token to what the escape grammar says, and refuses every stray `~` |
| Pointer.Tokens | crates/engine/src/binding.rs:9-35 | the pointer parser returns exactly the reference tokens of the text, or the reason it has none |
| Pointer.TokensInvertKey | crates/engine/src/runtime/control.rs:8-27 | decoding the key of any nonempty scope path gives back its segments |
| Pointer.KeyInvertsTokens | crates/engine/src/binding.rs:9-35 | encoding the tokens of any accepted pointer gives back the pointer |
| Pointer.KeyInjective | crates/engine/src/runtime/control.rs:19-27 | two nonempty scope paths with the same key are the same path |
| Pointer.DescendantKeys | crates/engine/src/runtime/control.rs:8-27 | a key starts with another key and `/` exactly when its path properly extends the other path |
| DataBinding.Visit | crates/engine/src/binding.rs:42-84 | the recursive visit accepts exactly the well-formed bindings within the step and depth budgets, and counts their static cost |
| DataBinding.Check | crates/engine/src/binding.rs:37-90 | preparation accepts a binding if and only if its references, cost and height are sound |
| DataBinding.Walk | crates/engine/src/binding.rs:117-200 | a walk spends exactly the printed length of its result; affordable bindings fail only by data faults or the byte budget, and a selection without fallback by exactly the fault of its denotation |
| DataBinding.Evaluate | crates/engine/src/binding.rs:91-211 | an accepted binding evaluates to its budget-free meaning, or exceeds a value limit, or meets a fault of the data; a selection without fallback returns only what lies at its pointer in the run input or in the output of the node it names, whatever lies there within the limits is returned, and it is missing exactly where nothing lies |
| DataBinding.ProducersExist | crates/engine/src/binding.rs:131-173 | with outputs for every available node an accepted selection denotes what lies at its pointer in its own producer, the whole producer for the empty pointer, and its fallback exactly where nothing lies |
| DataBinding.NavigateMeans | crates/engine/src/binding.rs:137-165 | walking a pointer down any value finds exactly the value that lies there, finds nothing exactly where a key or an index is absent, and fails exactly on a token that is no index or inside a scalar |
| DataBinding.SelectMeans | crates/engine/src/binding.rs:131-173 | a selection denotes a value exactly if it lies where the selection points, or nothing lies there and the fallback denotes it |
| DataBinding.DenoteFrame | crates/engine/src/binding.rs:117-200 | a binding depends on nothing but the run input it reads and the outputs of the nodes it names |
| DataBinding.EvaluateTwice | crates/engine/src/binding.rs:91-211 | two evaluations of an accepted selection agree whenever what it names agrees, whatever the rest of the input and outputs |
| DataBinding.KeySelects | crates/engine/src/binding.rs:9-35 | the pointer that encodes a path selects exactly the value at that path |
| DataBinding.DenoteFaults | crates/engine/src/binding.rs:117-200 | whatever goes wrong in a well-formed binding is a fault of the data |
| BodyOrder.Ordered | crates/engine/src/compiler/control.rs:603-679 | ordering succeeds exactly on single chains from the entry, returns such a chain, and never reports a cycle |
| BodyOrder.ChainUnique | crates/engine/src/compiler/control.rs:603-679 | the chain does not depend on the order in which nodes and edges are listed |
| BodyOrder.NoCycle | crates/engine/src/compiler/control.rs:650-671 | once links are single and the entry has no predecessor the walk cannot return to a visited node |
| BodyOrder.LinkEdges | crates/engine/src/compiler/control.rs:627-649 | no defect is reported exactly when every edge joins known nodes and no node has two successors or two predecessors |
| BodyOrder.CompileBody | crates/engine/src/compiler/control.rs:185-247 | a body compiles if and only if it has a chain in which every binding names only earlier nodes and fits its budget |
| Reports.References | examples/reference-module/src/inventory/reports.rs:113-168 | the walk accepts exactly the states that have a chain of reports and returns that chain oldest first |
| Reports.ChainCoversRows | examples/reference-module/src/inventory/reports.rs:113-168 | an accepted chain holds rows 0 to cursor-1 once each, in order, with the counts of the summary |
| Reports.BuiltIsAccepted | examples/reference-module/src/inventory/reports.rs:36-105 | every state reached by batches from an empty cursor has a chain, so it is accepted |
| Reports.ReportBatch | examples/reference-module/src/inventory/reports.rs:36-105 | a batch is accepted exactly when the page follows the cursor and every outcome belongs to its row |
| Reports.PublishReport | examples/reference-module/src/inventory/reports.rs:176-218 | a published report is the rows of the whole chain in source order, and is refused exactly when totals or chain disagree or the source has more |
| Reports.BatchMeans | examples/reference-module/src/inventory/reports.rs:36-105 | a batch is accepted exactly when it matches the cursor row by row; it moves the cursor past its rows, goes on exactly while the source has more, and links one report to the one before |
| Reports.ChainTellsTheSource | examples/reference-module/src/inventory/reports.rs:36-168 | however rows are cut into batches, the chain tells of every row taken, once, in order, with its own outcome; more is false exactly when the last page reached the end of its source |
| Reports.PublishedTellsTheSource | examples/reference-module/src/inventory/reports.rs:176-218 | a report built by batches and published tells of the whole source, nothing missing, doubled or out of place |
| Protocol.NodeBytesReplaced | crates/protocol/src/execution.rs:254-261 | what replacing one record does to the byte total |
| Protocol.UnresolvedReplaced | crates/protocol/src/execution.rs:227-233 | what replacing one record does to the set of unresolved keys |
| Protocol.WakeupMeans | crates/protocol/src/wait.rs:62-84 | a run wakes exactly when its first open wait is ready: at once with delivery and start both there, at its deadline with nothing delivered; a waiting run wakes at its deadline at the latest |
| WaitHistory.HistoryPreserves | crates/protocol/src/checkpoint.rs:42-76 | along every history revisions count commits, identity and confirmed results stay, cancellation and audit only grow, and a finished run changes only its audit |
| WaitHistory.StartsFresh | crates/protocol/src/checkpoint.rs:12-41 | every history starts with an accepted, empty, unfinished run with bounded, distinct artifacts of its own scope |
| WaitHistory.WhatNeverChanges | crates/protocol/src/checkpoint.rs:42-76 | field by field: a run keeps its identity, input, package, artifacts and deadline, every confirmed record, its cancellation and its audit, and once finished its whole outcome |
| WaitHistory.WaitKeepsItsTerms | crates/protocol/src/wait.rs:95-234 | a wait belongs to the node that names it, is due by the run's deadline, keeps its terms, start flag and delivery, and is closed by the end of the run |
| WaitHistory.DeliveryIsItsOwn | crates/protocol/src/wait.rs:150-234 | what a wait holds was sent to this run and wait under its correlation, with a receipt for that message and artifacts of its scope |
| WaitHistory.DeliveredOnce | crates/protocol/src/wait.rs:95-234 | a wait has at most one delivery in its whole history, accepted between its creation and its deadline |
| WaitHistory.LeavesOpenOnce | crates/protocol/src/wait.rs:95-234 | a settled wait never changes again, and an expired one was and will never be delivered |
| WaitHistory.ConsumedExactlyWhenConfirmed | crates/protocol/src/wait.rs:150-234 | a wait is consumed if and only if its node succeeded, with the output its delivery and start fix |
| WaitHistory.ConsumedOutputFixed | crates/protocol/src/wait.rs:150-234 | the output of a consumed wait and the start it reports are the same in every later snapshot |
| WaitHistory.TimerReturnsItsInput | crates/protocol/src/wait.rs:95-234 | a consumed timer returns the input its node had in the commit before |
| WaitHistory.NodeCommitRefinesFullCommit | crates/protocol/src/ports.rs:80-118 | on a consistent run the single-node commit, which skips the wait checks, is accepted by the full commit and leaves the run consistent |
| StoreSpec.CommitsCoherent | crates/protocol/src/ports.rs:73-118 | both commits keep the store coherent, and one is the other on the edited snapshot |
| StoreSpec.FirstDecidesPrefix | crates/modules/src/memory.rs:84-100 | the first key at or after a prefix decides whether any key carries it |
| StoreSpec.SortFinished | crates/modules/src/memory.rs:347-372 | finished runs are listed in ascending order of end time and id, none lost or repeated |
| StoreSpec.DroppedAreCollectable | crates/modules/src/memory.rs:347-372 | the positions a retention scan drops are exactly the runs over the count or past their age |
| StoreSpec.OldestGoFirst | crates/modules/src/memory.rs:347-372 | whenever retention takes a run it also takes every run that finished earlier |
| StoreSpec.AdmissionMeans | crates/modules/src/memory.rs:179-229 | a taken receipt slot decides alone, by its request; behind a free one a run is created exactly when there is room and it is new and initial; full and conflicting creations are refused exactly otherwise |
| StoreSpec.LiveMeans | crates/modules/src/memory.rs:179-180 | exactly the receipts that have not expired are held, each as it was |
| StoreSpec.ComputeWakeup | crates/protocol/src/wait.rs:62-84 | the wake-up time is the earliest moment any open wait becomes ready, bounded by the deadline of a waiting run |
| StoreSpec.RecordIsCounted | crates/protocol/src/execution.rs:254-261 | everything a record holds is counted in the retained bytes of its run |
| StoreSpec.HoldingsAreCounted | crates/protocol/src/execution.rs:227-261 | so are the input, output and error of the run, each wait and each artifact |
| MemoryStore.SplitValidation | crates/modules/src/memory.rs:248-275 | validating the snapshot without its shared package, and the package apart, is validating the whole snapshot |
| MemoryStore.Replace | crates/modules/src/memory.rs:293-346 | after a record is replaced the moved byte counter and unresolved set equal the recomputed ones |
| MemoryStore.After | crates/modules/src/memory.rs:67-83 | a head-only transition reuses the counters and they still equal the recomputed ones |
| MemoryStore.ViewOf | crates/modules/src/memory.rs:84-100 | the indexed view equals the view recomputed from the snapshot, for every key |
| MemoryStore.CommitNode | crates/modules/src/memory.rs:293-346 | the critical section accepts exactly what the simple store accepts and keeps every index right |
| MemoryStore.MemoryExecutionStore.Create | crates/modules/src/memory.rs:169-229 | creation answers as the receipts, the room and the run itself decide, adds exactly the accepted run and its receipt, and drops exactly the expired receipts |
| MemoryStore.MemoryExecutionStore.Commit | crates/modules/src/memory.rs:248-275 | the full commit has the outcome and the new contents of the simple store |
| MemoryStore.MemoryExecutionStore.CommitInvocation | crates/modules/src/memory.rs:293-346 | the fast commit has the outcome and the new contents of the simple store, and returns its recomputed view |
| MemoryStore.MemoryExecutionStore.CommitInvocationByDefault | crates/protocol/src/ports.rs:80-118 | fetch, edit and full commit accept exactly when the fast commit does and leave the same snapshot |
| MemoryStore.MemoryExecutionStore.GetView | crates/modules/src/memory.rs:276-282 | a view equals the recomputed view of the held snapshot |
| MemoryStore.MemoryExecutionStore.Collect | crates/modules/src/memory.rs:347-372 | collection removes exactly the collectable runs, and a receipt is held afterwards if and only if it was held and has not expired |
| SqlStore.RangeIsDescendants | crates/modules/src/sqlite/query.rs:69-93 | the range query over unresolved rows answers the prefix question of the recomputed view |
| SqlStore.ReadView | crates/modules/src/sqlite/query.rs:69-93 | a view read from columns and one range query equals the view of the reassembled run |
| SqlStore.ReadNodes | crates/modules/src/sqlite/query.rs:138-150 | the row loop reassembles exactly the records of the run and no row fails its test |
| SqlStore.ReadRun | crates/modules/src/sqlite/query.rs:95-155 | on every coherent database the run reassembles and no corruption test fires |
| SqlStore.NodeWriteSound | crates/modules/src/sqlite/store.rs:266-306 | a node write that leaves body and wake-up alone keeps head columns equal to the head of the reassembled run |
| SqlStore.FullWriteSound | crates/modules/src/sqlite/store.rs:223-265 | a full write keeps every row, node and package coherent and replaces one run |
| SqlStore.WriteChanges | crates/modules/src/sqlite/store.rs:223-265 | upserting the changed records and deleting the removed ones leaves exactly the new records of the run, others untouched |
| SqlStore.CountsWithinCheck | crates/modules/src/sqlite/store.rs:266-306 | the unresolved count of a row never exceeds its invocation count |
| SqlStore.SqliteExecutionStore.Create | crates/modules/src/sqlite/store.rs:149-222 | creation answers as the receipts, the room and the run itself decide, or finds a colliding package hash; a refusal changes nothing, anything else drops exactly the expired receipts |
| SqlStore.SqliteExecutionStore.Commit | crates/modules/src/sqlite/store.rs:223-265 | the commit transaction agrees with the simple store |
| SqlStore.SqliteExecutionStore.CommitInvocation | crates/modules/src/sqlite/store.rs:266-306 | the node transaction agrees with the simple store and does not touch body or wake-up |
| SqlStore.SqliteExecutionStore.Collect | crates/modules/src/sqlite/store.rs:307-326 | retention removes exactly the collectable runs, holds a receipt if and only if it was held and has not expired, and leaves no package without a run |
| SqlStore.SqliteExecutionStore.GetView | crates/modules/src/sqlite/store.rs:61-75 | a view equals the recomputed view and is never corrupt |
| Idempotence.RepeatMemory | crates/modules/src/memory.rs:169-229 | after a creation and any commits, collections, creations, claims and releases before its receipt expires, a creation under the same key by the owner finds the first run for the same request and is refused for another, and makes no run |
| Idempotence.ReuseMemory | crates/modules/src/memory.rs:179-180 | at or after the expiry the key is free: a new run is made exactly when there is room and it is new |
| Idempotence.RepeatSqlite | crates/modules/src/sqlite/store.rs:149-222 | the same idempotence on the SQL tables |
| Idempotence.ReuseSqlite | crates/modules/src/sqlite/store.rs:156-160 | the same reuse on the SQL tables |
| SqlStore.SqliteExecutionStore.Claim | crates/modules/src/sqlite/worker.rs:22-71 | one owner at a time: a claim succeeds exactly on an unowned store whose file lock is free |
| Updates.BytesAfter | crates/engine/src/runtime/state.rs:36-75 | the total minus the old record plus the new one is the size of the run as it would become |
| Updates.Updater.UpdateNode | crates/engine/src/runtime/state.rs:28-101 | a node update is atomic: decided on one snapshot that existed during the call and committed on exactly that snapshot; a conflict only for a record no commit could carry |
| Updates.Updater.UpdateRun | crates/engine/src/runtime/state.rs:123-165 | a run update is atomic in the same sense, and reports a conflict only for an invalid successor |
| Updates.Updater.DecideNode | crates/engine/src/runtime/state.rs:36-75 | the decision taken from the indexed view is the decision on the whole snapshot |
| Signals.SortById | crates/engine/src/runtime/signals.rs:28-39 | artifacts end up ordered by id with none lost or repeated |
| Signals.OneOrder | crates/engine/src/runtime/signals.rs:28-39 | strictly sorted lists of the same artifacts are equal, so listing order cannot make a redelivery differ |
| Signals.OneSignalPerWait | crates/engine/src/runtime/signals.rs:73-84 | two acknowledged deliveries to one wait, at any two moments, are the same command of the same actor with the same receipt |
| Signals.ProposalAccepted | crates/engine/src/runtime/signals.rs:85-136 | what survives the examination is a valid successor of the snapshot examined |
| Signals.SignalPort.Examine | crates/engine/src/runtime/signals.rs:58-112 | every answer is fixed: the receipt of the recorded command, a conflict for another one, a missing wait, a refused correlation or payload, an expiry; a delivery is proposed exactly when the wait is open, the payload fits its schema and the deadline has not passed |
| Signals.SignalPort.DeliverSignal | crates/engine/src/runtime/signals.rs:56-156 | a receipt means the run holds this command; a fresh one means this call made the one commit, at a moment of this call, for a payload the wait's schema accepts; the loop ends and the store never refuses its own proposal |
| Signals.SignalPort.Signal | crates/engine/src/runtime/signals.rs:4-157 | the same for the whole port, on the command as given |
| Signals.SignalPort.Screen | crates/engine/src/runtime/signals.rs:14-55 | what screening passes has bounded identifiers, a payload and an artifact list within the limits, artifacts of this scope only, and the rights to name any |
| Artifacts.CollectedKeepsOwned | crates/modules/src/sqlite/artifacts.rs:448-451 | collection never takes an artifact that a retained run owns, nor an unpublished one |
| Artifacts.CollectedMeans | crates/modules/src/sqlite/artifacts.rs:448-451 | collection takes exactly the published artifacts nobody owns that were owned before or are past their grace, with their content, and leaves runs and owners alone |
| Artifacts.ArtifactStore.Begin | crates/modules/src/sqlite/artifacts.rs:387-416 | a write begins exactly when its run may write and there is room after collection, with an empty unpublished row owned by that run |
| Artifacts.ArtifactStore.CheckRead | crates/modules/src/sqlite/artifacts.rs:313-358 | a read is allowed exactly for a published, kept artifact of this description, to a run of its scope that owns it |
| Artifacts.AppendedFits | crates/modules/src/sqlite/artifacts.rs:417-447 | an append within the cap keeps rows, chunks and total in step and adds exactly its bytes |
| Artifacts.ContainsForever | crates/modules/src/sqlite/artifacts.rs:191-247 | a published artifact holds the same content until it is removed for good |
| Artifacts.ArtifactStore.Append | crates/modules/src/sqlite/artifacts.rs:417-447 | a chunk is added exactly when the run may write, the writer is where it left off and the cap allows it; everything else stays |
| Artifacts.ArtifactStore.PinReferences | crates/modules/src/sqlite/artifacts.rs:362-386 | pinning succeeds exactly when every reference is of this scope and good, makes the run own exactly those, and otherwise changes nothing |
| Artifacts.ArtifactStore.WriteArtifact | crates/modules/src/sqlite/artifacts.rs:82-190 | with every other transaction interleaved, whoever finds the artifact published finds exactly what the source produced |
| Artifacts.ArtifactStore.ReadArtifact | crates/modules/src/sqlite/artifacts.rs:191-247 | what a reader returns is the artifact as reading began; the corruption tests never fire |
| Artifacts.ArtifactStore.Exchange | crates/modules/src/sqlite/artifacts.rs:82-247 | a reader of a finished write gets back what was written, or is refused |
| Effects.DecisionMeaning | crates/engine/src/effects.rs:32-67 | a repeat is authorised exactly when it is safe and affordable; a possible write that is not repeated always blocks |
| Effects.MergedIsJoin | crates/engine/src/runtime/steps.rs:31-38 | merging certainty is the least upper bound of its order |
| Effects.RecordFailure | crates/engine/src/runtime/steps.rs:312-409 | the field-by-field edit yields the classified record, and declines any attempt that is not the running one |
| Effects.StampedCause | crates/engine/src/runtime/steps.rs:388-405 | rewriting the diagnostics changes the certainty of the cause and nothing else |
| Effects.FailedWrite | crates/engine/src/runtime/steps.rs:312-409 | the recorded failure of a write never lowers certainty and never reports a possible effect as settled |
| Effects.FailedSchedule | crates/engine/src/runtime/steps.rs:366-387 | a scheduled retry has budget left and is due before the deadline |
| Effects.FirstCauseMeans | crates/engine/src/runtime/steps.rs:312-365 | the cause of a failure is that of the first diagnostic that has one |
| Effects.FailureMeaning | crates/engine/src/runtime/steps.rs:312-409 | for every failed attempt: it is scheduled again exactly when its cause may pass, nothing called it off, attempts and time are left and a write is not lost by it; any other possible write is in doubt; the rest is cancelled exactly when called off, else failed |
| Effects.FailureCertainty | crates/engine/src/runtime/steps.rs:312-365 | a failed write is applied exactly when anything ever said so, and not applied exactly when everything said not |
| Effects.FailureKeepsDiagnostics | crates/engine/src/runtime/steps.rs:388-405 | the recorded error is the reported one with the merged certainty written into every cause |
| Dispatch.StepKeeps | crates/engine/src/runtime/steps.rs:39-304 | every event of the effect protocol keeps record, task and outside world in agreement |
| Dispatch.AtMostOnce | crates/engine/src/runtime/steps.rs:39-409 | in no history of dispatches, crashes, recoveries, timeouts, retries and settlements does an unsafe write happen twice |
| Dispatch.SameEffectKeyAndInput | crates/engine/src/runtime/steps.rs:129-200 | all dispatches of one invocation carry one effect key and one input and stay within the attempt limit |
| Dispatch.HistoryCarries | crates/engine/src/runtime/steps.rs:39-409 | calls and effects are never forgotten, attempts never go back, Applied is never lowered, a result never changes, an unconfirmed record keeps its input |
| Dispatch.RetryDiscipline | crates/engine/src/runtime/steps.rs:312-409 | attempts stay within the limit and a scheduled retry has budget and a due time before the deadline |
| Dispatch.OnlySettlementLowers | crates/engine/src/runtime/reconcile.rs:199-252 | certainty of a write is lowered only by quiescent evidence about an unknown record |
| DispatchLaws.RetryWaits | crates/engine/src/runtime/steps.rs:98-126 | in every history an attempt starts before the deadline, uncancelled and within its limit, and a scheduled retry only at or after its due time |
| DispatchLaws.HeadDecides | crates/engine/src/runtime/steps.rs:54-149 | the head of the loop, from every reachable state: it leaves exactly behind a settled, doubtful or unstarted record, sleeps exactly before a due time, starts exactly when nothing forbids it, and records a retry that can no longer happen as the failure it was |
| DispatchLaws.SendMeans | crates/engine/src/runtime/steps.rs:150-215 | what is sent is the recorded attempt with the recorded input and key, and from then on it may take effect |
| DispatchLaws.HistoryTidy | crates/engine/src/runtime/steps.rs:39-409 | in every history only a result has an output and no input, only a failure has an error, and only what was scheduled has a due time |
| DispatchLaws.NothingBehindTheRecord | crates/engine/src/runtime/steps.rs:39-409 | in every history, whatever a write did or may still do, its record is a result, a running attempt or an unresolved effect |
| DispatchLoop.Runtime.ExecuteOperation | crates/engine/src/runtime/steps.rs:39-304 | the loop terminates, every step is a protocol event, no attempt starts after cancellation, at or past the deadline, beyond its limit or before its due time, it ends by one of its exits, a value is returned only when confirmed, and an unresolved record leaves only behind an error no handler may catch or after the deadline |
| DispatchLoop.ExitMeans | crates/engine/src/runtime/steps.rs:54-304 | whichever way the loop ends, its answer and the record agree: returned if and only if confirmed, a settled record is reported as recorded, and an unresolved one without the unknown code is a repeatable write given up before the deadline |
| DispatchLoop.Runtime.Recover | crates/engine/src/runtime/recovery.rs:5-46 | an invocation resumed after a crash reclassifies what was running before the loop may go on |
| DispatchLoop.Runtime.Attempt | crates/engine/src/runtime/steps.rs:129-300 | one attempt commits its intent before it calls and its outcome after |
| DispatchLoop.LeaveMeans | crates/engine/src/runtime/steps.rs:54-128 | the answer of the loop follows from the record it leaves behind: a confirmed value, a settled error as recorded, an unknown effect as itself, else cancellation before timeout |
| WaitStart.HidesExactlyRepeatableWrites | crates/engine/src/runtime/waits.rs:303-346 | for every start: some history ends the dispatch loop with its effect unresolved before the deadline while the wait's error may be caught, if and only if the start is a write that is not unsafe with at least two attempts |
| WaitStart.ExpiryMayHideAnUnresolvedStart | crates/engine/src/runtime/steps.rs:121-149 | for every such start: a history in which the expiry cancels the wait for capacity between two attempts, so a catchable expiry leaves the effect unresolved |
| WaitStart.StartAnswer | crates/engine/src/runtime/waits.rs:303-346 | a start that succeeded is confirmed; an unresolved one answers with an error no handler may catch, or after the deadline, or may be repeated |
| WaitStart.ExpiryOutranks | crates/engine/src/runtime/waits.rs:303-346 | an expiry outranks every answer of a start but an unknown effect; without one the start's own answer stands |
| Reconciliation.FindReceipt | crates/engine/src/runtime/reconcile.rs:9-29 | the loop finds the first resolution with the identity of the command |
| Reconciliation.ReceiptStable | crates/engine/src/runtime/reconcile.rs:9-29 | an answer once given never changes as the audit grows |
| Reconciliation.ReceiptRecorded | crates/engine/src/runtime/reconcile.rs:284-330 | a new command is answered by its own receipt from then on |
| Reconciliation.PreviousReceiptMeans | crates/engine/src/runtime/reconcile.rs:9-29 | a known command is answered by the first resolution under its identity, to the same command and actor only |
| Reconciliation.RuleMeans | crates/engine/src/runtime/reconcile.rs:199-283 | for every resolution: whether it is acceptable, what becomes of the record and which status answers; a denied effect is tried again exactly when the command asks for it and attempts, time and no cancellation allow |
| Reconciliation.ProposalMeans | crates/engine/src/runtime/reconcile.rs:174-297 | exactly the named record changes, the answer is written to the audit, and the run is unblocked exactly when nothing is unknown any more |
| Reconciliation.StoppedMeans | crates/engine/src/runtime/reconcile.rs:246-283 | a stopped run ends at once, names every effect it gives up and closes its waits |
| Reconciliation.Reconcile | crates/engine/src/runtime/reconcile.rs:111-340 | a known command changes nothing; a new one applies exactly one proposal to the blocked revision it named |
| Reconciliation.ProposalAccepted | crates/engine/src/runtime/reconcile.rs:174-297 | every reconciliation of a blocked consistent run is a valid successor |
| Reconciliation.ProposalShape | crates/engine/src/runtime/reconcile.rs:199-283 | one record is ruled on; stopping lists exactly the unknown records and never ends in success |
| RunEdits.QuietAccepted | crates/protocol/src/checkpoint.rs:42-76 | every edit that keeps confirmed results and wait bonds and only closes waits is a valid successor |
| RunEdits.WorkerEditsAccepted | crates/engine/src/runtime/coordinator.rs:155-247 | starting, suspending, cancelling and closing a run are valid successors; what each of them commits is stated by `RunCommits` |
| RunEdits.FinishErrorAccepted | crates/engine/src/runtime/coordinator.rs:109-153 | finishing with an error is a valid successor, blocked or not |
| RunEdits.StopGroupAccepted | crates/engine/src/runtime/groups.rs:245-276 | stopping a group and closing the waits below it is a valid successor |
| RunEdits.FaultWaitAccepted | crates/engine/src/runtime/waits.rs:26-66 | ending a wait with an error is a valid successor |
| RunEdits.ReserveAccepted | crates/engine/src/runtime/waits.rs:107-183 | reserving a wait with its activation is a valid successor |
| RunEdits.ConfirmStartAccepted | crates/engine/src/runtime/waits.rs:209-217 | confirming a start is a valid successor |
| RunEdits.ConsumeAccepted | crates/engine/src/runtime/waits.rs:219-286 | consuming a wait with its fixed output is a valid successor |
| RunEdits.ExpireAccepted | crates/engine/src/runtime/waits.rs:287-301 | expiring an open undelivered signal wait is a valid successor |
| RunEdits.DeliverAccepted | crates/engine/src/runtime/signals.rs:99-136 | a delivery between reservation and deadline is a valid successor |
| RunEdits.AuditAccepted | crates/engine/src/runtime/invocation.rs:109-154 | a late observation is accepted even by a finished run |
| RunCommits.ClosingCommit | crates/engine/src/runtime/coordinator.rs:201-247 | the closing commit: cancelled exactly under cancellation, else timed out exactly at or past the deadline, else over budget, else the body's own value is the result; every open wait closes and no record changes |
| RunCommits.FailingCommit | crates/engine/src/runtime/coordinator.rs:109-153 | every record of a possible effect becomes unknown; the run is blocked exactly behind an unknown record, else it ends with the error |
| RunCommits.WorkerCommits | crates/engine/src/runtime/coordinator.rs:155-190 | starting and suspending move the state alone and never past cancellation; cancelling is final and closes the waits |
| RunCommits.ReservationCommit | crates/engine/src/runtime/waits.rs:107-183 | a reservation is one open wait and one pending record, due after its duration or at the run's deadline, whichever is first |
| RunCommits.ConsumptionCommit | crates/engine/src/runtime/waits.rs:219-286 | a timer is consumed when due and hands its input on, a signal with its payload and the result of its confirmed start |
| RunCommits.ExpiryCommit | crates/engine/src/runtime/waits.rs:287-301 | only an undelivered signal wait past its deadline expires, and nothing else changes |
| RunCommits.StartCommit | crates/engine/src/runtime/waits.rs:209-217 | the start flag is set once, behind a start that succeeded |
| RunCommits.FaultCommit | crates/engine/src/runtime/waits.rs:26-66 | a failed wait stays open behind an unknown effect, else closes and settles its record; a consumed one is left alone |
| RunCommits.DeliveryCommit | crates/engine/src/runtime/signals.rs:99-136 | a delivery is recorded on its own wait before its deadline and wakes a waiting run |
| RunCommits.StopCommit | crates/engine/src/runtime/groups.rs:245-276 | a stopped group saves its frame and closes exactly the open waits at keys strictly below it |
| RunCommits.ControlCommit | crates/engine/src/runtime/control.rs:145-214 | a control ends as its value with nothing of its input kept, or as its error |
| RunCommits.FrameCommit | crates/engine/src/runtime/control.rs:145-214 | entering a control commits its record only the first time, and a new frame changes nothing else |
| RunSafety.EveryCommitAccepted | crates/protocol/src/checkpoint.rs:42-76 | from every state satisfying the invariant every event commits nothing or a valid successor |
| RunSafety.Projects | crates/engine/src/runtime/steps.rs:39-409 | seen from one operation, every event of the run is a move of its effect protocol |
| RunInvariant.InvKept | crates/engine/src/runtime/coordinator.rs:109-247 | every event of worker, host, clock, crash and recovery keeps the invariant of the whole run |
| RunInvariant.InitialHolds | crates/protocol/src/checkpoint.rs:12-41 | every accepted run starts with the invariant |
| RunTheorems.NoHiddenEffect | crates/engine/src/runtime/coordinator.rs:109-247 | a finished run has nothing running and nothing unresolved, unless tracking was stopped and exactly the unresolved invocations are listed |
| RunTheorems.UnsafeWritesHappenAtMostOnce | crates/engine/src/runtime/steps.rs:39-409 | at most once for every unsafe write of the plan, in every execution of the run |
| RunTheorems.CallsOfOneInvocationAgree | crates/engine/src/runtime/steps.rs:129-200 | one effect key, one input and a bounded number of calls per invocation, in every execution of the run |
| RunTheorems.CommitsPreserve | crates/protocol/src/checkpoint.rs:42-76 | along every execution nothing confirmed, delivered or audited is lost |
| RunTheorems.ConflictMeansMoved | crates/engine/src/runtime/state.rs:123-165 | a refused proposal of the engine means another writer moved the revision since it was read |
| RunTheorems.ExecutionIsDispatchHistory | crates/engine/src/runtime/steps.rs:39-409 | every execution of the run is, for each operation, a history of its effect protocol |
| RunOutcome.NoAttemptIsEarly | crates/engine/src/runtime/steps.rs:98-126 | in every execution of a run an attempt of an operation starts within its limit, uncancelled and before the deadline, and a retry not before it is due |
| RunOutcome.EffectsAreAccountedFor | crates/engine/src/runtime/coordinator.rs:109-247 | every effect of a finished run is accounted for: whatever a write did to the outside world, or may still do, its record is a confirmed result or the run names that very attempt among its unresolved effects |
| RunOutcome.EffectsShow | crates/engine/src/runtime/steps.rs:39-409 | at every moment of every execution, what a write did shows in its record |
| RunOutcome.ResultIsTheBodys | crates/engine/src/runtime/coordinator.rs:201-247 | the result of a succeeded run is the value its body returned, committed before the deadline and without cancellation, and every later snapshot keeps it |
| RunOutcome.OutcomeLawful | crates/engine/src/runtime/coordinator.rs:109-247 | in every execution a run has a result exactly if it succeeded and an end exactly if it finished; a failure has an error, a blocked run an unknown effect |
| RunOutcome.CancelledNeverSucceeds | crates/engine/src/runtime/coordinator.rs:201-247 | once cancellation is recorded on a run it never succeeds and never has a result |
| RunOutcome.SuccessIsReachable | crates/engine/src/runtime/coordinator.rs:155-247 | from every accepted run before its deadline a body that returns a value succeeds with it |
| Recovery.InterruptedMeans | crates/engine/src/runtime/recovery.rs:18-43 | an interrupted write stays in doubt and an unsafe one is never scheduled again |
| Recovery.ClassifyUnfinished | crates/engine/src/runtime/recovery.rs:5-46 | every running operation is reclassified by protocol events, and afterwards the runtime may become ready |
| Recovery.WorkersNeverOverlap | crates/engine/src/runtime/coordinator.rs:15-108 | between two workers of one run the first one ended |
| Recovery.Supervisor.Round | crates/engine/src/runtime/coordinator.rs:32-77 | a round starts only due, prepared, idle runs, within the limit, and passes over none while there is room |
| Recovery.EligibleMeans | crates/engine/src/runtime/coordinator.rs:32-77 | what the supervisor reads off a head is whether the run can go on: under way, being cancelled, or waiting with its deadline passed or a wait ready; blocked and finished runs never are |
| Text.DecimalInjective | crates/engine/src/runtime/control.rs:470-517 | turn and item numbers name distinct scopes |
| ControlLaws.SelectMeans | crates/engine/src/runtime/control.rs:226-245 | a decision takes the first case whose condition is true with every earlier one false, or the fallback when all are false; it fails on a broken condition before that, and without a match exactly when all are false and there is no fallback |
| ControlLaws.ChoiceMeans | crates/engine/src/runtime/control.rs:373-402 | a decision is its chosen case run on its own input in that case's scope, under its name |
| ControlLaws.TryMeans | crates/engine/src/runtime/control.rs:297-372 | a try is its body, or the first handler that names the code the error bears, else the last resort, given the rendered error and the input; an error that must not be handled passes through |
| ControlLaws.CatchableMeans | crates/engine/src/runtime/control.rs:561-574 | an error is handled exactly when no diagnostic is of a possible effect, of cancellation or of the host |
| ControlLaws.LoopUnrolls | crates/engine/src/runtime/control.rs:470-517 | a loop unrolls into states, each turn due, numbered from nought, within the limit and given its number and the state before it; it ends exactly where the condition fails, breaks or outlives the limit, or a turn fails |
| ControlLaws.JoinedMeans | crates/engine/src/runtime/groups.rs:161-244 | a group collects every child's result, or ends with the fatal error of its lowest child |
| ControlLaws.ForkMeans | crates/engine/src/runtime/control.rs:403-431 | a parallel group has one field for each branch under its name: what it returned or its rendered error |
| ControlLaws.EachMeans | crates/engine/src/runtime/control.rs:432-469 | a foreach has one numbered entry for each item, each run on its context, index and item |
| ControlLaws.CallMeans | crates/engine/src/runtime/control.rs:518-541 | a call is refused by the input contract, else its body in the scope of that revision, released by the output contract |
| ControlLaws.NodeMeans | crates/engine/src/runtime/control.rs:72-115 | a node is the fault observed at it, a leaf what was observed, a control what it computes within the value limits |
| ControlLaws.BodyGivesResult | crates/engine/src/runtime/control.rs:54-115 | a body has a result exactly when each node in turn has a value, bound from those before it, and the output can be bound from all of them |
| ControlLaws.EffectKeysApart | crates/engine/src/runtime/control.rs:19-27 | a write's effect key is its own scope path, so no two invocations share one |
| ControlLaws.StartsApart | crates/engine/src/runtime/waits.rs:303-346 | the start of a wait has a scope of its own below it, apart from every other start |
| Resumption.SavedTurnMeansTheSame | crates/engine/src/runtime/control.rs:470-517 | continuing a loop from its saved turn means what starting over means |
| Resumption.EvalBodyFrame | crates/engine/src/runtime/control.rs:54-115 | the meaning of a body depends only on what was observed below its own path |
| Resumption.BodyFitsFrame | crates/engine/src/runtime/control.rs:54-115 | agreement of a checkpoint with a body depends only on what is stored below its own path |
| Interpreter.PassedMeans | crates/engine/src/runtime/control.rs:72-86 | skipping confirmed nodes changes neither the meaning nor the agreement of the rest |
| Interpreter.Interleaved | crates/engine/src/runtime/groups.rs:100-160 | however the commits of a group and of its children interleave, every child's checkpoint agrees with its body at every moment, and a child's meaning changes only by its own commits |
| Steps.InitialMeans | crates/engine/src/runtime/control.rs:216-286 | a control starts from exactly the frame it should: its decision taken, its group counted, its loop at turn nought; or for exactly one reason not at all |
| Steps.ConcurrentJoin | crates/engine/src/runtime/groups.rs:100-244 | when the children of a group run at once, each ending at its own moment of any interleaving, the results collected at those moments join to what the plain evaluator computes in the end |
| Steps.ObservedFaultWasThrown | crates/engine/src/runtime/groups.rs:161-210 | in an agreeing checkpoint an error observed at a control that a handler may catch, the deadline apart, was thrown by an admitted child of a group |
| Steps.StartAnswered | crates/engine/src/runtime/waits.rs:303-346 | an answer of a start that a handler may catch before the deadline leaves nothing unresolved below its wait, but for a start that may hide in a run that allows them |
| Execution.Run.ExecuteBody | crates/engine/src/runtime/control.rs:54-115 | whatever a body returns or throws is what the plain evaluator says of the observed outcomes, and agreement is kept wherever it stops |
| Execution.Run.ExecuteNode | crates/engine/src/runtime/control.rs:72-115 | a confirmed node is answered from its record without touching anything; any other outcome is the evaluator's |
| Execution.Run.Dispatch | crates/engine/src/runtime/steps.rs:39-304 | a lifetime of an operation continues the history its record ended with, through recovery, reconciliation and the dispatch loop, and answers in agreement with the record it leaves |
| Execution.Run.ExecuteOperation | crates/engine/src/runtime/steps.rs:39-304 | the record and observation an operation leaves are what its dispatch shows, and keep the agreement; an error that may be caught before the deadline leaves nothing unresolved |
| Execution.Run.ExecuteWait | crates/engine/src/runtime/waits.rs:75-301 | reserving, opening, consuming and failing a wait keep the agreement at every commit, and a consumed signal reports the confirmed result of its start |
| Execution.Run.OpenWait | crates/engine/src/runtime/waits.rs:191-218 | a wait goes on only once its start is confirmed; otherwise it ends with the start's answer or its own expiry |
| Execution.Run.ExecuteControl | crates/engine/src/runtime/control.rs:124-214 | activating, running and settling a control keeps agreement at every commit with the meaning fixed by `ControlLaws` |
| Execution.Run.Activate | crates/engine/src/runtime/control.rs:124-180 | the frame committed by an activation is the one the control must start from, in particular the decision taken on its conditions; a decision without a match, and only that or a limit, refuses it |
| Execution.Run.RunAttempt | crates/engine/src/runtime/control.rs:297-372 | a try answers with its body or its chosen handler as the evaluator does |
| Execution.Run.EnterHandler | crates/engine/src/runtime/control.rs:316-343 | a handler is entered never after cancellation or the deadline, and only when nothing below the try body is unresolved, except, in a run that allows them, a start that may hide its effect |
| Execution.Run.RunTurns | crates/engine/src/runtime/control.rs:470-517 | a loop resumed at its saved turn answers what the evaluator computes from the first |
| Execution.Run.RunGroup | crates/engine/src/runtime/groups.rs:100-244 | a group completes with every child's result, or leaves with a boundary, a failure that an admitted child threw and still evaluates to, or the reason persisted by an earlier stop, which is then reported again unless a boundary outranks it |
| Execution.Run.RunChild | crates/engine/src/runtime/groups.rs:120-199 | one child, from its cursor to its judgement, keeps the group's account: what failed it, what its frame says and what the evaluator says of every child so far |
| Execution.Run.RunFork | crates/engine/src/runtime/control.rs:403-431 | a completed parallel group has every branch's result under its name; otherwise it leaves as its children and its frame explain |
| Execution.Run.RunEach | crates/engine/src/runtime/control.rs:432-469 | a completed foreach has every item's result in order; otherwise it leaves as its children and its frame explain |
| Execution.Run.LeaveGroup | crates/engine/src/runtime/groups.rs:200-243 | unresolved descendants outrank the failure, the failure outranks cancellation and suspension, and the failure is a child's or the persisted one |
| Execution.Lifetimes | crates/engine/src/runtime/control.rs:54-541 | crash transparency: over any number of lifetimes ending anywhere every answer is the evaluator's on the observed outcomes, all answers are equal, and the checkpoint agrees, so every fault logged at an open or settled control of it is explained |
| Execution.StoredDescendants | crates/engine/src/runtime/control.rs:8-27 | stored keys separate and nest scopes exactly as paths do |
| Groups.ReadyEndBounded | crates/engine/src/runtime/planner.rs:49-62 | admission never exceeds the free slots, a halted group admits nothing, and a free slot is used |
| Groups.Group.Execute | crates/engine/src/runtime/groups.rs:100-244 | a join is complete and in source order; a refusal is for an unknown effect, a limit, cancellation, the persisted reason or an error a child threw; a pause has a waiting child; the bound, the cursor and a persisted stop hold; an activated child is never left unsettled |
| Groups.Group.AdmitOne | crates/engine/src/runtime/groups.rs:120-160 | a child starts only behind the persisted cursor |
| Groups.ProgressMeans | crates/engine/src/runtime/groups.rs:58-98 | a saved cursor never goes back, a stop is for good and its first reason stands |
| Groups.Group.Settle | crates/engine/src/runtime/groups.rs:161-199 | a child's end is its own entry, and fails or halts the group exactly as its error and the policy say |
| Groups.StoppedAdmitsNothingNew | crates/engine/src/runtime/groups.rs:58-98 | after a persisted stop no child at or past the cursor ever starts, in any later lifetime |
| Groups.Lifetimes | crates/engine/src/runtime/groups.rs:100-289 | the concurrency bound and the stop hold over any number of lifetimes |

## Left out

- Runs blocked with `recovery.unavailable`, before classification (`crates/engine/src/runtime/lifecycle.rs:92-103`) or by the supervisor when preparation fails (`crates/engine/src/runtime/coordinator.rs:64-72`), are not events of the run machine; their operations may still be recorded as running.
- BodyOrder.CompileBody: the compilation of nested instructions and the node and plan-byte budgets (`crates/engine/src/compiler/control.rs:196-228`) are not part of it; a body is a list of nodes with bindings and edges.
- Execution.Run.ExecuteWait: when a signal is delivered, when a reservation expires and who closes it are nondeterministic here; the wait records and their transitions are the subject of `RunMachine` and `WaitHistory`.
- Execution.Run.Dispatch: each operation carries its own clock; that a deadline it saw has passed is carried over to the run, and the run's to it.
- Execution.Run.RunGroup: children run one after the other in index order; `Interpreter.Interleaved` and `Steps.ConcurrentJoin` cover any other order of their commits, and the bound on concurrent children is the subject of `Groups`.
- Execution.Lifetimes: the meaning of an answer is relative to the last observation at each key; which admitted child's failure ends a group is such an observation, because it depends on timing.
- DataBinding.Check: JSON Schema validation and output contracts are arbitrary functions of their inputs (`Env`, `Host`, the parameters of `SignalPort`).
- Updates.Updater.UpdateNode: run identifiers are fresh, so an id removed by retention is not created again during the call.
- SqlStore.SqliteExecutionStore.Create: codecs, record size caps and the 63-bit integers of the SQL engine are not modelled; the package hash is any function, with collisions refused as in the source.
- SqlStore.SqliteExecutionStore.Commit: artifact pins made inside create and commit transactions are not part of these tables; `Artifacts` models pinning on its own.
- MemoryStore.MemoryExecutionStore.CommitInvocationByDefault: for a caller that is not the owner only the refusal is stated, not which of two error codes comes first.
- Signals.SignalPort.Signal: permission checks and the retained-byte budget are nondeterministic refusals.
- Recovery.Supervisor.Round: how the loop is woken, shut down and told of late attempts is left to its caller.
- Serialised sizes outside bindings are arbitrary functions (`Sizer`); retained-byte budgets are not an invariant of a run, because failure commits skip the check on purpose.
- Tokio tasks, semaphores, observers, late-response timing and shutdown are nondeterministic steps; owner fencing of SQL transactions is an equality test on the caller, or the removal of unpublished artifacts when a new owner claims.
- HTTP, file and CSV adapters, secrets, data operations, backoff jitter, permission checks, builder registration and migrations are not modelled: they would add single-branch facts.
- ControlLaws.EffectKeysApart: the identity of an invocation is its encoded scope path; the source hashes the run id and that path, and the hash is taken to be injective.
- Diagnostic texts, locations and the retryable flag are not modelled; error codes, classes and certainties are.
