# Verified models of the agent graph engine and the secretary's stores

This Dafny project models the parts of the repository whose correctness depends on
interleavings, on the order of events, or on whole runs, and proves what their code and
documentation promise about them. Five state machines are covered.

- **Agent graphs** (`agent-core/src/graph`, `state.rs`). `AgentState.dfy` and `Budget.dfy`
  are the update protocol and the counters of a run; `Graph.dfy` and `Definition.dfy` the
  compiler with its two worklist searches; `Fragment.dfy` and `Linking.dfy` mounting and
  linking; `Embedding.dfy` that a mounted fragment runs as it does alone;
  `CheckpointStore.dfy` the store under any interleaving; `Runtime.dfy` the interpreter, as
  loops over objects proved equal to a recursive meaning; `NodeAnswers.dfy` what one iteration
  does, effect for effect; `RunTheorems.dfy` the invariant of runs; `Sessions.dfy` runs driven
  through suspensions and the transparency of suspending; `Resumption.dfy` concurrent resumes.
- **Memory extraction** (`MemoryCandidate.dfy`, `MemoryCoverage.dfy`, `MemorySideQueue.dfy`,
  `MemoryCommits.dfy`): the leased cursor with its side queue, the switch-point form of a
  batch, that nothing is skipped, where deferred rows lie, that a local worker drains the log,
  and what claims hand out and commits store.
- **Notification policy** (`NotificationPolicy.dfy`, `PolicyCommands.dfy`,
  `NotificationEvaluation.dfy`, `EvaluationSafety.dfy`, `EvaluationOutcomes.dfy`): versioned
  rules, commands carried out once, the two-query snapshot, the optimistic commit, and how
  long claims, delays and decisions last.
- **Out-of-order arrival** (`ReplyConvergence.dfy`, `ReplyTheorems.dfy`, `ReplyQueue.dfy`,
  `RecallConvergence.dfy`, `ArtifactAvailability.dfy`): replies before parents and recalls
  before messages converge, what waits for a retry, and how long artifacts stay available.
- **Backfill** (`Backfill.dfy`, `BackfillSchedule.dfy`): gap and run states, rotating tokens,
  repeated finalisation, and when a gap may be backfilled again.

Objects of the Rust code are classes; a database transaction is one atomic method, proved
equal to a function on the tables, and sequences of transactions or reads stay several
steps. Application code (nodes, routers, executor, business rule, evaluator) is held as
functions. Cancellation and deadlines are an arbitrary schedule of interruptions; clocks,
fresh ids and tokens are parameters, and a transaction whose new id is taken fails as the
database would. `dafny verify dfyconfig.toml` checks everything.

Where the code does not do what one would expect, the model follows the code and the exact
condition is proved:

- A step limit of exactly 2^32 - 1 makes step numbers repeat (`StepNumbersRepeatOnlyAtTheTop`);
  the run theorems assume a smaller limit.
- A node that suspends at an End fails where continuing would not; suspending is transparent iff
  the run does not get there (`SuspensionIsTransparent`, `TransparentUnlessEndsSuspend`,
  `SuspendingAtAnEndFails`).
- An event that arrives between a claim and its commit, at or below the batch's end, is
  skipped for good (`ArrivalKeepsExactlyAbove`, `LateArrivalIsLost`, `LateArrivalHappens`,
  `LostStaysLost`).
- Deferred rows are said never to lie above the cursor (`mysql_memory_candidate.rs:34-39, 524-528`).
  They do after a remote claim that passes over them, until its own commit, and after a mode
  change, which forgets the cursor and keeps them. `DeferredStaysBelowExactly` says which actions
  break it, `CommitEndsBelowExactly` which commit restores it, `GivenUpClaimStrands` that it
  happens. Such a row is handed out a second time (`StrandedRowsRepeatExactly`,
  `StrandedRowIsHandedOutTwice`), and nothing is lost.
- A repeated delivery uses the envelope's conversation, not the stored one, and can link a
  reply across conversations (`DeliveryKeepsSoundExactly`, `RepetitionCrossesConversations`).
  Convergence of replies therefore assumes that a message id belongs to one conversation of
  its account.
- A recall's own row is linked iff, once it is there, some delivery (first or repeated), heal or
  repair links what waits for the recalled message (`RecallIsLinkedExactlyIfSweptLater`): it
  stays open when the message came before and nothing of the kind follows.
- Correlation keys of recalls collide when ids contain colons (`SharedKeysExactly`), and then the
  recall of one message marks another (`RecallMarksExactlyTheKey`).
- The outbox is keyed by source version without the account, so candidates of one source
  version in two accounts share a reminder (`ReminderIsSharedExactly`).
- A repeated finalisation is refused, harmlessly, iff its gap no longer has the target status
  (`RepeatedFinaliseChangesNothing`, `RepeatFollowsItsGap`, `RepeatIsRefusedWhileReclaimed`).

## Model

| member | source | states |
|---|---|---|
| `AgentStates.AgentState.ApplyOne` | agent-core/src/state.rs:162-177 | one update leaves exactly the value and the verdict of the specification, including a half-done business change on rejection |
| `AgentStates.AgentState.ApplyUpdates` | agent-core/src/state.rs:150-160 | a batch is all-or-nothing: accepted, the object holds the whole batch; rejected, it is unchanged |
| `AgentStates.BatchesCompose` | agent-core/src/state.rs:150-160 | applying a and then b equals applying a ++ b, errors included |
| `AgentStates.OutcomeFreezesState` | agent-core/src/state.rs:162-177 | once an outcome is set an accepted batch holds business updates only and changes nothing but the business value |
| `AgentStates.OutcomeIsKept` | agent-core/src/state.rs:150-177 | an accepted batch never drops or replaces an outcome and only appends messages and observations |
| `AgentStates.BatchAddsExactly` | agent-core/src/state.rs:150-177 | a batch is accepted iff no update is refused in its turn, by an outcome set before it or by the application; then messages, sections, observations, actions, outcome and business value are exactly those of the updates; otherwise the first refusal is reported |
| `Budgets.CheckOptionalLimit` | agent-core/src/graph/budget.rs:212-235 | accepted iff the sum fits the configured limit or, without one, the counter; the error names resource, limit and the saturated attempt |
| `Budgets.RunBudgetHandle.ReserveLlmCall` | agent-core/src/graph/budget.rs:140-151 | a call is counted or refused with the counters untouched |
| `Budgets.RunBudgetHandle.ReserveToolCalls` | agent-core/src/graph/budget.rs:154-165 | a batch of tool calls is counted as a whole or not at all |
| `Budgets.RunBudgetHandle.RecordTokens` | agent-core/src/graph/budget.rs:167-178 | tokens are counted up to the limit |
| `Budgets.RunBudgetHandle.ReserveRunStep` | agent-core/src/graph/budget.rs:186-203 | grants the next step number below both step limits |
| `Budgets.NodeCallsStayWithinLimits` | agent-core/src/graph/budget.rs:140-178 | whatever a node asks of its handle, counters only grow, stay within their limits, and steps are out of its reach |
| `Budgets.ReserveCounts` | agent-core/src/graph/budget.rs:140-178 | a request is granted iff it fits the limit of its own resource, and adds to that counter only |
| `Budgets.CountersAreSums` | agent-core/src/graph/budget.rs:140-178 | over any sequence each counter ends at its start plus the sum of the granted requests for it |
| `Budgets.StepNumbersRepeatOnlyAtTheTop` | agent-core/src/graph/budget.rs:186-203 | a granted step repeats the previous number iff counter and limit both stand at the largest 32-bit value |
| `Definitions.ValidateBranch` | agent-core/src/graph/definition.rs:180-216 | accepts a branch iff its targets are non-empty, exist, and their keys are the duplicate-free known routes; a refusal names a real fault |
| `Definitions.ValidateTransitions` | agent-core/src/graph/definition.rs:170-217 | accepts iff every transition is complete; a refusal names a real fault |
| `Definitions.ValidateReachability` | agent-core/src/graph/definition.rs:234-259 | the forward worklist terminates and accepts iff every node is reached by a walk from the entry |
| `Definitions.NodesThatCanEnd` | agent-core/src/graph/definition.rs:261-299 | the backward worklist computes exactly the nodes with a walk to an End |
| `Definitions.ValidateTerminalPaths` | agent-core/src/graph/definition.rs:261-299 | accepts iff every node can reach an End; a refusal names a real fault |
| `Definitions.GraphDefinition.AddNode` | agent-core/src/graph/definition.rs:67-75 | adds the node, or refuses a duplicate and changes nothing |
| `Definitions.GraphDefinition.SetTransition` | agent-core/src/graph/definition.rs:84-97 | adds the transition, or refuses an unknown source or a second transition |
| `Definitions.GraphDefinition.Compile` | agent-core/src/graph/definition.rs:99-128 | succeeds iff the definition satisfies the declarative meaning of a valid graph; every error is a real fault of the first failing stage |
| `Fragments.GraphFragment.DeclareExit` | agent-core/src/graph/fragment.rs:62-81 | declares an exit, or refuses an invalid or repeated name |
| `Fragments.CollectExits` | agent-core/src/graph/fragment.rs:344-363 | groups exits by source; accepts iff sources exist and no route is declared twice |
| `Fragments.ValidateLocalBranch` | agent-core/src/graph/fragment.rs:371-419 | accepts a branch iff its exits are exactly its known routes without a local target |
| `Fragments.ValidateFragment` | agent-core/src/graph/fragment.rs:323-428 | accepts exactly the fragments that satisfy the declarative predicate PieceOk |
| `Fragments.QualifyInjective` | agent-core/src/graph/fragment.rs:138-175 | namespacing maps distinct local ids to distinct ids |
| `Fragments.GlobalIds` | agent-core/src/graph/fragment.rs:159-177 | the id map is built iff every namespaced id is valid and free in the parent |
| `Fragments.RewriteAgrees` | agent-core/src/graph/fragment.rs:293-321 | rewriting through the id map is rewriting by namespacing |
| `Fragments.Mount` | agent-core/src/graph/fragment.rs:138-230 | succeeds iff namespace, fragment and ids are acceptable; then adds exactly the namespaced rows and open routes; a failed mount changes nothing |
| `Linking.ConnectExit` | agent-core/src/graph/fragment.rs:232-271 | succeeds iff the exit is open under its source and route and the target exists; the expectations and the non-branch case in its body cannot fail |
| `Linking.ConnectKeepsLinked` | agent-core/src/graph/fragment.rs:232-271 | connecting an exit closes that missing route and no other, and keeps the open exits exact |
| `Linking.MissingAfterMount` | agent-core/src/graph/fragment.rs:138-230 | the missing routes after a mount are the old ones and the declared exits of the fragment, namespaced |
| `Linking.MountKeepsLinked` | agent-core/src/graph/fragment.rs:138-230 | mounting keeps "unresolved exits are exactly the missing routes, each once" |
| `Linking.MountedExitsConnect` | agent-core/src/graph/fragment.rs:186-230 | a mount leaves the entry alone and every exit it hands out can be connected to any node |
| `Linking.ExitsStayConnectable` | agent-core/src/graph/fragment.rs:232-271 | an exit stays connectable, whatever else is built, until it is connected |
| `Linking.BuildAll` | agent-core/src/graph/fragment.rs:138-271 | every sequence of builder calls, from nothing, produces a definition whose unresolved exits are exactly its missing routes |
| `Linking.ConnectedMountsCompile` | agent-core/src/graph/definition.rs:170-217 | with all exits connected a mounted node passes the transition check iff it is not a branch of a router without routes |
| `Linking.MountedFaultIsEmptyBranch` | agent-core/src/graph/definition.rs:170-217 | so the only transition error the compiler can raise at a mounted node is an empty branch |
| `Linking.MountEmbedsEdges` | agent-core/src/graph/fragment.rs:293-321 | from a mounted node lead exactly the images of the fragment's edges |
| `Linking.MountKeepsOldEdges` | agent-core/src/graph/fragment.rs:138-230 | the parent's own nodes keep exactly their edges |
| `Linking.MountEmbedsWalks` | agent-core/src/graph/fragment.rs:278-321 | a sequence of local nodes is a walk of the fragment iff its image is a walk of the mounted graph |
| `Embedding.EveryMountIsHosted` | agent-core/src/graph/fragment.rs:138-271 | whatever is built after a mount, the definition keeps the image of every node of the fragment, with its routes |
| `Embedding.StepOfImage` | agent-core/src/graph/fragment.rs:278-321 | one iteration at the image of a configuration is the image of the iteration the fragment makes alone: next node, state, counters, effect ids, suspension and errors; an open route that was connected leads on to its target instead, with what the node committed |
| `Embedding.MountPreservesRuns` | agent-core/src/graph/fragment.rs:138-321 | in whatever is built after a mount the whole run from a mounted node is the image of the fragment's own run, effect for effect and error for error, until it takes a connected exit; there it goes on from the target |
| `Embedding.ExitsAreDeclared` | agent-core/src/graph/fragment.rs:371-419 | with all exits connected, a route leads out of a mounted fragment iff it is one of its declared exits |
| `Embedding.ConnectPreservesSteps` | agent-core/src/graph/fragment.rs:232-271 | connecting an exit changes no iteration of any run but the one that failed for want of this route, which goes on to the target |
| `Checkpoints.InMemoryCheckpointStore.Save` | agent-core/src/graph/checkpoint_store.rs:86-95 | saves, or refuses an id that is live or consumed |
| `Checkpoints.InMemoryCheckpointStore.Load` | agent-core/src/graph/checkpoint_store.rs:97-106 | reads a live checkpoint and changes nothing |
| `Checkpoints.InMemoryCheckpointStore.Take` | agent-core/src/graph/checkpoint_store.rs:108-119 | moves a live checkpoint to the consumed ids |
| `Checkpoints.FateOfIds` | agent-core/src/graph/checkpoint_store.rs:86-119 | under every interleaving live and consumed ids stay apart, consumed stays consumed, and a live checkpoint keeps its value until taken |
| `Checkpoints.TakenAtMostOnce` | agent-core/src/graph/checkpoint_store.rs:108-119 | among any interleaved calls at most one take of an id succeeds |
| `Checkpoints.LoadedIsTaken` | agent-core/src/graph/checkpoint_store.rs:97-119 | the checkpoint loaded earlier is the one a later take returns |
| `Checkpoints.SavedIsHandedOut` | agent-core/src/graph/checkpoint_store.rs:86-119 | what a load or take hands out is what was saved under the id, whatever came between |
| `Checkpoints.SavedAtMostOnce` | agent-core/src/graph/checkpoint_store.rs:86-95 | a used id is never saved again |
| `Checkpoints.ConsumedIsTaken` | agent-core/src/graph/checkpoint_store.rs:108-119 | the consumed set is exactly the ids on which some take succeeded |
| `Runtime.StepUsesOneStep` | agent-core/src/graph/runtime.rs:244-246 | each iteration that goes on uses exactly one step, so the distance to the limit is a termination measure |
| `Runtime.Start` | agent-core/src/graph/runtime.rs:245-279 | the readiness check, step grant and node call succeed only at an existing node and for the next step number |
| `Runtime.GraphRuntime.PerformEffects` | agent-core/src/graph/runtime.rs:321-377 | the effect loop computes the specified candidate, counters, receipts, executor calls and error |
| `Runtime.GraphRuntime.StartNode` | agent-core/src/graph/runtime.rs:245-279 | checks, grants and runs the node as specified |
| `Runtime.GraphRuntime.CommitNode` | agent-core/src/graph/runtime.rs:312-377 | works on a copy of the state and returns it only if tokens, updates and effects all succeed |
| `Runtime.GraphRuntime.ChooseNext` | agent-core/src/graph/runtime.rs:395-425 | the next node is the one the transition names for the committed state |
| `Runtime.GraphRuntime.ExecuteFrom` | agent-core/src/graph/runtime.rs:235-474 | the run loop returns the result, checkpoint or error of the recursive meaning of a run, stores at most that checkpoint, and makes exactly its executor calls |
| `Runtime.GraphRuntime.RunWithContext` | agent-core/src/graph/runtime.rs:71-99 | a run that may not suspend never returns a checkpoint and leaves the store alone: the three unreachable arms are |
| `Runtime.GraphRuntime.RunCheckpointed` | agent-core/src/graph/runtime.rs:110-127 | without a store it fails before running; with one it runs from the entry |
| `Runtime.GraphRuntime.Resume` | agent-core/src/graph/runtime.rs:143-233 | validates in order, takes the checkpoint only when everything passed, continues from it and makes exactly the executor calls of that run; a refused resume leaves the store unchanged and calls nothing |
| `RunTheorems.EffectsAreNumbered` | agent-core/src/graph/runtime.rs:324-377 | a node's executor calls are ordinals 0..k-1; a failure names the last one and reports exactly the ones below it as completed |
| `NodeAnswers.CommitIsOneBatch` | agent-core/src/graph/runtime.rs:313-379 | a node commits its updates followed by those of its receipts, as one batch over the state it was given |
| `NodeAnswers.EffectsAreAnswered` | agent-core/src/graph/runtime.rs:324-377 | the k-th effect asked for is the one performed under ordinal k, with the counters its predecessors left; its receipt, or the reported failure, is what the executor answered to it |
| `NodeAnswers.StepIsExact` | agent-core/src/graph/runtime.rs:244-473 | an iteration runs the node it stands at on its state, performs exactly the effects asked for, commits the node's updates and those of the receipts, goes where the transition and the chosen route lead, and pauses iff asked to |
| `NodeAnswers.StepFailsTruly` | agent-core/src/graph/runtime.rs:280-425 | and a failing one names a reason that holds |
| `NodeAnswers.StartsExactly` | agent-core/src/graph/runtime.rs:244-279 | the node runs iff neither interruption, step limit, missing node nor its own failure stops it; each is reported as what it is |
| `RunTheorems.StepIsSound` | agent-core/src/graph/runtime.rs:244-473 | one iteration keeps the run invariant: walk from the entry, one step per visit, counters within limits, numbered receipts equal to the executor calls, and the receipts are the answers to exactly what the visited nodes asked for |
| `RunTheorems.ExecuteIsSound` | agent-core/src/graph/runtime.rs:244-473 | so does a whole stretch: a completed one is a walk to an End with an outcome, a failed one reports truthfully, and missing nodes or transitions do not occur |
| `Sessions.ResumeGoesOn` | agent-core/src/graph/runtime.rs:156-228 | a run's own checkpoint passes every validation, so only the input can be refused; otherwise the run goes on from it |
| `Sessions.ResumesExactly` | agent-core/src/graph/runtime.rs:156-206 | a resume consumes its checkpoint iff that is live and graph, version, schema, position, node and input agree; a refused one names a check that failed and leaves the store as it was |
| `Sessions.DrivenRunIsSound` | agent-core/src/graph/runtime.rs:143-474 | the run invariant holds through any number of suspensions and inputs: usage never falls or passes a limit, a set outcome freezes the state, and the executor calls of all stretches together are the receipts of a completed run, each made once and answering an effect its node asked for |
| `Sessions.CompiledRunIsSound` | agent-core/src/graph/runtime.rs:110-233 | the same for every run of a compiled definition from its start |
| `Sessions.UnsuspendedRun` | agent-core/src/graph/runtime.rs:280-311 | without suspensions a stretch makes the same steps, up to a pause or a suspension asked for at an End |
| `Sessions.SuspensionIsTransparent` | agent-core/src/graph/runtime.rs:143-311 | resumed each time with an input that changes nothing, a run answers as if its nodes had continued, and makes the same executor calls, iff the last iteration of the continued run is not at an End whose node asks to suspend; for every schedule of cancellations and deadlines |
| `Sessions.TransparentUnlessEndsSuspend` | agent-core/src/graph/runtime.rs:143-311 | so it does outright in a graph whose nodes at an End never suspend |
| `Sessions.SuspendingAtAnEndFails` | agent-core/src/graph/runtime.rs:302-311 | and a run of one suspending node at an End fails, where continuing completes it |
| `Resumption.NewCallsAreNew` | agent-core/src/graph/runtime.rs:321-377 | the calls of one more iteration are new to the log shared by all runs |
| `Resumption.EveryWorldIsSafe` | agent-core/src/graph/runtime.rs:156-228 | with loads, takes and iterations of many callers interleaved, each run is held by at most one caller or checkpoint and the log holds exactly its receipts, while it runs, is suspended or has completed |
| `Resumption.CompletedRunsAreAccounted` | agent-core/src/graph/runtime.rs:321-474 | whoever resumed it and however often, the executor calls ever made for a completed run are exactly those its receipts name |
| `Resumption.NoEffectIsDispatchedTwice` | agent-core/src/graph/runtime.rs:321-377 | in no interleaving is an effect handed to the executor twice |
| `Resumption.OnlyTakesAndPausesChangeTheStore` | agent-core/src/graph/runtime.rs:156-206 | throughout any interleaving the store stays as it is iff nobody takes a live checkpoint or pauses under a new id; loads, refused validations and lost races leave it alone |
| `MemoryCandidates.BothModesAllowed` | personal-secretary-mysql/src/repo/mysql_memory_candidate.rs:454-492 | filtering both modes equals filtering the stricter one |
| `MemoryCandidates.SwitchPointFindsThePrefix` | personal-secretary-mysql/src/repo/mysql_memory_candidate.rs:396-492 | the rows below the switch point are the same-conversation prefix of the ordered events |
| `MemoryCandidates.RowsSkipNothing` | personal-secretary-mysql/src/repo/mysql_memory_candidate.rs:330-492 | a batch skips no event of the query below its last row |
| `MemoryCandidates.BoundedKeepsRows` | personal-secretary-mysql/src/repo/mysql_memory_candidate.rs:982-1015 | one event per row in order, with its trust; a text is omitted iff it exceeds the limit for one event or what the events before it leave of the limit for all |
| `MemoryCandidates.MySqlMemoryCandidateStore.SelectRows` | personal-secretary-mysql/src/repo/mysql_memory_candidate.rs:330-510 | the query form returns take(max, takeWhile(same conversation, events in order)) |
| `MemoryCandidates.MySqlMemoryCandidateStore.BuildCandidateEvents` | personal-secretary-mysql/src/repo/mysql_memory_candidate.rs:982-1014 | the loop over truncated texts equals bounding the whole ones |
| `MemoryCandidates.MySqlMemoryCandidateStore.ClaimDeferredBatch` | personal-secretary-mysql/src/repo/mysql_memory_candidate.rs:41-240 | drops dead rows and takes a batch of the side queue at the unchanged cursor |
| `MemoryCandidates.MySqlMemoryCandidateStore.ClaimCandidateBatch` | personal-secretary-mysql/src/repo/mysql_memory_candidate.rs:245-594 | the claim transaction: lease, side queue, main batch, deferral, release, or rollback as a whole |
| `MemoryCandidates.MySqlMemoryCandidateStore.CommitCandidates` | personal-secretary-mysql/src/repo/mysql_memory_candidate.rs:596-769 | fenced commit: candidates once per fingerprint, consumed rows leave the queue, the cursor moves; any error changes nothing |
| `MemoryCandidates.MySqlMemoryCandidateStore.ReleaseCandidateClaim` | personal-secretary-mysql/src/repo/mysql_memory_candidate.rs:771-791 | gives up the lease of this token only |
| `MemoryCandidates.MySqlMemoryCandidateStore.SetConversationMode` | personal-secretary-mysql/src/repo/mysql_memory.rs:527-568 | a changed mode forgets cursor and lease with it |
| `ExtractionCommits.InsertionStores` | personal-secretary-mysql/src/repo/mysql_memory_candidate.rs:626-696 | an accepted insertion keeps every row, stores each new fingerprint once under the id of the first candidate that brought it and counts the rows added; it is refused iff a new fingerprint comes under a taken id |
| `ExtractionCommits.CommitIsAcceptedExactly` | personal-secretary-mysql/src/repo/mysql_memory_candidate.rs:596-769 | a commit is accepted iff all candidates are valid, the lease is owned and no id clashes; then it stores them, takes the batch out of the side queue, moves the cursor and gives up the lease; otherwise nothing changes |
| `ExtractionCommits.CandidatesAreKept` | personal-secretary-mysql/src/repo/mysql_memory_candidate.rs:596-769 | over every run stored candidates stay and no fingerprint is stored twice |
| `ExtractionCommits.CommittedCandidatesStay` | personal-secretary-mysql/src/repo/mysql_memory_candidate.rs:596-769 | what an accepted commit was given is stored ever after |
| `ExtractionCommits.ClaimsShowOnlyWhatIsAllowed` | personal-secretary-mysql/src/repo/mysql_memory_candidate.rs:253-594 | a worker is handed only events whose two modes it may see and that are not recalled, of one conversation, in order and within the limits, under a free lease of an active account |
| `ExtractionCommits.ClaimsHandOutExactly` | personal-secretary-mysql/src/repo/mysql_memory_candidate.rs:253-594 | and is handed something iff there is something for it |
| `ExtractionCommits.RowsAreMaximal` | personal-secretary-mysql/src/repo/mysql_memory_candidate.rs:330-522 | a batch stops short of its limit only where the events end or another conversation begins |
| `ExtractionCommits.RemoteClaimDefersExactly` | personal-secretary-mysql/src/repo/mysql_memory_candidate.rs:524-569 | a remote claim defers exactly what its batch passes over and only a local model may see |
| `ExtractionCommits.LocalClaimCleansExactly` | personal-secretary-mysql/src/repo/mysql_memory_candidate.rs:59-85 | a local claim drops exactly the deferred rows nobody may see any more |
| `ExtractionCommits.LeaseIsExclusive` | personal-secretary-mysql/src/repo/mysql_memory_candidate.rs:253-330 | over every run, while a lease lasts nobody else is handed anything and the cursor stays |
| `ExtractionCommits.ClaimedCanCommit` | personal-secretary-mysql/src/repo/mysql_memory_candidate.rs:596-640 | so a worker that claimed can commit exactly until its lease expires |
| `ExtractionCommits.ReleaseFreesExactly` | personal-secretary-mysql/src/repo/mysql_memory_candidate.rs:771-792 | a release gives up the lease of its own token and no other |
| `ExtractionCommits.SwitchSetsExactly` | personal-secretary-mysql/src/repo/mysql_memory.rs:1089-1096 | a changed mode is set for its conversation only and forgets cursor and lease |
| `MemoryCoverage.MainBatchIsComplete` | personal-secretary-mysql/src/repo/mysql_memory_candidate.rs:330-594 | every eligible event up to the batch's end is in the batch or deferred |
| `MemoryCoverage.NothingIsSkipped` | personal-secretary-mysql/src/repo/mysql_memory_candidate.rs:253-769 | in every reachable state every eligible event at or below the cursor was extracted or is deferred |
| `MemoryCoverage.NothingIsSkippedFromTheStart` | personal-secretary-mysql/src/repo/mysql_memory_candidate.rs:253-769 | the same from an account never extracted before |
| `MemoryCoverage.ArrivalKeepsExactlyAbove` | personal-secretary-mysql/src/repo/mysql_memory_candidate.rs:454-522 | an arriving event keeps the invariant iff it is not extractable or lies above the cursor and the batch in flight |
| `MemoryCoverage.LateArrivalIsLost` | personal-secretary-mysql/src/repo/mysql_memory_candidate.rs:733-757 | an eligible event that arrives below the batch in flight is skipped by its commit |
| `MemoryCoverage.LateArrivalHappens` | personal-secretary-mysql/src/repo/mysql_memory_candidate.rs:253-769 | and there is such a run from an account never extracted before |
| `MemoryCoverage.LostStaysLost` | personal-secretary-mysql/src/repo/mysql_memory_candidate.rs:253-769 | over every run without a mode change, or its own recall or restriction, a skipped event is never extracted and never queued |
| `MemoryCoverage.CommitsMakeProgress` | personal-secretary-mysql/src/repo/mysql_memory_candidate.rs:596-769 | an accepted commit strictly advances the cursor or strictly shrinks the side queue |
| `SideQueues.RemoteClaimKeepsBelowExactly` | personal-secretary-mysql/src/repo/mysql_memory_candidate.rs:524-569 | a remote claim leaves every deferred row at or below the cursor iff its batch passes over nothing |
| `SideQueues.SwitchKeepsBelowExactly` | personal-secretary-mysql/src/repo/mysql_memory.rs:1089-1096 | a mode change does iff it changes nothing or nothing is deferred |
| `SideQueues.CommitEndsBelowExactly` | personal-secretary-mysql/src/repo/mysql_memory_candidate.rs:704-769 | an accepted commit ends with it iff its next cursor reaches every row it leaves deferred |
| `SideQueues.CommitsNeverStrand` | personal-secretary-mysql/src/repo/mysql_memory_candidate.rs:34-39 | where nothing is skipped no commit breaks it |
| `SideQueues.OwnCommitRestores` | personal-secretary-mysql/src/repo/mysql_memory_candidate.rs:524-528 | a claim followed by its own commit ends with every deferred row at or below the cursor |
| `SideQueues.DeferredStaysBelowExactly` | personal-secretary-mysql/src/repo/mysql_memory_candidate.rs:34-39 | throughout a run the deferred rows stay at or below the cursor iff no action of the run is a passing-over remote claim, a mode change over deferred rows, or a commit short of them |
| `SideQueues.StrandedRowsRepeatExactly` | personal-secretary-mysql/src/repo/mysql_memory_candidate.rs:524-528 | a row handed out by the side queue and committed is handed out again by the main path iff it lay above the cursor |
| `SideQueues.GivenUpClaimStrands` | personal-secretary-mysql/src/repo/mysql_memory_candidate.rs:524-594 | from an account never extracted before, a remote claim that is given up leaves rows deferred above a cursor never set |
| `SideQueues.StrandedRowIsHandedOutTwice` | personal-secretary-mysql/src/repo/mysql_memory_candidate.rs:253-769 | from there a local worker is handed and commits a row from the side queue, and is handed it once more by the main path |
| `SideQueues.LocalWorkerDrainsTheLog` | personal-secretary-mysql/src/repo/mysql_memory_candidate.rs:253-769 | from any reachable state, as many rounds of one local worker as there is work left extract every event that may be extracted |
| `NotificationPolicies.MySqlNotificationPolicyStore.FindCommandRevision` | personal-secretary-mysql/src/repo/mysql_notification_policy.rs:1622-1644 | finds a family iff the command already wrote a revision for the account |
| `NotificationPolicies.MySqlNotificationPolicyStore.AppendRevision` | personal-secretary-mysql/src/repo/mysql_notification_policy.rs:1693-1822 | revision, head and epoch move together or not at all |
| `NotificationPolicies.MySqlNotificationPolicyStore.CreateOrReplacePolicy` | personal-secretary-mysql/src/repo/mysql_notification_policy.rs:108-164 | the write transaction, idempotent per command |
| `NotificationPolicies.MySqlNotificationPolicyStore.DisablePolicy` | personal-secretary-mysql/src/repo/mysql_notification_policy.rs:166-211 | appends a tombstone iff the expected generation holds |
| `NotificationPolicies.MySqlNotificationPolicyStore.RecordFeedbackOnce` | personal-secretary-mysql/src/repo/mysql_notification_policy.rs:213-253 | feedback is stored once and promoted only then; a failed promotion undoes it |
| `NotificationPolicies.MySqlNotificationPolicyStore.ApplyWriteEffect` | personal-secretary-mysql/src/repo/mysql_notification_policy.rs:1329-1386 | the effect path writes a rule revision |
| `NotificationPolicies.MySqlNotificationPolicyStore.ApplyDisableEffect` | personal-secretary-mysql/src/repo/mysql_notification_policy.rs:1231-1262 | the effect path appends a tombstone |
| `NotificationPolicies.WritesSplit` | personal-secretary-mysql/src/repo/mysql_notification_policy.rs:1806-1822 | the sum of generation - 1 over families does not depend on their order |
| `NotificationPolicies.EveryWriteKeepsHistory` | personal-secretary-mysql/src/repo/mysql_notification_policy.rs:1693-1822 | every write, repeated or refused, keeps revisions numbered without gaps, each superseding the one before, the head last, and epoch = start + sum of (generation - 1); an epoch stands still only if the heads do |
| `NotificationPolicies.HistoryIsConserved` | personal-secretary-mysql/src/repo/mysql_notification_policy.rs:108-253 | the same over every sequence of writes |
| `PolicyCommands.WritesExactly` | personal-secretary-mysql/src/repo/mysql_notification_policy.rs:108-303 | a write is accepted iff its request is in order and it repeats one done before or is feasible; a repetition or refusal changes nothing; otherwise exactly one revision with its content is added as the head of its family and the epoch moves by one |
| `PolicyCommands.CommandsAreCarriedOutOnce` | personal-secretary-mysql/src/repo/mysql_notification_policy.rs:121-130 | a command or feedback carried out once is never carried out again, whatever is written in between and whatever ids the repetition brings |
| `NotificationEvaluation.MySqlNotificationEvaluationStore.ProduceFromLockedSource` | personal-secretary-mysql/src/repo/mysql_notification_candidate_producer.rs:150-246 | one candidate and one request per source version; repetition changes nothing |
| `NotificationEvaluation.MySqlNotificationEvaluationStore.ClaimEvaluation` | personal-secretary-mysql/src/repo/mysql_notification_policy.rs:417-480 | claims a due or expired request under a new token, or tells there is none |
| `NotificationEvaluation.MySqlNotificationEvaluationStore.ReadGlimpse` | personal-secretary-mysql/src/repo/mysql_notification_policy.rs:482-532 | the first read: claimed request, candidate, epoch and the only binding |
| `NotificationEvaluation.MySqlNotificationEvaluationStore.ReadHeads` | personal-secretary-mysql/src/repo/mysql_notification_policy.rs:533-613 | the second read: all heads, or none when there are too many |
| `NotificationEvaluation.MySqlNotificationEvaluationStore.FencesHold` | personal-secretary-mysql/src/repo/mysql_notification_policy.rs:691-717 | the fence loop accepts iff every family of the snapshot still has its head |
| `NotificationEvaluation.MySqlNotificationEvaluationStore.CommitEvaluation` | personal-secretary-mysql/src/repo/mysql_notification_policy.rs:616-843 | the commit transaction: lease check, staleness, fences, decision, reminder once per occurrence, final status |
| `NotificationEvaluation.MySqlNotificationEvaluationStore.RecoverExpiredEvaluations` | personal-secretary-mysql/src/repo/mysql_notification_policy.rs:845-875 | reopens expired claims, the first to expire first, all of them when the limit allows |
| `EvaluationSafety.WriteKeepsSnapshots` | personal-secretary-mysql/src/repo/mysql_notification_policy.rs:482-614 | as long as the epoch read first stands, the heads read later stay exact under any policy write |
| `EvaluationSafety.AppliedMeansExactHeads` | personal-secretary-mysql/src/repo/mysql_notification_policy.rs:482-717 | an applied commit decided on exactly the account's heads at that moment, none missing, whatever was written between the two reads and the commit |
| `EvaluationSafety.FencesNeverFire` | personal-secretary-mysql/src/repo/mysql_notification_policy.rs:691-717 | a snapshot with the current epoch always passes the per-family fences |
| `EvaluationSafety.NewStoreIsSane` | personal-secretary-mysql/src/repo/mysql_notification_candidate_producer.rs:150-246 | a store without candidates satisfies the invariant every run keeps |
| `EvaluationSafety.EveryRunDecidesOnce` | personal-secretary-mysql/src/repo/mysql_notification_policy.rs:417-875 | over every run of producing, writing, claiming, recovering, requeueing and committing, a candidate, one per account and source version, gets at most one decision other than a delay |
| `EvaluationSafety.RemindedExactlyWhenDecided` | personal-secretary-mysql/src/repo/mysql_notification_policy.rs:754-818 | a source version has its one outbox reminder iff some decision was to remind |
| `EvaluationSafety.ReminderIsSharedExactly` | personal-secretary-mysql/src/repo/mysql_notification_policy.rs:754-818 | a decision to remind gets a reminder of its own iff its source version has none yet; the one there belongs to another account's candidate of the same source version |
| `EvaluationSafety.FinishedNeverMoves` | personal-secretary-mysql/src/repo/mysql_notification_policy.rs:2112-2164 | a completed or terminal request and its candidate never change again |
| `EvaluationSafety.RetiredTokensStayRetired` | personal-secretary-mysql/src/repo/mysql_notification_policy.rs:616-648 | a replaced lease token never holds a request again and commits nothing |
| `EvaluationSafety.NewHolderRetiresOldToken` | personal-secretary-mysql/src/repo/mysql_notification_policy.rs:417-480 | taking a request away retires its token |
| `EvaluationOutcomes.CommitsExactly` | personal-secretary-mysql/src/repo/mysql_notification_policy.rs:616-843 | a commit is applied iff lease, candidate, source, binding, epoch and heads still hold and the plan is complete; then decision, winning revision, delay and both statuses are recorded; a stale one requeues, any other refusal changes nothing |
| `EvaluationOutcomes.UndisturbedCommitApplies` | personal-secretary-mysql/src/repo/mysql_notification_policy.rs:482-717 | a worker nobody disturbed between its reads and its commit is applied |
| `EvaluationOutcomes.ClaimLastsExactly` | personal-secretary-mysql/src/repo/mysql_notification_policy.rs:417-480 | a claim holds exactly until its lease runs out, and then the request may be claimed |
| `EvaluationOutcomes.ClaimIsExclusive` | personal-secretary-mysql/src/repo/mysql_notification_policy.rs:417-875 | over every run, while the lease lasts the request is its holder's |
| `EvaluationOutcomes.RecoversExactly` | personal-secretary-mysql/src/repo/mysql_notification_policy.rs:845-875 | recovering requeues exactly the chosen claims, with their waits and attempts |
| `EvaluationOutcomes.DelayIsKept` | personal-secretary-mysql/src/repo/mysql_notification_policy.rs:417-480 | over every run a delayed request is claimable from the decided time on and not earlier |
| `EvaluationOutcomes.DecisionsAreKept` | personal-secretary-mysql/src/repo/mysql_notification_policy.rs:718-753 | a decision is never changed or lost, its winning revision included |
| `EvaluationOutcomes.ProducesExactly` | personal-secretary-mysql/src/repo/mysql_notification_candidate_producer.rs:150-246 | a new source version gets one waiting candidate with a request claimable at once |
| `EvaluationOutcomes.LooksExactly` | personal-secretary-mysql/src/repo/mysql_notification_policy.rs:482-532 | the first read tells candidate, source, epoch and the only binding, or nothing |
| `EvaluationOutcomes.ReadsHeadsExactly` | personal-secretary-mysql/src/repo/mysql_notification_policy.rs:533-613 | the second read has exactly the account's heads, with the rules that stand in the tables |
| `Replies.BackoffNeverShrinks` | personal-secretary-mysql/src/repo/mysql_reconcile.rs:225-230 | the retry wait is positive, bounded and never shrinks with attempts, saturation included |
| `ReplyQueues.BackoffDoubles` | personal-secretary-mysql/src/repo/mysql_reconcile.rs:225-230 | the wait starts at the initial one and doubles up to the ceiling and to 63 doublings |
| `Replies.MySqlInboundEventStore.ResolvePendingReplies` | personal-secretary-mysql/src/repo/mysql_inbound.rs:658-710 | links every waiting child of the conversation and drops the queue rows of linked ones |
| `Replies.MySqlInboundEventStore.ProcessMessage` | personal-secretary-mysql/src/repo/mysql_inbound.rs:194-391 | one delivery, new or repeated, as far as replies are concerned |
| `Replies.MySqlInboundEventStore.InsertMessagesIfAbsent` | personal-secretary-mysql/src/repo/mysql_inbound.rs:81-151 | a batch processes its messages in order and then heals each reply |
| `Replies.MySqlInboundEventStore.ClaimReconcileBatch` | personal-secretary-mysql/src/repo/mysql_reconcile.rs:45-134 | claims up to the limit of due unresolved rows, all of them if they fit |
| `Replies.MySqlInboundEventStore.ResolveClaimedPendingReply` | personal-secretary-mysql/src/repo/mysql_reconcile.rs:136-260 | under a valid lease clears, links or backs off; otherwise changes nothing |
| `ReplyTheorems.EveryRunIsSound` | personal-secretary-mysql/src/repo/mysql_inbound.rs:161-391 | in every run links lead to the answered message in the same conversation, and every unresolved message is queued |
| `ReplyTheorems.RepairPassSettles` | personal-secretary-mysql/src/repo/mysql_reconcile.rs:45-260 | one pass over the queue, in any order and with any retry waits, links every reply whose parent is stored |
| `ReplyTheorems.RepliesConverge` | personal-secretary-mysql/src/repo/mysql_inbound.rs:161-391 | two runs that delivered the same messages agree on every repaired reply: linked iff the answered message was delivered in the same conversation |
| `ReplyTheorems.DeliveryKeepsSoundExactly` | personal-secretary-mysql/src/repo/mysql_inbound.rs:256-282 | a delivery keeps links sound iff it does not repeat a message stored under another conversation while replies wait for it here |
| `ReplyTheorems.RepetitionCrossesConversations` | personal-secretary-mysql/src/repo/mysql_inbound.rs:256-282 | and there is a run from an empty store in which such a repetition links across conversations |
| `ReplyTheorems.WaitingIsLinkedOnceSwept` | personal-secretary-mysql/src/repo/mysql_inbound.rs:658-710 | over any run a waiting row is linked, to what it waits for, iff some step runs the linking update for that message and reaches the row |
| `ReplyTheorems.RecallIsLinkedExactlyIfSweptLater` | personal-secretary-mysql/src/repo/mysql_inbound.rs:666-685 | so the row of a recall is linked iff, after it was recorded, a first or repeated delivery, a heal or a repair links what waits for the recalled message |
| `ReplyTheorems.RecallLinkDependsOnOrder` | personal-secretary-mysql/src/repo/mysql_recall.rs:166-373 | message then recall leaves that row open, recall then message links it, and so does repeating the message after the recall |
| `ReplyQueues.AttemptsExactly` | personal-secretary-mysql/src/repo/mysql_reconcile.rs:136-260 | an attempt links the row iff its parent is there; otherwise the row is put back with one more attempt, claimable exactly when its longer wait is over |
| `ReplyQueues.ClaimLastsExactly` | personal-secretary-mysql/src/repo/mysql_reconcile.rs:45-134 | a claim of a row holds exactly until its lease runs out |
| `ReplyQueues.QueueIsExact` | personal-secretary-mysql/src/repo/mysql_inbound.rs:161-391 | in every run a message that does not answer itself is queued iff it is stored and unresolved, and nothing else is queued |
| `ReplyQueues.RetriesAreKept` | personal-secretary-mysql/src/repo/mysql_inbound.rs:283-322 | a waiting row keeps lease, attempts and wait through everything that is not about it, repeated deliveries included |
| `ReplyQueues.AnswersExactly` | personal-secretary-mysql/src/repo/mysql_inbound.rs:194-391 | a delivery is answered as a duplicate iff its message was delivered before, a first one with the link its row gets |
| `ReplyQueues.BatchIsARun` | personal-secretary-mysql/src/repo/mysql_inbound.rs:81-151 | a batch is its deliveries in order followed by a heal of each |
| `ReplyQueues.BatchLinksItsReplies` | personal-secretary-mysql/src/repo/mysql_inbound.rs:81-151 | after a batch every reply in it whose parent is stored in its conversation is linked |
| `Recalls.KeysDiffer` | personal-secretary/src/domain/recall.rs:116-126 | correlation keys tell messages apart when conversation ids have no colon |
| `Recalls.SharedKeysExactly` | personal-secretary/src/domain/recall.rs:116-126 | a message shares its key with another iff its conversation id or message id contains a colon |
| `Recalls.MySqlRecallStore.ApplyPendingTombstone` | personal-secretary-mysql/src/repo/mysql_recall.rs:375-452 | turns the pending tombstone of the key into an applied one and invalidates the artifacts |
| `Recalls.MySqlRecallStore.IngestMessage` | personal-secretary-mysql/src/repo/mysql_inbound.rs:1014-1066 | a delivery, repeated or not, applies a waiting tombstone |
| `Recalls.MySqlRecallStore.RecordRecallEvent` | personal-secretary-mysql/src/repo/mysql_recall.rs:167-373 | records a recall once, applied or pending as the message is there or not |
| `Recalls.MySqlRecallStore.CreateArtifactEnvelope` | personal-secretary-mysql/src/repo/mysql_artifact.rs:315-447 | an artifact of a recalled event is stored as recalled |
| `Recalls.MySqlRecallStore.InvalidateForRecall` | personal-secretary-mysql/src/repo/mysql_artifact.rs:504-527 | the available artifacts of the event, and no others, become recalled |
| `Recalls.MySqlRecallStore.ExpireDueArtifacts` | personal-secretary-mysql/src/repo/mysql_artifact.rs:558-580 | due available artifacts expire |
| `Recalls.RecallsConverge` | personal-secretary-mysql/src/repo/mysql_recall.rs:166-373 | in any order and with any replays: a recall's tombstone is applied iff its message was delivered, the message counts as recalled iff both happened, and then no stored artifact of it is available |
| `ArtifactAvailability.AvailableExactly` | personal-secretary-mysql/src/repo/mysql_artifact.rs:504-580 | over every run an available artifact is available at the end iff by then its own source is not recalled and no step invalidated its own source or expired it; nothing else of it changes |
| `ArtifactAvailability.StoredStaysAvailableExactly` | personal-secretary-mysql/src/repo/mysql_artifact.rs:315-447 | in terms of what was delivered and recalled: an artifact stored available stays so iff its message is recalled at no time and no later step invalidates or expires it |
| `ArtifactAvailability.StoresExactly` | personal-secretary-mysql/src/repo/mysql_artifact.rs:315-447 | an unknown source or known id changes nothing; otherwise the row is as asked for, recalled if its message is |
| `Recalls.RecallMarksExactlyTheKey` | personal-secretary-mysql/src/repo/mysql_inbound.rs:1022-1043 | a new message is marked by the recall recorded before it iff the two share their key and that recall still waits, whoever it meant |
| `Recalls.FirstRecallMarksExactlyTheKey` | personal-secretary-mysql/src/repo/mysql_inbound.rs:1022-1043 | from an empty store the recall of one message marks another iff their keys are equal |
| `Recalls.CollidingKeyRecallsAnotherMessage` | personal-secretary-mysql/src/repo/mysql_inbound.rs:1022-1043 | so with a colon in a conversation id a message nobody recalled is treated as recalled |
| `Backfills.MySqlBackfillStore.ClaimNextGap` | personal-secretary-mysql/src/repo/mysql_backfill.rs:40-169 | claims the longest untouched eligible gap with a new run and token, or tells there is none |
| `Backfills.MySqlBackfillStore.ReclaimExpired` | personal-secretary-mysql/src/repo/mysql_backfill.rs:171-271 | takes over expired runs only, each under a fresh token, all of them if they fit the limit |
| `Backfills.MySqlBackfillStore.RecordScopeProgress` | personal-secretary-mysql/src/repo/mysql_backfill.rs:340-444 | only the token holder of an active run renews it and records progress |
| `Backfills.MySqlBackfillStore.FinalizeRun` | personal-secretary-mysql/src/repo/mysql_backfill.rs:528-750 | ends an active run, moves its gap and reschedules it; a retry under the same token changes nothing |
| `Backfills.FinishKeepsFenceExactly` | personal-secretary-mysql/src/repo/mysql_backfill.rs:571-681 | ending a run keeps the fence iff the target status is not backfilling |
| `Backfills.FenceHoldsOverEveryRun` | personal-secretary-mysql/src/repo/mysql_backfill.rs:40-750 | in every reachable state a gap is backfilling iff exactly one of its runs is active |
| `Backfills.FenceHoldsFromTheStart` | personal-secretary-mysql/src/repo/mysql_backfill.rs:40-750 | in particular in every run from an empty store |
| `Backfills.FinalisedRunsStay` | personal-secretary-mysql/src/repo/mysql_backfill.rs:528-681 | a finalised run keeps its row and token for ever, so it is finalised at most once |
| `Backfills.RepeatedFinaliseChangesNothing` | personal-secretary-mysql/src/repo/mysql_backfill.rs:547-569 | repeating an accepted finalisation at any later time changes nothing, and is accepted again iff the gap is still where it was put |
| `Backfills.RepeatFollowsItsGap` | personal-secretary-mysql/src/repo/mysql_backfill.rs:547-569 | the repetition is accepted, refused once the gap is claimed again, and after the next run ends accepted iff that run put the gap back in the queue as well |
| `Backfills.RepeatIsRefusedWhileReclaimed` | personal-secretary-mysql/src/repo/mysql_backfill.rs:536-569 | and there is such a run from an empty store |
| `Backfills.RotatedTokensDoNothing` | personal-secretary-mysql/src/repo/mysql_backfill.rs:753-787 | a rotated token never works again and its calls change nothing |
| `Backfills.ReclaimRotates` | personal-secretary-mysql/src/repo/mysql_backfill.rs:215-255 | reclaiming an expired run rotates its token |
| `BackfillSchedules.ReturnsExactly` | personal-secretary-mysql/src/repo/mysql_backfill.rs:683-750 | after a finalisation that requeues its gap, it is claimable from 9999-12-31 on when the cutoff was reached or only known scopes are complete, after the back-off when nothing could be proved, at once otherwise |
| `BackfillSchedules.WaitLasts` | personal-secretary-mysql/src/repo/mysql_backfill.rs:40-169 | over every run that wait lasts until the gap is finalised again |
| `BackfillSchedules.ReturnsExactlyOverRuns` | personal-secretary-mysql/src/repo/mysql_backfill.rs:40-750 | so in every run the gap is claimable iff it is queued and its wait is over |
| `BackfillSchedules.TotalAddsUp` | personal-secretary-mysql/src/repo/mysql_backfill.rs:571-681 | the totals of a run are the sums over its scopes, column by column |
| `BackfillSchedules.FinalisesExactly` | personal-secretary-mysql/src/repo/mysql_backfill.rs:528-750 | a finalisation is accepted iff owned, of the run's own gap and not contradicted; it records status, completeness and totals of that run, the target of that gap, and nothing else |
| `BackfillSchedules.ClaimLastsExactly` | personal-secretary-mysql/src/repo/mysql_backfill.rs:100-169 | a claimed run can be taken over exactly once its lease has run out |
| `BackfillSchedules.ReclaimsExactly` | personal-secretary-mysql/src/repo/mysql_backfill.rs:171-271 | each run taken over has its own new token and lease, and no other run changes |
| `BackfillSchedules.RecordsExactly` | personal-secretary-mysql/src/repo/mysql_backfill.rs:340-444 | a progress report is accepted from the owner of an active run for a known scope, stores exactly that scope and renews the lease |
| `BackfillSchedules.TokenLasts` | personal-secretary-mysql/src/repo/mysql_backfill.rs:753-787 | over every run a token lasts as long as its run is not taken over |

## Left out

- Which of several faults is reported: the Rust code walks ordered maps, the model any order; that a reported fault is real and belongs to the first failing stage is proved.
- Traces, logging, async plumbing, real clocks and the generation of ids, tokens and deadlines.
- Sessions.DrivenRunIsSound: assumes a step limit below 2^32 - 1 and new checkpoint ids, as generated ids are; at the excluded limit the loop need not end.
- Sessions.SuspensionIsTransparent: same assumptions; a resumed run gets a new deadline, which the schedule of interruptions covers.
- Runtime.GraphRuntime.ExecuteFrom: excludes a step limit of exactly 2^32 - 1, which the source accepts; at that limit saturation repeats a step number and the loop need not end.
- Runtime.GraphRuntime.RunWithContext: the same exclusion.
- Runtime.GraphRuntime.RunCheckpointed: the same exclusion.
- Runtime.GraphRuntime.Resume: the same exclusion, for the limits of the checkpoint.
- Store failures other than the modelled refusals (a poisoned lock, a lost database connection, a failed commit).
- Embedding.MountPreservesRuns: the executor of the parent is assumed to answer a namespaced effect id as the fragment's own executor answers the local one, since effect ids contain the node id and an executor may depend on it.
- NotificationEvaluation.MySqlNotificationEvaluationStore.ClaimEvaluation: some due request is claimed, not necessarily the oldest, since locked rows are skipped; a request is identified by its candidate, because only generation 1 is ever produced.
- Backfills.MySqlBackfillStore.ReclaimExpired: takes expired runs in any order, not least recently updated first: update times are not part of this model.
- Replies.MySqlInboundEventStore.ClaimReconcileBatch: claims due rows in any order, not oldest first: receive times are not part of this model, and rows locked elsewhere are skipped.
- Wrap-around of unsigned sums and of `max_event_chars + 1` at the largest values.
- MemoryCandidates.MySqlMemoryCandidateStore.CommitCandidates: candidate validation is an uninterpreted predicate, and candidate source rows are not stored.
- The notification evaluator, its choice of the winning revision, match keys and request validation are uninterpreted.
- Digests of occurrences and feedback are taken to be injective.
- Owner authorisation, action-run leases and receipts around the policy effect paths.
- `derive_pending` in `mysql_artifact.rs`, which uses a recall flag read in an earlier transaction, and the recall inbox.
- Known scopes, boundaries and progress reads of a backfill; thread projection, participant profiles and ingestion cursors of a delivery.
- Agenda, directory, owner binding, response delivery, follow-up and reprocess stores: compare-and-set or insert-once patterns that would only add easy members.
