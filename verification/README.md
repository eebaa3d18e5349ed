# CodeMind: a verified model of the analysis pipeline

CodeMind analyses a GitHub repository with five LLM agents. A gateway queues a job, an
orchestrator checks the repository out, indexes it and dispatches the agents, workers run
them, and a synthesizer writes one report with rendered diagrams. The parts share a Redis
and a Postgres, and a broker carries their messages. This project models the places where
correctness is subtle and proves what they promise.

- **Job protocol** (`JobMachine`, `JobRuns`, `JobFencing`, `JobCompletion`, `JobSynthesis`,
  `JobRetry`, `JobReruns`, `JobRecords`, `LatestRows`). Every Redis command, Postgres statement and publish is one atomic action.
  Any number of gateways, orchestrators, workers, dead-letter consumers and synthesizers
  interleave; any process may crash between two commands; any command may throw, before or
  after it takes effect; a message that was ever published may be delivered again at any time.
- **Keys and handles** (`RunKeys`, `GraphHandles`, `Decimal`).
- **Evidence loop** (`EvidenceLoop`, `TokenUsage`, `ChatDialect`, `PromptAssembly`). The
  model, the tools and the fence are arbitrary oracles.
- **Small concurrent objects** (`SlotGate`, `D2Renderer`).
- **Schema kit** (`Json`, `JsonSchema`, `SchemaKit`, `SchemaErrors`), against an evaluator of the JSON
  Schema 2020-12 keywords it emits.
- **Measured facts** (`ModuleGraph`, `CallChains`, `OrderedMaps`, `LargestRemainder`,
  `StableSort`).
- **Diagram text** (`D2Text`, `D2Reader`, `D2Ids`, `D2Builder`, `D2Dependencies`, `SvgEmbed`,
  `FenceSplice`): what one file prints and two others read back. What the builders promise is
  stated of the printed text, through a reader of D2 source that is defined on strings alone.

`Common`, `Seqs`, `Sets` and `Words` hold small shared datatypes, functions and equalities.

## Where the code and its promises part

Each of these is a lemma: the property is proved exactly as far as it holds.

- A worker whose pre-flight fence read throws records a failed row and makes its SADD
  without ever having been fenced (`JobFencing.AddDoneIsFenced` is an equivalence,
  `JobFencing.UnfencedAdd` a run from submission that does it).
- A force-stop between a worker's last fence read and its SADD makes the old run publish
  ready_for_synthesis for the new one, whose report is then written from a stale row while
  nothing of it has been dispatched (`JobFencing.GapPublishesEarly`, `JobFencing.StaleReport`).
- A redelivered request whose indexing sees other manifest files dispatches a further agent
  after ready_for_synthesis was published (`JobCompletion.ChangedManifestDispatchesMore`). What
  holds whatever the manifests is that each count found complete was right when it was found,
  as long as no synthesis has deleted the counters (`JobCompletion.CompleteCountsAreRight`).
- A finished job can be marked failed although its report exists. Downstream of the
  orchestrator that is possible exactly while some synthesis is past its look for a report and
  has not ended (`JobSynthesis.FinishedJobCanFail`). If the lock outlives its holders, that
  synthesis is the one that wrote the report (`JobSynthesis.OnlyTheWriterCanFail`): a throwing
  DEL is enough (`JobSynthesis.LateErrorFailsAFinishedJob`). If the lock expires, a second
  synthesis overlaps the first and finishes, and the first one calls the model once more, fails
  to insert and marks the job failed (`JobSynthesis.ExpiryFailsAFinishedJob`). The unique
  constraint holds in any case (`JobSynthesis.AtMostOneReport`).
- The dead-letter consumer of analysis requests fails whatever job it is handed, finished or
  not, whatever the epoch (`JobSynthesis.BuriedRequestFailsAFinishedJob`).
- A finished job that is run again does not finish again. Retry keeps the report, and every
  synthesis stops where it finds one, before it writes the status. A job with a report that is
  not done can become so exactly when some synthesis stands before that very write
  (`JobReruns.FinishesAgain`), so retrying a job done in part, and force-stopping a finished
  one, leaves it unfinished whatever its agents then do (`JobReruns.RetryReopens`,
  `JobReruns.ForceStopReopens`, `JobReruns.RetriedForGood`).
- The handle cache does not always hold one live handle per path: a promise that rejects after
  its path was closed and opened again evicts its successor, and the property holds exactly
  when that does not happen (`GraphHandles.OneLiveHandlePerPath`,
  `GraphHandles.LateRejectionLeaks`).
- An emit that is rejected while the same reply carries other tool calls leaves those calls
  without an answer in the history (`EvidenceLoop.SentHistory` is an equivalence,
  `EvidenceLoop.CrowdedEmitReceived` a reply that does it in every run).
- An invalid emit is sent to repair exactly when a repair is to be had and its input is not
  `null` (`EvidenceLoop.InvalidEmitIsRepaired`); with `null` the warning throws while it is
  being built and the run fails (`EvidenceLoop.NullEmitFails`, `EvidenceLoop.NullEmitReceived`).
- `key in input` also finds what an object inherits, so an absent optional property called
  `constructor` is rejected although the schema allows its absence
  (`SchemaKit.InheritedNameDisagrees`). Schema and validator agree on all values exactly when
  the spec has no such property at any depth (`SchemaKit.AgreesExactlyWhenSafe`), and on one
  value exactly when it leaves none out (`SchemaKit.SchemaAndValidatorAgree`).
- The node counter reads declarations, which are the nodes exactly when none is declared twice
  (`D2Builder.CounterCountsNodes`). The system flow declares a node twice exactly when a package
  is reached twice, as from two modules, or a package's key is also a step's (`D2Dependencies.FlowRepeats`,
  with `D2Dependencies.ReachedTwice` and `D2Dependencies.KeysCanMeet`), the grid exactly when a
  drawn package is listed twice (`D2Dependencies.DependencyGrid`).
- The measured dependency graph never leaves a package floating, but it can leave a module
  floating, which its comment rules out. A drawn module has an edge exactly when one of its
  imports is among the first 18 and its package among the 12 drawn
  (`D2Dependencies.ModuleHasEdge`); at most 18 imports of at most 12 packages are enough
  (`D2Dependencies.NoModuleFloats`), 19 imports are not (`D2Dependencies.ModulesCanFloat`).
- Two functions of one name in two files are two participants of a sequence, but with colons in
  paths and symbols two functions of different names can share one
  (`D2Builder.StepKeysDiffer`, `D2Builder.StepKeysCanMeet`).
- SVG normalization is called idempotent; it is so exactly when deleting the CDATA
  delimiters does not assemble a new one (`SvgEmbed.IdempotentUnlessAssembled`).

## Model

| member | source | states |
|---|---|---|
| JobFencing.EpochsNeverAhead | apps/api-gateway/src/jobs/jobs.service.ts:249-288 | in every run no queued request, agent message or process carries an epoch above the job's current one, and force-stop epochs are strictly increasing and never shared |
| JobFencing.AddDoneIsFenced | apps/agent-worker/src/jobs/agent.consumer.ts:218-233 | in every run, a handler about to SADD last read its own epoch from the fence with at most one LLM call since, if and only if its pre-flight read did not throw |
| JobFencing.StaleAgentStops | apps/agent-worker/src/jobs/agent.consumer.ts:411-419 | after an epoch bump an agent in flight starts at most the one LLM call its last read admitted, and its next read drops it |
| JobFencing.FencedHandlerIsSilent | apps/agent-worker/src/jobs/agent.consumer.ts:373-383 | a handler the fence dropped has inserted no row and made no SADD, and never acts again |
| JobFencing.SupersededForever | apps/agent-worker/src/jobs/agent-dlq.consumer.ts:66-111 | a superseded message is dropped by every fence in every later state, by worker and dead-letter consumer alike |
| JobFencing.GapLetsStaleAdd | apps/synthesizer/src/synthesis/synthesizer.service.ts:192-199 | the documented gap is real: a force-stop between the last fence read and the SADD lets the old run count itself into the new one |
| JobFencing.GapPublishesEarly | apps/synthesizer/src/synthesis/synthesizer.service.ts:192-199 | what it leads to: ready_for_synthesis is published for the new run while its request has not been taken up |
| JobFencing.StaleReport | apps/synthesizer/src/synthesis/synthesizer.service.ts:192-199 | a run from submission that ends with the report of epoch 1 written from one row of epoch 0, nothing of epoch 1 dispatched |
| JobFencing.FailedReadLetsStaleAdd | apps/agent-worker/src/jobs/agent.consumer.ts:384-399 | any superseded message whose pre-flight read throws inserts a row and makes its SADD |
| JobFencing.UnfencedAdd | apps/agent-worker/src/jobs/agent.consumer.ts:384-399 | a run from submission in which that happens |
| JobFencing.CancelSticks | apps/api-gateway/src/jobs/jobs.service.ts:316-338 | once a cancel has withdrawn the job, no redelivery, late agent, sweep or wakeup brings it back: it stays cancelled and gets no report until the user acts again |
| JobFencing.CancelWithdraws | apps/api-gateway/src/jobs/jobs.service.ts:302-338 | cancelling in any reachable state withdraws the job, if nothing in flight is already past the fence or the status check |
| JobFencing.StepKeepsFence | apps/agent-worker/src/jobs/agent.consumer.ts:201-405 | every action of every process keeps the fencing invariant, and no action lowers the epoch |
| JobCompletion.ReadyOnlyWhenAllRecorded | apps/agent-worker/src/jobs/agent.consumer.ts:323-370 | in a first run, ready_for_synthesis is published and synthesis proper entered only when every dispatched type has a result row |
| JobCompletion.CompleteCountsAreRight | apps/agent-worker/src/jobs/agent.consumer.ts:337-366 | whatever manifests the indexings see: while no synthesis has deleted the counters, a handler or sweep that finds the count complete does so when every type dispatched so far has its row |
| JobCompletion.ChangedManifestDispatchesMore | apps/orchestrator/src/jobs/orchestrator.consumer.ts:202-220 | a run from submission in which a redelivered request dispatches a fifth agent after the publish |
| JobCompletion.CompletionIsAnnounced | apps/agent-worker/src/jobs/agent-failure-recorder.service.ts:43-80 | in a first run, once every dispatched type has completed its bookkeeping, ready_for_synthesis has been published (or a sweep found the counters complete) |
| JobCompletion.CompletionIsPublished | apps/agent-worker/src/jobs/agent.consumer.ts:356-368 | in a first run without sweeps the handlers themselves have published it by then |
| JobCompletion.FinishedIsCompleted | apps/agent-worker/src/jobs/agent.consumer.ts:337-370 | a handler that reached the end of its bookkeeping counts as completed in every later state |
| JobCompletion.FirstRunInvariant | apps/orchestrator/src/jobs/orchestrator.consumer.ts:204-220 | the invariants behind both: expected set before dispatch, row before SADD, SCARD after one's own SADD |
| JobCompletion.StepKeepsCompletion | apps/orchestrator/src/jobs/orchestrator.consumer.ts:78-240 | every action of a first run keeps the safety half |
| JobCompletion.StepKeepsProgress | apps/agent-worker/src/jobs/agent-failure-recorder.service.ts:37-85 | every action of a first run keeps the progress half |
| JobSynthesis.OneSynthesisOneReport | apps/synthesizer/src/synthesis/synthesizer.service.ts:158-192 | while the lock outlives its holders, syntheses never overlap, no model call starts once a report exists, and at most one report is written |
| JobSynthesis.ExpiryFailsAFinishedJob | apps/synthesizer/src/synthesis/synthesizer.service.ts:328-386 | a run from submission in which the lock expires: two syntheses overlap, a model call starts although the report exists and the job is done, and the job ends failed |
| JobSynthesis.FinishedJobCanFail | apps/synthesizer/src/synthesis/synthesizer.service.ts:328-378 | a done job with its report can be marked failed downstream of the orchestrator exactly when some synthesis is past its look for a report and has not ended |
| JobSynthesis.FailingSteps | apps/synthesizer/src/synthesis/synthesizer.service.ts:371-378 | the single steps that turn a done job with a report into a failed one are exactly the status writes of failJob and markFailed |
| JobSynthesis.OnlyTheWriterCanFail | apps/synthesizer/src/synthesis/synthesizer.service.ts:328-361 | while the lock outlives its holders only the synthesis that wrote the report can still do so |
| JobSynthesis.LateErrorFailsAFinishedJob | apps/synthesizer/src/synthesis/synthesizer.service.ts:342-361 | a run from submission that keeps the lock throughout and fails a finished job by a throwing DEL |
| JobSynthesis.AtMostOneReport | prisma/schema.prisma:109 | without any hypothesis the unique constraint leaves at most one report |
| JobSynthesis.BuriedRequestFailsAFinishedJob | apps/orchestrator/src/jobs/analysis-dlq.consumer.ts:51-66 | a dead-lettered request, however old, marks a finished job failed |
| JobSynthesis.StepKeepsClaim | apps/synthesizer/src/synthesis/synthesizer.service.ts:158-350 | every action keeps the claim invariant as long as no lock is released under its holder |
| JobRetry.RetryGoesOn | apps/api-gateway/src/jobs/jobs.service.ts:195-211 | a retry of a finished job goes on exactly when the last row of some type is a failure, and then with the list of exactly those types, each once |
| JobRetry.RetryRedispatches | apps/api-gateway/src/jobs/jobs.service.ts:209-235 | however long after and whatever happens in between, the retry takes exactly those types out of agents_done and publishes one request for exactly them |
| JobRetry.SucceededIsLeftAlone | apps/api-gateway/src/jobs/jobs.service.ts:177-184 | a type whose last row succeeded is never in that list |
| JobReruns.FinishesAgain | apps/synthesizer/src/synthesis/synthesizer.service.ts:186-192 | a job that has its report and is not done can become done by some run if and only if a synthesis stands before the status write |
| JobReruns.RetryReopens | apps/api-gateway/src/jobs/jobs.service.ts:195-236 | the retry of any finished job with a last-failed agent publishes its request and puts the job back to pending; from there it can be done again only under that condition |
| JobReruns.ForceStopReopens | apps/api-gateway/src/jobs/jobs.service.ts:250-294 | so does the force-stop of any finished job, which checks no status |
| JobReruns.RetriedForGood | apps/api-gateway/src/jobs/jobs.service.ts:177-184 | a run from submission to a job done with one failed agent, and its retry: nothing whatever makes it done again |
| JobRecords.SuccessesAreEarned | apps/agent-worker/src/jobs/agent.consumer.ts:320-333 | in every run a successful row is of a type whose agent returned a result, and every row of a type that was dispatched |
| JobRecords.FailuresAreRecorded | apps/agent-worker/src/jobs/agent-failure-recorder.service.ts:37-53 | in every run the row written by a dead-letter consumer or by a worker on its catch path is a failed one |
| JobRecords.ErrorsLead | apps/agent-worker/src/jobs/agent.consumer.ts:373-399 | an error inside the agent loop is a failed result, any other error of a worker leads to its catch path, and one on that path or of the dead-letter consumer is given up on |
| JobRecords.SkippedIsFailed | apps/agent-worker/src/jobs/agent.consumer.ts:251-264 | an agent skipped for its job budget gets a failed row |
| JobRecords.DeadLetterIsFailed | apps/agent-worker/src/jobs/agent-dlq.consumer.ts:66-111 | a dead-lettered agent message gets its agent a failed row without running it, and is dropped if its run has been superseded |
| JobRecords.SynthesisNeedsASuccess | apps/synthesizer/src/synthesis/synthesizer.service.ts:230-250 | a synthesis calls the model exactly when the last row of some type is a success; else it fails the job without a report |
| JobRecords.SynthesisErrors | apps/synthesizer/src/synthesis/synthesizer.service.ts:351-386 | an error inside the try block marks the job failed and drops its counters; elsewhere it only ends the call |
| JobRecords.CrashedWorkIsRedelivered | apps/agent-worker/src/jobs/agent.consumer.ts:201-233 | a worker may crash at any time, and its message can then be delivered to another, which starts from the fence |
| JobRecords.InsertIsRemembered | apps/synthesizer/src/synthesis/synthesizer.service.ts:328-341 | the history field that names the writer of the report is set exactly by the insert that makes it |
| JobRuns.JobSucceeds | apps/orchestrator/src/jobs/orchestrator.consumer.ts:78-225 | a legal run from submission to done: four agents dispatched and recorded in order, one publish, one report, the counters gone |
| JobRuns.SelectedAre | apps/orchestrator/src/dispatch/agent-dispatch.service.ts:38-44 | four agents always, the dependency agent exactly with a manifest file, none twice |
| JobRuns.RetryDispatched | apps/orchestrator/src/jobs/orchestrator.consumer.ts:196-220 | a request that names agents leads to the dispatch of exactly those, in the current epoch, with nothing selected or expected anew |
| JobRuns.SweepDecides | apps/synthesizer/src/synthesis/synthesizer.service.ts:117-132 | undisturbed, a sweep takes up a running job exactly when its counters are there and complete, and asks Postgres when they are gone |
| JobRuns.FallbackDecides | apps/synthesizer/src/synthesis/synthesizer.service.ts:133-146 | then an old job is taken up exactly when it has rows, a young one never |
| JobRuns.SweepRecovers | apps/synthesizer/src/synthesis/synthesizer.service.ts:86-97 | a job whose agents are done and whose wakeup was missed is brought to its report by a sweep alone |
| LatestRows.CollapseToLatest | apps/api-gateway/src/jobs/jobs.service.ts:352-383 | the loop keeps the newest row of each type, newest first |
| LatestRows.LatestIsLastPerType | apps/synthesizer/src/synthesis/synthesizer.service.ts:221-230 | exactly one row per type that ever reported, and it is that type's last |
| LatestRows.LatestFailuresAre | apps/api-gateway/src/jobs/jobs.service.ts:199-202 | the failures among the newest rows are exactly the types whose last row is a failure, each once |
| LatestRows.AnyLatestSucceededIs | apps/synthesizer/src/synthesis/synthesizer.service.ts:236-237 | some newest row is a success exactly when the last row of some type is |
| RunKeys.RunKeyInjective | libs/common/src/constants/redis.constants.ts:26-27 | the run key determines job and epoch, whatever the job id holds; a missing epoch is generation 0 |
| RunKeys.JobKeyInjective | libs/common/src/constants/redis.constants.ts:50 | per-job and facts keys of different ids or purposes never coincide |
| RunKeys.AgentContextKeyInjective | libs/common/src/constants/redis.constants.ts:33-37 | context-cache keys of different runs, agents or queries never coincide |
| RunKeys.RunsShareNothing | libs/common/src/github/github-tarball.service.ts:39-40 | two runs that differ in job or epoch share no checkout, archive, facts key or context entry, and no archive is a checkout |
| Decimal.DecimalReads | libs/common/src/constants/redis.constants.ts:26-27 | a printed number denotes the number and has no leading zero |
| GraphHandles.RunsNeverShareHandles | libs/common/src/codegraph/codegraph.service.ts:27-34 | over any sequence of opens, closes, resolutions and rejections, opens for runs that differ in job or epoch are given different handles |
| GraphHandles.CallersShare | libs/common/src/codegraph/codegraph.service.ts:36-38 | all callers of a path are given one handle until the path is closed or a promise made for it rejects |
| GraphHandles.OneLiveHandlePerPath | libs/common/src/codegraph/codegraph.service.ts:73-99 | at all times every live handle is the one cached under its path, exactly when no promise rejects after its path was closed and opened again |
| GraphHandles.LateRejectionLeaks | libs/common/src/codegraph/codegraph.service.ts:79-85 | a closed promise that rejects late evicts its successor, and the next caller opens a second live handle |
| GraphHandles.HandleCache.Open | libs/common/src/codegraph/codegraph.service.ts:73-91 | the method takes the step these are about, and its handle is one made for the path asked for |
| GraphHandles.HandleCache.Close | libs/common/src/codegraph/codegraph.service.ts:157-167 | closing releases the handle cached under the path and leaves every other path its own |
| GraphHandles.HandleCache.Rejected | libs/common/src/codegraph/codegraph.service.ts:79-85 | the catch callback evicts whatever its path holds, even if that is no longer its own promise |
| EvidenceLoop.Run | apps/agent-worker/src/agents/base.agent.ts:190-386 | at most maxTurns + 1 calls; every call gets exactly the verdict the turn, budget, repair and evidence rules give it and is sent the history so far, and the result and reported usage are exactly what the calls justify |
| EvidenceLoop.Dispose | apps/agent-worker/src/agents/base.agent.ts:258-358 | exactly which replies are nudged, repaired, sent back, run as tools, delivered or refused, and which abort the run; a rejection is one error result under the id of the emit, a nudge names the emit tool |
| EvidenceLoop.RunTools | apps/agent-worker/src/agents/base.agent.ts:399-437 | every requested tool is run and answered under its own id, in order, in one message: with its output, or with its error marked as one |
| EvidenceLoop.TakeTurn | apps/agent-worker/src/agents/base.agent.ts:220-256 | one turn: force on the last allowed or affordable turn and only then, add the usage of a completed call, and give the reply its verdict |
| EvidenceLoop.InvalidEmitIsRepaired | apps/agent-worker/src/agents/base.agent.ts:287-320 | in every run an invalid emit is sent to repair exactly when none was before, the budget allows it and its input is not null |
| EvidenceLoop.NullEmitFails | apps/agent-worker/src/agents/base.agent.ts:294-300 | an emit of null that was to be repaired ends the run, which fails |
| EvidenceLoop.NullEmitReceived | apps/agent-worker/src/agents/base.agent.ts:294-300 | a concrete reply on which every run that receives it fails with its repair unused |
| EvidenceLoop.CrowdedEmitReceived | apps/agent-worker/src/agents/base.agent.ts:302-319 | a concrete reply after which every run sends the model a history that leaves a call without an answer |
| EvidenceLoop.BudgetBound | apps/agent-worker/src/agents/base.agent.ts:529-532 | if forced calls emit and no call costs more than c, every call but the last starts inside the budget less its reserve, so the total stays under budget - reserve + 2c |
| EvidenceLoop.AlwaysEmits | apps/agent-worker/src/agents/base.agent.ts:369-377 | if forced calls emit, no run ends for lack of an emit |
| EvidenceLoop.SuccessIsValid | apps/agent-worker/src/agents/base.agent.ts:464-500 | a successful output is accepted by the validator once its mark is removed, and is marked `truncated: true` exactly when its emit was forced |
| EvidenceLoop.TotalIsCost | libs/common/src/types/token-usage.types.ts:33-50 | adding usages and totalling them loses nothing: the total is all four kinds of tokens of all completed calls |
| EvidenceLoop.ClassesAreSummed | libs/common/src/types/token-usage.types.ts:45-50 | the reported usage holds, kind by kind, the tokens of all completed calls |
| EvidenceLoop.SentHistory | apps/agent-worker/src/agents/base.agent.ts:266-371 | what the model is sent alternates from user to user, and its translation answers every call at once and in order exactly when no emit was rejected beside other calls |
| EvidenceLoop.ModelSees | apps/agent-worker/src/agents/base.agent.ts:266-371 | every call of a run is sent the seed and, for each call before it, the reply and its answer: each tool's text under the id it was called by, errors marked, or the one rejection, or the reminder; up to cache marks, and nothing else |
| EvidenceLoop.RoundAnswers | apps/agent-worker/src/agents/base.agent.ts:288-346 | a round answers all calls of its reply unless it rejects an emit that came with others |
| ChatDialect.OneMarkerAtTheTail | apps/agent-worker/src/agents/base.agent.ts:630-665 | whatever markers a history carried, exactly one is left, on the last block of a non-empty last message |
| ChatDialect.CacheKeepsContent | apps/agent-worker/src/agents/base.agent.ts:641-665 | moving the marker keeps every role, block and order |
| ChatDialect.CacheInvisible | libs/common/src/llm/llm-client.service.ts:429-510 | the marker and the promotion of a string to a block never reach the other dialect |
| ChatDialect.ToMistralMessages | libs/common/src/llm/llm-client.service.ts:429-495 | the conversation is the system prompt and then one stretch per message, in order, each saying what its message does, with nothing before, between or behind |
| ChatDialect.TranslateUserBlocks | libs/common/src/llm/llm-client.service.ts:440-510 | one tool message per result block, in order, under its id and with its text (the parts of several joined by newlines), prefixed `ERROR: ` exactly when it is an error; then the texts as one user message if there are any |
| ChatDialect.TranslateAssistant | libs/common/src/llm/llm-client.service.ts:465-492 | one call per tool_use block, in order, with its id, name and input (`{}` for null), and the text blocks joined; everything else dropped |
| ChatDialect.HistoryAlternates | apps/agent-worker/src/agents/base.agent.ts:266-371 | the histories of the loop alternate and start and end with the user |
| ChatDialect.HistoryAnswered | libs/common/src/llm/llm-client.service.ts:420-428 | translated, each assistant message is followed at once by exactly its own answers in order, if and only if every round answers its reply's calls |
| PromptAssembly.AssembleUserMessage | apps/agent-worker/src/agents/base.agent.ts:548-586 | for any template: the facts first and whole, then the template filled part by part; within the budget or else everything trimmable is spent; inputs are cut to prefixes, in the order of sacrifice, and no further than needed |
| PromptAssembly.CutShortens | apps/agent-worker/src/agents/base.agent.ts:566-574 | cutting an input takes the cut off the message once per rendering |
| PromptAssembly.AgentsRenderOnce | apps/agent-worker/src/agents/security.agent.ts:51-58 | every agent's template renders each input at most once and the graph context always |
| PromptAssembly.WithinCeiling | apps/agent-worker/src/agents/base.agent.ts:549-551 | a message within the character budget keeps the estimated request under the token ceiling |
| SlotGate.SlotsConserved | apps/agent-worker/src/jobs/agent.consumer.ts:118-148 | in every reachable state free slots plus grants not yet released equal the maximum, and waiters imply a pending timer or no free slot |
| SlotGate.GrantServesInOrder | apps/agent-worker/src/jobs/agent.consumer.ts:131-143 | each grant goes to a waiter earliest in pipeline order, first come first served within a type, ahead of all that stay |
| SlotGate.SortedIsPrioritised | apps/agent-worker/src/jobs/agent.consumer.ts:131-143 | sorting a first-come list by pipeline order puts every waiter before all it precedes |
| SlotGate.WaitersDrain | apps/agent-worker/src/jobs/agent.consumer.ts:400-404 | with no new arrivals as many releases as waiters are possible and serve all of them in order |
| SlotGate.BatchRunsInOrder | apps/agent-worker/src/jobs/agent.consumer.ts:110-117 | however a batch of different agents arrives within the window and however many may run at once, all are served, in pipeline order |
| SlotGate.AllInOrder | apps/agent-worker/src/jobs/agent.consumer.ts:72-78 | the five agents of a job so run exactly as architecture, security, dependency, quality, docs |
| SlotGate.ExecutionGate.constructor | apps/agent-worker/src/jobs/agent.consumer.ts:97-101 | the gate starts with the configured number of slots, at least one |
| SlotGate.ExecutionGate.AcquireSlot | apps/agent-worker/src/jobs/agent.consumer.ts:118-129 | a request joins the queue and arms the timer if none is pending |
| SlotGate.ExecutionGate.TimerExpired | apps/agent-worker/src/jobs/agent.consumer.ts:122-125 | the timer grants what is free and keeps the invariant |
| SlotGate.ExecutionGate.GrantNext | apps/agent-worker/src/jobs/agent.consumer.ts:131-143 | the in-place grant loop hands out exactly what the specification's single step does |
| SlotGate.ExecutionGate.ReleaseSlot | apps/agent-worker/src/jobs/agent.consumer.ts:145-148 | a release frees a slot, grants it at once if somebody waits, and keeps the invariant |
| D2Renderer.NoCrossedReplies | apps/synthesizer/src/diagrams/d2-renderer.service.ts:89-155 | in every run calls settle in the order made; each render gets the svg of its own source, or the fallback exactly when, while it was at the head, its module did not boot, its timer fired or the live worker failed it; the live instance has at most one request outstanding |
| D2Renderer.RenderDelivers | apps/synthesizer/src/diagrams/d2-renderer.service.ts:101-155 | from every reachable state in which a render is next, its start, the boot if needed and two good replies are possible and deliver its own svg |
| D2Renderer.SubmittedDelivers | apps/synthesizer/src/diagrams/d2-renderer.service.ts:89-122 | a render handed to an idle renderer can be delivered so |
| D2Renderer.ChainNeverBlocks | apps/synthesizer/src/diagrams/d2-renderer.service.ts:198-206 | from every reachable state the head task settles within four events without any reply of the worker |
| D2Renderer.NextKeepsInv | apps/synthesizer/src/diagrams/d2-renderer.service.ts:158-196 | every event, late replies to abandoned calls included, keeps the invariant |
| D2Renderer.LiveReplyIsOwn | apps/synthesizer/src/diagrams/d2-renderer.service.ts:107-115 | a reply of the live instance answers the request of the head call |
| SchemaKit.SchemaAndValidatorAgree | libs/common/src/schema/schema.ts:42-174 | for every spec and value: what the validator accepts comes back conforming and revalidates unchanged, and a value validates to itself exactly when it conforms and no inherited name is in the way |
| SchemaKit.ValidatorAccepts | libs/common/src/schema/schema.ts:132-174 | the validator accepts a value exactly when the value without its unknown properties conforms, and returns that pruned value |
| SchemaKit.RunValidator | libs/common/src/schema/schema.ts:79-93 | the validator as the source runs it, with its loops over items and fields, computes the specification, all errors included |
| SchemaKit.ConformingIsPruned | libs/common/src/schema/schema.ts:168-171 | a conforming value has no unknown property to drop |
| SchemaKit.InheritedNameDisagrees | libs/common/src/schema/schema.ts:156-160 | `{}` conforms to a schema with an optional `constructor` but the validator rejects it |
| SchemaKit.SafeIsClean | libs/common/src/schema/schema.ts:156-160 | a spec with no optional property of an inherited name has no such disagreement |
| SchemaKit.AgreesExactlyWhenSafe | libs/common/src/schema/schema.ts:122-172 | for every spec whose enumerations have a value: the validator accepts, unchanged, every value that conforms to the schema, if and only if no optional property of the spec, at any depth, bears an inherited name |
| SchemaErrors.ErrorsAreFaults | libs/common/src/schema/schema.ts:42-170 | the validator complains of exactly the faults of the value, each under the path of keys and indices that leads to it |
| SchemaErrors.FunctionRefused | libs/common/src/schema/schema.ts:155-167 | a function found under an inherited name is refused exactly as any other value of a wrong type |
| ModuleGraph.ModuleEdges | apps/orchestrator/src/facts/repo-facts.service.ts:682-724 | each edge weighs the number of cross-module resolved imports of its pair, no self-edge, no pair twice, heaviest first, and the cap drops nothing heavier than it keeps |
| ModuleGraph.ExternalImports | apps/orchestrator/src/facts/repo-facts.service.ts:371-419 | the same for imports of declared packages by module |
| ModuleGraph.Count | apps/orchestrator/src/facts/repo-facts.service.ts:704-710 | the nested counters go on agreeing with the multiset of imports counted |
| ModuleGraph.Flatten | apps/orchestrator/src/facts/repo-facts.service.ts:716-719 | flattening yields one edge per pair counted, none lost |
| CallChains.CallChainFacts | apps/orchestrator/src/facts/repo-facts.service.ts:221-287 | the chains are the first five walks of three or more steps among the first 24 seeds, in seed order |
| CallChains.SeedsAre | apps/orchestrator/src/facts/repo-facts.service.ts:294-345 | no seed twice; the handlers of the routes, all that can be found, or else exported functions such that no candidate left out calls more |
| CallChains.ChainSeeds | apps/orchestrator/src/facts/repo-facts.service.ts:294-345 | the loops over routes and exported functions, with their set of ids seen, compute those seeds |
| CallChains.LongWalksAre | apps/orchestrator/src/facts/repo-facts.service.ts:241-281 | every chain is a simple path of 3 to 8 nodes along callee edges, every hop unbeaten among the unvisited callees, cut short only where the graph ends |
| CallChains.NextHopIs | apps/orchestrator/src/facts/repo-facts.service.ts:252-262 | the hop taken is unbeaten by (another file, calls made), and there is none exactly when no unvisited callee can be read |
| CallChains.WalkFrom | apps/orchestrator/src/facts/repo-facts.service.ts:237-270 | the walk loop, with its visited set, computes that greedy walk |
| LargestRemainder.LargestRemainder | apps/synthesizer/src/diagrams/chart-svg.builder.ts:241-259 | percentages of a non-zero total sum to 100, each is within a point of its exact share, a larger count never gets less, and equal counts differ by at most a point in favour of the earlier |
| StableSort.SortByCorrect | apps/orchestrator/src/facts/repo-facts.service.ts:723 | the sort by key used throughout is ordered, a permutation and stable |
| D2Text.CounterReadsDeclarations | apps/synthesizer/src/diagrams/d2-source.builder.ts:23-25 | for arbitrary labels the counter reads from the printed source exactly the nodes and containers declared, never a style line, directive, brace or edge |
| D2Reader.PrintedIsMeant | apps/synthesizer/src/diagrams/d2-source.builder.ts:437-459 | for all items and arbitrary labels, a reader of D2 text finds in the printed source exactly what the items mean, in order: each declaration with its depth, id and label, each arrow from its first end to its second with its caption, each property |
| D2Reader.PrintedShows | apps/synthesizer/src/diagrams/d2-source.builder.ts:437-459 | so the boxes a text shows, with their nesting and colour, and its arrows are those of the items |
| D2Reader.ReadersAgree | apps/synthesizer/src/diagrams/d2-source.builder.ts:23-25 | the counting pattern and the reader find the same declarations |
| D2Builder.PrintedWired | apps/synthesizer/src/diagrams/d2-source.builder.ts:125-130 | in the text of a builder no arrow ends at an undeclared name |
| D2Text.Label | apps/synthesizer/src/diagrams/d2-source.builder.ts:467-479 | whatever the raw text, a label is one line of 1 to 48 characters without quote or backslash |
| D2Text.LabelIs | apps/synthesizer/src/diagrams/d2-source.builder.ts:467-479 | a label is the words of its text one space apart, without quotes and backslashes, cut with an ellipsis, or `unknown` when there are none |
| D2Text.CountJoin | apps/synthesizer/src/diagrams/d2-source.builder.ts:437-453 | the multi-line pattern matches once per declaring line of a joined source |
| D2Ids.Search | apps/synthesizer/src/diagrams/d2-source.builder.ts:524-526 | the suffix search ends, at the first candidate that is not taken |
| D2Ids.IdAllocator.Get | apps/synthesizer/src/diagrams/d2-source.builder.ts:513-531 | stable, injective and lexically valid over any sequence of calls |
| D2Ids.BaseIs | apps/synthesizer/src/diagrams/d2-source.builder.ts:517-522 | an identifier starts with its prefix and the letters and digits of its text, words one underscore apart, up to 40 characters |
| D2Builder.CounterCountsNodes | apps/synthesizer/src/diagrams/diagrams.service.ts:59-70 | what the drawing threshold reads is the number of declarations, never less than the nodes, and equal to them exactly when none is declared twice |
| D2Builder.ModuleGraph | apps/synthesizer/src/diagrams/d2-source.builder.ts:120-173 | at most 15 nodes and 20 edges; roots (to which no dependency leads) first, coloured, and none left out for another module; of the first 20 dependencies exactly those between drawn modules, each from its `from` to its `to`, in order |
| D2Builder.Sequence | apps/synthesizer/src/diagrams/d2-source.builder.ts:191-218 | participants in the order first touched, each once, numbered arrows between consecutive steps, a way back unless the flow ends where it began |
| D2Builder.SequenceDiagram | apps/synthesizer/src/diagrams/d2-source.builder.ts:223-258 | the text shows at most eight steps: participants in the order first touched, numbered arrows from step to step, a dashed way back unless the flow ends where it began; or the placeholder for fewer than two |
| D2Builder.SequenceFromChain | apps/synthesizer/src/diagrams/d2-source.builder.ts:185-221 | the same for a measured chain; two steps are one participant exactly when their keys agree, and two functions of one name in two files never are |
| D2Builder.StepKeysDiffer | apps/synthesizer/src/diagrams/d2-source.builder.ts:194-198 | functions of one name in two files have two keys, and any two functions do if no path holds a colon |
| D2Builder.SecurityFlow | apps/synthesizer/src/diagrams/d2-source.builder.ts:262-297 | the text shows exactly the steps in order with an arrow from each to the next, and in their box at most four serious findings, each captioned with its severity; every node declared once |
| D2Dependencies.DependencyGraph | apps/synthesizer/src/diagrams/d2-source.builder.ts:301-332 | the measured graph, the grid or the placeholder, whole; nodes repeat only in a grid that lists a package twice |
| D2Dependencies.DependencyGrid | apps/synthesizer/src/diagrams/d2-source.builder.ts:323-360 | the text shows the app, the first 15 packages in one container, tagged and coloured by what is known of them, an overflow count and one arrow; the node counter counts the nodes exactly when no drawn package is listed twice |
| D2Dependencies.DependencyEdgeGraph | apps/synthesizer/src/diagrams/d2-source.builder.ts:372-433 | at most 18 nodes and 18 edges, each node once; the text shows the drawn modules and packages and an arrow from module to package for each heavy import, with its count; every drawn package has one |
| D2Dependencies.GraphPicks | apps/synthesizer/src/diagrams/d2-source.builder.ts:381-399 | the modules drawn import no less than those left out, their imports drawn are no lighter than those left out, and the packages are the first of those |
| D2Dependencies.ModuleHasEdge | apps/synthesizer/src/diagrams/d2-source.builder.ts:364-371 | in every drawing, a drawn module has an edge exactly when one of its imports is among the first 18 by count and its package among those drawn |
| D2Dependencies.NoModuleFloats | apps/synthesizer/src/diagrams/d2-source.builder.ts:364-371 | with at most 18 imports of at most 12 packages every drawn module has one |
| D2Dependencies.ModulesCanFloat | apps/synthesizer/src/diagrams/d2-source.builder.ts:364-371 | in every drawing of 19 given imports of two modules one of the modules has no edge |
| D2Dependencies.CountByModule | apps/synthesizer/src/diagrams/d2-source.builder.ts:377-380 | the totals per module, in the order modules were first seen |
| D2Dependencies.SystemFlow | apps/synthesizer/src/diagrams/d2-source.builder.ts:67-116 | the text shows every hop of the path captioned by module and symbol, numbered arrows in order, and every reached package off its end; the node counter counts the nodes exactly when no package is reached twice and none shares a key with a step |
| D2Dependencies.SpineIs | apps/synthesizer/src/diagrams/d2-source.builder.ts:71-76 | the path drawn is the first six steps of a chain no other is longer than, if it has two |
| D2Dependencies.ReachedAre | apps/synthesizer/src/diagrams/d2-source.builder.ts:98-103 | the packages reached are at most three imports of modules on the path, none lighter than one left out |
| D2Dependencies.FlowRepeats | apps/synthesizer/src/diagrams/d2-source.builder.ts:80-110 | the keys of a system flow never repeat exactly when no package is reached twice and no package has a step's key |
| D2Dependencies.ReachedTwice | apps/synthesizer/src/diagrams/d2-source.builder.ts:98-110 | two imports of one package by two steps' modules are both reached |
| D2Dependencies.FlowKeysOnce | apps/synthesizer/src/diagrams/d2-source.builder.ts:80-82 | the keys of the steps never coincide, whatever the symbols |
| SvgEmbed.NormalizeIs | libs/common/src/util/svg-embed.ts:23-29 | a normalized svg holds no blank line and neither starts nor ends with white space |
| SvgEmbed.NormalizeShows | libs/common/src/util/svg-embed.ts:23-29 | line by line, whatever the svg shows without its delimiters it still shows |
| SvgEmbed.DeleteIs | libs/common/src/util/svg-embed.ts:24-26 | the delimiters are taken out from left to right and all that stands between them stays |
| SvgEmbed.IdempotentUnlessAssembled | libs/common/src/util/svg-embed.ts:23-29 | normalizing twice is normalizing once exactly when deleting the delimiters assembles no new one |
| SvgEmbed.AssembledDelimiter | libs/common/src/util/inline-diagrams.ts:30-33 | a concrete svg on which normalization is not idempotent |
| FenceSplice.InlineRoundTrip | libs/common/src/util/inline-diagrams.ts:15-41 | for any report of prose without header lines and printed fences of diagrams with distinct slugs, every fence becomes the figure of its own diagram and every other character stays |
| FenceSplice.RoundTrip | libs/common/src/types/diagram.types.ts:40-41 | the same for any table of figures; a fence without one stays as it was |
| FenceSplice.FenceReplaced | apps/synthesizer/src/report/report-renderer.service.ts:965-970 | a printed fence is recognised whole, up to its own closing line |
| FenceSplice.HeaderIs | libs/common/src/types/diagram.types.ts:40-41 | a line is taken for a header exactly when it is a mark, blanks, a slug and blanks |
| FenceSplice.BuilderSourcesFit | apps/synthesizer/src/report/report-renderer.service.ts:969 | no builder source holds a closing line, so any printed diagram can be fenced |
| FenceSplice.FigureStaysWhole | libs/common/src/util/inline-diagrams.ts:34-40 | a figure holds no blank line exactly when something is left of its svg and its title holds none |
| FenceSplice.FigureReads | libs/common/src/util/inline-diagrams.ts:35-40 | a figure shows the slug, the title and the normalized svg it was made with, whatever the title holds |
| FenceSplice.EscapeRoundTrip | libs/common/src/util/inline-diagrams.ts:43-49 | an escaped text shows as it was and holds nothing that could open or close a tag |
| FenceSplice.SlugsAre | apps/synthesizer/src/diagrams/diagrams.service.ts:72-173 | the slugs of a report are printable and distinct, however many flows it has |

## Left out

- The protocol and the renderer are state machines over atomic steps rather than classes, because their properties are about interleavings; update in place inside one handler is not captured there.
- The broker is at-least-once without ordering or limits; delivery counts and prefetch are not modelled.
- JobCompletion.ReadyOnlyWhenAllRecorded: assumes the first run (no gateway call), a checkout whose manifest does not change between deliveries (without that it fails, see above), and no sweep through the eviction fallback.
- JobCompletion.CompleteCountsAreRight: assumes the first run and no sweep through the eviction fallback; it is about the moment of the count.
- JobCompletion.CompletionIsAnnounced: the same hypotheses; it is a statement about every reachable state, not about fairness of the scheduler.
- JobSynthesis.OneSynthesisOneReport: assumes that no expiry, cancel or force-stop removes the lock of a running synthesis.
- JobSynthesis.FinishedJobCanFail: about runs without gateway calls and orchestrator steps; a redelivered analysis request can set a finished job running and fail it there.
- JobFencing.CancelWithdraws: an orchestrator past its fence or a synthesis past its status check when the cancel lands still writes its status; those windows are hypotheses.
- The status mirror in Redis, event publishes, the token counter key and job ownership checks: no property depends on them. The gateway reads status and rows in one step, and a failing gateway command is a crash.
- The path claims of RunKeys.RunsShareNothing hold for job ids without a slash, which path.join would normalize.
- CodeGraph and D2 internals, the LLM, the GitHub download, HTTP, auth and the chat loop.
- Prompt wording and the texts of rejections: only their shape is modelled; the agents' templates have shortened headings.
- The evidence depth is an arbitrary integer instead of a rounded float product; prices and SVG geometry in floating point are absent.
- LargestRemainder.LargestRemainder: exact integer arithmetic in place of floating-point fractions.
- SchemaKit.ValidatorAccepts: specs whose field names are distinct and not `__proto__`; numbers are reals, so NaN and infinities are absent, as in JSON.
- Strings are sequences of characters where JavaScript has UTF-16 code units; cutting a surrogate pair in half is not modelled.
- ModuleGraph.ExternalImports: how a package name is read off a specifier is a parameter.
- ModuleGraph.ModuleEdges: which of several equally heavy edges the cap keeps is not stated.
- Dead code, cycles and hotspots.
- The donut's tally of issues by category: a sum per severity, with no property beyond addition.
- Chart sources are covered by the fence round trip as any source without a closing line; that JSON text has none is not shown.
