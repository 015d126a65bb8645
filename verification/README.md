# Durable post generation, verified

A Dafny model of the engine that turns a conversation into a finished post: a revisable graph of
specialist stages, a supervisor that decides what runs next from persisted state alone, a
compare-and-swap store that keeps every version, and a leased job queue that drives it all through
crashes and retries. Two smaller parts are modelled beside it: the write-once semantic contract with
its canonical form, and the campaign brief and plan. The page layout of exported plans completes it.

To check the project, run `dafny verify dfyconfig.toml`.

## How the parts fit

**One log per generation.** Each accepted write of a section makes one version. `VersionLog` reads the
versions as a log whose entries remember who wrote them and at which point of its code: a decision, an
output, a history mark, a completion, an API write. `Legal` says what the code may append to a log. A
crash, a timeout or a lost race only cuts a writer's chain of entries short, so the legal logs are
exactly the interleavings of any number of executors and API writers, and theorems about "every run"
are inductions over legal logs: freshness, gates, work bounds, termination, commit atomicity and the
write-once contract.

**The code earns the log.** `Executors` and `PostsServices` are imperative models of the executor loop
and the API operations over a mutable store. Between any two of their steps `Others` lets every other
writer do anything. Each method is proved to append only legal entries of its own; `WritersCompose`
turns these separate promises into a legal log.

**Statements beside the code.** Where a theorem needs to say that a gate is closed, a job is due or a
field was given, it says so in the fields of the section, the row or the draft, with predicates that no
operation uses (`GateClosed`, `AnswerOwed`, `Due`, `SaysText`, `Learns`, `IsCore`); lemmas such as
`ClarificationExactly`, `ClaimedRow` and `ContractHoldsTheDraft` tie the operations to them.

**Above the log.** `JobQueue` models the repository transactions on rows, `Workers` the worker cycle,
and `Leases` a system of jobs, workers and a clock. `Lifetime` joins the queue's bound on claims to the
log's bound on handler starts, and `Deployment` makes queue, workers, executors and log one system.

| file | content |
|---|---|
| `Vocabulary`, `Workflows` | stages, sections, values, one workflow state |
| `StageGraph` | plans, reachability, downstream closure, acyclicity |
| `Supervisor` | decisions and progress |
| `VersionLog`, `CheckpointStore` | the log and the store that records it |
| `Executor`, `PostsService` | the writers |
| `Freshness`, `SuppliedContract`, `StaleOutputs`, `EmptyBrief` | what is fresh in every run, and what is not |
| `UnguardedPlan` | a run of a plan that freshness does not hold for |
| `Budgets`, `Termination`, `DecisionLimit`, `Gates`, `CompletionSafety` | more theorems over runs |
| `DefaultPlan`, `RevisionDirector` | the shipped plan and the revision routes meet the hypotheses |
| `JobQueue`, `Leases`, `Worker`, `Lifetime`, `Deployment` | the queue, and the system it drives |
| `Creation` | requesting generations |
| `CleanText`, `Ordering`, `SemanticContract`, `SemanticAssertions` | the semantic contract |
| `Campaigns`, `Pagination` | campaigns and exported pages |

## Hypotheses, and what the proofs found

- Freshness, work bounds and termination speak of handlers that hand back the history they read with
  at most one pending request appended, whose target is an ancestor that requests no revisions itself,
  and of API writes that leave stage-owned sections alone, except that clients may create the semantic
  contract at any time (`Freshness.Disciplined`). `DirectorTargetsAncestors` discharges the condition
  on targets for the shipped routing table.
- A contract that a client creates before the brief exists is taken over by a skip, since a skip is
  decided before dependencies are looked at, and stays older than the brief
  (`EarlyContractGoesStale`). `ClientContractIsStaleExactly` gives the exact condition, in the state
  that the client creates it on. An empty brief section alone is exact only if handlers return no empty
  briefs (`EmptyBriefTellsStale`, `EmptyBriefNeedNotBeStale`): a brief stage that is done with an empty
  brief does not run again.
  All other stages stay fresh, and all work bounds hold, with such contracts.
- The condition on the plan is needed because a revision replaces the stale marks of the one before:
  it forgets exactly the stages that do not depend on the new target (`RevisionForgetsExactly`), and a
  run of a plan that fails only this condition ends with stale output (`UnguardedPlanGoesStale`). Under
  the hypotheses no undone stage is ever forgotten (`SafeRevisionsForgetNothing`).
- A revision does not look at its target's attempt limit. The work bound therefore has a term for the
  limits of reviewing stages and one for each executor that is interrupted inside a revision.
- The architecture notes say that several workers cannot execute the same job. A claim's lease runs
  from a clock reading before the claim is committed, the timeout only from the start of the execution.
  Executions are kept apart exactly if the lease exceeds the timeout and that delay together
  (`ExecutionsNeverOverlap`, `ShortLeaseOverlaps`); the validated setting alone compares lease and
  timeout. Under the same condition, and no other, every generation's status mirrors its job's
  (`MirrorExactly`): once executions overlap, the status write at the start of one can follow the
  completion by another. The timed model assumes one clock for all workers, one timeout, and that each worker does
  one thing at a time under an id of its own.
- A generation request reads the brief and moves the campaign on in two steps. A brief update between
  them can leave a ready plan that does not honour its brief. `RequestIsSafeExactly` says when it cannot,
  in terms of the channels, budget and location of the two briefs (`Covers`), for any normalisation of
  texts that is not constant; `CampaignIsConsistent` assumes that case. `LocationKeptExactly` decides
  the location by looking, for normal forms that can be extended at will, as plain texts can
  (`PlainIsRoomy`). A brief update is one step here: its calls run in one
  transaction, which from its first write on holds the campaign's row. The status write and the other
  requests are one step each.
- A revision goes to one stage, the first that any finding leads to, and is to change the sections of all
  findings. It carries out all of them exactly when no product finding comes together with one on copy,
  strategy or concept (`RevisionCarriesOutExactly`): those stages do not depend on the assets, so going
  back to the assets leaves what they wrote as it is. The scoring stage can ask for that
  (`StrategyIsLeftAsItIs`).
- A contract whose lists hold two different values with one casefolded form ("Café", "CAFÉ") sorts by
  the accident of set iteration, and may be refused as corrupt when it is read back in another
  process. `RoundTripExactly` gives the exact condition.
- The contract theorems take NFKC, casefolding, the digest and UUID texts as functions, assume that
  collapsing white space keeps a normal form normal, and where stated that the digest has no
  collisions.

## Model

| member | source | states |
|---|---|---|
| `StageGraph.BuildPlan` | backend/app/modules/posts/domain/supervisor.py:87-99 | The constructor accepts a list of policies exactly when it is non-empty, names each stage once, knows every dependency and admits a rank function; its four errors come in that order, each under its exact condition |
| `StageGraph.ValidateAcyclic` | backend/app/modules/posts/domain/supervisor.py:119-135 | The depth-first check accepts exactly the plans with a rank that falls along every dependency, and terminates on every graph, cyclic or not |
| `StageGraph.AcyclicityCheck.Visit` | backend/app/modules/posts/domain/supervisor.py:123-132 | One visit restores the recursion stack, only adds finished stages, finishes its stage after all that stage depends on, and never fails on a graph that has a rank |
| `StageGraph.AcyclicIsAntisymmetric` | backend/app/modules/posts/domain/supervisor.py:119-135 | In an accepted graph no two different stages are each reachable from the other along dependencies |
| `StageGraph.DownstreamOf` | backend/app/modules/posts/domain/supervisor.py:108-117 | The worklist loop ends with exactly the stages from which the given one is reachable along dependency paths, in plan order, none twice |
| `StageGraph.RevisionKeepsDependencyClosed` | backend/app/modules/posts/domain/supervisor.py:604-614 | Taking the downstream of any stage out of a dependency-closed set of done stages leaves it dependency-closed |
| `Supervisor.DecideNeverDeadlocks` | backend/app/modules/posts/domain/supervisor.py:478-535 | For every plan the constructor accepts, in any listing order, and every progress record, the supervisor never reports that the dependency graph cannot make progress |
| `Supervisor.ReadyStageExists` | backend/app/modules/posts/domain/supervisor.py:478-502 | Whenever some listed stage is not done, one whose dependencies are all done exists: the well-founded descent behind deadlock freedom |
| `Supervisor.CompletionExactly` | backend/app/modules/posts/domain/supervisor.py:418-584 | The workflow is approved if and only if no report closes a gate, the newest history entry is no pending request, the client was not asked for an answer, every stage is done and every report the plan produces says PASS, all read off the fields of the sections |
| `Supervisor.GatesExactly` | backend/app/modules/posts/domain/supervisor.py:418-444 | A BLOCKED verification, a hard-failed, BLOCKED or REJECTed quality report and a REJECTed approval stop the workflow for good, in this order, each with its own reason; nothing else does for these reasons |
| `Supervisor.RevisionExactly` | backend/app/modules/posts/domain/supervisor.py:446-469 | Behind open gates a pending request for the contract is refused for good, one for a stage outside the plan is an error, and any other is revised exactly when all sections its stage requires are filled and its handler is there; a stop names exactly what is missing |
| `Supervisor.ClarificationExactly` | backend/app/modules/posts/domain/supervisor.py:758-779 | The client is asked exactly when no gate is closed, no revision is pending, understanding the client is completed or skipped and the clarification in the brief requires an answer; the decision leads back to that stage and names every question in order |
| `Supervisor.ClosingExactly` | backend/app/modules/posts/domain/supervisor.py:529-584 | With every stage done and nothing open, the first of the plan's reports that does not say PASS stops the workflow, is named and points to its stage; without one the workflow is complete |
| `Supervisor.ActionOrigin` | backend/app/modules/posts/domain/supervisor.py:446-527 | A revision comes only from the pending request and names its target; every other action comes from the loop while nothing is pending; nothing but a stop is decided behind a blocked gate |
| `Supervisor.ConsiderActions` | backend/app/modules/posts/domain/supervisor.py:478-527 | The loop passes over a stage exactly when it is done, or may not be skipped and waits for a dependency; otherwise each of the seven reasons to skip, run or stop has its exact condition on outputs, skip requests, required sections, attempts and handlers, a run is a retry exactly after an earlier attempt, and a stop names exactly the missing sections or the missing handler |
| `Supervisor.RecordDecision` | backend/app/modules/posts/domain/supervisor.py:586-620 | The step-by-step update of a copy of the progress record produces the specified record for each of the five actions, with the downstream stages of a revision invalidated and no longer done |
| `Supervisor.MarkingClosesThePendingRevision` | backend/app/modules/posts/domain/supervisor.py:635-643 | Completing a stage changes the history if and only if the pending request targets that stage, and nothing is pending afterwards |
| `Supervisor.CompletionExtends` | backend/app/modules/posts/domain/supervisor.py:622-634 | Completing a stage adds it to the completed ones without reordering them, takes it alone off the invalidated ones and changes nothing else but the current stage |
| `VersionLog.WritersCompose` | backend/app/modules/posts/orchestration/supervisor.py:107-186 | If every single writer only appends what its own code may append, whatever the others do, the interleaved log is legal as a whole |
| `VersionLog.LegalReplacesOnly` | backend/app/infrastructure/database/repositories/posts.py:487-525 | In every interleaving, version 1 is the empty state and each later version differs from its predecessor in the recorded section alone |
| `VersionLog.HeadIsReplay` | backend/app/infrastructure/database/repositories/posts.py:472-525 | The newest state is the fold of all accepted writes over the empty state: no update is lost |
| `VersionLog.ContractIsWriteOnce` | backend/app/modules/posts/orchestration/supervisor.py:274-290 | Under every interleaving of executors, section writes and contract creations, a non-empty semantic contract is the same in every later version |
| `VersionLog.OpenIsUnbroken` | backend/app/modules/posts/orchestration/supervisor.py:112-186 | While an execution is open, all versions since its decision were written by that executor, in the order decision, outputs, history mark |
| `VersionLog.CompletedOnlyByCommit` | backend/app/modules/posts/domain/supervisor.py:629-634 | A stage becomes completed only through the completion write of an execution of that very stage |
| `VersionLog.CommitsAreAtomic` | backend/app/modules/posts/orchestration/supervisor.py:107-186 | Stage commit atomicity: whatever other writers do, the versions from the decision to the completion of a stage are consecutive and by one executor, so its handler read the state its outputs were committed on |
| `CheckpointStores.CheckpointStore.WriteSection` | backend/app/infrastructure/database/repositories/posts.py:472-525 | The compare-and-swap succeeds if and only if the expected version is current; it then replaces one section and appends one snapshot, and otherwise changes nothing |
| `CheckpointStores.RowIsTheFold` | backend/app/infrastructure/database/repositories/posts.py:500-519 | In every reachable store the row equals the replay of its snapshots, which replace one section each |
| `Executors.PostSupervisorExecutor.PersistStageOutputs` | backend/app/modules/posts/orchestration/supervisor.py:262-301 | Success leaves exactly the handler's values in exactly the declared sections, one version each, and nothing else changed; a failure names where the run stopped and why: other sections and a document that breaks the contract are errors for good, a malformed value and a lost race are not |
| `Executors.PostSupervisorExecutor.CompleteStage` | backend/app/modules/posts/orchestration/supervisor.py:167-186 | The completion follows the outputs, after the history mark if this stage closes a request; only a lost race on the mark raises, a lost race on the completion goes back to the loop |
| `Executors.PostSupervisorExecutor.Turn` | backend/app/modules/posts/orchestration/supervisor.py:108-186 | One turn, with arbitrary writes by others between any two of its steps, obeys what decide said of a version it read, or lost the race to record it. If it ran a handler, that handler read the version the decision made; a failure of the handler is passed on as retryable exactly when it was, with no output written; what it returned is stored whole and completed, or refused where the run stopped |
| `Executors.PostSupervisorExecutor.RunStage` | backend/app/modules/posts/orchestration/supervisor.py:148-186 | The answer to one handler execution: its own exception unchanged, non-retryable for other sections or a broken contract, retryable for a malformed value or a lost race, and completion only with all its values stored |
| `Executors.PostSupervisorExecutor.Execute` | backend/app/modules/posts/orchestration/supervisor.py:100-187 | For a missing generation nothing is written and the job fails for good; otherwise, under arbitrary interference, every entry the executor leaves is legal, every turn obeys its decision and answers its handler as it must, and it returns normally only after recording an approval |
| `Executors.RunningStageIsListed` | backend/app/modules/posts/orchestration/supervisor.py:145-147 | A decision to run always names a stage of the plan, so the guard against a missing next stage is never taken |
| `PostsServices.PostsService.WriteWorkflowSection` | backend/app/modules/posts/services/posts.py:258-294 | An API write is accepted only on the version the caller expects and never touches the contract or the supervisor section; each refusal has its exact condition, a value being refused exactly when it is an array outside the history or none inside it; a conflict means someone overtook the caller |
| `PostsServices.PostsService.CreateSemanticContract` | backend/app/modules/posts/services/posts.py:296-345 | Creation writes the contract on the expected version, returns the stored one if the fingerprints agree, refuses to replace another or an unreadable one, also after losing a race; a conflict means someone overtook the caller |
| `Freshness.RunKeepsInv` | backend/app/modules/posts/domain/supervisor.py:446-527 | The freshness invariant holds after every accepted write of every run, between any two section writes and with contracts created by clients at any time, for any plan listed in topological order whose reviewing stages are upstream of all that is listed after them |
| `Freshness.NoStaleOutput` | backend/app/modules/posts/domain/supervisor.py:446-527 | In every version of every run a completed or skipped stage holds outputs computed by a handler that had already read the newest output of everything it depends on, so a skip never reuses stale output; the one exception is a contract that a client created |
| `Freshness.ReadBeforeWrite` | backend/app/modules/posts/orchestration/supervisor.py:148-166 | Every handler output is written after the version its handler read |
| `StaleOutputs.RevisionForgetsExactly` | backend/app/modules/posts/domain/supervisor.py:604-614 | A revision forgets that an undone stage is stale exactly when that stage does not depend on the new target |
| `StaleOutputs.SafeRevisionsForgetNothing` | backend/app/modules/posts/domain/supervisor.py:604-614 | In every run under the freshness hypotheses, a revision marks every listed undone stage as stale, so none is forgotten |
| `UnguardedPlans.UnguardedPlanGoesStale` | backend/app/modules/posts/domain/supervisor.py:482-488 | Without the condition on reviewing stages freshness fails: a legal, disciplined run of an accepted plan in topological order, with one owner per section, ends with a stage done although a stage it depends on was redone after its report |
| `SuppliedContracts.ContractIsOlderExactly` | backend/app/modules/posts/domain/supervisor.py:478-488 | For any such plan whose contract stage comes before the reviewing stages: once that stage is done, the contract is older than the output of a stage it depends on if and only if a client wrote it last, on a version on which that stage was neither done nor had its output |
| `SuppliedContracts.SuppliedByClient` | backend/app/modules/posts/services/posts.py:319-328 | The contract counts as supplied exactly when its newest write is an API write |
| `StaleOutputs.ClientContractIsStaleExactly` | backend/app/modules/posts/services/posts.py:296-328 | In every run of the shipped plan, once the contract stage is done, the contract is older than the brief if and only if a client created it on a version on which the brief stage was neither done nor had a brief |
| `StaleOutputs.EmptyBriefTellsStale` | backend/app/modules/posts/services/posts.py:296-328 | If no handler returned an empty brief, the contract is older than the brief if and only if a client created it on a version with an empty brief section, which it can look up first |
| `EmptyBriefs.EmptyBriefNeedNotBeStale` | backend/app/modules/posts/domain/supervisor.py:478-488 | A concrete legal run in which a client creates its contract on an empty brief section and the contract is not older than the brief, because the brief stage had ended with an empty brief |
| `StaleOutputs.EarlyContractGoesStale` | backend/app/modules/posts/domain/supervisor.py:482-488 | It happens, whatever other handlers are registered: a concrete legal run in which a contract created before the brief is taken over by a skip and stays older than the brief |
| `Budgets.WorkIsPaidFor` | backend/app/modules/posts/domain/supervisor.py:463-527 | At every point of every run the handler starts so far, plus what the remaining attempts allow, stay within the sum of the stage limits, the limits of the stages that request revisions, and one per executor stuck in a revision |
| `Budgets.HandlerStartsAreBounded` | backend/app/modules/posts/domain/supervisor.py:616-618 | However executors interleave and crash, handlers start at most the sum of stage limits plus the sum of the limits of reviewing stages plus the number of executors |
| `Termination.EveryWriteDescends` | backend/app/modules/posts/domain/supervisor.py:478-527 | Every accepted write of an undisturbed executor other than a stop lowers a lexicographic measure of remaining attempts, outstanding revision requests, undone stages and owed writes |
| `Termination.UndisturbedRunEnds` | backend/app/modules/posts/orchestration/supervisor.py:107-187 | A block of consecutive versions by one executor without a stop is no longer than a bound computed from the plan |
| `DecisionLimit.UndisturbedTurn` | backend/app/modules/posts/orchestration/supervisor.py:107-186 | With nobody else writing, a turn that goes on takes exactly one decision: a skip, or a run that is completed |
| `DecisionLimit.OnlyTheContractIsSkipped` | backend/app/modules/posts/domain/supervisor.py:482-488 | Once an undisturbed executor has finished a turn, the only stage it can still skip is the contract stage, for a contract a client created |
| `DecisionLimit.UndisturbedTrailIsShort` | backend/app/modules/posts/orchestration/supervisor.py:107-187 | With nobody else writing, an execution goes on for at most the sum of stage limits plus the limits of reviewing stages plus five turns |
| `DecisionLimit.DecisionLimitIsNeverReached` | backend/app/modules/posts/orchestration/supervisor.py:90-93 | An executor of the shipped plan with 87 decisions or more, and so with its default of 100, never ends by its decision limit if nobody else writes: its last turn stops, or answers its handler with an exception |
| `Lifetime.LifetimeWorkBound` | backend/app/infrastructure/database/repositories/generation_jobs.py:190-209 | Across queue and supervisor, under any lease and timeout: over all claims of a job, handlers start at most the sum of stage limits plus the limits of reviewing stages plus the job's own attempts |
| `Gates.RunChangesOnlyItsOutputs` | backend/app/modules/posts/orchestration/supervisor.py:262-291 | While an execution is open, only the history and the outputs written so far differ from the version its decision made |
| `Gates.ClosedGateIsFinal` | backend/app/modules/posts/domain/supervisor.py:418-444 | After a persisted BLOCKED or REJECT, as long as no API write touches a gate, the gate stays closed and no handler is ever started again |
| `Gates.ApprovalIsEarned` | backend/app/modules/posts/orchestration/supervisor.py:138-143 | An approval is only ever recorded on a version in which every stage is done, no gate is closed, no request is pending, the client owes no answer and every report says PASS |
| `CompletionSafety.NormalReturnIsEarned` | backend/app/modules/posts/orchestration/supervisor.py:111-143 | When execute has returned normally with the shipped plan, its newest entry approves a version in which every stage is done, no gate is closed, no request is pending, the client owes no answer, all verdicts are PASS and every report judged the last composition; the version it leaves has the same sections |
| `DefaultPlan.ShippedIsAccepted` | backend/app/modules/posts/domain/supervisor.py:138-391 | The shipped plan passes its own constructor |
| `DefaultPlan.ShippedIsRevisionSafe` | backend/app/modules/posts/domain/supervisor.py:138-391 | The shipped plan is listed in topological order, gives each section one owner, and places only dependents after a reviewing stage: all that the freshness theorem asks |
| `DefaultPlan.ShippedReachesExactly` | backend/app/modules/posts/domain/supervisor.py:138-391 | In the shipped graph a stage depends, directly or not, on every stage listed before it, except that the stages on brand, audience, research, strategy, concept and copy do not depend on the assets |
| `DefaultPlan.RequiredAreProduced` | backend/app/modules/posts/domain/supervisor.py:138-391 | Every section a shipped stage requires is written by another stage it depends on, but for the conversation, which only the first stage requires |
| `RevisionDirectors.DirectRevision` | backend/app/modules/posts/tools/revision/director.py:61-94 | The revision goes to the stage of the finding that comes first by stage and route name, is to change exactly the sections of all findings, and keeps exactly the preservable sections that it does not change and that no stage depending on its target writes |
| `RevisionDirectors.TargetWritesTheChange` | backend/app/modules/posts/tools/revision/director.py:10-30 | The stage each route leads to writes the section the route is to change |
| `RevisionDirectors.RevisionCarriesOutExactly` | backend/app/modules/posts/tools/revision/director.py:61-84 | A revision runs again a stage that writes each section it is to change, exactly when no product finding comes together with one on copy, strategy or concept |
| `RevisionDirectors.StrategyIsLeftAsItIs` | backend/app/modules/posts/tools/revision/director.py:10-30 | The scoring stage may have a product and a strategy finding at once; then the revision goes to the assets, and no stage it runs again writes the strategy |
| `RevisionDirectors.DirectorTargetsAncestors` | backend/app/modules/posts/tools/revision/director.py:10-19 | Every route a reviewing stage may use leads to a stage it depends on that requests no revisions itself |
| `DefaultPlan.ApprovedReportsJudgeTheLastComposition` | backend/app/modules/posts/domain/supervisor.py:529-584 | When the shipped workflow is approved, each of the five reports was computed from a state that already held the last composition, and all required verdicts are PASS |
| `DefaultPlan.ShippedWorkBound` | backend/app/modules/posts/domain/supervisor.py:138-391 | Under the shipped limits a generation starts its handlers at most 81 times plus once per executor |
| `JobQueue.TransactionsKeepInv` | backend/app/infrastructure/database/repositories/generation_jobs.py:36-229 | Claiming, completing and failing keep attempts bounded, a worker and lease exactly on running jobs, attempts left on waiting ones, and every generation's status the mirror of its job |
| `JobQueue.DeadLetterKeepsInv` | backend/app/infrastructure/database/repositories/generation_jobs.py:211-229 | Burying expired, exhausted leases keeps the same invariant and the same set of jobs |
| `JobQueue.ClaimProgresses` | backend/app/infrastructure/database/repositories/generation_jobs.py:36-74 | No claim takes a job out of a terminal state or lowers its attempts |
| `JobQueue.SettlementProgresses` | backend/app/infrastructure/database/repositories/generation_jobs.py:120-171 | No settlement takes a job out of a terminal state or lowers its attempts |
| `JobQueue.BuriedRow` | backend/app/infrastructure/database/repositories/generation_jobs.py:211-229 | Burying changes exactly the running jobs with a lapsed lease and no attempts left: they are dead, without worker and lease, and keep their last error if they have one |
| `JobQueue.ClaimedRow` | backend/app/infrastructure/database/repositories/generation_jobs.py:36-118 | A claim gives a due job one more attempt, the caller's clipped id and a lease from now on, marks its generation running and touches no other row but the lost ones; a job that is not due is not touched |
| `JobQueue.SettledRow` | backend/app/infrastructure/database/repositories/generation_jobs.py:120-171 | The owner's settlement, field by field: completed now; or the clipped error, and a retry after the delay while attempts are left, dead after the last one, failed if it is not retryable; and the generation's status with it |
| `JobQueue.OnlyTheOwnerSettles` | backend/app/infrastructure/database/repositories/generation_jobs.py:120-188 | A settlement has an effect if and only if the job runs under the caller's clipped id, so a displaced worker changes nothing |
| `JobQueue.ClaimsAreNumbered` | backend/app/infrastructure/database/repositories/generation_jobs.py:190-209 | Each claim takes exactly one from the attempts remaining over all jobs |
| `JobQueue.EmptyPollMeansDrained` | backend/app/infrastructure/database/repositories/generation_jobs.py:36-74 | A poll at a time past every retry and lease finds no job due only if every job has ended |
| `JobQueue.JobRepository.DeadLetterExhaustedLeases` | backend/app/infrastructure/database/repositories/generation_jobs.py:211-229 | The loop over expired rows buries exactly the running jobs with a lapsed lease and no attempts left, and fails their generations |
| `JobQueue.JobRepository.ClaimNext` | backend/app/infrastructure/database/repositories/generation_jobs.py:36-74 | Returns nothing exactly when no job is waiting with its time come, or running under a lapsed lease, with attempts left; otherwise claims such a job, and none of them has an earlier time, or the same time and an earlier creation |
| `JobQueue.JobRepository.ClaimJob` | backend/app/infrastructure/database/repositories/generation_jobs.py:76-118 | Claims the named job exactly when it is waiting with its time come, or running under a lapsed lease, and has attempts left |
| `JobQueue.JobRepository.Complete` | backend/app/infrastructure/database/repositories/generation_jobs.py:120-136 | Settles exactly when the caller owns the running job |
| `JobQueue.JobRepository.Fail` | backend/app/infrastructure/database/repositories/generation_jobs.py:138-171 | Settles exactly when the caller owns the running job, scheduling a retry only while attempts are left |
| `Workers.GenerationWorker.Settle` | backend/app/workers/generation_worker.py:49-71 | How an execution ended decides the row: completed; failed for good for a non-retryable error; and after a timeout or any other exception, with its code, tried again after the backoff while attempts are left and dead after the last one. A displaced worker leaves every row alone |
| `Workers.GenerationWorker.RunOnce` | backend/app/workers/generation_worker.py:35-72 | With other workers in between, one cycle keeps the queue invariant, never undoes a terminal job and uses up an attempt of the job it claims; a settled cycle reports the final status, a displaced one no longer owns the job, and a cancelled one leaves the claim's row and lease as they were for as long as nobody takes the job over |
| `Leases.ExecutionsNeverOverlap` | backend/app/workers/generation_worker.py:35-48 | With a lease longer than the timeout and the delay from claim to start together, executions of successive claims of one job never overlap in time, for any number of workers, crashes and reclaims |
| `Leases.ShortLeaseOverlaps` | backend/app/core/config.py:40-46 | For every other lease there is a run in which two workers execute the same job at once, so the bound is exact, and the validated setting is exact for executions that start at once |
| `Leases.ClaimsWithinLimit` | backend/app/infrastructure/database/repositories/generation_jobs.py:59-62 | Under any settings every claim in every timed run is one of the job's max_attempts attempts |
| `Leases.SettlementIsOwn` | backend/app/workers/generation_worker.py:49-71 | Under any settings a settlement that has an effect is for the attempt its own worker executed last, never for a later one by another worker |
| `Leases.RetryWaitsExactly` | backend/app/infrastructure/database/repositories/generation_jobs.py:156-158 | In every timed run, after a retryable failure with attempts left nobody can claim the job before the delay is over, whatever else happens, and from then on every idle worker can until one has |
| `Leases.MirrorExactly` | backend/app/infrastructure/database/repositories/supervisor.py:63-75 | Every generation mirrors its job in every timed run exactly when the lease exceeds the timeout and the start delay together |
| `Leases.LateMarkBreaksMirror` | backend/app/infrastructure/database/repositories/supervisor.py:63-75 | For every other setting a run ends with a job completed and its generation RUNNING, because the status write at the start of an execution asks neither who owns the job nor how it stands |
| `Deployments.ExecutorsTakeTurns` | backend/app/workers/generation_worker.py:35-72 | With settings that keep executions apart, between two entries of an executor in the version log there are only its own and those of clients |
| `Deployments.RunningExecutionIsUndisturbed` | backend/app/workers/generation_worker.py:35-72 | While an execution runs, whatever other workers do, only it and clients write to the log |
| `Deployments.DeployedExecutionMeetsNoLimit` | backend/app/modules/posts/orchestration/supervisor.py:90-93 | An execution of the shipped plan during which no client writes never ends by its decision limit of 87 or more, whatever other workers do |
| `Deployments.DeployedWorkBound` | backend/app/infrastructure/database/repositories/generation_jobs.py:190-209 | In every run of queue, workers, executors and clients under any settings, handlers of the shipped plan start at most 81 times plus once per attempt of the job |
| `Creation.PostRepository.CreateGeneration` | backend/app/infrastructure/database/repositories/posts.py:223-286 | Creates, deduplicates or refuses as specified and keeps attempts numbered 1..n per post and one job, state row and snapshot per generation |
| `Creation.PostRepository.NewestAttempt` | backend/app/infrastructure/database/repositories/posts.py:249-252 | The aggregate yields the greatest attempt of the post, or 0 |
| `Creation.CreationKeepsConsistent` | backend/app/infrastructure/database/repositories/posts.py:223-286 | Whatever a request does, attempt numbers stay exactly 1..n for every post and rows stay matched |
| `Creation.HistoryIsConsistent` | backend/app/infrastructure/database/repositories/posts.py:223-286 | After any sequence of requests and section writes, every post's attempts are 1..n and every generation has one job, one state row and the snapshots 1 to its version, from its empty state to its current one |
| `Creation.SameKeySameGeneration` | backend/app/modules/posts/services/posts.py:94-116 | However much later a key is sent again for its post, the answer is the same generation and attempt, and nothing changes |
| `Creation.GenerationRequests.RequestGeneration` | backend/app/modules/posts/services/posts.py:94-116 | The key is the part of the client's key between its first and last character that is no white space, or a random one; it is refused exactly when longer than 200 characters, and otherwise its digest decides as the repository does |
| `CleanText.WordsOfJoined` | backend/app/modules/posts/domain/semantic_contract.py:25-26 | Splitting undoes joining |
| `CleanText.CleanIsIdempotent` | backend/app/modules/posts/domain/semantic_contract.py:25-26 | A cleaned text is its own clean form |
| `CleanText.CleanExactly` | backend/app/modules/posts/domain/semantic_contract.py:25-26 | The clean form of a text is the one text with the words of its normal form, in their order, whose only white space is single spaces between them |
| `Ordering.SortIsStable` | backend/app/modules/posts/domain/semantic_contract.py:57-57 | Sorting keeps values with the same key in the order in which they came |
| `Ordering.AtMostExactly` | backend/app/modules/posts/domain/semantic_contract.py:57-57 | Keys compare as texts do: a text comes before its continuations, and otherwise the first differing character decides |
| `Ordering.SortIgnoresArrangement` | backend/app/modules/posts/domain/semantic_contract.py:53-57 | Without ties every iteration order of a set sorts to the same sequence |
| `Ordering.TieShows` | backend/app/modules/posts/domain/semantic_contract.py:53-57 | With a tie, sorting the reverse of a sorted list changes it |
| `SemanticContracts.NormalizeFacts` | backend/app/modules/posts/domain/semantic_contract.py:104-113 | The loop yields the fact rows or the first complaint in iteration order |
| `SemanticContracts.FactRowsExactly` | backend/app/modules/posts/domain/semantic_contract.py:104-113 | The facts pass exactly when each fits its limits and no two names have the same semantic form; the rows are their clean forms |
| `SemanticContracts.CreateExactly` | backend/app/modules/posts/domain/semantic_contract.py:82-156 | Creation succeeds exactly on drafts with the six required fields, texts that clean to 1 to 500 characters, or 100 for fact names, platform and language, at most 100 entries in each list, and no two fact names with one casefolded clean form, in every iteration order |
| `SemanticContracts.ContractHoldsTheDraft` | backend/app/modules/posts/domain/semantic_contract.py:82-156 | Every created contract holds a scalar text exactly when the draft gives a text with that non-empty clean form, a fact exactly when some draft fact has that clean name and clean value, and the same for claims, constraints and assets, each once and in sorted order |
| `SemanticContracts.SameMeaningSameContract` | backend/app/modules/posts/domain/semantic_contract.py:53-156 | Drafts that say the same, of every field the same clean text and the same clean facts and list values, become the same contract in any order of lists, sets and dictionaries, if no list has ties |
| `SemanticContracts.FingerprintIsTheMeaning` | backend/app/modules/posts/domain/semantic_contract.py:273-280 | With a collision-free digest and no ties, two drafts get one fingerprint exactly when they say the same, field by field |
| `SemanticContracts.TamperingShows` | backend/app/modules/posts/domain/semantic_contract.py:159-193 | Under the fingerprint of a contract only a dictionary that says the same is ever read back, and it gives that very contract: what a stored contract says cannot be changed while its fingerprint stays |
| `SemanticContracts.ReadExactly` | backend/app/modules/posts/domain/semantic_contract.py:159-193 | A dictionary is accepted exactly when it has the expected fields and version, what it holds can be created again, and the fingerprint is the one that gives |
| `SemanticContracts.DraftExactly` | backend/app/modules/posts/domain/semantic_contract.py:173-190 | A dictionary can be read as a draft exactly when each field has its type and each asset parses; the draft then has those very values |
| `SemanticContracts.ReorderingChangesNothing` | backend/app/modules/posts/domain/semantic_contract.py:82-156 | Permuting lists or repeating their values within the limit gives the same contract |
| `SemanticContracts.StoredSaysTheSame` | backend/app/modules/posts/domain/semantic_contract.py:159-193 | What is read back from a stored contract is within the limits and says what the original draft said |
| `SemanticContracts.TieBreaksTheRoundTrip` | backend/app/modules/posts/domain/semantic_contract.py:53-57 | With a tie in a list, some iteration order makes reading the stored contract fail on its fingerprint |
| `SemanticContracts.RoundTripExactly` | backend/app/modules/posts/domain/semantic_contract.py:159-215 | Reading back a stored contract gives that contract in every iteration order if and only if no two different clean values of one list share their casefolded form |
| `SemanticAssertions.Violations` | backend/app/modules/posts/domain/semantic_contract.py:227-270 | The loops report the specified violations in the specified order, unless a protected value names an unknown field |
| `SemanticAssertions.ViolationsExactly` | backend/app/modules/posts/domain/semantic_contract.py:227-270 | The report contains exactly the violations: another fingerprint, a protected value that appeared, disappeared or differs once cleaned and casefolded, another value under a required fact's name, a claim with a forbidden text in it, an unused required asset |
| `Campaigns.Validate` | backend/app/modules/campaigns/services/validation.py:11-64 | The validator appends exactly the specified issues, in order |
| `Campaigns.ValidateBudget` | backend/app/modules/campaigns/services/validation.py:33-52 | The budget issues are appended to what was found before, and a missing allocation ends the budget check |
| `Campaigns.NoIssuesExactly` | backend/app/modules/campaigns/services/validation.py:11-64 | A plan passes if and only if it keeps the confirmed location, channels, budget and currency, and its items add up to its total |
| `Campaigns.EventsExactly` | backend/app/modules/campaigns/domain/state.py:25-57 | Four events are accepted, each in one status, and change the status alone; every other one is refused |
| `Campaigns.CampaignService.UpdateBriefAndReevaluate` | backend/app/modules/campaigns/services/campaigns.py:250-280 | As one step: refused without effect exactly while a plan is generated and something new is said; otherwise every field that was said holds what was said and every other one what it held, a changed brief makes the campaign ready, or briefing while business and product, goal or audience are unknown, and an unchanged one leaves a ready plan ready |
| `Campaigns.CampaignService.GeneratePlan` | backend/app/modules/campaigns/services/campaigns.py:154-209 | With other requests between the brief's read and the transition: success leaves the returned plan stored and ready; it honours the brief that was read, and the campaign is consistent exactly when it also honours the brief of the transition; two failures leave the campaign as requested; the second attempt is told what was wrong with the first |
| `Campaigns.CampaignIsConsistent` | backend/app/modules/campaigns/services/campaigns.py:154-346 | Over every interleaving in which no brief gains a demand between read and transition, briefing holds exactly while the brief is not ready, and a ready plan is stored and honours the current brief |
| `Campaigns.StoredPlanWasJudged` | backend/app/modules/campaigns/services/campaigns.py:154-209 | Over every interleaving a stored plan honours the brief that its generation had read, and a ready campaign is consistent exactly when the plan also honours the brief as it stands |
| `Campaigns.RaceIsSafeExactly` | backend/app/modules/campaigns/services/campaigns.py:161-166 | A brief update between the read and the transition is harmless, whatever plan is generated, exactly when the new brief adds no demand on channels, budget, currency or location to the old one |
| `Campaigns.RequestIsSafeExactly` | backend/app/modules/campaigns/services/campaigns.py:161-195 | In every reachable world, a waiting generation can be requested with a consistent outcome, whatever plan it gets, exactly when the current brief demands nothing that the one it read does not |
| `Campaigns.EntailsExactly` | backend/app/modules/campaigns/services/validation.py:20-72 | Every plan that honours one brief honours another exactly when each channel of the other has the normal form of a channel of the first, its amount is the same and its currency has the same normal form, and its location is matched by every text that matches the first one |
| `Campaigns.LocationKeptExactly` | backend/app/modules/campaigns/services/validation.py:67-72 | For locations that can be decided by looking: the old normal form contains the new one, and no part of it that is its own normal form is incomparable with the new one |
| `Campaigns.CampaignOnlyAdvances` | backend/app/modules/campaigns/services/campaigns.py:317-357 | Between any two moments of a run no known fact is lost and briefing is never re-entered |
| `Pagination.Paginate` | backend/app/modules/campaigns/services/export.py:198-207 | The pages read back as the input and stack from the top; if every line fits a page, none crosses a margin and no split into consecutive fitting pages is shorter |
| `Pagination.OneMorePage` | backend/app/modules/campaigns/services/export.py:202-204 | If a stretch of lines overflows one page, every fitting split that covers it needs one page more than the lines before it |

## Left out

- Providers, prompts, HTTP routes, sessions, row locks, telemetry: a repository method is one atomic step; a handler is any set of outputs or an exception.
- Shape errors of a persisted progress record or clarification plan: the model's state always has the right shape, so these exceptions do not occur in it.
- A generation that is deleted while it is executed: in the model it exists throughout an execution or not at all. The status write at the start of an execution is a step of its own in `Leases`, where it keeps the generation in step with its job exactly under the settings that keep executions apart.
- `Executors.PostSupervisorExecutor.PersistStageOutputs`: takes reading a contract as a predicate on documents; what is read is modelled in `SemanticContracts`.
- `PostsServices.PostsService.CreateSemanticContract`: takes the fingerprint of a stored contract, and whether it can be read, as a function of the document.
- `Executors.PostSupervisorExecutor.Execute`: does not say when its handlers fail, nor how often a race is lost; a run under endless interference ends by the decision limit only. Trace records are not modelled.
- `Campaigns.CampaignService.UpdateBriefAndReevaluate`: one step, so a status that a session read earlier and keeps is not modelled.
- `Campaigns.CampaignService.GeneratePlan`: a transition reads and writes the status in one step; two requests that both read READY before either writes are not modelled.
- `SemanticContracts.NormalizeFacts`: the texts of error messages are reduced to their kind and field.
- `SemanticContracts.RoundTripExactly`: stored values are null, numbers, texts, lists of texts and text dictionaries; another JSON type in a field is one error, Malformed.
- `SemanticAssertions.Violations`: violations are values instead of messages.
- `RevisionDirectors.DirectRevision`: models the route, the target, and what is changed and kept; reasons, actions, iteration numbers and ids are not modelled, nor is the order of findings with one route.
- `Campaigns.Validate`: text normalisation is an abstract function and amounts are real numbers instead of decimals.
- `Creation.GenerationRequests.RequestGeneration`: a key already stored for another post is a conflict, as the unique constraint makes it; the digest and what counts as white space are abstract functions.
- `Workers.GenerationWorker.RunOnce`: the polling loop around it, its delays and its stop event are not modelled.
- `Leases.ExecutionsNeverOverlap`: time moves in whole units and one clock serves all workers.
- `Pagination.Paginate`: drawing, wrapping and fonts are not modelled; spacings are whole numbers.
- Readiness field names, chat, assets, sharing, exports other than the page layout: more of the same kind, or string heuristics without a clear promise.
