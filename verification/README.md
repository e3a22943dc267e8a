# Verified model of the execution kernel

This project models, in Dafny, the parts of the AI secretary that decide what runs, in which order, how
often, and who may record the outcome, and proves the guarantees those parts are there for. Every
executor, safety gate, repair planner, language model, remote server and database error is an arbitrary
oracle, so each theorem holds whatever they answer.

Run `dafny verify dfyconfig.toml` in this directory to check the whole project.

## Modules

| file | what it models |
|---|---|
| `MultiAgent.dfy` | tasks, resource conflicts and the batch planner `plan_batches`, against a declarative definition of a correct plan |
| `Reports.dfy` | executor answers, gate verdicts and run reports shared by the runtimes |
| `AgentRuntime.dfy` | one static run and the development loop with bounded repairs |
| `Distributed.dfy` | the distributed scheduler and its coordinator |
| `QualityRuntime.dfy`, `ImmediateStop.dfy` | the quality pipeline and the emergency stop latch |
| `ManagementBridge.dfy` | the planner that keeps a model's plan inside the detected roles |
| `JobQueue.dfy` | the leased job queue, one atomic step per transaction |
| `NoteSave.dfy` | the fail-closed note save between many callers, a claim row and an unreliable server |
| `HibernateWake.dfy` | the process-wide wake ownership of the MCP client and its failure classification |
| `LineSplit.dfy` | splitting a LINE message by UTF-16 length |
| `MessageBus.dfy` | the bounded, identity-bound message bus |
| `CreatorCritic.dfy`, `ControlTower.dfy` | scoring of a proposal and the approval of its task |
| `HandoffStore.dfy` | approved handoffs and their store |
| `Text.dfy` | `strip`, string order, sorting and decimal numbers as Python has them |

## How the model is built

* Code that updates variables or fields is a method or a class, with the loops of the source and a
  specification function or predicate it is proved against; the theorems are lemmas about that
  specification. The runtimes number their executor calls, so an oracle may answer differently each
  time and remember everything before.
* The job queue, the note save and the wake ownership are state machines: a step is one transaction, one
  request or one locked section, and theorems range over every sequence of steps by any number of
  workers, callers or threads. The code of one note save and of one MCP call is proved to be a run of
  the very automaton that the interleaving theorems are about.
* Exceptions are values: a `None`, an error constructor or an exit tag stands for each raised error.
* Clocks and times are integers, floats are exact (with infinities and NaN where the Critic meets them),
  hashes are functions, taken to be free of collisions only where a lemma says so.

Findings, each stated as a theorem with its exact condition or a concrete witness:

* The restricted planner can break a plan: a task dropped because it depends on an out-of-scope task may
  be needed by a third one (`StrandedDependency`). `StaysSchedulable` gives the exact condition.
* `create_job` accepts a negative `max_retries`; the retry counter then exceeds it from the start
  (`RetriesWithinMaximum`, `NegativeBudgetExceeded`). It also stores the job type as it is, and a pending
  job can ever be started or changed exactly when its type is neither blank nor surrounded by whitespace
  (`WorkableExactly`, `CancellableExactly`); `StrandedJobs` has one job of either kind that stays pending
  for ever.
* Two saves of one note can both be pending although nothing is stored, once a claim older than its TTL
  has been taken over; with the note stored they can be within the TTL too. `PendingPairExactly` gives the
  exact window, `TwoPendingAfterExpiry` and `TwoPendingOnceStored` the runs.
* A local database error answers FAILED although the note is stored, or may still be, at exactly three
  places (`HidingPlaces`, `FailedAlthoughStored`); everywhere else FAILED is true (`CallOutcome`).
* "Once stopped, not ready for integration" is false for a request that comes while the integration
  executes, or while the gate verifies it: the run still reports readiness (`LateStop`).
  `ReadyThoughStopped` says that these are the only cases; any earlier request does stop the run
  (`OperatorStops`).
* A second handoff for the same task with other paths is silently dropped (`SecondPathsDropped`).
* The comments of the stop controller say that an absent latch file counts as stopped; the code treats it
  as not stopped (core/immediate_stop.py:56-72), and the model follows the code.

## Model

| member | source | states |
|---|---|---|
| MultiAgent.PlanBatches | core/multi_agent.py:106-137 | returns a schedule by greedy batches, or the first duplicate id, or the first missing dependency, or a cycle report that is only given when a cycle exists; the loop terminates and the "could not select" error never occurs |
| MultiAgent.PlannedIffSchedulable | core/multi_agent.py:106-137 | planning succeeds exactly when ids are distinct, no dependency is missing and the dependency relation is acyclic; a cycle is reported exactly when it is all that is wrong |
| MultiAgent.StuckHasCycle | core/multi_agent.py:119-123 | tasks that are all waiting for one another contain a dependency cycle (pigeonhole on a walk) |
| MultiAgent.ScheduleAcyclic | core/multi_agent.py:119-137 | no cycle survives a schedule |
| MultiAgent.SelectBatch | core/multi_agent.py:120-133 | the batch is conflict-free, in key order, and every ready task left out conflicts with a selected one of higher priority or equal priority and smaller id |
| MultiAgent.GreedyUnique | core/multi_agent.py:124-133 | the greedy choice is determined by the set of pending tasks |
| MultiAgent.PlanIgnoresOrder | core/multi_agent.py:106-137 | the plan, and which error is raised, do not depend on the order of the input tasks |
| MultiAgent.PlanIsTopological | core/multi_agent.py:119-137 | the flattened plan lists every task exactly once, dependencies first |
| MultiAgent.BatchIsGreedy | core/multi_agent.py:119-137 | batch k is the greedy choice after the batches before it |
| AgentRuntime.Run | core/agent_runtime.py:241-264 | a static run starts the batches of the plan in order, up to the end of the batch that fails and nothing after it; all batches before it succeeded; it blames the first task without executor, else the first one whose answer was refused, else the first failed one, with the text that stopped it |
| AgentRuntime.NothingRunsEarly | core/agent_runtime.py:241-264 | what was started is a prefix of the plan, and no task was started before all its dependencies had succeeded |
| AgentRuntime.RunBatch | core/agent_runtime.py:316-343 | a batch result means that every answer was checked and verified; an error names the task to blame, by order of missing executor, refused answer and failure, and says how many results are kept |
| AgentRuntime.RunDevelopment | core/agent_runtime.py:266-314 | the run is a history of static runs, each one that `run` may make, its calls numbered after those before it, and each following from the ones before: the given tasks, then by turns the repair that the planner answers to the test or review that stopped the round, and the gates derived from that repair; at most n + 4(max_rounds - 1) executor calls; the round-limit and missing-gate returns are unreachable; readiness exactly on the integrated exit, after the whole plan or after a repair followed by its retest, review and gate; each failing exit blames a task of the last round, or the last repair, that has no executor or was stopped at its own call, or gives what the planner answered for it; the `ValueError` escapes exactly when the constructor refuses a task derived after a successful repair, never when test and review ids have at most 180 and integrator ids at most 194 characters |
| AgentRuntime.HistoryIsSound | core/agent_runtime.py:266-314 | what a development run records is, in order, the accepted successes of distinct calls of this run on these tasks |
| AgentRuntime.HistoryCalls | core/agent_runtime.py:278-303 | the calls of a history are bounded by its rounds: the given tasks once, then at most one call for a repair and three for its gates |
| AgentRuntime.HistoryRepairs | core/agent_runtime.py:278-303 | besides what the given tasks record, a run records exactly one Repairer for each repair that succeeded |
| AgentRuntime.RefusedAtOnce | core/agent_runtime.py:278-283 | only the tasks that were handed in can be refused by the planner in a round, and then nothing was called or recorded |
| AgentRuntime.RepairOnce | core/agent_runtime.py:288-304 | the repair of a failed gate costs at most one call; it ends the run with the planner's failure, with a wrong role or with a repair task that was stopped at its own call or could not be planned, or with a refused derived task; otherwise its run is added to the history and the gates derived from it come next |
| AgentRuntime.FollowUpRuns | core/agent_runtime.py:355-380 | a successful follow-up round leaves exactly retest, review and gate, in this order, whatever order the planner was free to choose |
| AgentRuntime.FollowUpFits | core/agent_runtime.py:355-380 | on valid tasks and in the rounds that the runtime reaches, the derived tasks pass the checks of the constructor exactly when the failed id has at most 192 (test) or 190 (review) characters and the integrator id at most 194 |
| AgentRuntime.RunIsSound | core/agent_runtime.py:241-264 | every completed entry is the accepted success of its own call; a failed run leaves out a task and blames one of its tasks, which has no executor or whose own call was stopped by the reported text; an error without a task is the planner's; a successful run completed the whole plan |
| Distributed.Run | core/distributed_scheduler.py:55-76 | results match, id for id, a batch-aligned prefix of the plan whose earlier batches all succeeded; no task starts before all its dependencies succeeded; a raised error names the first task without executor of some batch, and then nothing of it was started, or else the first one with an invalid answer, and then the whole batch was; all batches before it succeeded and nothing after it was started |
| Distributed.RunBatch | core/distributed_scheduler.py:120-147 | results are the validated answers in task order; an error names the first invalid answer of the batch |
| Distributed.SuccessExactly | core/distributed_scheduler.py:55-76 | a run finishes successfully exactly when the tasks can be scheduled, all roles have executors and every task succeeds |
| Distributed.ChangesDisjoint | core/distributed_scheduler.py:78-118 | two tasks of one batch never report a change to the same resource |
| Distributed.Coordinate | core/distributed_runtime.py:47-73 | the report pairs every result with its own task; it is ready exactly when every task ran and succeeded |
| Distributed.PairedWithOwnTask | core/distributed_runtime.py:54-79 | zipping the plan with a shorter list of results pairs each result with the task it answers |
| Distributed.ExecutionOrderIsPlan | core/distributed_runtime.py:75-79 | looking the planned ids up in the task list gives back the flattened plan |
| QualityRuntime.Execute | core/quality_runtime.py:39-89 | the executor is called exactly when it exists and the latch is clear; the step succeeds exactly when the answer is a harmless success that the gate verified; the latch is set afterwards exactly when it was before, the operator asked for it before the check, while the executor ran or while the gate verified, or the answer was dangerous or rejected |
| QualityRuntime.Run.QualityRepair | core/quality_runtime.py:91-99 | nothing runs exactly when Debugger or Refactorer is missing; otherwise one Debugger step is charged and the last step is a retest or a failed repair step |
| QualityRuntime.Run.RepairFailed | core/quality_runtime.py:100-131 | the steps of a repair are the tasks for Debugger, Refactorer and mandatory retest derived from the failed step, in this order, stopping at the first failure |
| QualityRuntime.Run.TestLoop | core/quality_runtime.py:157-181 | either a test passes at the end of the trace, or the run ends with the blame on the last step |
| QualityRuntime.Run.ReviewLoop | core/quality_runtime.py:183-225 | either a review passes at the end of the trace, or the run ends with the blame on the last step |
| QualityRuntime.RunQuality | core/quality_runtime.py:133-242 | the steps obey the gate order, and each runs the task that the given tasks and the steps before it determine: the given task of the next role, or the Debugger, Refactorer, retest or re-review task derived from the failure; at most 5 + 7(max_rounds - 1) steps; rounds are 1 + the larger of the test and review attempts, each below max_rounds, and repairs are their sum, where the attempts are the Debugger steps before and after the first review of the trace; a failed report blames the last step with its own text, and a failed test or review only after all rounds were used |
| QualityRuntime.ReadyMeansGated | core/quality_runtime.py:133-242 | a ready report ends with a test, a review and an integration that succeeded, no repair in between; the latch was clear when every step began, no step met danger or a rejection, and no operator request fell into a step before the last |
| QualityRuntime.OperatorStops | core/quality_runtime.py:39-89 | after a step into which an operator request falls the latch is set, no executor is called again and no step succeeds |
| QualityRuntime.ReadyThoughStopped | core/quality_runtime.py:51-89 | a ready report leaves the latch set exactly when the operator asked for the stop while the integration executed, or while the gate verified it |
| QualityRuntime.LateStop | core/quality_runtime.py:227-242 | a concrete run that the operator stops during the integration and that reports readiness |
| QualityRuntime.NothingRunsOnceStopped | core/quality_runtime.py:46-51 | once the latch is set no executor is called again in the run and no step succeeds |
| QualityRuntime.SuccessesAreVerified | core/quality_runtime.py:39-89 | every success but the manager's began with the latch clear, is the executor's own answer and was verified by the gate |
| ImmediateStop.ImmediateStopController.RequestStop | core/immediate_stop.py:78-99 | the latch is set whatever it held before |
| ImmediateStop.ImmediateStopController.InspectText | core/immediate_stop.py:101-107 | the latch is set exactly on dangerous, nonempty text and left alone otherwise |
| ImmediateStop.ImmediateStopController.IsStopped | core/immediate_stop.py:65-72 | stopped exactly for a set or unreadable latch, not for a missing one |
| ManagementBridge.RestrictPlan | core/management_bridge.py:140-201 | the roles of the result are exactly the allowed ones; it consists of the kept tasks and one fallback per missing role, in role-name order, each under the first free id; parallel safety is lost exactly by adding a fallback; an error exactly when there are no or more than 6 tasks or a bound instruction is refused |
| ManagementBridge.FreshId | core/management_bridge.py:176-181 | the id is the first unused one among base, base-2, base-3, ...; the search ends |
| ManagementBridge.FilterInOrder | core/management_bridge.py:158-163 | filtering keeps the order of the plan |
| ManagementBridge.StaysSchedulable | core/management_bridge.py:120-201 | a schedulable plan stays schedulable after filtering, fallback insertion and binding exactly when every dependency of a kept task is kept or is the id a fallback will get |
| ManagementBridge.DirectDependenciesSuffice | core/management_bridge.py:154-163 | it is enough that no kept task depends on a dropped one |
| ManagementBridge.StrandedDependency | core/management_bridge.py:154-201 | a concrete schedulable plan that can no longer be scheduled after the rewriting |
| ManagementBridge.ExtendedDistinct | core/management_bridge.py:171-192 | fallback insertion keeps the ids distinct |
| JobQueue.JobDb.CreateJob | db.py:172-182 | the new row is pending with the next id, as in the specification step |
| JobQueue.JobDb.ClaimPendingJobByType | db.py:246-317 | the table after the two sweep statements and the pick is the specification step's |
| JobQueue.JobDb.CompleteClaimedJob | db.py:320-355 | only a running row with this token is completed |
| JobQueue.JobDb.CancelPendingJobByType | db.py:419-500 | the checks in order; only a pending row with the right type and message digest is cancelled |
| JobQueue.LiveTokens | db.py:246-317 | over every interleaving a job is running exactly when it holds a token, and live tokens are distinct |
| JobQueue.CompletionAccepted | db.py:320-355 | a completion is accepted exactly for the live token, which belongs to the job's latest claim, and at most once per job |
| JobQueue.TerminalForever | db.py:246-500 | completed and failed rows never change again |
| JobQueue.DeadNeverCompletes | db.py:261-355 | a token that lost its lease can never complete the job, whatever happens later |
| JobQueue.SweptLeaseIsDead | db.py:261-290 | a sweep that finds a lease expired ends it, failing the job or charging one retry |
| JobQueue.ClaimsBounded | db.py:261-317 | a job never cancelled was claimed retry_count times, plus once unless it is pending; at most max_retries + 1 claims |
| JobQueue.RetriesWithinMaximum | db.py:261-317 | the retry counter is within max_retries exactly for a nonnegative max_retries |
| JobQueue.NegativeBudgetExceeded | db.py:172-182 | a job created with max_retries -1 has a retry counter above it |
| JobQueue.ClaimPicksLeast | db.py:261-317 | a claim answers the least waiting id of its type after the sweep, with a fresh token, and touches no other row |
| JobQueue.CancelOutcome | db.py:419-500 | the cancellation succeeds exactly for a pending job with matching type and digest; the "pending with token" branch is unreachable |
| JobQueue.WorkableExactly | db.py:172-317 | some sequence of steps starts a pending job, or changes it at all, exactly when its type is not blank and has no surrounding whitespace |
| JobQueue.CancellableExactly | db.py:419-500 | some cancellation of a pending job succeeds exactly when its type is such a one and its id is in the accepted range |
| JobQueue.StrandedJobs | db.py:172-182 | jobs created with the types " t" and "" stay pending through every sequence of steps |
| JobQueue.SweepIsTwoStatements | db.py:261-290 | the two UPDATE statements, one after the other, sweep each job once |
| NoteSave.SaveNoteSafely | note_save_guard.py:139-213 | the call is the run of the protocol automaton that its answers determine, each operation at its own time and on the claim row that it finds, and leaves the claim row as that run does |
| NoteSave.StepIsMove | note_save_guard.py:139-213 | with sound answers each step of the code is a move of the interleaving protocol |
| NoteSave.RunIsTrace | note_save_guard.py:139-213 | in every interleaving, what a caller does is a trace of the code under the answers, claim rows and times that it meets there |
| NoteSave.CallDetermined | note_save_guard.py:139-213 | the answers determine the operations, the status and the row of a call |
| NoteSave.AtMostOnePendingSave | note_save_guard.py:70-213 | over every interleaving and runs of any length, two saves can both still be applied only if the note is already stored, or a claim older than its TTL was taken over while its caller could still save |
| NoteSave.PendingPairExactly | note_save_guard.py:70-213 | a given time after the start, two saves can both be pending with nothing stored exactly when more than a TTL has passed, and with the note stored at any time |
| NoteSave.CallOutcome | note_save_guard.py:139-213 | within one call at most one save reaches the server; SAVED and ALREADY_EXISTS mean the note is stored; FAILED means this call stored nothing and never will, unless the local database failed at one of three places: marking the outcome unknown before the read-back, marking it so after an unsure read-back, releasing the claim after a positive one |
| NoteSave.TwoPendingAfterExpiry | note_save_guard.py:70-87 | past the TTL two saves can be pending while nothing is stored |
| NoteSave.TwoPendingOnceStored | note_save_guard.py:146-156 | a blocked caller may release another caller's claim, so two saves can be pending once the note is stored |
| NoteSave.FailedAlthoughStored | note_save_guard.py:165-213 | at each of the three places a run in which the note is stored and the database error answers FAILED |
| NoteSave.HidingPlaces | note_save_guard.py:139-213 | of the places that touch the claim table, exactly these three can be reached with a save that was stored or may still be |
| HibernateWake.OneWakeAtATime | mcp_client.py:38-52 | over every interleaving of threads the owner flag is set exactly while one thread is between its claim and its release, and wake loops never overlap |
| HibernateWake.FlagChanges | mcp_client.py:38-52 | only the owner clears the flag, by the step that ends its call; only a granted claim sets it, when no cooldown runs, although the claim uses a clock value read before the lock |
| HibernateWake.FreedOnExit | mcp_client.py:208-271 | when every call has ended the wake is free, whichever way the calls ended |
| HibernateWake.SpellsDisjoint | mcp_client.py:38-52 | periods of ownership follow one another, each starting after the cooldown left by the one before |
| HibernateWake.ClaimsAreReleased | mcp_client.py:208-271 | a call claims at most once and has released exactly what it claimed when it ends |
| HibernateWake.DeliveredAtMostOnce | mcp_client.py:211-258 | at most one request of a call may have reached the application, and the outcome tells whether one did |
| HibernateWake.ClassificationSound | mcp_client.py:152-162 | a failure is called "not delivered" exactly when no request may have reached the application, "rejected" exactly for a 4xx response of it |
| HibernateWake.CallMcpToolOnce | mcp_client.py:165-271 | the call runs the automaton as the world answers, terminates under any clock that never goes back and reaches its deadline in the end, and leaves the wake free if it had claimed it |
| HibernateWake.RanIsTrace | mcp_client.py:165-271 | what the code of a call does is a run of the automaton that the interleaving theorems are about |
| HibernateWake.WakeState.ClaimHibernateWake | mcp_client.py:38-46 | granted exactly when neither a cooldown nor another wake is under way |
| HibernateWake.WakeState.ReleaseHibernateWake | mcp_client.py:48-52 | clears the flag and starts the cooldown, never a negative one |
| LineSplit.TakeLineText | app.py:162-170 | the longest prefix within the limit in UTF-16 units, and the rest |
| LineSplit.LongestFitUnique | app.py:162-170 | the longest fit is unique, so the cut is determined |
| LineSplit.SplitLineMessage | app.py:182-209 | the messages are cut as specified: total limit, longest fit, newline preference, message limit, notice |
| LineSplit.SplitFits | app.py:182-209 | every message fits exactly when nothing was cut or the notice itself fits |
| LineSplit.SplitKeepsText | app.py:182-209 | the messages say exactly the text, or a prefix of it followed by the notice |
| LineSplit.SplitIsTight | app.py:182-209 | every message but the last ends in a newline or cannot take the next character |
| LineSplit.ShortTextUnchanged | app.py:182-209 | a text that fits into one message comes back unchanged |
| LineSplit.DefaultMessagesFit | app.py:173-209 | with the default limits every message fits |
| LineSplit.SplitCount | app.py:182-209 | at least one message, and no more than the limit unless it is a single one |
| MessageBus.RouteMatrix | core/agent_communication.py:195-257 | a message of a canonical sender passes exactly when it is a task result from a specialist to another known agent under exactly the result constraints |
| MessageBus.AgentMessageBus.GetEndpoint | core/agent_communication.py:345-360 | a known name gets the one endpoint bound to its canonical identity, any other name none |
| MessageBus.AgentMessageBus.Send | core/agent_communication.py:366-411 | the sender is the endpoint's identity whatever the draft says; the message is queued exactly when it is approved, and a full mailbox drops its oldest |
| MessageBus.AgentMessageBus.Receive | core/agent_communication.py:413-424 | the oldest messages of the own mailbox are taken, in order; other mailboxes are untouched |
| MessageBus.AgentMessageBus.Peek | core/agent_communication.py:426-434 | shows the oldest messages and changes nothing |
| MessageBus.InOrderSelection | core/agent_communication.py:392-424 | what was received followed by what is queued is an in-order selection of what was sent |
| MessageBus.EnqueueKeepsInv | core/agent_communication.py:392-411 | a mailbox stays a bounded suffix of what was sent to it |
| CreatorCritic.RunDuel | core/creator_critic.py:165-183 | at most max_iterations rounds, each built on the one before; only the last can pass; an error escapes exactly where a model, the provider or a metric failed |
| CreatorCritic.EvidenceDecides | core/creator_critic.py:118-196 | with the same measurements in every round the verdict depends on them alone: it comes in the first round or never |
| CreatorCritic.DuelShape | core/creator_critic.py:118-183 | scores and metrics stay between 0 and 1; an entry passes exactly when its metrics reach the thresholds |
| CreatorCritic.ClampInRange | core/creator_critic.py:186-196 | the normalized value is finite and between 0 and 1 for every float; NaN and negative values become 0 |
| CreatorCritic.CreateFails | core/creator_critic.py:76-104 | the Creator fails only for a missing objective, a failing model or an empty proposal, never on the checks of the candidate |
| CreatorCritic.EvaluateFails | core/creator_critic.py:118-152 | the Critic fails only for a failing model, an empty answer or an overflowing metric |
| ControlTower.EvaluateProposal | core/control_tower.py:116-153 | without reviewer, target or task the decision is inert; a review error leaves no duel and no hash; otherwise the duel ran on the report's own evidence |
| ControlTower.Observe | core/control_tower.py:155-191 | the same for a proposal of the feedback engine |
| ControlTower.ApprovedMeansReady | core/control_tower.py:116-235 | whatever the models answer and whatever evidence is added, an approval means that the report succeeded and was ready for integration |
| ControlTower.ReadyIsApproved | core/control_tower.py:116-235 | when the models answer and no evidence is added, approval is exactly readiness and comes in the first round |
| ControlTower.OnlyTheReviewedTask | core/control_tower.py:34-50 | exactly the proposed task is exposed, exactly after a pass |
| ControlTower.ApprovedDistributedRun | core/control_tower.py:212-235 | an approval over a distributed run means that every task ran and succeeded |
| ControlTower.ApprovedQualityRun | core/control_tower.py:212-235 | an approval over a quality run means that test, review and integration passed last and the latch was clear when every step began |
| Handoff.BuiltIsNormal | core/self_improvement_handoff.py:25-57 | a built handoff carries the approved task and exactly the given paths, stripped, sorted, each once, and passes the checks of the store |
| HandoffStore.RoundTrip | core/self_improvement_handoff_store.py:71-131 | decoding the encoding gives the handoff back exactly when its paths are in normal form |
| HandoffStore.LoadIsSound | core/self_improvement_handoff_store.py:42-52 | whatever the file contains, loading returns at most max_records handoffs and each passes role, policy and hash checks |
| HandoffStore.AppendedIsLoaded | core/self_improvement_handoff_store.py:33-52 | an appended handoff can be loaded exactly when it could be before or no record carried its hash |
| HandoffStore.AppendKeepsOthers | core/self_improvement_handoff_store.py:33-52 | appending displaces at most the oldest record and keeps the order of the others |
| HandoffStore.SecondPathsDropped | core/self_improvement_handoff_store.py:33-40 | a second handoff for the same task with other paths is dropped |
| HandoffStore.BuiltIsStorable | core/self_improvement_handoff_store.py:133-147 | a handoff that could be built exists only because the report was ready, and it will read back as it is |
| HandoffStore.ApprovedImprovementHandoffStore.Append | core/self_improvement_handoff_store.py:33-40 | a handoff is accepted exactly when it passes the checks; a refused one leaves the file alone; the file never exceeds max_records |
| HandoffStore.ApprovedImprovementHandoffStore.Load | core/self_improvement_handoff_store.py:42-52 | the loop returns the handoffs of the readable records, in order |

## Left out

- All HTTP, LINE, Slack, GitHub, spreadsheet, language-model, subprocess and git calls; where a model needs one, it is an arbitrary answer.
- Flask routes, dashboards, prompts, reply strings, logging, environment parsing and keyword or pattern matching; the table of stop patterns, the ticker lookup and the path policy for a single path are parameters.
- core/line_development_runtime.py, agent registries and lifecycles, the specialist gate, the pending queue and the voice pipeline.
- The untyped job path of db.py (`claim_pending_job`, `update_job`): it writes the status without looking at the token, so the lease theorems are about the typed path alone. Backups and message history are left out too.
- The read-back of a job after a typed claim is part of the claim step.
- In note_save_guard.py, the retry of a call without a timeout after a `TypeError`; parsing of the read-back answer is reduced to present, absent or unknown, and a text answer is taken to mean that the request is over.
- Note deletion: a stored note stays stored.
- Real thread pools: the tasks of a batch are answered independently, so the order in which they run does not matter; results are collected in task order as in the source.
- Operator resets of the stop latch during a run, and a latch file that cannot be written.
- The observation of a development run by the Control Tower inside the runtime (core/agent_runtime.py:155-239): it does not change the report; event recording (core/control_tower.py:67-114) and the signals of the feedback engine are left out with it.
- Floating-point rounding, including the rounding of a score to four digits.
- SHA-256 itself: digests and task hashes are functions, injective where a lemma requires it.
- The text layer of the handoff file: records are already parsed, and strings are taken to contain no line separators.
- The envelope of a message (context, timestamps) beyond the fields that routing and queueing look at; lower-casing is modelled for the characters that known agent names can contain.
- A clock that stands still for ever: the wake loop is shown to end when readings never decrease and pass every instant; they may repeat.
- The history of a mailbox is ghost state beside the queue; the source keeps the queue alone.
- The note save theorems assume that the read-back is accurate and that the classification of failures is sound; the latter is proved for the client's own loop by HibernateWake.ClassificationSound.
- The wording of failure texts is shortened; what matters is which text a report carries.
