# The runner, verified

A runner leases jobs from a control plane, drives each through a workflow in a Docker
container, and reports a result that has to survive lost answers, crashes and restarts. This
project models that logic in Dafny and proves what it promises. Docker, HTTP, SQLite and the file
system are nondeterministic: every call of theirs is an oracle that may fail.

| file | subject |
|---|---|
| `LogBuffer.dfy` | bounded log buffers and the loop that drains one exec |
| `WorkflowPlan.dfy` | the workflow as one flat machine: the only step a plan allows after a history |
| `WorkflowEngine.dfy` | the engine's nested loops, proved to follow that machine |
| `WorkflowRuns.dfy` | promises about whole runs, proved of the machine |
| `CommandRun.dfy` | the single-command path: one container, one log budget for two streams |
| `Protocol.dfy`, `States.dfy`, `Executor.dfy` | results, lifecycle states, and a whole job from admission to result |
| `IdempotencyKey.dfy`, `Journal.dfy` | completion keys; the `jobs`, `events` and `completion_outbox` tables |
| `CompletionProtocol.dfy` | workers, outbox, server, crashes, restarts and replay as a transition system |
| `CompletionConsistency.dfy`, `CompletionCounts.dfy` | exactly when sends agree with the outbox; how the attempt counter bounds sends |
| `CompletionLoops.dfy` | the retry loop and the replay loop over the journal, proved to be runs of that system |
| `LogPipeline.dfy` | the live log: producer, bounded queue, retrying uploader, flush |
| `Heartbeat.dfy`, `LeasedJob.dfy`, `DaemonLoop.dfy` | the lease heartbeat; how it meets the end of a job; the permit loop of the daemon |
| `Glob.dfy`, `FileTree.dfy`, `Artifacts.dfy`, `Staging.dfy` | patterns, pruned walks, artifact export, workspace staging |
| `Redaction.dfy` | redaction of a job specification for diagnostics |

`dafny verify dfyconfig.toml` checks everything.

## Where the code and its description differ

The model follows the code. Each of these is stated by a lemma or a contract.

- `valid_transition` is consulted by nothing, and forbids the step from collecting to cancelled or
  timed out that both run paths take (`States.ChainIsLegalExactly`).
- `transition` is two statements without a transaction, so `jobs` and `events` can disagree after a
  failure between them (`Journal.TablesAgreeExactly` says exactly when).
- A worker sends its result from memory while the outbox keeps the first payload stored. A run stays
  consistent exactly if no enqueueing finds a row of its key with another lease or payload
  (`CompletionConsistency.ConsistentExactly`), and everything sent is the row's exactly if no worker
  sends after such a clash (`CompletionConsistency.SendsMatchExactly`). Executing an attempt twice with
  different outcomes breaks it (`CompletionConsistency.TwiceExecutedSendsDiffer`).
- When the executor fails, the result made up for it has `log_truncated` off whatever was dropped
  (`LogPipeline.FailedExecutorHidesLoss`); with the flag off the log is complete exactly if nothing was
  dropped (`LogPipeline.CompleteExactlyIfNothingDropped`).
- An uploader that finished with loss, or died, is awaited a second time, which panics. Past the flush a
  job has lost its completion exactly in these cases (`LogPipeline.CompletionLostExactly`); one chunk
  whose three uploads fail is enough (`LogPipeline.OneLostChunkLosesTheJob`). The heartbeat of such a job
  is left behind and renews its lease as long as the server lets it
  (`LeasedJob.LeaseOutlivesJobExactly`, `LeasedJob.LostJobKeepsItsLease`).
- In the single-command path an empty frame that arrives when the log budget is used up exactly sets
  the truncation flag although nothing was lost (`CommandRun.OverrunExactly`). The text of a failed
  publish is appended to stderr after the log loop, so both streams stay within their joint budget
  exactly if it still fits (`CommandRun.RunCommand`, `CommandRun.PublishBreaksTheBudget`).
- The byte budget of the export is checked with a 64-bit sum that wraps in a release build: the longest
  fitting prefix is copied exactly if it does not wrap (`Artifacts.Export`), and it can, with real file
  sizes and the largest limit (`Artifacts.WrapCopiesTooMuch`).

## Model

| member | source | states |
|---|---|---|
| `LogBuffer.AppendBounded` | crates/executor-docker/src/lib.rs:103-108 | the buffer becomes the first `limit` bytes of buffer and data together, and the flag is set exactly if bytes were cut; also for a buffer already over the limit |
| `LogBuffer.Drain` | crates/executor-docker/src/lib.rs:1448-1491 | the output loop: each stream is the flat truncation of everything that arrived on it, the flag is exact, and the live log gets every chunk of both streams |
| `LogBuffer.ExecCommand` | crates/executor-docker/src/lib.rs:1376-1509 | status, streams, flag and termination of an exec that ran; a Docker error gives no result, but what arrived before it has been passed on |
| `LogBuffer.FirstOfFirsts` | crates/executor-docker/src/lib.rs:1678-1688 | truncating each exec first and their concatenation again is truncating everything once, and the accumulated flag is exact |
| `WorkflowPlan.EmittedCarries` | crates/executor-docker/src/lib.rs:1476-1490 | the live log of a run carries, on each stream, all that its execs wrote, also before a Docker error, which is all raw output if there was none |
| `WorkflowEngine.Launch` | crates/executor-docker/src/lib.rs:1745-1752 | one exec extends the history by the one step the plan allows, with what the environment answers to its command, and keeps the buffers flat truncations of all raw output so far |
| `WorkflowEngine.RunSetup` | crates/executor-docker/src/lib.rs:1664-1701 | every setup command runs although an earlier one failed, unless the run is stopped; the flags agree with the history, and the feedback file says so exactly if one failed |
| `WorkflowEngine.RunInitialize` | crates/executor-docker/src/lib.rs:1702-1738 | initialize runs only after a successful setup and decides whether the first agent may start; if it failed, the feedback file holds its exit code and output |
| `WorkflowEngine.RunAgent` | crates/executor-docker/src/lib.rs:1739-1762 | the agent's verdict and report line agree with the history, and the verifiers come next |
| `WorkflowEngine.RunVerifier` | crates/executor-docker/src/lib.rs:1763-1799 | a verifier is reported, and counts against the iteration only if it is required |
| `WorkflowEngine.RunMandatoryVerifier` | crates/executor-docker/src/lib.rs:1800-1835 | a verifier of the runner's configuration is reported and always counts |
| `WorkflowEngine.RunChecks` | crates/executor-docker/src/lib.rs:1763-1835 | all verifiers, then all mandatory ones, run in order until one is stopped; afterwards the machine stands before publish |
| `WorkflowEngine.RunPublish` | crates/executor-docker/src/lib.rs:1836-1864 | publish decides the iteration; its failure sends the run to the next iteration |
| `WorkflowEngine.RunIteration` | crates/executor-docker/src/lib.rs:1743-1874 | an iteration completes exactly if the history has succeeded; otherwise the feedback file holds exactly the report the next agent has to find |
| `WorkflowEngine.RunIterations` | crates/executor-docker/src/lib.rs:1739-1874 | iterations go on until success, the limit, cancellation or a stopped exec, and nothing else |
| `WorkflowEngine.Recheck` | crates/executor-docker/src/lib.rs:1875-1886 | the last look at token and clock, the token first: a run it lets through was not cancelled or expired at any earlier observation |
| `WorkflowEngine.RunPhases` | crates/executor-docker/src/lib.rs:1657-1874 | setup, initialize and iterations in this order, each only if the one before lets it; completed exactly if the history has succeeded, stopped and aborted runs included |
| `WorkflowEngine.RunWorkflow` | crates/executor-docker/src/lib.rs:1657-1891 | every run follows the plan and the environment; it is completed exactly if the plan succeeded and neither the token nor the deadline was seen at the last look; failed means that setup or initialize failed, or that every single iteration the plan allows was made in full and failed, and names the last failure; an aborted run has not succeeded; a run whose last exec was stopped reports the reason it was stopped for; cancelled, timed out and aborted each have their cause |
| `WorkflowRuns.CommandsArePlanned` | crates/executor-docker/src/lib.rs:1763-1771 | every exec ran the command at its place: setup's and initialize, then in each iteration the agent's, each verifier's own, each mandatory one and publish |
| `WorkflowRuns.SuccessIsEarned` | crates/executor-docker/src/lib.rs:1657-1891 | success means: all setup and initialize commands ran first and exited 0, the last execs ran the commands of agent, verifiers, mandatory verifiers and publish of one iteration in this order, all but verifiers that are not required exited 0, and no exec of the run was stopped |
| `WorkflowRuns.PassingInFullSucceeds` | crates/executor-docker/src/lib.rs:1836-1868 | the converse: a run that ends with an iteration passed in full has succeeded |
| `WorkflowRuns.NothingAfterTheEnd` | crates/executor-docker/src/lib.rs:1664-1874 | no command starts after a stopped or broken exec or after a publish that exited 0 |
| `WorkflowRuns.AgentNeedsSetup` | crates/executor-docker/src/lib.rs:1694-1742 | no agent, verifier or publish runs unless every setup command and initialize exited 0 |
| `WorkflowRuns.PublishIsEarned` | crates/executor-docker/src/lib.rs:1836-1843 | right before any publish stand the agent and all checks of its iteration with their own commands, and all but verifiers that are not required exited 0 |
| `WorkflowRuns.NoFeedbackAtFirst` | crates/executor-docker/src/lib.rs:1664-1762 | up to the end of the first iteration no command finds any feedback |
| `WorkflowRuns.FeedbackIsLastReport` | crates/executor-docker/src/lib.rs:1762-1874 | the agent of iteration k + 1 starts with exactly the report on iteration k in the feedback file: one entry for its agent and one per check, in order, with names, exit codes and outputs |
| `WorkflowRuns.FailureIsReal` | crates/executor-docker/src/lib.rs:1694-1742 | a run that ended without success: setup ran all its commands and one failed, or initialize failed, or all iterations up to the limit were made, each with agent and all checks, and each failed |
| `WorkflowRuns.EarlierFailed` | crates/executor-docker/src/lib.rs:1865-1872 | every iteration before an agent's has failed |
| `WorkflowRuns.RanksRise` | crates/executor-docker/src/lib.rs:1664-1874 | no step is ever repeated within a run |
| `WorkflowRuns.ExecBound` | crates/executor-docker/src/lib.rs:1664-1874 | a run performs at most setup + 1 + iterations × (verifiers + mandatory + 2) execs |
| `WorkflowRuns.BlameIsReal` | crates/executor-docker/src/lib.rs:1689-1863 | the blamed phase belongs to an exec that really failed and after which none failed |
| `WorkflowRuns.FailureHasPhase` | crates/executor-docker/src/lib.rs:1976-1977 | with at least one iteration allowed a failed run always has a phase to blame, so the fallback "workflow" is unreachable |
| `WorkflowRuns.FallbackPhaseNeedsZeroIterations` | crates/runner-protocol/src/lib.rs:618-620 | without the validated lower bound the fallback is reachable |
| `CommandRun.ClippedKeepsTheFirst` | crates/executor-docker/src/lib.rs:1110-1141 | the budget shared by two streams keeps exactly the first bytes in arrival order |
| `CommandRun.OverrunExactly` | crates/executor-docker/src/lib.rs:1110-1141 | the flag is set exactly if bytes were lost or an empty frame arrived at an exactly used-up budget |
| `CommandRun.OverrunWithoutLoss` | crates/executor-docker/src/lib.rs:1121-1126 | for every limit there is such a run without loss |
| `CommandRun.JointBudget` | crates/executor-docker/src/lib.rs:1110-1141 | both streams together keep as many bytes as one truncated stream would, at most the limit |
| `CommandRun.FollowLogs` | crates/executor-docker/src/lib.rs:1075-1143 | the log loop computes both clipped streams and that flag within the joint budget, and passes the same bytes on as live log |
| `CommandRun.RunCommand` | crates/executor-docker/src/lib.rs:1144-1199 | cancellation beats the deadline, the deadline beats the exit code, and a failed publish turns success into failure with exit code 1; status, exit code and both streams exactly; the streams stay within the limit exactly if the text of a failed publish still fits |
| `CommandRun.PublishBreaksTheBudget` | crates/executor-docker/src/lib.rs:1187-1195 | for every limit there is a run whose failed publish goes beyond it |
| `Protocol.ReportedIsCoherent` | src/control/mod.rs:234-304 | whatever the executor returned or failed with, the reported result is coherent, belongs to the job, and carries the flag if log was lost |
| `Protocol.ReportedIsPassedOn` | src/control/mod.rs:234-304 | the executor's result is reported as it is but for the flag; without one the result says failed, and kind, code and phase tell what went wrong |
| `Executor.WorkflowResultHolds` | crates/executor-docker/src/lib.rs:1940-1985 | a workflow's result says exactly what its run did: status, exit code, failure, streams, flag, and the phase of the last failing exec; unless it says truncated, its streams are those of the live log |
| `Executor.CommandResultHolds` | crates/executor-docker/src/lib.rs:1247-1292 | the same for the single-command path, from what happened to the container: status, exit code, both streams with the text of a failed publish, flag and failure |
| `Executor.Perform` | crates/executor-docker/src/lib.rs:915-942 | whichever path a job takes, its result is coherent and says what the work came to, and agrees with the live log in every schedule of the log pipeline; there is none only if Docker or a feedback write broke it off |
| `Executor.EnterAll` | crates/executor-docker/src/lib.rs:1917-1939 | consecutive transitions record a prefix of the lifecycle and stop at the first failure |
| `Executor.Commence` | crates/executor-docker/src/lib.rs:1527-1655 | received, preparing, preparation, running; what is recorded when it stops |
| `Executor.Conclude` | crates/executor-docker/src/lib.rs:1917-1939 | the terminal state of the reported status, destroying, destroyed |
| `Executor.RunJob` | crates/executor-docker/src/lib.rs:1518-1986 | every run adds a prefix of the lifecycle to the events and stops early only for a reason; it returns a result exactly if all seven states were recorded, the fifth being the terminal state of the same name as the status, and the result is true of its work and its live log |
| `Executor.LiveLogIsTheResult` | src/control/mod.rs:291-305 | end to end, for every schedule that carries the job's own live log: the completion's flag is the result's unless the flush was cut off, and if it is off, the log the control plane acknowledged equals the result's stdout, and its stderr up to the text a failed publish adds |
| `States.NamesReadBack` | crates/runner-core/src/state.rs:29-55 | `from_str` inverts `as_str` exactly on the terminal states |
| `States.StatusIsTerminal` | crates/runner-core/src/state.rs:45-55 | every status a run can report is read as the terminal state of that name |
| `States.ChainReads` | README.md:84 | the journal's names of a complete run: received, preparing, running, collecting, the terminal state, destroying, destroyed |
| `States.ChainIsLegalExactly` | crates/runner-core/src/state.rs:57-75 | the recorded lifecycle is legal by the unused transition table only for completed and failed runs |
| `IdempotencyKey.DecimalReadsBack` | src/control/http.rs:176-178 | the attempt can be read back from its decimal form, which contains no colon |
| `IdempotencyKey.KeysAreDistinct` | src/control/http.rs:176-178 | distinct attempts have distinct keys, also for ids that contain colons |
| `IdempotencyKey.KeyReads` | src/control/http.rs:176-178 | a key is the job id, a colon, and the attempt as a decimal numeral without leading zeros |
| `Journal.TornCallShows` | crates/runner-core/src/journal.rs:43-55 | a call that fails between its two statements leaves the new state in `jobs` and the old one in `events` |
| `Journal.TablesAgreeExactly` | crates/runner-core/src/journal.rs:43-55 | after any sequence of calls `jobs` equals the last event of a key, unless the last call that reached `jobs` was torn and changed the state |
| `Journal.Store.Transition` | crates/runner-core/src/journal.rs:43-55 | the upsert, then the insert; the new tables for each way to fail |
| `Journal.Store.NextAttempt` | crates/runner-core/src/journal.rs:56-67 | one more than the largest attempt of the job, 1 if it has none, and never in use |
| `Journal.Store.EnqueueCompletion` | crates/runner-core/src/journal.rs:78-96 | inserts a pending row, or leaves the existing one as it is |
| `Journal.Store.PendingCompletions` | crates/runner-core/src/journal.rs:98-118 | exactly the undelivered rows, each once, least recently touched first |
| `Journal.Store.MarkCompletionDelivered` | crates/runner-core/src/journal.rs:120-131 | marks that row at the given time and changes nothing else |
| `Journal.Store.RecordCompletionAttempt` | crates/runner-core/src/journal.rs:133-144 | counts one more attempt for that row at the given time and changes nothing else |
| `Journal.Store.Cleanup` | crates/executor-docker/src/lib.rs:1361-1371 | a successful cleanup leaves no unfinished job exactly if nothing is in use or there was none; the unfinished jobs, each once, end up destroyed, and destroying and destroyed are recorded for each; with something in use, or not removable, the journal is untouched; a finished job is never touched |
| `CompletionProtocol.EveryRunIsSound` | src/control/mod.rs:307-383 | in every interleaving of workers, server, crashes, restarts and replay the five invariants of the protocol hold in every state |
| `CompletionProtocol.RowsArePermanent` | crates/runner-core/src/journal.rs:78-144 | no row disappears, changes payload, lease or key, or becomes pending again |
| `CompletionProtocol.RowComesBeforeSend` | src/control/mod.rs:310-324 | no completion is sent before its row is in the outbox |
| `CompletionProtocol.DeliveredMeansAccepted` | src/control/mod.rs:325-328 | a delivered row was accepted: the server holds a result under its key |
| `CompletionProtocol.ReplayCanSend` | src/control/mod.rs:350-368 | every entry a replay finds passes its parse and key checks, so none is skipped |
| `CompletionProtocol.LeadsExtendsRun` | src/control/mod.rs:307-383 | steps that lead on from a reached state continue its run |
| `CompletionConsistency.ConsistentExactly` | crates/runner-core/src/journal.rs:88-95 | sent, about to be sent and stored by the server all agree with the outbox in every state exactly if no enqueueing finds a row of its key with another lease or payload |
| `CompletionConsistency.SendsMatchExactly` | src/control/mod.rs:310-324 | in every run all requests sent are those of their rows exactly if no worker sends after its enqueueing clashed |
| `CompletionConsistency.ClashNeverMatches` | crates/runner-core/src/journal.rs:88-95 | a request that clashed matches its row in no later state |
| `CompletionConsistency.ClashCanBeSent` | src/control/mod.rs:318-324 | two steps after any clash the contradicting request can be on the wire |
| `CompletionConsistency.ServerFollowsSends` | docs/openapi/community-control-plane.yaml:83-107 | as long as the sends match, the server stores nothing but the results in the outbox |
| `CompletionConsistency.CompletionsAreConsistent` | docs/openapi/community-control-plane.yaml:83-107 | unless a worker sends after a clash, every request for an attempt carries its row's result and lease, the server stores nothing else, and has no reason to answer with a conflict |
| `CompletionConsistency.ExecutingOnceEnqueuesOnce` | src/control/mod.rs:307-317 | if no attempt is executed twice, no enqueueing ever finds a row |
| `CompletionConsistency.EnqueueingOnceNeverClashes` | crates/runner-core/src/journal.rs:88-95 | if no enqueueing finds a row at all, nothing clashes |
| `CompletionCounts.SendsAreCounted` | src/control/mod.rs:318-324 | in every run the sends for a row, those about to happen included, are at most its attempt counter |
| `CompletionCounts.EveryRunIsBudgeted` | src/control/mod.rs:318-339 | the budget invariant behind the next row holds in every state |
| `CompletionCounts.AttemptsAreBounded` | src/control/mod.rs:318-339 | if no enqueueing finds a row, sends for a row ≤ its attempt counter ≤ 5 + restarts |
| `CompletionConsistency.TwiceExecutedSendsDiffer` | src/control/mod.rs:320-323 | a run in which an attempt executed twice clashes and sends something other than its row |
| `CompletionConsistency.CrashIsRecovered` | src/control/mod.rs:342-383 | a run in which a crash loses an answer and the replay delivers the same completion |
| `CompletionLoops.SendWithRetries` | src/control/mod.rs:318-339 | at most five equal sends, none after an acceptance, each counted; with a working journal it succeeds exactly if one of five answers is good; with a server that accepts only what it may, the loop is a run of the protocol |
| `CompletionLoops.DeliverCompletion` | src/control/mod.rs:307-339 | the row exists before anything is sent, other rows are untouched, and a new row ends up delivered exactly if the worker succeeded; a run of the protocol as above |
| `CompletionLoops.ReplayEntry` | src/control/mod.rs:350-382 | an entry is sent exactly if it passes the checks and the attempt is recorded; delivered exactly if accepted and marked |
| `CompletionLoops.ReplayEntries` | src/control/mod.rs:350-382 | the loop over the entries that were read, with the promises of the next row |
| `CompletionLoops.ReplayPendingCompletions` | src/control/mod.rs:342-383 | with a working journal every undelivered row of a sound outbox is sent once, least recently touched first, is touched now, and is delivered afterwards exactly if it was accepted; delivered rows are untouched; a run of the protocol from the start of the daemon until it serves |
| `LogPipeline.SplitRejoins` | crates/executor-docker/src/lib.rs:396 | pieces are nonempty, 64 KiB each but for the last, and concatenate to the call's bytes |
| `LogPipeline.PiecesCarryAll` | crates/executor-docker/src/lib.rs:386-416 | on each stream the numbered pieces carry exactly what the calls carried |
| `LogPipeline.EveryScheduleIsSound` | src/control/mod.rs:197-305 | every schedule of producer, queue, uploader and flush keeps numbering, order, accounting and phases |
| `LogPipeline.NothingIsUnaccountedFor` | src/control/mod.rs:197-233 | each assigned number is in exactly one place: acknowledged, given up, under way, dropped or refused; acknowledged numbers ascend and carry the right bytes; the queue holds at most 256 |
| `LogPipeline.UntruncatedMeansComplete` | src/control/mod.rs:291-305 | if the executor returned a result and the completion has `log_truncated` off, the acknowledged chunks are exactly 1..n and carry everything emitted on each stream |
| `LogPipeline.CompletionFlagExactly` | src/control/mod.rs:291-305 | over whole schedules: with a result of the executor the completion's flag is on exactly if that was truncated, the queue had dropped something, or the flush was cut off; without one exactly if the flush was cut off |
| `LogPipeline.StepsTakeEffect` | crates/executor-docker/src/lib.rs:386-416 | the calls, numbers and acknowledgements of a pipeline are those of the schedule's steps |
| `LogPipeline.GoodJobCompletes` | src/control/mod.rs:203-233 | a run with a retried upload that completes with the flag off |
| `LogPipeline.SlowUploaderIsCutOff` | src/control/mod.rs:291-300 | a run that completes with the flag on and a chunk left behind |
| `LogPipeline.CompleteExactlyIfNothingDropped` | crates/executor-docker/src/lib.rs:405-414 | any completion with the flag off is complete exactly if nothing was dropped at the full queue |
| `LogPipeline.LossNeverCompletesQuietly` | src/control/mod.rs:291-300 | a completion with chunks given up or left behind came from the flush deadline and has the flag on; a dead uploader never gets there |
| `LogPipeline.CompletionLostExactly` | src/control/mod.rs:291-300 | past the flush, the job has lost its completion exactly if the uploader died, or finished after it gave up a chunk |
| `LogPipeline.OneLostChunkLosesTheJob` | src/control/mod.rs:204-231 | a run of a job that went well and loses its completion over one chunk |
| `LogPipeline.DeadUploaderLosesTheJob` | src/control/mod.rs:291-300 | a run whose uploader died and whose completion is lost although there was nothing to upload |
| `LogPipeline.FlagIsKept` | src/control/mod.rs:291-305 | after the executor returned nothing is emitted or dropped any more, and the flag is never taken back |
| `LogPipeline.FailedExecutorHidesLoss` | crates/runner-protocol/src/lib.rs:352-376 | with a failed executor any number of chunks can be missing under a flag that is off |
| `LogPipeline.EmitLog` | crates/executor-docker/src/lib.rs:386-416 | one call numbers every piece, queues what fits, drops the rest, and is a run of the system |
| `LogPipeline.Upload` | src/control/mod.rs:203-231 | a chunk is acknowledged exactly if one of three answers is good, and lost otherwise |
| `Heartbeat.TrailingErrorsAreARun` | src/control/mod.rs:171-190 | the counter reaches k exactly if the last k rounds were errors |
| `Heartbeat.RunHeartbeat` | src/control/mod.rs:171-196 | for every prefix of every response sequence the loop stops at the first Cancel, LeaseLost, outside cancellation or third error in a row and at no other round; the counter is the trailing error run and stays below 3 |
| `LeasedJob.WorkerStopsHeartbeatExactly` | src/control/mod.rs:291-302 | past the flush, the heartbeat stops exactly if the worker did not panic or the answers alone end it, at the latest at the round that sees the worker's cancellation |
| `LeasedJob.LeaseOutlivesJobExactly` | src/control/mod.rs:296-302 | while the server keeps answering, the lease outlives the job exactly if the uploader died or lost a chunk |
| `LeasedJob.LostJobKeepsItsLease` | src/control/mod.rs:296-302 | a job that lost its completion over one chunk and keeps its lease for ever |
| `DaemonLoop.PermitsAreConserved` | src/control/mod.rs:97-151 | in every run free permits + the loop's own + live workers = max(1, concurrency); the loop blocks only when that many jobs run |
| `DaemonLoop.EveryLeasedJobIsSpawned` | src/control/mod.rs:142-151 | every job that is leased gets a worker of its own |
| `DaemonLoop.ReturnsOnlyWhenAllEnded` | src/control/mod.rs:153-159 | the daemon returns only after a shutdown and with every worker it ever spawned ended and joined |
| `DaemonLoop.NeverStuck` | src/control/mod.rs:110-159 | until it returns, the loop can go on or a running worker holds it up |
| `DaemonLoop.DrainingEnds` | src/control/mod.rs:153-158 | every step of a draining daemon brings it closer to its return |
| `Glob.MatchesExactly` | crates/runner-core/src/artifacts.rs:114-133 | accepted texts are exactly the literal segments with arbitrary texts in the gaps |
| `Glob.MatchesConcatenation` | crates/runner-core/src/artifacts.rs:114-133 | p followed by q matches exactly if the value splits into a match of p and one of q |
| `Glob.StarRunIsOneStar` | crates/runner-core/src/artifacts.rs:114-133 | anywhere in a pattern all nonempty runs of stars are equivalent |
| `Glob.LiteralMatchesItself` | crates/runner-core/src/artifacts.rs:114-133 | a pattern without stars matches itself only |
| `FileTree.PrunedWalkIsFilter` | crates/runner-core/src/artifacts.rs:34-38 | a walk pruned by an ancestor-closed filter is the filter applied to every path alone, in the same order |
| `FileTree.EverythingCounts` | crates/runner-core/src/workspace.rs:361-376 | the full walk visits every path exactly as often as the tree, followed component by component, holds it |
| `Artifacts.VisitedExactly` | crates/runner-core/src/artifacts.rs:66-89 | a path is visited exactly if it is not derived or some pattern literally names its shortest derived ancestor, as a whole or up to a slash |
| `Artifacts.DerivedExactly` | crates/runner-core/src/workspace.rs:406-423 | a path is derived exactly if a component is one of the six names |
| `Artifacts.TextReadsBack` | crates/runner-core/src/artifacts.rs:46-50 | the text a pattern is matched with gives the path's components back |
| `Artifacts.TrimmedExactly` | crates/runner-core/src/artifacts.rs:83-86 | exactly the leading "./" of a pattern are dropped, however many |
| `Artifacts.NamedExactly` | crates/runner-core/src/artifacts.rs:83-86 | a pattern names a path exactly if its components, but for leading "./", begin with the path's |
| `Artifacts.VisitedIsAncestorClosed` | crates/runner-core/src/artifacts.rs:66-89 | no visited path lies below one that is not |
| `Artifacts.ReachedExactly` | crates/runner-core/src/artifacts.rs:34-50 | the export walk reaches an entry, as often as the tree holds it, exactly if it is not derived or a pattern names its derived root |
| `Artifacts.CandidatesExactly` | crates/runner-core/src/artifacts.rs:34-51 | the files considered are exactly those the tree holds, that may be visited and that some pattern matches |
| `Artifacts.CopySelected` | crates/runner-core/src/artifacts.rs:34-62 | the loop copies a prefix of the matching files: the longest within both budgets if the sum does not wrap, more than that if it does |
| `Artifacts.Export` | crates/runner-core/src/artifacts.rs:22-64 | the same for the whole export; only candidates are copied, and all of them if they fit; no patterns, no export; after a file system error the copied prefix is within budget |
| `Artifacts.RealSizesNeverWrap` | crates/runner-core/src/artifacts.rs:52-54 | a byte limit up to 2^63 and files below 2^63 exclude the wrap |
| `Artifacts.WrapCopiesTooMuch` | crates/runner-core/src/artifacts.rs:52-54 | a workspace, a pattern and the largest limit, with files below 2^63 bytes, for which the sum wraps and the export exceeds its budget |
| `Staging.Admit` | crates/runner-core/src/workspace.rs:382-393 | one more file is admitted exactly if both totals stay within the limits, and a sum beyond 64 bits never is |
| `Staging.CopyVisits` | crates/runner-core/src/workspace.rs:359-400 | absent interruption and errors the loop succeeds exactly if all regular files fit both limits; what is copied always fits |
| `Staging.CopyTree` | crates/runner-core/src/workspace.rs:349-401 | the same for all regular files without a derived component, judged one by one; on success a file is copied, as often as the workspace holds it, exactly if it is there and not derived |
| `Staging.StagedIsPointwise` | crates/runner-core/src/workspace.rs:361-370 | pruning derived directories leaves out exactly the derived files |
| `Staging.StagedExactly` | crates/runner-core/src/workspace.rs:361-376 | a file is staged exactly as often as the workspace holds it if no component of its path is derived, and never otherwise |
| `Staging.WalkOrderIsIrrelevant` | crates/runner-core/src/workspace.rs:356-400 | two listings of the same entries stage the same files with the same verdict |
| `Redaction.RedactIsIdempotent` | crates/executor-docker/src/lib.rs:110-147 | redacting twice is redacting once |
| `Redaction.RedactsAlikeExactly` | crates/executor-docker/src/lib.rs:110-147 | two trees redact to the same exactly if they agree outside commands, sensitive keys and the values of secrets |
| `Redaction.RedactChangesNothingElse` | crates/executor-docker/src/lib.rs:110-147 | redaction changes nothing outside those places |
| `Redaction.MeaningExactly` | crates/executor-docker/src/lib.rs:114-135 | in any mix of upper and lower case: a key is hidden exactly if it contains or ends with one of seven words and is not "command" or "secrets", which are treated apart |
| `Redaction.RedactIsClean` | crates/executor-docker/src/lib.rs:110-147 | after redaction nothing but the replacement stands under a sensitive key, under a command or in a secret's value, anywhere in the tree |

## Left out

- Docker, HTTP, TLS, SQL and JSON themselves: only success, failure and what they return are modelled. Serialized results are taken to parse back to themselves.
- Git, archive download, container and network configuration, image pulls, tool images, the CLI and tracing: external programs or no logic.
- Removal of containers and networks: early returns can skip it, so nothing is claimed about it.
- Text conversion: log bytes are compared before lossy UTF-8 conversion, and path names are taken as valid UTF-8. The fixed wording of reports and error messages is not modelled, only the values in it.
- Result fields that only inform (timestamps, duration, error summary, artifact list, sandbox, the message of a failure): they take part in no decision.
- Time: the deadline and the token are monotone oracles; retry delays and timeouts are steps that may happen at any moment.
- What a request that timed out did at the server: the completion protocol allows it to be served later; the log pipeline counts a chunk as acknowledged only when the uploader saw the answer.
- Two processes in one `transition` call each for the same attempt at the same time: a call is taken as two consecutive statements.
- Validation other than the bound on iterations, version dispatch, resource clamps, secret policy and platform checks: single-branch facts.
- `safe_component` and the destination directory of an export: no property beyond its body.
- Substring redaction of diagnostic bytes and tokens: replacement one after another guarantees no absence of secrets.
- Redaction works on values: the in-place update of a tree with a single owner is a function from tree to tree. An object is a list of fields whose keys are taken as distinct.
- Journal.Store.NextAttempt: attempts are unbounded, the 32-bit limit of the column type is not modelled.
- Artifacts.Export: sizes are below 2^64 as in the source; a debug build panics where the release build wraps.
- Staging.CopyTree: the error for a count or size that overflows is merged with the one for the limit, since both refuse the workspace.
- Protocol.ReportedIsCoherent: the choice of the failure code and phase of a Docker error is not modelled, only that they are passed on.
- DaemonLoop.NeverStuck: nothing is claimed about how soon after a shutdown signal the loop sees it, since the choice between ready branches is random.
