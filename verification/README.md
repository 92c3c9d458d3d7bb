# Agent OS: a verified model of its ledger, runner, supervisor and projections

Agent OS keeps a durable ledger of tasks, attempts, reviews and events, runs agent runtimes as child
processes against it, and serves the results over HTTP. This project models that core in Dafny and
proves what every run of it keeps: when a task may be completed and what stays true afterwards, that
the event log replays to the tables, that an open task can always be finished, what each recorded
outcome of a run implies about the child's process group, that every supervised run settles, and that
the read-only projections (cost, artifacts, context, timestamps) say neither more nor less than the
stored records do.

`dafny verify dfyconfig.toml` checks everything. Modules, lowest first:

- `Models`, `Text`, `Execution`: records and enumerations, text order, registered identities.
- `TaskLedger`: the ledger as a value, every call on it, when a call is refused, its effect, runs.
- `LedgerInvariants`: what every reachable ledger satisfies and what no call ever undoes.
  `StoredRows`: when each call is accepted, what it stores and what repeating it does. `Identities`: who
  stands behind every stored row.
- `Store`: the class `TaskStore`, whose methods rewrite their tables in place; each is proved equal,
  in state and answer, to the ledger call it stands for, so every theorem about runs is about it.
- `Journal`: replaying a task's events. `NeverStuck`: every open task can be completed.
  `SplitSteps`, `SplitGate`: calls whose reads and write are separate steps.
- `Policies`: the dispatch policy. `CodexTargets`, `CodexReview`: direct Codex review.
- `ProcessGroup`, `Launch`: probing and tearing down a process group, and the launch block.
- `Orphans`, `Settling`, `Runner`: closing a coordinator's orphans, what is written when a run ends, and
  one whole run, all with other writers in between.
- `Supervisor`: submitter, canceller and runner thread as program counters over one ledger, in which
  any other task may be worked on meanwhile. `CancelFlags`: what a requested cancellation does to a run.
  `SupervisedRun`: a runner thread left alone ends as the account of a run says.
- `Timestamps`, `Costs`, `Artifacts`, `Context`: the smaller pieces.

## How the parts fit

A call on the store is a value of `TaskLedger.Call`. `RefusalOf` says whether and why the store refuses
it and `Apply` gives the ledger afterwards (a refused call changes nothing). Time is a number of
microseconds and an attempt or review id is the number its twelve hexadecimal digits spell;
`Timestamps` proves that the stored texts compare exactly as those numbers do.

Some facts about the code deserve attention, and each has a theorem:

- `record_review` does not look at the task's status, so a review asking for changes may follow
  completion. The lasting gate therefore says that an approving review exists; that the newest review
  approves is required, and proved, at the completing step (`LedgerInvariants.CompletionExactly`).
- `complete_task` reads before it takes a write lock. With its reads and its write interleaved with
  other callers, the documentation's "store-level transaction" (docs/architecture.md:199) does not hold:
  from every ledger in which a completion would be accepted there is an interleaving that completes a
  task with an implementation attempt still running (`SplitSteps.LeavingReviewBreaksTheGate`). The gate
  holds if and only if the attempts started since the first read would pass it themselves
  (`SplitGate.SplitGateExactly`); so it holds whenever nobody starts an attempt of the task meanwhile,
  or the task never leaves review.
- A coordinator lists its orphaned children and then closes them one by one. If somebody else closes a
  listed child with a different outcome before its turn, the refused call raises and the coordinator's
  own attempt stays as it was (`Orphans.SweepCanBeStopped`); that is exactly when a prepared run leaves
  its attempt unwritten (`Orphans.SweepCompletesExactly`, `Runner.UnwrittenExactly`).
- The preparation of a run lies outside the launch block's handler, so when it fails the attempt is left
  running; only the supervisor's clean-up closes it (`Runner.RunTask`, `Supervisor.EverySupervisedRunSettles`).
- A run that is over leaves its task settled unless a shutdown dropped it before its thread started,
  with the task queued, and no cancellation was written after that (`Supervisor.OverRunSettlesExactly`).
- A direct Codex review passes by latest attempts that have a review already. If the newest review of one
  of them does not approve it, the approving run is refused its last call and leaves the task in review
  (`CodexReview.DirectReviewClosesTask`).

Assumptions about the environment are explicit in the statements: a probe that reports a group absent is
right, time does not run backwards, a sleep lasts at least as long as asked; where start times must
differ, the clock advances between stamps (`NeverStuck.InTime`, `CodexTargets.InTimeRun`).

## Model

| member | source | states |
|---|---|---|
| `Store.TaskStore.constructor` | src/agent_os/store.py:211-238 | a fresh store is the empty ledger and satisfies the invariant |
| `Store.TaskStore.CreateTask` | src/agent_os/store.py:304-365 | creates a queued task with its event, replays an identical definition without writing, refuses a different one; state and answer are those of the ledger call |
| `Store.TaskStore.Transition` | src/agent_os/store.py:388-433 | moves along a legal edge with one event, replays the current status silently, refuses completion and cancellation by this route and blocking or failing over a running implementation |
| `Store.TaskStore.CancelTask` | src/agent_os/store.py:435-471 | cancels a queued or running task with no running attempt, replays silently, refuses otherwise |
| `Store.TaskStore.StartAttempt` | src/agent_os/store.py:473-550 | starts an attempt with its resolved identity exactly when the task is running and no running implementation holds the work item; what the row then holds is `StoredRows.StartStores` |
| `LedgerInvariants.StartExactly` | src/agent_os/store.py:488-550 | an attempt is started if and only if its work item is named, its identity resolves, the task runs, the id is new and no running implementation holds the work item; afterwards it alone holds it |
| `LedgerInvariants.SecondStartIsRefused` | src/agent_os/store.py:71-73 | while a work item is held, any further implementation start on it is refused |
| `StoredRows.StartStores` | src/agent_os/store.py:488-550 | the row of a started attempt has the agent asked for and the harness, provider, model and kind that the request resolves to, its stripped work item and its time, and nothing to report yet; one event says the same; nothing else changes |
| `StoredRows.FinishStores` | src/agent_os/store.py:575-612 | closing a running attempt stores status, summary, evidence, transcript and usage of the call, forgets the process, keeps the identity and changes nothing else |
| `StoredRows.ReviewStores` | src/agent_os/store.py:711-758 | a stored review has the verdict, summary, issues and evidence of the call, under the identity its reviewer resolves to |
| `StoredRows.ProcessStores` | src/agent_os/store.py:630-640 | recording a process sets it on that attempt and changes nothing else, not even the log |
| `StoredRows.VerdictReadsBack` | src/agent_os/store.py:720-735 | each verdict has exactly one spelling |
| `StoredRows.CreateStores` | src/agent_os/store.py:304-365 | a created task is queued with the definition given, its criteria stripped and the empty ones dropped |
| `StoredRows.MoveStores` | src/agent_os/store.py:413-433 | a move, cancellation or completion writes the new status and one event with both ends and the reason, and nothing else |
| `StoredRows.StripExactly` | src/agent_os/models.py:52-56 | stripping removes nothing but space, only from the ends, and all of it there |
| `StoredRows.EdgesByTarget` | src/agent_os/store.py:155-163 | the task graph read by target: from which statuses each status can be reached |
| `StoredRows.MovesExactly` | src/agent_os/store.py:388-411 | a transition is accepted if and only if it follows an edge or stays, is no completion or cancellation, and blocks or fails no task with a running implementation |
| `StoredRows.FinishExactly` | src/agent_os/store.py:565-586 | closing is accepted if and only if status, usage and evidence are in order and the attempt runs or was closed with that very outcome |
| `StoredRows.CancelsExactly` | src/agent_os/store.py:435-460 | a cancellation is accepted if and only if the task is cancelled already, or queued or running with nothing running for it |
| `StoredRows.ProcessExactly` | src/agent_os/store.py:630-640 | a process is recorded if and only if its id is positive and the attempt runs |
| `StoredRows.CreateExactly` | src/agent_os/store.py:304-345 | a creation is accepted if and only if id and definition are valid and the task is new or, under the caller's own id, has the same definition |
| `StoredRows.RepeatedForEver` | src/agent_os/store.py:324-345 | an accepted finish, cancellation or creation under its own id is accepted again in every later ledger, and then changes nothing |
| `StoredRows.OtherOutcomeRefused` | src/agent_os/store.py:575-584 | once an attempt is closed, closing it with any other outcome is refused in every later ledger |
| `StoredRows.OtherDefinitionRefused` | src/agent_os/store.py:324-345 | once a task is created, any other definition under its id is refused in every later ledger |
| `Store.TaskStore.FinishAttempt` | src/agent_os/store.py:552-612 | closes a running attempt once with its whole outcome (`StoredRows.FinishStores`); the same outcome replays silently, a different one is refused; success needs evidence |
| `Store.TaskStore.SetAttemptProcess` | src/agent_os/store.py:630-640 | records a positive process id on a running attempt and nothing else |
| `Store.TaskStore.RecordReview` | src/agent_os/store.py:686-758 | records a review by a registered reviewer of another provider on a successful implementation of the same task |
| `Store.TaskStore.CompleteTask` | src/agent_os/store.py:760-844 | completes a task in review exactly when the completion check passes, and then the gate holds |
| `Store.TaskStore.ReadForCompletion` | src/agent_os/store.py:763-818 | the imperative reads refuse exactly when the status, a running implementation, missing work or a latest attempt forbids completion, and name what stands in the way of that attempt |
| `Store.TaskStore.FirstObstacle` | src/agent_os/store.py:797-818 | the loop finds no obstacle exactly when every latest attempt succeeded and its newest review is an evidence-backed approval by another provider; an obstacle it reports is there |
| `Store.TaskStore.ObstacleOf` | src/agent_os/store.py:799-818 | for one attempt, the errors in their order: not succeeded, not reviewed, no evidence-backed approval, same provider |
| `Store.TaskStore.ListAttempts` | src/agent_os/store.py:623-628 | lists exactly the task's attempts, each once, by start time |
| `Store.TaskStore.ReconcileStaleAttempts` | src/agent_os/store.py:642-684 | closes exactly the running attempts that are forced, or old enough with no live process; fails exactly the running tasks this leaves idle; afterwards no affected task runs without a running attempt; everything else is untouched; the whole is a run of ordinary calls |
| `Store.ReconciledRows` | src/agent_os/store.py:650-672 | a reconciled attempt is failed without usage or process and keeps its transcript; unforced, a young attempt and one whose process lives stay as they were; a forced reconciliation leaves nothing running |
| `LedgerInvariants.ApplyKeepsInv` | src/agent_os/store.py:304-844 | every call keeps the ledger invariant and only extends history |
| `LedgerInvariants.RunKeepsInv` | src/agent_os/store.py:304-844 | so does every run of calls |
| `LedgerInvariants.EffectExtends` | src/agent_os/store.py:404-605 | rows and events are only added, terminal attempts and reviews never change, a closed task stays closed and gains no attempt |
| `LedgerInvariants.EffectAttemptsOk` | src/agent_os/store.py:413-460 | a running implementation keeps its task running or in review, and no attempt runs in a cancelled task |
| `LedgerInvariants.EffectReviewsOk` | src/agent_os/store.py:697-740 | every stored review names a successful implementation of its task by another provider, and an approval has evidence |
| `LedgerInvariants.EffectOneRunning` | src/agent_os/store.py:71-73 | at most one implementation attempt of a task and work item is running |
| `LedgerInvariants.GateSurvives` | src/agent_os/store.py:760-844 | nothing a later ledger may add undoes the gate of a completed task |
| `LedgerInvariants.RunningAttemptsMatchStatus` | src/agent_os/store.py:404-535 | in every reachable ledger a running implementation is alone on its work item and its task is running or in review |
| `LedgerInvariants.ClosedForEver` | src/agent_os/store.py:155-177 | completed and cancelled are absorbing and terminal attempts never change, over every later run |
| `LedgerInvariants.CompletedTasksMeetTheGate` | src/agent_os/store.py:760-844 | a completed task meets the gate at once and for ever, over exactly the work it had when completed |
| `LedgerInvariants.CompletionExactly` | src/agent_os/store.py:763-833 | complete_task is accepted if and only if the task is in review, the gate holds and each latest attempt's newest review approves it |
| `LedgerInvariants.ReviewableForEver` | src/agent_os/store.py:697-715 | a review that passes its checks once passes them in every later ledger |
| `Journal.LogIsAFaithfulJournal` | src/agent_os/store.py:330-365 | in every reachable ledger replaying a task's events yields its status, its attempts' identity, status and summary and its reviews; every event was legal where it stands |
| `Journal.OneEventPerEffect` | src/agent_os/store.py:869-876 | refused and replayed calls append nothing, every other call one event |
| `Journal.StatusComesFromLastEdge` | src/agent_os/store.py:421-432 | a chained journal's status is the target of its last transition |
| `Journal.Outcome` | src/agent_os/http_service.py:407-428 | the backward scan returns the reason of the newest transition into the status, or the fallback |
| `Journal.OutcomeReasonExists` | src/agent_os/http_service.py:413-427 | in every reachable ledger the outcome text of a blocked or closed task is the reason of the transition that produced its status, and of any other task the fallback |
| `NeverStuck.NoOpenTaskIsStuck` | src/agent_os/store.py:155-177 | from every reachable ledger some accepted calls lead any task that is not completed or cancelled to completion |
| `NeverStuck.CloseRunning` | src/agent_os/store.py:552-612 | all running implementations can be closed, one accepted call each |
| `NeverStuck.FinishAll` | src/agent_os/store.py:473-612 | every unfinished work item can be given a successful latest attempt |
| `NeverStuck.ApproveAll` | src/agent_os/store.py:686-758 | every unapproved latest attempt can be given an approving newest review |
| `NeverStuck.NewestAfter` | src/agent_os/store.py:804-818 | a later review decides its own attempt and leaves the others as they were |
| `SplitSteps.SplitFinishIsAtomic` | src/agent_os/store.py:565-612 | with any calls between its read and its compare-and-swap, finish_attempt acts as one atomic call, and a lost race is reported exactly when the attempt was closed in between |
| `SplitSteps.SplitReviewIsAtomic` | src/agent_os/store.py:697-758 | with any calls between its reads and its insert, record_review acts as one atomic call |
| `SplitSteps.AloneIsAtomic` | src/agent_os/store.py:760-844 | with nobody else writing, a split complete_task goes through only where the atomic call is accepted, with the same effect, and is rejected only where it is refused |
| `SplitGate.SplitGateExactly` | src/agent_os/store.py:763-833 | over every interleaving in which a split complete_task goes through, the gate holds if and only if the implementation attempts started since its first read are closed and, where they are the latest, succeeded and approved |
| `SplitGate.NothingStartedMeetsGate` | src/agent_os/store.py:763-833 | so the gate holds whenever nobody starts an attempt of the task meanwhile, even if it left review and came back |
| `SplitSteps.SplitCompletionMeetsGate` | src/agent_os/store.py:763-833 | if the task stays in review from the first read to the write, the gate holds and the whole ledger invariant with it |
| `SplitSteps.LeavingReviewBreaksTheGate` | src/agent_os/store.py:767-833 | from every completable ledger, if the task may leave review and return, some interleaving completes it with an implementation attempt running |
| `Execution.ResolvedIdentityIsConsistent` | src/agent_os/execution.py:147-195 | resolution never changes role, harness or kind, honours a requested provider, and never stores a model name that contradicts the provider |
| `Execution.SomeReviewerDiffers` | src/agent_os/execution.py:116-137 | whatever the implementer's provider, some registered reviewer has another |
| `Execution.ModelPrecedence` | src/agent_os/execution.py:154-181 | the model of a resolved identity: the requested one, else that of the environment, else the registered one |
| `Identities.EveryRowIsAttributed` | src/agent_os/store.py:488-758 | in every reachable ledger each attempt and review carries an identity that its agent or reviewer resolves to: registered harness and kind, the registered provider unless a model name chooses it, and reviewers only among the registered ones |
| `Identities.CompletedWorkIsIndependentlyApproved` | src/agent_os/store.py:697-715 | in every reachable ledger each latest attempt of a completed task has an evidence-backed approval by a registered reviewer whose registered provider differs from the stored one and from the one the implementing agent is registered with |
| `Policies.PolicyAgreesWithStore` | src/agent_os/policies.py:77-100 | the policy allows a review dispatch exactly when the store would accept the review |
| `Policies.DenialIsTheStoresRefusal` | src/agent_os/policies.py:77-100 | for a successful implementation attempt, the reason of a denied review is the reason for which the store would refuse it |
| `Policies.DispatchFollowsAttempt` | src/agent_os/policies.py:40-76 | after any later calls, the policy lets an implementation dispatch through if and only if it names the agent and task the attempt was started for and the attempt still runs |
| `Policies.OnlyGovernedAreDenied` | src/agent_os/policies.py:28-60 | nothing but a dispatch of implementation or review work is ever denied; one that names no child always is; missing identity comes first |
| `Policies.AllowedReviewIsAcceptedForEver` | src/agent_os/policies.py:77-100 | an allowed review is accepted by the store in every later ledger |
| `Policies.GovernedDispatchNamesOneAttempt` | src/agent_os/policies.py:40-76 | an allowed dispatch names exactly one implementation attempt, running for implementers and successful for reviewers |
| `Policies.AllowedImplementersNeverCollide` | src/agent_os/policies.py:61-75 | two implementation attempts allowed in one ledger never share a work item |
| `CodexTargets.InTimeRunsAreClocked` | src/agent_os/store.py:507-527 | on an advancing clock start times are distinct and a running implementation is the latest of its work item |
| `CodexTargets.LastWinsIsSqlMaximum` | src/agent_os/store.py:778-795 | overwriting in list order and the completion query's maximum select the same latest attempts |
| `CodexTargets.ReviewTargets` | src/agent_os/runner.py:639-666 | chooses one attempt of each work item that none of its rivals started after, the latest attempts where start times differ; returns exactly those without a review when all of them succeeded under another provider, and each refusal means what it says |
| `CodexTargets.OneChoice` | src/agent_os/runner.py:649-652 | with distinct start times one attempt per work item without a later rival leaves one choice, the latest attempts |
| `CodexTargets.LatestByWorkItem` | src/agent_os/runner.py:642-651 | the dictionary loop keeps the last listed implementation of each work item |
| `CodexTargets.Unreviewed` | src/agent_os/runner.py:662-666 | keeps exactly the chosen attempts that no review names, each once |
| `CodexReview.RecordCodexReview` | src/agent_os/runner.py:1480-1509 | succeeds exactly when every review and the closing call are accepted where they stand, and then the ledger is their run; otherwise exactly the reviews before the refused call are recorded and its refusal is reported |
| `CodexReview.ReviewsApprove` | src/agent_os/runner.py:1480-1500 | recording a verdict on the targets decides their newest reviews, approvals exactly for an approving verdict, and changes no other attempt's |
| `CodexReview.SessionLeavesWork` | src/agent_os/runner.py:760-782 | a review run by itself leaves implementation attempts and reviews as they were and ends in review |
| `CodexReview.DirectReviewClosesTask` | src/agent_os/runner.py:1480-1509 | from any ledger an advancing clock reaches: if the selection accepted the targets, nobody else writes and the verdict approves them, every call of the review run is accepted and the task ends completed if and only if each latest attempt reviewed before is approved by its newest review; otherwise the task is left in review |
| `CodexReview.DirectReviewBlocksTask` | src/agent_os/runner.py:1480-1509 | from the same ledgers, a verdict that does not approve always goes through: every call is accepted, the task ends blocked and no target is approved by its newest review |
| `ProcessGroup.ScanProcessTable` | src/agent_os/runner.py:1838-1906 | absent exactly when every row is readable, one names a process and none the group; present exactly when a row names it before any bad row; each failure names its row |
| `ProcessGroup.ProcessGroupAbsent` | src/agent_os/runner.py:1820-1835 | one probe: what the answer of killpg decides, and on Darwin the process table after a permission error, and nothing when that table decides nothing |
| `ProcessGroup.WaitForProcessGroupAbsence` | src/agent_os/runner.py:1805-1817 | at most ceil(timeout / poll) + 1 probes, each following the one before after one poll interval or what was left of the timeout; all but the last saw the group before the deadline; a negative answer means the last probe was at or after the deadline and saw it |
| `ProcessGroup.SignalProcessGroup` | src/agent_os/runner.py:1788-1802 | sends one signal; it is no failure exactly when it was delivered, the group was gone, or on Darwin a permission error came with a table that decides |
| `ProcessGroup.TerminateProcess` | src/agent_os/runner.py:1760-1785 | at most one TERM, then at most one KILL, KILL only after every probe through a full grace period saw the group; absence is claimed only when the last probe said absent, and failure only at a probe without an answer, at a refused signal, or when the group was still seen a full grace period after KILL |
| `ProcessGroup.WaitForProcess` | src/agent_os/runner.py:1934-1953 | how the wait ends is decided exactly: exit if and only if the leader exits by the deadline, before any interruption and with the flag unset at every look until then; cancellation if and only if a look finds the flag set before the exit or interruption would be seen, with the first probe of the group made at the first such look; interruption and timeout in the remaining cases; an unverified cancellation was tried to its end |
| `ProcessGroup.FirstLookIsFirst` | src/agent_os/runner.py:1943-1953 | the look at which a flag is found is a look, not before the flag, and none of the looks in between is earlier |
| `Launch.Spawn` | src/agent_os/runner.py:861-936 | the child is launched exactly when set-up and spawn succeed and the flag is unset, its process is recorded at once, and the launch goes on exactly when the store took the process id and the prompt was passed |
| `Launch.Watch` | src/agent_os/runner.py:937-964 | ends cleanly if and only if the leader's exit is seen in time and, for Codex, the one probe at its exit is answered by absence; a flag found while the leader runs ends it in a cancellation or an unverified teardown, begun at that look; a deadline that passes starts the teardown there; a survivor is torn down and reported or cancelled; every exception has its cause |
| `Launch.AfterWatch` | src/agent_os/runner.py:965-979 | after a clean watch it fails if and only if the reader, the result file or the closing does or the flag is set; the evidence assertion cannot fail, and a late cancellation carries the group's absence at exit |
| `Launch.Funnel` | src/agent_os/runner.py:980-1052 | every exception becomes a provable cancellation or a failure that keeps its exception, unless the clean-up itself is unverified; nothing is left unproven except after a teardown that was tried to its end |
| `Launch.LaunchBlock` | src/agent_os/runner.py:852-1085 | for every environment: it runs to its end if and only if the child starts and is recorded, its exit is seen in time, for Codex its group is absent then, reader, result file and closing work and the flag is unset; a cancellation found before the launch, during the wait or after the exit is recorded unless the teardown is unverified or the reader fails; no failure without its cause; exactly the process of a launched child is written |
| `Orphans.FailRunningChildAttempts` | src/agent_os/runner.py:1655-1675 | with others writing before each closing call: the children are exactly the task's other running attempts, and state and answer are those of the sweep over them |
| `Orphans.SweepCompletesExactly` | src/agent_os/runner.py:1664-1674 | the sweep completes if and only if no listed child was closed by somebody else with a different outcome before its turn |
| `Orphans.SweepCanBeStopped` | src/agent_os/runner.py:1664-1674 | in every ledger with a coordinator and a child running, one foreign close stops the sweep and leaves the coordinator running |
| `Orphans.CoordinatorAndChildRun` | src/agent_os/store.py:473-550 | such a ledger is reachable: a task, its coordinator and one builder, both running |
| `Orphans.SparedChildrenAreSwept` | src/agent_os/runner.py:1664-1674 | whatever else others write, a sweep whose children nobody else closes completes |
| `Orphans.SweptAreTerminal` | src/agent_os/runner.py:1664-1674 | every child of a completed sweep is terminal |
| `Orphans.LoneSweep` | src/agent_os/runner.py:1655-1675 | left alone, the sweep closes exactly the listed children and changes nothing else |
| `Orphans.OrphanRows` | src/agent_os/runner.py:1667-1673 | a closed orphan is failed for the given reason, without evidence or usage, and keeps its transcript |
| `Settling.FinishCancelledRun` | src/agent_os/runner.py:1205-1237 | with others writing between the close, the reread and the move: the attempt is closed as cancelled unless somebody had closed it, and the cancellation code is returned exactly when close and move succeed and the task is cancelled |
| `Settling.FinishFailedRun` | src/agent_os/runner.py:1053-1085 | the attempt is closed as failed unless somebody had closed it; a task reread as running is sent to blocked after a group error and to failed otherwise |
| `Settling.FinishExitedRun` | src/agent_os/runner.py:1125-1164 | the attempt is closed with the exit's outcome unless somebody had closed it; a task reread as running is sent to review or to failed; the code is returned exactly when both writes are accepted |
| `Settling.OutcomeStands` | src/agent_os/runner.py:1053-1164 | whatever others write afterwards, the attempt keeps the outcome it was closed with |
| `Settling.MoveExactly` | src/agent_os/store.py:404-432 | a running task always goes to review, and to blocked or failed exactly when no implementation attempt of it is running |
| `Runner.SettleExited` | src/agent_os/runner.py:1129-1164 | past the launch block the flag goes first, then the exit code decides, and the ledger is exactly that outcome's |
| `Runner.TaskFollowsMove` | src/agent_os/runner.py:1053-1164 | a task reread as running gets the outcome's status unless an attempt that is still running hinders it; one that somebody moved is left alone |
| `Runner.StartsAlone` | src/agent_os/runner.py:760-782 | a started attempt is new and its task running, and it is alone if nothing was running before |
| `Runner.StartableExactly` | src/agent_os/runner.py:764-782 | a run is startable if and only if its task is open, its identity resolves, its work item is named and free and its id is new; an open task is brought to running first |
| `Runner.SweptIsTidy` | src/agent_os/runner.py:1036-1094 | a coordinator that wrote an exit or a failure has closed every child that ran when its launch block was left, and one that succeeded had none |
| `Runner.OutcomeIsJustified` | src/agent_os/runner.py:937-1164 | succeeded if and only if the environment let everything go well: the child started and was recorded, exited with zero in time, for Codex with its group absent, reader, result file, output and terminal event in order, no orphans, the flag unset at every look; a cancellation asked for in time is written as cancelled unless the teardown is unverified or the reader failed, and nothing else is; a descendant seen at a Codex leader's exit is a group error and a failed attempt unless a cancellation was asked for; no failed launch block without its cause |
| `Runner.UnwrittenExactly` | src/agent_os/runner.py:1036-1094 | a prepared run leaves its attempt unwritten if and only if its sweep of orphans was stopped |
| `Runner.RunTask` | src/agent_os/runner.py:669-1164 | started if and only if no cancellation was asked for before and the store takes the start; a cancellation asked for before is tried on the task and reported by 130 exactly when accepted; with others writing at every stage: the final ledger is exactly what the account says on top of theirs, the account is justified by the environment, the attempt is terminal whenever an outcome was written and has that outcome unless somebody closed it first, and the task follows; the exit raises or returns 130, zero or the decided code exactly as the writes went; left alone, attempt and task end as the account says |
| `Supervisor.RunnerKeepsAt` | src/agent_os/http_service.py:211-244 | each step of a runner thread leaves the ledger fit for the point where it goes on |
| `Supervisor.CancelKeepsAt` | src/agent_os/http_service.py:255-280 | the canceller's own write never disturbs a runner, wherever it stands |
| `Supervisor.PlayKeepsConsistent` | src/agent_os/http_service.py:178-288 | every interleaving of submitter, canceller, runners and shutdown, and of any calls about other tasks, keeps the machine consistent |
| `Supervisor.ElsewhereKeepsConsistent` | src/agent_os/http_service.py:117-119 | a call about another task, accepted or refused, leaves the status and the running attempts of this one as they were, and every runner at a point that suits the ledger |
| `Supervisor.EverySupervisedRunSettles` | src/agent_os/http_service.py:211-280 | over every interleaving, other works going on in the same ledger: when the newest run has returned, the task is neither queued nor running and has no running attempt |
| `Supervisor.NeverTwoLiveRunners` | src/agent_os/http_service.py:190-209 | no interleaving has two live runners of a task |
| `CancelFlags.RequestReachesRun` | src/agent_os/http_service.py:249-280 | whatever others do before the service reads the task and after, a cancellation of a queued or running task sets the flag of the newest run that is still live, and it stays set |
| `CancelFlags.RequestCancelsQueued` | src/agent_os/http_service.py:255-268 | for a queued task the service then cancels the task itself, if nothing runs for it by then, and changes nothing if something does |
| `CancelFlags.RequestedRunNeverSucceeds` | src/agent_os/http_service.py:249-280 | so over every interleaving a run that had not yet looked at its flag for the last time records no success after a requested cancellation |
| `CancelFlags.FlagStays` | src/agent_os/http_service.py:255-280 | runs are never forgotten and a flag once set stays set |
| `CancelFlags.FlaggedRunNeverSucceeds` | src/agent_os/runner.py:1129-1164 | a run whose flag was set before its last look at it never closes an attempt as succeeded nor sends its task to review |
| `CancelFlags.FlaggedRunNeverLaunches` | src/agent_os/runner.py:760-868 | a run whose flag was set before the launch is never launched, and one whose flag was set before its first look starts no attempt |
| `CancelFlags.CloseReachesRun` | src/agent_os/http_service.py:282-288 | closing the service sets the flag of a live run for good |
| `CancelFlags.SubmissionStartsExactly` | src/agent_os/http_service.py:178-209 | with others acting in between, a submission starts one run if and only if the task was queued, has no attempt, no run of it is live and the service is open |
| `CancelFlags.ShutdownIsFinal` | src/agent_os/http_service.py:282-288 | after a shutdown no run is ever started |
| `Supervisor.OverRunSettlesExactly` | src/agent_os/http_service.py:178-288 | over every interleaving, a run that is over has left its task unsettled if and only if a shutdown dropped it before its thread started, with the task queued, and the service wrote no cancellation after that |
| `Supervisor.StrandedExactly` | src/agent_os/http_service.py:282-288 | a queued task of a dropped run comes from exactly those moves, and is left by a written cancellation only |
| `Supervisor.DroppedRunStaysQueued` | src/agent_os/http_service.py:282-288 | that exception occurs: for every task not yet created some interleaving ends in it |
| `SupervisedRun.LoneRunEndsAsAccounted` | src/agent_os/runner.py:1053-1164 | for every end of the launch block, a runner thread nobody disturbs returns with the attempt closed and the task moved as the account of `run_task` has them |
| `SupervisedRun.LoneRunLaunches` | src/agent_os/runner.py:760-903 | left alone, a submitted run comes to its launch with exactly the writes that `run_task` makes before it, whenever it would start |
| `SupervisedRun.FailedPreparationIsCleanedUp` | src/agent_os/http_service.py:222-246 | a run whose preparation fails ends with its attempt and its task failed by the service |
| `Timestamps.IsoTracksTime` | src/agent_os/store.py:180-181 | for all UTC instants the ISO texts compare as the instants do, with or without a fraction, and neither of two different ones begins the other |
| `Timestamps.IsoReadsBack` | src/agent_os/store.py:180-181 | read back by position, a stored text spells exactly the instant it was written for |
| `Timestamps.AttemptIdTracks` | src/agent_os/store.py:184-185 | attempt ids compare as the numbers their digits spell |
| `Timestamps.KeyOrderIsTimeThenId` | src/agent_os/store.py:778-795 | the text order of `started_at`, colon, id is the ledger's order by time and then id |
| `Costs.CostProjection` | src/agent_os/http_service.py:325-404 | the pass over the attempts computes the specified projection or its error |
| `Costs.Collect` | src/agent_os/http_service.py:331-356 | the loop collects observations, reported and derived amounts and references, or stops at a receipt without evidence |
| `Costs.HalfUp` | src/agent_os/http_service.py:389 | the nearest whole number, ties away from zero |
| `Costs.CentsExactlyForOneReceipt` | src/agent_os/http_service.py:380-390 | for validated usage, cents are stated if and only if there is an attempt and one receipt covers all; several receipts are the only failure |
| `Costs.CentsAreTheTotal` | src/agent_os/http_service.py:388-396 | the cents are within half a cent of the observed total and carry the receipt |
| `Costs.TotalsPartition` | src/agent_os/models.py:148-174 | reported and derived totals add up to the observed amounts |
| `Costs.NoNumberIsInvented` | src/agent_os/http_service.py:357-404 | a total is stated exactly when such an amount was observed and equals their sum; no observation is never zero |
| `Costs.SourceAndEvidence` | src/agent_os/http_service.py:373-399 | one source is named exactly when all attempts were observed with it, and shared evidence names every attempt |
| `Costs.LoneEvidence` | src/agent_os/http_service.py:349-399 | the evidence of a lone observed attempt is its own reference, or names the attempt |
| `Costs.StoredCostsAreReadable` | src/agent_os/http_service.py:349-351 | over every run of the store, the missing-evidence error is unreachable |
| `Artifacts.Collect` | src/agent_os/http_service.py:580-596 | the recursive walk finds exactly the regular files reachable without links, strictly ordered by path components |
| `Artifacts.PrintedNameParsesBack` | src/agent_os/http_service.py:510-515 | a printed name parses back to its components |
| `Artifacts.NamesExactly` | src/agent_os/http_service.py:510-515 | a name is refused if and only if it is absolute, names nothing or climbs; otherwise its components are its pieces but for empty ones and dots |
| `Artifacts.SafeRelativeParts` | src/agent_os/http_service.py:510-515 | accepted names consist of components that a directory can hold |
| `Artifacts.ReadRegularDescendant` | src/agent_os/http_service.py:518-542 | succeeds exactly when the parsed path ends at a regular file without passing a link, and returns that file's bytes |
| `Artifacts.ArtifactFiles` | src/agent_os/http_service.py:602-616 | lists every reachable regular file once, in order, under a name that reads back its bytes |
| `Context.BuildTaskContext` | src/agent_os/context.py:45-83 | the contract is a prefix; the kept records are the longest suffix of the history that fits, and the notice counts the rest |
| `Context.RecentAreTheLast` | src/agent_os/context.py:45-57 | of each kind the last eight records are taken, in their order, and up to eight all |
| `Context.LongestFittingIsUnique` | src/agent_os/context.py:75-80 | there is one longest suffix that fits, so the kept records are determined |
| `Context.ReversedJoinLength` | src/agent_os/context.py:77 | joining in reverse gives the same length, so the budget comparison is about what is printed |
| `Context.KeepNewest` | src/agent_os/context.py:75-80 | the backward loop keeps the longest suffix that fits |
| `Context.WithinBudget` | src/agent_os/context.py:74-83 | the text exceeds the budget, or contract and heading where they alone exceed it, by at most the notice and one character; everything is kept exactly when everything fits |
| `Context.OversizedContractDropsHistory` | src/agent_os/context.py:74-79 | when they do not fit, every record is dropped and the contract is still whole |

## Left out

- Supervisor.EverySupervisedRunSettles: the runner thread is a program counter over the ledger accesses of a run, stated beside `Runner.RunTask`; the two are tied for a run nobody disturbs (`SupervisedRun.LoneRunEndsAsAccounted`); forced reconciliation and external requeueing break the single-writer assumption and belong to the ledger model only; that a run does return is not claimed.
- Runner.RunTask: other writers act while the child runs, before each closing of an orphan, after the run's attempt is closed and after the task is reread, but not between the opening transition and the start of the attempt; what the runtime prints, its terminal events and its result file are inputs, as are the summaries and evidence that are recorded (never an empty evidence list, as in the source); recording the verdict of a review run comes after it, in `CodexReview.RecordCodexReview`.
- Launch.LaunchBlock: an interruption is modelled while waiting for the leader, not between any two statements of the block; joining the output reader takes no time on the clock, so a flag set meanwhile is seen at the next look.
- ProcessGroup.TerminateProcess: teardown of a process that has no process group (non-POSIX hosts) is not modelled, and the clock is read at once after a probe.
- ProcessGroup.WaitForProcess: a wait for the leader ends exactly at its timeout and sees an exit at once; in the source the wait may return a little after its deadline and an exit in that interval still counts.
- ProcessGroup.ScanProcessTable: reading a column as an integer is an input of the scan.
- CodexReview.DirectReviewClosesTask: assumes that the reviewer's model variable does not contradict its provider when the review is recorded, because the store resolves the reviewer again without the run's explicit model.
- CodexTargets.LastWinsIsSqlMaximum: needs distinct start times, which an advancing clock gives; with equal ones the source breaks ties by a random id in one place and by row order in the other.
- Store.TaskStore.ReconcileStaleAttempts: rows of one instant are visited in any order.
- Store.TaskStore.FirstObstacle: the latest attempts are checked in any order, as the query gives them none.
- Costs.CostProjection: amounts are exact reals; decimal context precision and the final float rounding are not modelled.
- Artifacts.ArtifactFiles: the tree does not change while it is walked; names are Unicode text, and the artifact directory itself has been opened.
- Context.BuildTaskContext: the contract and the records come rendered; the templates are not modelled.
- Policies.PolicyAgreesWithStore: the attempt ids in a prompt are an input, not the pattern that finds them.
- Execution.ResolvedIdentityIsConsistent: environment variables are an explicit map, and lower-casing is that of ASCII letters.
- Timestamps.IsoTracksTime: the calendar is the proleptic Gregorian one of years 1 to 9999, as in Python.
- SQLite itself, schema migration and backup, file modes, row and JSON conversion, finish and update timestamps, token counts.
- Command lines, runtime configuration files, the Antigravity plugin, CODEX_HOME copying, Omnigent usage loading.
- FastAPI routes, the bearer token and hashing; specs, definitions, the command line, probing and release scripts.
- The coordinator's tools are sequences of store calls, which the theorems about all runs cover; their own texts are not modelled.
