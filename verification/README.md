# SelfCI in Dafny

SelfCI is a merge queue and a coordinator of candidate checks. This project models the parts
of it whose correctness is decided by interleavings, by reachability in a commit graph, by
quoting rules or by deadline arithmetic, and proves what they promise. `dafny verify
dfyconfig.toml` checks all of it.

Commands of Git, Jujutsu and the operating system, hooks, jobs and other users of the
repository are an environment with arbitrary outcomes. Where a theorem needs the environment
to behave, a predicate (`Lawful`, `ListsExactly`, `AllocatesNewChanges`, `Disciplined`,
`Overlapping`, `Undisturbed`, `WaitsDescend`) says how.

## What is modelled

**The merge queue.** `RunRegistry` is `MQState` as a class over its map and counter.
`Publication` is the expected-old update of the base that publishing relies on, as a class whose
methods write the base. `MergeQueue` is the protocol: request handlers that queue a run under the
lock and send it later, the daemon loop's shutdown marker, the one queue processor with a step for
every command it executes, and other writers that move the base between any two steps.
Each run carries its looks at the base: after how many of the base's writes it resolved, published
and verified, and what the base was. `MergeQueueProofs` shows that each step keeps the invariant,
`MergeQueueTheorems` draws the conclusions for whole executions, `MergeQueueTrace` compares the
state with the actions that led to it, so that no submission, message or move is lost, and
`MergeQueueFold` relates undisturbed executions to a sequential fold. `QueueProcessor` is the
imperative loop of the processor, with handlers and other writers acting between any two of its
steps, proved to be an execution of the protocol, and `QueuePauses` shows that nothing is lost of
what they do meanwhile.

**A candidate check.** `StepLog` is the log of a job's steps as a function of the requests served,
`JobStates` the shared class that the request handlers update. `CheckCoordinator` is the message
loop and the result of a check, imperatively. `CheckProtocol` is the protocol of workers, request
handlers and loop, `CheckProofs` its invariant, `CheckTheorems` the consequences: where jobs are,
what is counted, when fork and join is complete and what a marked failure does. `CheckTrace` reads
logs, accepted jobs, answers and results off the requests served and the exits of an execution.
`CheckCoverage` shows that no job is missed if none ends before those it started have begun, and
`CheckExample` has an execution that meets both conditions for a complete check. `CheckProgress` says
exactly when a check cannot take a step, and that it ends. `WaitNotify` is the mutex and the
condition variable behind both kinds of waiting, at the level of parked threads and pending
notifications.

**Jujutsu preparation.** `CommitGraph` has commits as values that contain their parents, so that
every history, with any merges, is covered and none is cyclic. `JjReplay` is duplicating an
interval and rebasing the copies, `JjPreparation` the two functions that decide what is replayed,
`JjIdentities` (on the text functions of `RustText`) the parser of revision lists.

**Command rendering.** `ShellRendering` is `Cmd` and its formatter, `ShellWords` a recognizer for
the Shell Command Language of POSIX.1-2017, sections 2.2.1 to 2.2.3, 2.3 and 2.6.7, and
`ShellRoundTrip` shows that it reads a rendered command back.

**Stopping a daemon.** `ExitWatcher` is the wait for a process with its polling loop and timeout
arithmetic, `DaemonStop` the stop sequence in a world where processes exit, process IDs are used
again and files change between any two steps.

## Results that may surprise

- A rendered command does not read back if its directory contains a newline, and only then
  (`ShellRoundTrip.RenderingRoundTrip`).
- An accepted job can be missed by a check that passes
  (`CheckTheorems.AnAcceptedJobCanBeMissed`). `CheckTheorems.CoverageIff` says exactly when the
  results cover all jobs. It suffices that no job reports while one it started is still queued or
  only claimed, whether or not anybody waits for it (`CheckCoverage.OverlapIsComplete`); if every
  fork is joined, the check also ends exactly with main (`CheckTheorems.ForkJoinIsComplete`).
- A check can wait for ever (`CheckProgress.WaitingOnTheLastWorkerIsStuck`,
  `CheckProgress.WaitingForOneselfIsStuck`). `CheckProgress.NoStepIff` says exactly when no step is
  left; without a cycle of waits that is exactly when the check is stuck with every worker blocked
  (`CheckProgress.NoStepWithoutCycleIff`), and with a worker free there must be a cycle
  (`CheckProgress.NoStepWithFreeWorkerIff`).
- A failure that was marked and acknowledged is undone by a later mark of the same step that
  ignores it, and by nothing else (`StepLog.FatalMarkSurvivesIff`).
- The replayed interval is the whole submitted suffix only if that has one root
  (`CommitGraph.IntervalIsSuffixIffSingleRoot`); otherwise the other submitted commits stay
  reachable as they are (`JjReplay.PreparedReachesExactly`).

## Model

| member | source | states |
|---|---|---|
| RunRegistry.MQState.QueueRun | src/cmd/mq.rs:201-231 | a new run gets an id above all ids in use and is queued with exactly the candidate and the no-merge flag asked for, neither started nor completed; the records of all other runs stay |
| RunRegistry.MQState.StartRun | src/cmd/mq.rs:235-264 | exactly a queued run starts; the caller gets the running record, any other id gets nothing and changes nothing |
| RunRegistry.MQState.CompleteRun | src/cmd/mq.rs:267-272 | the record of a known run is replaced, those of all others stay; replacing a running record by a terminal one keeps ids, timestamps and statuses in agreement |
| RunRegistry.MQState.ListRuns | src/cmd/mq.rs:324-334 | with limit k exactly the k runs with the largest ids, largest first |
| RunRegistry.MQState.LatestRun | src/cmd/mq.rs:2879-2902 | the run that is waited on by default is the newest one there is |
| RunRegistry.SortOrders | src/cmd/mq.rs:327-327 | sorting records with distinct ids puts them in descending order of id |
| Publication.Repository.UpdateRef | src/cmd/mq.rs:2479-2496 | the Git update writes the base if and only if it is the expected commit |
| Publication.Repository.BookmarkMove | src/cmd/mq.rs:2497-2529 | the Jujutsu move writes the base if and only if it is the expected commit and another one is wanted |
| Publication.Repository.PublishPreparedCandidate | src/cmd/mq.rs:2464-2603 | Verified means that the base is the prepared commit, seen after any interference; an error means that nothing was written; a write that could not be verified is reported as such, in Jujutsu only |
| Publication.Repository.Publish | src/cmd/mq.rs:2478-2529 | the publishing command is accepted if and only if it ran and moved the base, or in Jujutsu had nothing to move; only a move writes |
| Publication.Repository.Verify | src/cmd/mq.rs:2542-2595 | the look after a Jujutsu publication verifies if and only if the base is the prepared commit; otherwise it is an error after a no-op, and an unverified application after a move |
| MergeQueueProofs.InvStep | src/cmd/mq.rs:1197-1563 | every step of handlers, daemon loop, processor and other writers keeps registry, channel, history of the base and established facts in agreement |
| MergeQueueTheorems.WritesAreCheckedCompareAndSwaps | src/cmd/mq.rs:1280-1465 | in every execution, each write of the queue replaces exactly the commit its run had resolved, which was still the base, by exactly the commit integrated from it that passed its check; no run writes twice |
| MergeQueueTheorems.StatusTellsTheTruth | src/cmd/mq.rs:1460-1548 | a run reports a landing if and only if its publication was verified; then the base was its tested commit right behind its own write in Git, or at the look it took after publishing in Jujutsu, never only before; its post-merge stage was run for that commit, and for no other run; a terminal run wrote the base if and only if it reports a landing that had something to move, or an unverified publication |
| MergeQueueTheorems.StatusNamesItsCause | src/cmd/mq.rs:1249-1563 | a terminal status names the command of the run that failed, or what a true look found the base to be at resolution, publication or verification, with all commands before it having succeeded; no other status is explained by the same facts |
| MergeQueueTheorems.PostMergeOnlyAfterVerifiedLanding | src/cmd/mq.rs:1466-1519 | the post-merge stage is reached only with the check passed, the publication verified and the landed commit equal to the tested one, which was the base at the write or the verifying look of that run |
| MergeQueueTheorems.VerifiedEntersPostMerge | src/cmd/mq.rs:2525-2602 | the step that publishes or verifies enters the post-merge stage if and only if the publication is verified then; a no-op whose base has moved meanwhile does not |
| MergeQueueTheorems.LifecycleIsMonotone | src/cmd/mq.rs:201-272 | over any part of an execution a run moves only from queued to running to terminal, and a terminal record never changes |
| MergeQueueTheorems.OneRunAtATime | src/cmd/mq.rs:1211-1236 | at most one run is running; completion and start times are present exactly as the status says |
| MergeQueueTheorems.ShutdownDrainsTheQueue | src/cmd/mq.rs:887-932 | when the processor has stopped, a run is terminal if its message precedes the marker; every other run, sent later, not yet sent or refused by the closed channel, is still queued and wrote nothing |
| MergeQueueTheorems.StoppedForGood | src/cmd/mq.rs:924-932 | after that the queue writes nothing and those runs stay as they are |
| MergeQueueTrace.SubmissionsAreKept | src/cmd/mq.rs:201-231 | in every execution the n-th submission has the id n, and its record has the candidate and the no-merge flag submitted, whatever happened since; there are no other records |
| MergeQueueTrace.NoMergeNeverWrites | src/cmd/mq.rs:1422-1430 | a submission that is not to be merged never writes the base |
| MergeQueueTrace.ChannelIsWhatWasSent | src/cmd/mq.rs:979-994 | the channel holds exactly the runs and markers sent while the processor was there, in the order of sending |
| MergeQueueTrace.EachRunIsInOnePlace | src/cmd/mq.rs:979-994 | every run of the registry is in exactly one place, once: not yet sent, in the channel, or refused by it; and none is refused before the processor has stopped |
| MergeQueueTrace.EveryMoveIsKept | src/cmd/mq.rs:2479-2529 | the history holds the moves of other writers, all of them, in order and nothing more; with the writes of the queue between them they make the base |
| MergeQueueTrace.ARunCanLand | src/cmd/mq.rs:1211-1563 | for any base, candidate and mode there is an execution in which a submitted run is sent, received, checked, published and recorded as landed, if its commands succeed |
| MergeQueueFold.QueueRefinesSequentialFold | src/cmd/mq.rs:979-994 | with no other writer the base is, between runs, the sequential fold of integrate, check and advance over the runs received, in channel order |
| QueueProcessor.ProcessRun | src/cmd/mq.rs:1225-1561 | with others acting between any two steps, one run of the loop leaves registry, channel and base as the processor's steps of the protocol do among theirs |
| QueueProcessor.WorkOnRun | src/cmd/mq.rs:1256-1558 | from the pre-clone hook to the terminal status, with others acting in between: the status is the one that the protocol is about to record, and the daemon is where the protocol is |
| QueueProcessor.PublishRun | src/cmd/mq.rs:1460-1548 | publication, verification and post-merge stage with others acting between them lead to the status of the protocol |
| QueueProcessor.ProcessQueue | src/cmd/mq.rs:1197-1563 | the whole loop, whatever others do in its pauses, leaves registry, channel and base as the protocol does; it is left only when the last message taken is the marker, or when every message was taken and others are done |
| QueueProcessor.LoopTakesEverything | src/cmd/mq.rs:1211-1223 | the loop ends only behind the marker, or with every message taken and nothing left that others do |
| QueueProcessor.EverythingSentIsDone | src/cmd/mq.rs:1211-1223 | when it has ended, every run sent before the marker, or every run sent if there is none, was taken and is terminal |
| QueueProcessor.LoopIsAnExecution | src/cmd/mq.rs:1211-1563 | what the loop leaves is reachable in the protocol, so that every theorem about executions holds of it; if nobody else wrote the base it is the fold of everything received |
| QueueProcessor.LoopDoesNotDisturb | src/cmd/mq.rs:1211-1563 | if others only queue runs and ask for the shutdown, the queue alone writes the base |
| QueueProcessor.SubmissionArrives | src/cmd/mq.rs:979-994 | a run queued and sent during a pause is in the channel behind all that was sent before, with its candidate and its flag |
| QueuePauses.PausesAreKept | src/cmd/mq.rs:1197-1563 | a loop started on an empty registry keeps everything that others did in its pauses: each submission has its record, each move of the base its place in the history, and if one of them asked for the shutdown the processor has stopped |
| StepLog.OnlyTheLastStepRuns | src/cmd/worker.rs:325-378 | in the log after any requests only the last step can be running |
| StepLog.MarkedFailureSurvives | src/cmd/worker.rs:379-405 | a marked failure stays as it was marked last before the next step started |
| StepLog.FatalMarkSurvivesIff | src/cmd/worker.rs:379-405 | an acknowledged failure that is not to be ignored is fatal when the job is over if and only if no later mark ignores it while its step is still the last |
| StepLog.FatalIffDecisiveMark | src/cmd/check.rs:528-592 | a job's log has a fatal step if and only if one of the requests was a failure mark that stood |
| StepLog.FinalizingKeepsFailures | src/cmd/check.rs:528-546 | reading the log of a finished job turns running steps into successes and keeps every failure |
| StepLog.LoggingAppends | src/cmd/worker.rs:333-358 | starting a step appends it as running; a last step that was running becomes a success, every other step keeps its status |
| StepLog.MarkingOverwrites | src/cmd/worker.rs:379-405 | a mark sets the status of the last step and of no other, and adds no step |
| JobStates.JobStates.LogStep | src/cmd/worker.rs:325-378 | a step is appended, a running last step becomes a success and is reported as completed |
| JobStates.JobStates.MarkStepFailed | src/cmd/worker.rs:379-405 | the last step of a known job takes the status; a job without steps is not found and nothing changes |
| JobStates.JobStates.OnlyLastStepsRun | src/cmd/worker.rs:325-405 | in every log of the shared state only the last step can be running |
| CheckCoordinator.CountersCount | src/cmd/check.rs:451-663 | after any prefix of a well-ordered message stream the active count is the number of open jobs, total minus active is the number of results, and the loop stops exactly at a completion that leaves no job open |
| CheckCoordinator.FailureIsRecorded | src/cmd/check.rs:585-610 | the check has failed if and only if a consumed completion was a failure, which is what the collected results say |
| CheckCoordinator.MessageLoop | src/cmd/check.rs:451-663 | the loop ends at the first completion that leaves no job open, or when the channel closes, with the tally of the messages up to there |
| CheckCoordinator.AttestBoth | src/cmd/check.rs:670-671 | the worktrees match only if both were attested and match; an error is an error of the first attestation that was reached |
| CheckCoordinator.RunCandidateCheck | src/cmd/check.rs:244-710 | an error if and only if an attestation that was reached failed, which is the one reported; otherwise exit code 0 if and only if the hook did not fail, both worktrees match before and after, and every job counted exited with 0 and without a fatal step when its completion was consumed |
| CheckProofs.InvStep | src/cmd/check.rs:446-663 | every step of workers, handlers and loop keeps jobs, messages, counters and results in agreement |
| CheckProofs.WorkerHoldsAlone | src/cmd/worker.rs:95-104 | the job of a worker is with no other worker, not queued, not on its way and has no result |
| CheckTheorems.EachJobIsInOnePlace | src/cmd/worker.rs:95-190 | in every execution an accepted job is in exactly one of jobs channel, workers, completions on their way and results, once; any other name is nowhere; each result is listed once |
| CheckTheorems.NoJobHasTwoWorkers | src/cmd/worker.rs:266-316 | no job is run by two workers |
| CheckTheorems.TheTallyIsRight | src/cmd/check.rs:451-663 | for every interleaving the counters do not underflow, total minus active is the number of results, the loop stops only once main has a result, and the check has failed if and only if a result is a failure |
| CheckTheorems.TheLoopComputesTheTally | src/cmd/check.rs:473-663 | the messages of every execution are as well ordered as the imperative loop requires, and its tally of them is the protocol's |
| CheckTheorems.CoverageIff | src/cmd/check.rs:660-663 | when the loop has stopped, the results cover every accepted job if and only if nothing is queued, with a worker or on its way, and if and only if as many jobs were counted as accepted |
| CheckCoverage.OverlapIsComplete | specs/SPEC-candidate-check.md:68-70 | if no job reports while one that it started is still queued or only claimed, the results of a stopped check are those of all accepted jobs, once each, and it has not failed if and only if all succeeded |
| CheckTheorems.ForkJoinIsComplete | src/cmd/check.rs:473-666 | if jobs exit only after they were answered about every job they started, the loop has stopped if and only if main has a result; then the results are those of all accepted jobs, once each, and the check has not failed if and only if all succeeded |
| CheckTheorems.StopsAtMain | src/cmd/check.rs:660-663 | under the same discipline the step that stops the loop is the one that consumes main's completion |
| CheckTheorems.AnAcceptedJobCanBeMissed | specs/SPEC-candidate-check.md:68-73 | without the discipline there is an execution in which the check passes and an accepted job never ran |
| CheckTheorems.MarkedFailureFailsTheCheck | src/cmd/worker.rs:379-442 | in every execution, a failure mark served before a job's completion is consumed makes the job's recorded status and the check fail, unless a later mark ignores the step while it is the last |
| CheckTrace.HandlersAreAsked | src/cmd/worker.rs:242-245 | a handler in flight has the request that its job made last under it |
| CheckTrace.ServedStepIsLogged | src/cmd/worker.rs:325-378 | serving the start of a step appends it to its job's log as running; earlier steps stay, a running last one becomes a success, no other log changes, and the loop is told of exactly these two |
| CheckTrace.ServedMarkIsLogged | src/cmd/worker.rs:379-405 | serving a failure mark sets the status of the last step of that job, and of nothing else, and the loop is told of it |
| CheckTrace.LogIsWhatWasServed | src/cmd/worker.rs:325-405 | in every execution the log of a job is what the served step and mark requests for it make of an empty log, in the order of serving |
| CheckTrace.AcceptedIsWhatWasServed | src/cmd/worker.rs:266-316 | a job is accepted if and only if a request to start it was served while its name was not in use; it is the child of the job that asked, and jobs are taken in the order of acceptance |
| CheckTrace.AnswersAreServedWaits | src/cmd/worker.rs:245-265 | a job was answered about another if and only if its wait was served with a result there |
| CheckTrace.ResultsAreDecided | src/cmd/check.rs:528-610 | in every execution the result of a job is a failure if and only if it did not exit with 0 or one of the marks served before its completion was consumed stood |
| CheckTrace.FailedStepFailsTheCheck | src/cmd/worker.rs:325-442 | in every execution, if a step was started and then marked as failed, both served before the completion was consumed, the job and the check fail for good, unless a mark served while the step was the last ignores it |
| CheckTrace.FailureIsFinal | src/cmd/check.rs:585-610 | a recorded failure stays recorded, and the check has failed from then on |
| CheckExample.AForkIsJoined | specs/SPEC-candidate-check.md:68-73 | an execution with a fork that is joined meets both conditions for a complete check, and passes with both jobs run |
| CheckTheorems.StatusIsDecided | src/cmd/check.rs:585-610 | the status recorded for a job is a failure if and only if it did not exit with 0 or a failure mark stood in its log |
| CheckProgress.Progress | src/cmd/worker.rs:245-324 | until the loop ends, if fewer jobs are blocked than there are workers and the waits form no cycle, a worker, a handler, the loop or a job that does not wait can take a step |
| CheckProgress.NoStepIff | src/cmd/worker.rs:245-324 | until the loop ends, no step is left if and only if the check is stuck and either nothing is queued or as many jobs are blocked as there are workers |
| CheckProgress.NoStepWithoutCycleIff | specs/SPEC-candidate-check.md:70-72 | without a cycle of waits, if and only if it is stuck with as many jobs blocked as there are workers |
| CheckProgress.NoStepWithFreeWorkerIff | src/cmd/worker.rs:245-268 | with a worker free, a stuck check has no step if and only if nothing is queued, and then the waits form a cycle |
| CheckProgress.StepsAreBounded | src/cmd/check.rs:473-663 | the steps of any execution without new requests are bounded in number by the work at its start |
| CheckProgress.TheCheckEnds | src/cmd/check.rs:473-663 | if no further requests are made, fewer jobs wait than there are workers and their waits form no cycle, every execution can be continued until the loop has stopped, within the bound |
| CheckProgress.WaitingOnTheLastWorkerIsStuck | specs/SPEC-candidate-check.md:71-73 | with one worker and no cycle, a job that waits for a queued one leaves no step |
| CheckProgress.WaitingForOneselfIsStuck | src/cmd/worker.rs:245-265 | a job that waits for itself leaves no step although a worker is free |
| WaitNotify.NoWakeupIsLost | src/cmd/check.rs:212-227 | a waiter parked on a key with a result will still be notified; where the notification is sent under the lock, that happens only inside the critical section |
| WaitNotify.AnswersAreRight | src/cmd/mq.rs:1007-1022 | a waiter that has just been answered has the recorded result of its key, or none for an unknown key |
| WaitNotify.UnknownIsAnswered | src/cmd/worker.rs:247-259 | in every reachable state, a waiter whose key is unknown when it is looked up is answered with nothing by that very step, in the check for a run at src/cmd/mq.rs:1017-1019; nobody is ever parked on an unknown key |
| WaitNotify.KnownIsWaitedFor | src/cmd/mq.rs:1007-1022 | a waiter whose key is known goes on to ask, and is parked by its check if and only if there is no result yet |
| WaitNotify.StateIsMadeByItsActions | src/cmd/check.rs:185-228 | in every execution exactly the learnt keys are known, waiters wait for the key they came with, and every result was completed with that value |
| WaitNotify.EveryKnownKeyCanBeCompleted | src/cmd/check.rs:223-227 | from every reachable state a known key without a result can be given any result within six steps: waiters never keep the completion out |
| WaitNotify.SpuriousWakeupIsHarmless | src/cmd/check.rs:212-220 | a spurious wakeup is possible at any time; with the lock free and no result the waiter looks again and the state is what it was |
| WaitNotify.AParkedWaiterIsAnswered | src/cmd/check.rs:212-227 | in both styles there is an execution in which a waiter is parked, notified and answered |
| WaitNotify.EveryWaiterCanBeAnswered | src/cmd/mq.rs:383-386 | from every state in which its key has a result, at most eight steps of the completer, the lock's holder and the waiter answer it, without any spurious wakeup |
| WaitNotify.InvStep | src/cmd/mq.rs:1007-1022 | every step, spurious wakeups included, keeps mutual exclusion, the pending notifications and the answers given |
| CommitGraph.LastListedIsRoot | src/cmd/mq.rs:2011-2033 | the last commit that jj lists of the suffix, first after reversing, is a root of it |
| CommitGraph.IntervalWithinSuffix | src/cmd/mq.rs:2110-2116 | the duplicated interval is a part of the suffix that contains root and tip |
| CommitGraph.IntervalIsSuffixIffSingleRoot | src/cmd/mq.rs:2110-2116 | it is the whole suffix if and only if the suffix has no other root |
| CommitGraph.LinearSuffixIsInterval | src/cmd/mq.rs:2110-2116 | on linear history it is the whole suffix |
| CommitGraph.ParentsFirstEnds | src/cmd/mq.rs:2170-2186 | any parents-first listing of it starts at the root and ends at the tip, so first and last are the right duplicates |
| JjReplay.PreparedReachesExactly | src/cmd/mq.rs:2110-2202 | on any history the prepared tip reaches exactly the base, the moved copy of every duplicated commit, and every other submitted commit as the original |
| JjReplay.MovedCopiesAreNew | src/cmd/mq.rs:2118-2186 | the moved copies are new commits, one for each duplicated one |
| JjReplay.ChangeNamesItsCopy | src/cmd/mq.rs:2261-2281 | inside the operation a new change ID names exactly the moved copy it was allocated for |
| JjReplay.OwnedAreTheMoved | src/cmd/mq.rs:2228-2257 | the revisions found under the new change IDs are the moved copies, as many as there are duplicated commits |
| JjPreparation.GroupByChange | src/cmd/mq.rs:1975-1978 | the map holds for each change ID exactly the listed commits with it |
| JjPreparation.FindSuperseded | src/cmd/mq.rs:1997-2009 | the scan reports a change if and only if one occurs in both listings with different commits, and reports such a one |
| JjPreparation.UniqueMutableStack | src/cmd/mq.rs:1932-2039 | it fails if and only if a command that reads fails or some change is in both ancestries with different commits, and then it names such a change; otherwise no change of the suffix is in the base, and the stack lists the whole suffix, from a root of it on |
| JjPreparation.FindPrepared | src/cmd/mq.rs:2228-2281 | unless a command fails, looking the copies up by change ID finds the expected number and the rebased tip; whatever jj lists, any other number of revisions is refused |
| JjPreparation.ReplayKeepsSubmission | src/cmd/mq.rs:2110-2202 | after a replay every submitted commit is reachable as it is or as a new commit with its content, and the base is reachable |
| JjPreparation.ReplayStack | src/cmd/mq.rs:2110-2304 | the replay from a root gives the prepared tip if all its commands succeed, and fails if one does not |
| JjPreparation.TestMergeJjRebase | src/cmd/mq.rs:2044-2304 | it fails if and only if a change is superseded or a command that it needs fails, reading ones included, never for an empty suffix or a wrong number of duplicates; a candidate on the base is kept, one in the base gives the base, any other is replayed from a root, and no submitted commit is lost |
| JjPreparation.SuffixEmptyIffInBase | src/cmd/mq.rs:2102-2108 | the suffix is empty if and only if the candidate is in the base, so the error for an empty suffix cannot occur |
| JjIdentities.ParsesExactly | src/cmd/mq.rs:1854-1874 | parsing gives a list if and only if each line holds exactly that pair of full identities; blank lines are refused |
| JjIdentities.PrintParseRoundTrip | src/cmd/mq.rs:1854-1874 | printing any list of identities and parsing the text gives the list back |
| JjIdentities.OnlyFullIdentities | src/cmd/mq.rs:1794-1805 | two words are read as a pair of identities if and only if they have 32 lower-case letters and 40 hexadecimal digits |
| JjIdentities.RefusalQuotesTheOutput | src/cmd/mq.rs:1807-1812 | one line that is refused makes the whole output an error, which carries it |
| RustText.SplitsInTwoIff | src/cmd/mq.rs:1860-1865 | splitting at whitespace gives these two words if and only if the line is these words with blanks around and between them |
| ShellRendering.WriteShellEscaped | src/duct_util.rs:159-215 | appends the quoted form of a text |
| ShellRendering.QuotingStyle | src/duct_util.rs:159-215 | plain texts stay bare, other texts without a single quote stand in single quotes, and only texts with a single quote stand in double quotes |
| ShellRendering.Cmd.FmtShell | src/duct_util.rs:111-135 | appends assignments, program, arguments and directory comment, quoted and in order |
| ShellRendering.Cmd.FmtLogLine | src/duct_util.rs:149-155 | appends the rendered command as one line behind a prompt |
| ShellRendering.Cmd.Args | src/duct_util.rs:52-61 | appends the arguments in order |
| ShellRoundTrip.EscapedReads | src/duct_util.rs:159-215 | in any position of a word, the quoted form of a text is read as exactly the text |
| ShellRoundTrip.RenderingRoundTrip | src/duct_util.rs:111-135 | a rendered command is read as exactly its assignments, program and arguments, with no expansion left, if and only if its directory has no newline |
| ShellRoundTrip.RenderingIsInjectiveOnWords | src/duct_util.rs:111-135 | commands that render alike stand for the same words |
| ExitWatcher.RemainingPollMillis | src/cmd/process_exit.rs:226-236 | the timeout is a c_int, zero exactly from the deadline on, at least a millisecond before it, never a millisecond too long, and otherwise never too short by a millisecond unless a c_int cannot hold more |
| ExitWatcher.MillisArePolledFor | src/cmd/process_exit.rs:226-236 | a deadline in a whole number of milliseconds is polled for exactly that number, up to 2147483647 |
| ExitWatcher.EmptyPollUsesTime | src/cmd/process_exit.rs:89-112 | after an empty poll at least a millisecond less remains |
| ExitWatcher.WaitPlatform | src/cmd/process_exit.rs:89-129 | the loop ends with the first poll that is neither a signal nor empty before the deadline, and reports what that poll says: a timeout if it was empty, an exit for an exit event without error events, and the errors apart |
| ExitWatcher.ExactSleepsEndOnTime | src/cmd/process_exit.rs:89-112 | with exact sleeps it ends less than a millisecond after the deadline, for any distance of the deadline |
| ExitWatcher.Wait | src/cmd/process_exit.rs:58-66 | a timeout beyond the clock is an error, and only that; otherwise the first decisive poll decides, so that an exit reported in time is an exit; no timeout is early, and with exact sleeps none is late by a millisecond |
| ExitWatcher.ReportedExitEnds | src/cmd/process_exit.rs:89-129 | a reported exit ends every wait that gets as far as its poll, there and nowhere else |
| DaemonStop.RemoveDaemonDirIfPid | src/cmd/mq.rs:3119-3131 | the directory is removed only if the pid file still has the expected process ID; failures of reading and removing are told apart |
| DaemonStop.StopDaemon | src/cmd/mq.rs:2939-3094 | success if and only if there was no daemon or the recorded process was seen to have exited and cleanup did not fail, and then that process is gone for good; every error says what has failed; the effects are exactly known: the request if and only if the recorded process acknowledged and is watched, the kill if and only if both acknowledgements matched and the watcher timed out twice, the removal if and only if the exit was observed and the pid file still has the ID, in this order, and only a positive ID is asked or killed |
| DaemonStop.StopStale | src/cmd/mq.rs:2978-2995 | without an answer to hello nobody is asked or killed, and the directory is removed only after the recorded process was seen to have exited |
| DaemonStop.ShutDown | src/cmd/mq.rs:3019-3094 | from the request to shut down on: success if and only if the exit was observed and cleanup did not fail; every error says what has failed, and the effects are exactly the request, the kill and the removal that the answers and waits call for |
| DaemonStop.SeenExitedIsGone | src/cmd/mq.rs:2978-3089 | an observed exit means that nobody had the recorded ID, or that the process that had it when the watcher was armed is gone for good |
| DaemonStop.KillReachesTheDaemon | src/cmd/mq.rs:3008-3072 | the watched process is the one that acknowledged the shutdown, it was alive at the recheck, and the signal reaches no other unless it has exited since |
| DaemonStop.RemovalComesAfterExit | src/cmd/mq.rs:3073-3091 | the directory is removed only after the recorded process was seen to have exited, for good |

## Left out

- Sockets, message encoding, daemonizing, file permissions and signal plumbing: libraries and the operating system; their outcomes are inputs.
- Command line, tables, display texts, output logs, durations and wall-clock times: a timestamp is only present or absent.
- Configuration, hook overrides, exit-code mapping and the revision types: each is settled by one branch.
- Git integration and `test_merge_jj_merge`: for the queue, integration is any function of run, base and candidate that may fail.
- `Cmd::to_expression`, the kqueue branch of the exit watcher and the debug-only override of the stop timeouts.
- The active jobs that `get_run` adds to a running record: they are for display.
- `parse_single_full_jj_change_id`, `parse_single_full_jj_commit_id` and `parse_full_jj_commit_ids`: simpler cases of the parser that is modelled.
- `parse_unintegrated_operation_id` and the parsing of jj's lines about duplicates: the model gets the listed originals and their copies.
- The 64-bit overflow of run ids.
- A failed version control detection at the start of `process_queue`, which ends the processor at once, and panics.
- The merge queue as one program of many threads: Dafny methods have none, so the protocol is a state machine, and `QueueProcessor` is one thread in whose pauses an arbitrary list of actions of the others takes effect.
- QueueProcessor.ProcessQueue: the list of what others do is finite; where the source would wait for a message that never comes, the loop ends.
- Waiters inside `MergeQueue`: waiting for a run is modelled in `WaitNotify`, with the lock and the notification explicit, and not again in the protocol.
- MergeQueueTheorems.WritesAreCheckedCompareAndSwaps: takes a version control command that reports failure not to have been applied, and a bookmark move of Jujutsu to be one atomic step; how Jujutsu merges concurrent operations inside one command is not modelled, but any outcome of such a merge can follow as a move by another writer.
- MergeQueueTheorems.ShutdownDrainsTheQueue: speaks of runs by their place in the channel; ids are assigned before sending, so channel order is not id order.
- JjPreparation.TestMergeJjRebase: takes commits to be immutable, `jj log` to list children before parents, `jj duplicate` to list parents before children, `rebase -s` to replace the parents of its source and to carry the descendants along, and change IDs of new commits to be new.
- CheckProgress.Progress: says that a step is possible, not that the scheduler takes it; a job that does not wait is taken to be able to exit. `CheckProgress.TheCheckEnds` bounds the steps, for a check in which no further requests are made.
- CheckTheorems.ForkJoinIsComplete: the protocol ends when the loop stops; what detached handlers and idle workers do after that is not modelled.
- CheckProtocol: serving a request is one step, although the handler sends its step messages after it has left the lock; those messages are only displayed.
- WaitNotify.EveryWaiterCanBeAnswered: says that an answer is always a few steps away, for one completer, and leaves fairness of the scheduler to the operating system. Other users of the lock change nothing that waiters look at and are not modelled.
- ExitWatcher.WaitPlatform: takes the clock not to go back, an empty poll to last as long as asked, and signals to interrupt it finitely often.
- DaemonStop.StopDaemon: the lookup of the runtime directory and the number syntax of the pid file are inputs.
- DaemonStop.KillReachesTheDaemon: takes a daemon to answer with its own process ID, which is what its handler does.
- ShellRoundTrip.RenderingRoundTrip: the recognizer yields one token for each operator character and does not expand aliases or recognize reserved words, so it does not say whether a shell would take the first word for an assignment or a keyword; the history expansion of interactive shells, which a quoted text does not prevent, is left out; a directory that is not valid Unicode is not modelled.
