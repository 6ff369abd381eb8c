# A verified model of the resumable saga engine

This project models the engine that drives a saga execution, from a fresh `Execute` or from a record
found after a crash, together with what it rests on: the in-memory store with its leases, the retry
policies, the transition tables, the events, the operation keys, and `RecoveryManager.Recover`. It
proves what holds over whole lives of an execution: any failures of steps, compensations and saves,
a context that ends at any moment, a crash between any two steps, and any number of resumptions.

## How it is built

There are two layers, and the second is proved to be an instance of the first.

1. **A state machine** (`Protocol`). A `System` is a process (program counter, its copy of the record,
   whether a status change is still to be saved or published, how its context is doing), the record on
   disk, and the history of what happened. Labels are the engine's own work, a save, a failed save, a
   publication, one call of an Action or a Compensate with any answer, the end of the context, a crash,
   and a resumption. `Replay` runs any sequence of labels. A *life* is a replay from creation.
   A crash in the middle of a call into an Action, a Compensate or the store is that call's label followed
   by a crash: nothing ever looks at the answer. The theorems in `RecordShape`, `Progress`, `History`,
   `Events`, `Announcements`, `Bookkeeping`, `Accounts`, `Rollback`, `AtMostOnce`, `RetryLoop`, `Failures`,
   `Causes`, `CurrentStep`, `Transparency`, `Termination`, `Completion`, `Leftovers` and `LeftCurrent` are
   about every life.
2. **The code** (`Engine`, `Runs`, `Recovery`, `Executions`, `MemoryStore`, `Scans`, `Retry`, `States`).
   Classes and methods follow the Go functions: they assign fields of a live `Execution`, loop, save
   clones into the `Store`, renew and release leases, and call out to an environment that may answer
   anything. What it will answer is fixed beforehand, as a `Fate` (`Environments`): what the clock shows at
   each reading, which store calls fail, which new names come up, what each call of an Action or a Compensate
   returns for its key and data and which Actions overrun, what each look at the context finds, and the draws
   of the jitter. So premises such as "no store call fails from here on" or "no lease keeps a new name out"
   are about inputs, and results such as a refused lease are told from them exactly. Longer Go functions are
   split into several methods at their branches. A `RunState` carries
   along, as ghost state, the labels it has gone through and the machine they lead to. Its invariant says
   that replaying the labels gives exactly that machine, that the machine's copy of the record is the live
   execution, that the store holds what the machine has on disk as soon as this run has saved and is
   untouched before, and that what Actions, Compensates and the publisher have seen, with keys and data and
   in order, is what the machine's history says. So what a run of the code does is what the machine does,
   and the Go code's two panics and all its index expressions are shown unreachable or in range on the way.
   Across runs, `Execute` hands out the life it led, and `Recover` is given the lives behind the stored
   records and hands them back carried on: each new life is the old one, the handover to a new process,
   and that process's labels, and what the outside has seen of it grows by exactly what it saw of this
   recovery. So the theorems about lives are about the calls and events that were really made, over any
   number of processes (`LivedRecords`, `Recovery.SoundStoresKeepOrder`). Where the environment answers by
   operation and data alone, each run of the code is a faithful run of the machine (`Worlds`), and crash
   transparency is about what `Execute` and `Recover` leave in the store.

`Cluster` puts any number of workers on one execution, interleaving listing, acquiring, driving,
renewing, storing, crashing, releasing and the clock, and shows that under the premises below each
such run is one life of a single process.

## Premises

- **Matching steps.** A record has the steps of its definition, in order, as `execute.go:212` and
  `execute.go:222` take for granted. Everything created by `Execute` has.
- **Fresh snapshot.** The copy that `resume` is given equals the stored record when the lease is taken.
  `Recover` lists first (`recovery.go:125`) and `resume` acquires later without reading again
  (`execute.go:145`), so with several workers the code does not ensure this. `Runs.Resume` is modelled
  for stale copies too; what is lost without the premise is in `Premises`: whatever a worker with an
  older copy does first, what it then saves is a legal successor of the stored record if and only if the
  copy still had the stored statuses (`Premises.FirstSaveIsLegalIffFresh`), and
  `Premises.StaleSnapshotOverwritesTerminal` is a run in which RUNNING overwrites COMPLETED.
- **Timely renewal.** The lease duration is positive and the clock does not pass the end of a driver's
  lease. Exactly then does a tick keep drivers exclusive (`Premises.TickKeepsExclusionIffTimely`), and
  whenever it does not, a newcomer can become a second driver (`Premises.LapseAdmitsTwoDrivers`). The
  README of the library, lines 208-210, concedes this one.
- **Failed saves write nothing, and a context ends at most once**, with a fixed cause: the saga's own
  timeout, or something outside.
- **One worker at a time in the engine's methods.** While one of them runs, nobody else touches the store or
  its leases. Other workers are in `Cluster`, and what they left before, such as an unexpired lease, is in
  the store that `Execute`, `Resume` and `Recover` are given.
- **Fresh IDs.** A new execution's ID is not in the store yet.

## Where the code differs from its documentation, and what is false of it

- The library's documentation says that a lease makes resuming exclusive (README lines 168 and 184).
  That does not protect a terminal record from a worker whose listing went stale, see above.
- `exponentialBackoffPolicy.Delay` doubles in 64 bits. It is min(base * 2^(attempt-2), maxDelay) for
  every attempt exactly if no doubling below the cap reaches 2^62; otherwise some delay is negative, so
  the next attempt is immediate (`Retry.BackoffIsCappedDoublingIff`, `Retry.OverflowGoesNegative`).
- Operation keys collide exactly if some step is named like another step followed by `/compensate`
  (`OperationKeys.KeysIdentifyOperationsIff`); the builder does not refuse such names.
- A finished saga can keep a RUNNING step: one found RUNNING by a resume whose context ends before the
  step's turn (`execute.go:214-217`). `LeftoverLives.FinishedWithRunningStep` is such a life of any saga
  with a step. A resume that came to its end leaves a step RUNNING if and only if it found it so and
  either the forward run was over already or the context had ended at the step's turn in the loop
  (`LeftRunning.RunLeavesRunningIff`); with recoveries that skip in-flight steps, or without a context
  that ends, it never happens (`Leftovers.CarefulLivesLeaveNothingInFlight`).
- A finished saga can keep its `CurrentStep`: a resume that ends an unfinished execution clears it, except
  exactly when it found the first step FAILED before the abort was recorded (`execute.go:196-200`,
  `LeftCurrent.RunLeavesCurrentStepIff`); the name that stays is that step's, and the stored error is
  wrapped once more (`LeftoverLives.FinishedWithCurrentStep`). The equality of ends in `Transparency` is
  therefore about the status, the step statuses and outputs and the output, not about error texts,
  `CurrentStep` or timestamps.
- Resuming a record that is already terminal returns no error, whatever its status, and does nothing else
  (`execute.go:169-170`, `Causes.ResultIsStored`).

## Model

| member | source | states |
|---|---|---|
| RecordShape.LivesHaveShape | execute.go:195-255 | every record ever on disk, over all lives, has the shape (passed steps, then at most one RUNNING or FAILED, then PENDING; COMPENSATING and its two ends imply a proper non-empty prefix, undone from the top down), and no process ever reaches a panic |
| RecordShape.SaveKeepsShape | execute.go:559-580 | each successful save stores a record exactly one legal status edge after the one it replaces |
| RecordShape.FromAbortKeeps | execute.go:390-404 | an abort leaves a record of the shape of its new status, with the abort's index as the cut between passed and other steps |
| Progress.RunsOnlyAdvance | execute.go:559-603 | any run from a sound record ends at a later one, statuses only moving along the tables, and makes exactly as many saves as the rank rose |
| Progress.LifeSavesAreBounded | execute.go:100-104 | over a whole life with any crashes, an execution of n steps is saved at most 4n+2 times, its creation included (5 times for n = 1, 3 for n = 0), and the number of saves is read off the statuses on disk |
| Completion.BoundIsReached | execute.go:498-540 | for every n some life of an n-step saga is saved exactly as often as that bound allows |
| Progress.TerminalIsFinal | execute.go:168-170 | no run from a terminal record changes it |
| Progress.StaleSaveIsLegalIffFresh | execute.go:140-155 | a process that works from an earlier record saves a legal successor of the present one if and only if both have the same statuses |
| History.LivesAreOrdered | execute.go:212-247 | over a whole life Action indices never fall, Compensate indices never rise, no Action follows a Compensate; every call comes after the save of RUNNING or COMPENSATING that announces it; no status change is saved twice; each Action got the input or the stored output of the step before, each Compensate the stored output of its step |
| AtMostOnce.CautiousLivesRepeatNothing | recovery.go:147-150 | if every resumption finds nothing in flight, each Compensate is called at most once and each retry loop is entered at most once over the whole life |
| LivedRecords.CautiousLedLivesRepeatNothing | recovery.go:147-150 | the life that an execution led through any number of recoveries under RecoverSkipInFlight has no Compensate twice and no retry loop entered twice |
| LivedRecords.CautiousCompensatesOnce | recovery.go:161-168 | so for distinct step names the outside saw no Compensate call twice under the same key, over the execution and all those recoveries |
| LivedRecords.LedLivesKeepOrder | execute.go:195-255 | the life that an execution led through any number of processes has its calls ordered and announced and its retries allowed, and the events that the outside saw are its published stream, a subsequence of the image of its saves and true of its record |
| Rollback.BoundaryIsTheAbort | execute.go:421-433 | for every COMPENSATING record, however much was undone, skipped or is in flight, the index reconstructed from the statuses is the one of the abort that began the rollback |
| Rollback.RollbackIsComplete | execute.go:498-540 | on COMPENSATED or COMPENSATION_FAILED every step below that index with a Compensate was called with its own output and its recorded status is what the call returned, steps without one are still SUCCEEDED, nothing else was compensated, and the verdict is COMPENSATION_FAILED exactly if some step is, whichever process recorded it |
| Bookkeeping.LivesAreTidy | execute.go:222-251 | on every record ever on disk a PENDING or RUNNING step has 0 attempts, a passed one between 1 and max(1, MaxAttempts); timestamps are set exactly as far as the statuses got; the output is set only on COMPLETED and is then the last step's, or the input |
| Accounts.LivesAccountForCalls | execute.go:282-292 | over all lives a stored attempt count never exceeds the calls of the Action really made; for a step that is not RUNNING the two are equal if and only if no process was gone before it saved the outcome of a call it had made, hence always without a resumption; in general they are equal exactly if in addition no call of a RUNNING step awaits its outcome |
| RetryLoop.LivesRetryOnlyWhenAllowed | execute.go:282-314 | over a whole life attempt numbers stay within the policy's limit, and an attempt after the first directly follows a failed one that was not marked non-retryable |
| Failures.LivesFailForAReason | execute.go:282-314 | over all lives, the error stored with a FAILED step is the saga's timeout (only if there is one), a cancellation, or a step error around what the very last Action call, of this step, returned; and then that error must not be retried or its attempt number is exactly max(1, limit), the limit being that of the step's own policy if it has one and of the saga's otherwise |
| Causes.LivesNoteTheCause | execute.go:390-404 | over all lives, a stored record has an error exactly if the execution was given up, and it is the error of the step that failed (its stored text, as a step error, if a later process found it), or the timeout or cancellation if no step failed |
| Causes.ResultIsStored | execute.go:168-181 | a resume that came to its end returns no error for a finished record, of which it leaves everything as it was, no error on COMPLETED, and else the stored error, marked exactly if compensation failed; a rollback taken over returns the text stored when it was begun |
| CurrentStep.LivesNameTheCurrentStep | execute.go:222-233 | over all lives CurrentStep is empty on a PENDING record, names the step begun last on a RUNNING one, and on a COMPENSATING one the step whose compensation was begun last |
| Events.LivesPublish | execute.go:559-580 | the published events are a subsequence of the image of the saved status changes, each right after its save, none twice; a life without resumption publishes exactly that image |
| Announcements.EventsTellTheTruth | events.go:81-115 | over all lives, in terms of the kinds of events: a published event directly follows the save of the status change it is about and is true of the record on disk (SAGA_COMPLETED of COMPLETED only, SAGA_FAILED of the three unsuccessful ends only, each step event of steps that got to its status), and what was saved stands for exactly the events that are true of the record |
| Announcements.UncrashedLivesTellAll | events.go:81-115 | an uncrashed life that is over published exactly the events that are true of its record, SAGA_STARTED first, and last SAGA_COMPLETED if it completed and SAGA_FAILED otherwise |
| Transparency.CrashesAreTransparent | execute.go:140-255 | if operations answer by operation and input and the context never ends, any life, whatever crashes and failed saves it went through, that is terminal has the status, step statuses, step outputs and output of a recursive reference evaluation of the saga |
| Transparency.AllLivesEndAlike | execute.go:421-540 | two such lives, one of them say uncrashed, end alike |
| Completion.EveryLifeCanBeFinished | execute.go:140-181 | from wherever a life got to, a new process that nothing disturbs brings the execution to a terminal record, the reference's |
| Worlds.OnwardKeepsFaith | execute.go:140-181 | a run of the code from the record a life left behind carries that life on in the same world: what it was answered is what the world answers |
| Worlds.RunIsLedAsIn | execute.go:80-105 | an execution by the code in such an environment ends, if it ends, as the reference does |
| Recovery.FaithfulLivesEndAlike | recovery.go:124-155 | after a recovery every finished record whose life was one in the world the environment answers as has the reference's end, whatever crashes, failed saves and recoveries came before |
| Termination.NeverStuck | execute.go:140-181 | a process that is not done always has a next move, whatever its calls return |
| Termination.ResumeIsBounded | execute.go:195-314 | without a crash or a failed save a resume makes at most (4n+3)(3t+n+10) moves for n steps of at most t tries, however its context behaves |
| Termination.UndisturbedResumeEnds | execute.go:168-181 | such a resume comes to its end, and its end is a terminal record |
| Termination.ReturnedIsTerminal | execute.go:195-255 | a resume that returns otherwise than by a failed save left a terminal record on disk |
| Verdicts.ResultTellsStatus | execute.go:441-465 | a resume of an unfinished record returns no error exactly if the execution completed, a compensation failure exactly if that is the status, and else the context's cause, a step error or the stored message |
| Verdicts.ReturnsUndisturbed | execute.go:168-181 | a resume that returns otherwise than by a failed save returns no error of the store or its lease |
| Verdicts.RunContinuesLife | execute.go:140-181 | a run from the record a life left behind continues that life |
| Cluster.ClusterIsOneLife | store/memory/memory.go:85-106 | with any number of workers, fresh snapshots and timely renewal, every interleaving is one life of a single process, and two drivers at the same time are the same worker |
| Cluster.ClusterAdvancesLegally | execute.go:589-603 | under the same premises the stored record only moves along legal edges, one per save, and a terminal record is never overwritten |
| Cluster.LeavingTakesNothing | store/memory/memory.go:99-106 | from every state, exclusive or not, a worker that releases or dies leaves every lease of another owner, and whoever else drives or has listed, as they were |
| Cluster.LeaseIsSafe | store/memory/memory.go:85-106 | over every run of the cluster, however late or stale its workers: until the moment a lease was granted to, its owner holds it at least that long unless it releases it itself |
| Cluster.GrantsRunFromNow | execute.go:589-599 | a grant or renewal runs for the full duration from now; a refusal takes nothing, and a driver refused a renewal stops with the lock error |
| Premises.LapseAdmitsTwoDrivers | store/memory/memory.go:85-95 | from every exclusive state: if the clock passes the end of a driver's lease while the execution is unfinished, a newcomer lists it, acquires it with a fresh snapshot, and two workers drive |
| Premises.TickKeepsExclusionIffTimely | store/memory/memory.go:85-95 | a tick of the clock keeps drivers exclusive if and only if it passes no driver's lease end |
| Premises.SlowRenewalAdmitsTwoDrivers | store/memory/memory.go:85-95 | and such a state is reached by a run of the cluster with fresh snapshots only |
| Premises.FirstSaveIsLegalIffFresh | recovery.go:124-155 | from every state, whatever the others do short of saving: the first save of a worker that acquired with an older snapshot is a legal successor of the stored record if and only if the snapshot had the stored statuses |
| Premises.StaleSnapshotOverwritesTerminal | recovery.go:124-155 | a run of the cluster with timely renewals but a stale listing, in which COMPLETED is overwritten by RUNNING |
| LeftoverLives.FinishedWithRunningStep | execute.go:212-218 | of any saga with a step, a life that ends FAILED with the first step still RUNNING |
| LeftRunning.RunLeavesRunningIff | execute.go:212-247 | a resume that came to its end leaves a step RUNNING if and only if it found it RUNNING and either found the forward run over or came to the step's turn in the loop with its context ended |
| Leftovers.CarefulLivesLeaveNothingInFlight | recovery.go:147-150 | if every recovery skips in-flight steps, or if no context ever ends, no finished execution has a step in flight |
| LeftoverLives.FinishedWithCurrentStep | execute.go:195-200 | of any saga with a step, a life that ends FAILED with CurrentStep set and the stored error wrapped once more |
| LeftCurrent.RunLeavesCurrentStepIff | execute.go:195-255 | a resume that ended an unfinished execution left CurrentStep empty, except that it left the one it found exactly if it found a RUNNING record with the first step FAILED |
| OperationKeys.KeysIdentifyOperationsIff | idempotency.go:48-59 | for slash-free IDs and distinct step names, keys of different operations differ if and only if no step name is another one followed by "/compensate" |
| Values.NonRetryableIffMarked | errors.go:104-107 | an error is never retried if and only if some number of unwrappings shows the mark |
| Retry.BackoffDelay | retry.go:64-78 | the loop over wrapped 64-bit doublings stops at the first one that reaches the cap |
| Retry.BackoffIsCappedDoublingIff | retry.go:64-78 | every delay is min(base * 2^(attempt-2), maxDelay) if and only if no doubling below the cap reaches 2^62 |
| Retry.OverflowGoesNegative | retry.go:64-78 | otherwise some delay is negative |
| Retry.BackoffIsMonotone | retry.go:64-78 | with a cap of at most 2^62 delays never shrink from one attempt to the next |
| Retry.NoRetry | retry.go:29-36 | one attempt, no delay |
| Retry.FixedDelay | retry.go:49-54 | every delay is the given one; the attempts are kept if at least one, and one otherwise |
| Retry.ExponentialBackoff | retry.go:84-89 | every delay is the backoff of the given base and cap; the attempts are kept if at least one, and one otherwise |
| Retry.WithJitter | retry.go:116-124 | the policy below is kept, a fraction from 0 to 1 too, one below 0 stretches nothing and one above 1 stretches to twice; all layers stay between 0 and 1 |
| Retry.JitterSpreads | retry.go:98-110 | one layer moves a positive delay by the drawn share, between minus and plus the fraction, and truncates |
| Retry.DelayBefore | retry.go:64-110 | the delay a policy answers with before an attempt, through all its layers |
| Retry.JitterBound | retry.go:98-110 | nested jitter never turns a delay negative and stretches it by at most the product of 1 + fraction over the layers |
| Retry.TotalWaitBound | retry.go:98-124 | m attempts wait at most (m-1) times the stretched cap in all |
| Environments.WaitsAreBounded | execute.go:310-312 | what a retry loop asks of the timer in n waits is at most n times the stretched cap in all |
| States.LookUpStatus | transitions.go:8-23 | the scan of the table answers membership |
| States.LookUpStepStatus | transitions.go:30-46 | the scan of the table answers membership |
| Executions.Execution.constructor | execute.go:80-96 | a new execution is PENDING with all steps PENDING, the input and creation time given and nothing else set, and shares nothing |
| Executions.Execution.Clone | execution.go:60-73 | the clone is fresh, down to its steps, and equal as a record |
| Executions.Execution.Transition | execution.go:92-107 | the status, UpdatedAt, StartedAt (on RUNNING) and CompletedAt (on the four ends) change together, or nothing changes exactly if the tables forbid it |
| Executions.Execution.TransitionStep | step_execution.go:52-72 | the same for one step and each of its four timestamps, all other steps unchanged |
| MemoryStore.Store.Save | store/memory/memory.go:41-53 | refuses exactly a nil record or an empty ID, changing nothing; else stores a copy that shares nothing with the caller, under its ID only |
| MemoryStore.Store.Get | store/memory/memory.go:56-64 | a fresh copy of the record, exactly if there is one |
| MemoryStore.Store.ListIncomplete | store/memory/memory.go:67-77 | fresh separate copies of exactly the records that are not terminal, each once |
| MemoryStore.Store.NothingIncomplete | store/memory/memory.go:67-77 | the listing is empty once every record is terminal |
| MemoryStore.Store.Acquire | store/memory/memory.go:85-95 | granted exactly if there is no lease, it is the asker's, or it has expired; a grant runs for the duration from now, a refusal changes nothing, no other lease is touched |
| MemoryStore.Store.Release | store/memory/memory.go:99-106 | gives up the owner's own lease; a lease of somebody else stays, expired or not, and so do those on other executions |
| Engine.RunState.Renew | execute.go:589-599 | on a locking store: a fault exactly if the call fails, the lock error exactly if somebody else's unexpired lease keeps this run out, and else the lease is this run's for the full duration from now |
| Engine.RunState.Save | execute.go:589-603 | renews, then stores; what the store holds is what it held when the run began, with what this run saved last under the execution's ID; a success renewed the lease; a failure stores nothing, stops the run with that error, and means that a call of the store really failed |
| Engine.RunState.TransitionExec | execute.go:559-569 | the status change is never refused (no panic), and is saved, then published, as the machine does it |
| Engine.RunState.TransitionStep | execute.go:571-580 | the same for a step |
| Engine.RunState.NotifyExec | execute.go:622-634 | the publisher hears exactly the kind of event that belongs to the saved status, if any, about the saga |
| Engine.RunState.NotifyStep | execute.go:638-644 | the same for a step |
| Engine.RunState.CallAction | execute.go:327-345 | the Action is called under the lease, right after the context was seen not to have ended, with the step's own key and data and the attempt already counted; what it answers is passed on unless it came past the step's own timeout, which makes it a timeout error |
| Engine.RunState.RunStep | execute.go:282-314 | at most max(1, MaxAttempts) calls, and what the outside saw of the loop is exactly so many calls of the step's Action with the step's key and data; each is counted in Attempts and nothing else of the record changed; none if the context had ended; success never after the saga's own timeout, which alone takes a success back; an error is the timeout, the cancellation, or a step error around the last answer's error, and then that must not be retried or the calls number exactly max(1, limit) of the step's own policy, or the saga's if it has none; between calls the timer was asked for exactly that policy's delays; what follows is exactly the machine's next status change |
| Engine.RunState.Abort | execute.go:390-404 | ends FAILED or rolled back as the machine does, returning the original error wrapped exactly if compensation failed, or the error of the save that failed |
| Engine.RunState.ResumeCompensating | execute.go:421-433 | continues a rollback from the reconstructed index to the machine's end of it |
| Engine.RunState.Compensate | execute.go:498-540 | takes every step below the index through the undo loop from the top down, and its answer is whether none of them is recorded as failed |
| Engine.RunState.InvokeCompensate | execute.go:544-549 | the outside sees one call, of the Compensate under the compensation key of its step, with the step's output, and what it returns is what is passed on |
| Engine.RunState.ResumeRunning | execute.go:195-255 | from any RUNNING record to the end of the run, step for step as the machine, whatever the environment answers |
| Scans.ReconstructBoundary | execute.go:421-428 | finds one past the highest step that passed |
| Scans.SkipSucceeded | execute.go:202-210 | finds the first step that has not succeeded, and the data it starts from |
| Scans.FindFailed | execute.go:196-200 | finds the first FAILED step |
| Scans.HasSucceeded | execute.go:469-476 | tells whether some step below the index is SUCCEEDED |
| Scans.AllCompensated | execute.go:532-539 | tells whether none below the index is COMPENSATION_FAILED |
| Scans.FindInFlight | recovery.go:161-168 | tells whether some step is RUNNING or COMPENSATING |
| Runs.Resume | execute.go:140-181 | told from the old lease table and the clock: if somebody else's lease is unexpired, the lock error, nothing called, saved or published, and store and leases as they were; if asking for the lease fails, that fault and nothing else; otherwise the lease was granted first and is given up at the end, and from any copy of a sound record, up to date or not, this is a run of the machine: the result and the observations are the machine's, the store holds the last save under the ID if there was one and is unchanged otherwise, other records and leases are untouched; it comes to its end unless a store call fails |
| Runs.Execute | execute.go:80-105 | creates, saves and resumes; exactly if the first save fails nothing is stored, else the record stored is the one that the life so led left, what the outside saw is that life's, and if nothing disturbed the run the publisher heard exactly what is true of the record, SAGA_STARTED first and last SAGA_COMPLETED if and only if there is no error; it comes to its end if no store call fails and no lease is in the way, and where the environment answers by operation and data that is the reference's end |
| Runs.WholeRun | execute.go:80-105 | a whole uninterrupted run is a life, its result tells the stored status, and the publisher heard exactly the image of what was saved, from the start to the end that the result tells |
| Observations.ObservedEventsAreTheStream | events.go:81-115 | the events among everything the outside saw are the published stream |
| RecoveryOrder.AscendingIsUnique | recovery.go:130-135 | two sequences of the same keys, both ascending by creation time and ID, are equal |
| RecoveryOrder.BeforeIsTotal | recovery.go:130-135 | of two different keys exactly one comes first |
| RecoveryOrder.OlderComesFirst | recovery.go:130-135 | the older comes first, and of two created at the same time the one whose ID differs first by a smaller character or is a beginning of the other's |
| Recovery.RecoveryOrderIsUnique | recovery.go:124-135 | there is one order of processing for every order of listing |
| Recovery.RecoveryManager.Recover | recovery.go:124-155 | an error exactly if the listing fails; else one result per incomplete record, in that order; each record is reported unregistered or skipped and left alone with its life, or its life is carried on by one process, with exactly the calls and events that the outside saw, to a later record, finished with its stored error as the result unless the store failed or somebody else's unexpired lease was on it; no other record or life changes; if no store call fails and no lease on an incomplete record keeps a new name out, every record that may be resumed is finished; a finished record whose life was in the world the environment answers as has the reference's end |
| Recovery.SoundStoresKeepOrder | recovery.go:124-155 | of every execution of a registered saga in such a store, after any number of recoveries: its record is the end of its life, whose calls are ordered, announced and allowed, whose events are the ones heard and true of the record, and in which under RecoverSkipInFlight nothing was done twice |
| Recovery.ContinuesTwice | recovery.go:124-155 | what the outside saw of a life over two recoveries is what it saw of the first and then of the second |
| Recovery.RecoveryManager.RecoverOne | recovery.go:138-153 | the dispatch: unregistered, skipped exactly if the policy says so and a step is in flight, else resumed; a lock error only if somebody else's unexpired lease was there, a fault only if a store call failed |
| Recovery.RecoveryDrains | recovery.go:124-155 | told from inputs: where no store call fails and no lease on an incomplete record keeps a new name out, every record that may be resumed at all is finished |
| Recovery.AllDrained | recovery.go:124-155 | so with every saga registered under RecoverAutomatically no record at all is left incomplete |
| LivedRecords.RunKeepsLived | execute.go:120-181 | a resume carries on the very life behind the record it was given: its labels are the old ones, the handover and this run's, what the outside has seen of it grows by what it saw of this run, and its record is later; unless disturbed it is terminal as the result tells |

## Left out

- Logger, metrics, tracer and the recovery of a panicking publisher: they only observe.
- Real clocks, timers, goroutines, mutexes and the inside of `context`: the clock is read as any value (as a
  monotone count in `Cluster`), store operations are atomic, the context is an oracle that ends at most once.
- The race of a timer against the context in `sleepOrDone`: waiting either runs its course or finds the
  context ended. The delays asked of the timer are modelled, how long they take is not.
- Random IDs (taken as new and free of slashes) and floating-point rounding in jitter (ideal reals,
  truncated).
- Error texts, `errors.Is` and `errors.As`: errors are tags, and a stored error that is read back is `Message`.
- Why a store call fails, a context that has ended included: a failure may happen at any call.
- Options, the builder and its validation, the no-op store, and stores other than the in-memory one.
- The algorithm of `sort.Slice`: `Recovery.SortByAge` is an insertion sort, and any other gives the same result.
- Delays of policies written by callers: any value for any attempt.
- Several definitions with stores of their own: `Recovery` has one store for the listing and all sagas.
- Recovery.RecoveryManager.Recover: no other worker changes the store between the listing and a resume;
  `Cluster` and `Premises` are about that.
- Engine.RunState.NotifyExec: an event is its kind; its execution ID, saga name, error text and time are not
  modelled.
- Engine.RunState.NotifyStep: an event is its kind and step; the rest is not modelled.
