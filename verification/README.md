# TimeWeaver: execution protocol, modelled and proved

TimeWeaver is a scheduler agent and a coordinating server. The server keeps schedules, manual
runs and an execution log; the agent fetches snapshots, schedules the jobs they ask for, carries
out the details of a schedule sequence by sequence, and reports every result through an in-memory
outbox over HTTP. This project models the protocol between the two in Dafny 4.11 and proves what
it keeps over whole runs. `dafny verify dfyconfig.toml` checks all of it.

## How it is built

Code that the repository updates in place appears twice. A value-level state machine has one step
per lock section, transaction or handler; its invariants and the statements about whole runs are
lemmas. A class with the repository's own fields and loops refines it: every method equates its new
state with the machine's. Ghost fields hold only what a method does not look at, such as the logs
and the threads at work.

The files named `Answers`, `Steps`, `History` and `Contents` tie the machines down: they say what each
operation answers and changes, and since when a mark stands, on the rows, fields and events alone,
without the functions that the machines are made of.

| file | what it models |
|---|---|
| `Protocol.dfy`, `Snapshots.dfy` | values both ends exchange |
| `Outbox.dfy`, `OutboxHistory.dfy`, `OutboxObject.dfy` | the result outbox: slots, queues per execution group, drainers, retry timers, backlog latch |
| `ExecutionTables.dfy`, `ExecutionAnswers.dfy`, `ExecutionRepository.dfy` | the server's manual runs, execution log and running markers: claim, result, sweep |
| `Delivery.dfy` | outbox and server joined by a network that loses, repeats and reorders requests and replies |
| `Executor.dfy`, `ExecutorRuns.dfy`, `ExecutorGuarantees.dfy`, `ExecutorOwnership.dfy`, `ExecutorSteps.dfy`, `ExecutorObject.dfy` | execution contexts, sequences, slot reservation, acknowledgements |
| `EndToEnd.dfy`, `ErrorStopLost.dfy` | the executor joined with outbox, network and server, and one run in which an error stop is lost |
| `Reconcile.dfy`, `ReconcileObject.dfy` | the reconcile plan, the scheduler adapter, application with rollback |
| `OperatingState.dfy`, `Recovery.dfy`, `RecoveryObject.dfy`, `RecoverySteps.dfy` | the operating state, halting and recovering |
| `Sorting.dfy`, `Normalize.dfy`, `SnapshotContract.dfy`, `SnapshotContents.dfy` | snapshot normalisation, the agent's structural checks, the order in which details run |
| `TokenBucket.dfy` | the token bucket and its expiring store |
| `Identity.dfy`, `IdentityRepository.dfy` | enrollment tokens, devices, refresh credentials |
| `CredentialManager.dfy`, `CredentialChain.dfy`, `CredentialAnswers.dfy`, `SingleFlight.dfy` | the agent's credential file and memory, one agent against the server, many threads at once |

## Assumptions

- A call into the scheduler that throws has no effect; a one-shot job fires at most once; a
  cancelled timer may still fire.
- A database transaction is one step; the database clock never goes back. Fingerprints, digests and
  the text form of UUIDs are injective, and new tokens and context ids are new.
- Each acknowledgement handler of the executor is one step, and so is each request for the snapshot
  with the use of its reply.
- Clocks, network outcomes, failures and the choice among threads are parameters of the steps, so
  every statement about runs is about all of them. A patient timer is one that does not fire before
  the drainer that armed it has left its `finally` block.

## What the proofs brought to light

- A retry timer that fires before the drainer that armed it has left its `finally` block leads to
  two drainers of one group (`Outbox.EarlyTimerOverlaps` says exactly when). Order and delivery do not
  suffer, but one result can be acknowledged twice, exactly when a send is settled with its result no
  longer at the head (`Outbox.ReportedTwiceIff`), and a group can be missing from the sending set while
  its request is out, exactly when another drainer has left beside this one and none has started since
  (`Outbox.SendingUnmarkedIff`), which the wait in `close` relies on. `Outbox.HurriedTimerReportsTwice`
  shows both.
- A backlog report is dropped silently when the latch has fallen and counts as reported, and each such
  report leaves one rising edge without its event, and nothing else does
  (`Outbox.BacklogEventsAreRisingEdgesIff`, `Outbox.LateReportLosesAnEvent`).
- The executor keys completion by schedule alone. That is right while no result is acknowledged twice
  (`ExecutorRuns.AckAttribution`), which patient timers ensure (`EndToEnd.ToldOnce`); a repeated
  acknowledgement is harmless exactly when the schedule does not have the same detail outstanding in a
  later context (`ExecutorGuarantees.RepeatHarmlessIff`). Otherwise it ends that context early, and the
  next trigger loses a slot for good.
- A reply to a repeated result carries no transitions, so an error stop that the server has applied
  reaches the agent exactly when the reply that takes the result off its queue is the one the server gave
  when it recorded the result (`Delivery.AgentIsToldIff`, `Delivery.ErrorStopIsLostIff`). When it reaches
  the agent the context starts nothing more (`EndToEnd.ToldContextStartsNothing`); when it does not, the
  next sequence starts as if nothing had happened (`EndToEnd.NextSequenceStartsIff`), and
  `ErrorStopLost.StoppedScheduleGoesOn` is a run in which it does.
- When the scheduler throws while a sequence is registered, and only then, the schedule stays marked as
  running and ignores its triggers until the agent is started again (`ExecutorGuarantees.StuckIff`,
  `ExecutorGuarantees.StuckForEver`).
- A rolled-back reconciliation puts back every previous job, also one that an error stop had taken out
  of the scheduler, and dispatches every managed manual run again, also one that was in flight
  (`ReconcileObject.SyncCoordinator.RestoreJobs`). While its lease lasts the server refuses the second claim.
- After a failed restore the agent never executes again (`Recovery.RestoreFailureIsFinal`). That is what
  keeps a second defect harmless: a restore that fails while the agent is already halted leaves the old
  snapshot current without its jobs (`Recovery.ClearingLosesTheJobs`).
- An unknown device status degrades the agent for ever (`OperatingState.DegradingStandsSince`).
- Two threads that look for an access token can make one of them raise: it reads the expiry twice outside
  the lock, and a failed refresh may empty memory in between (`SingleFlight.RaisesIff`).
- A lost refresh reply strands the agent until it is enrolled anew (`CredentialChain.LostStrands`), and a
  lost enrollment reply uses up the enrollment token (`CredentialChain.LostEnrollmentIsSpent`).
- `agent/README.md:234` says that acknowledgements and applied transitions decide whether the next sequence
  continues. The code keeps that only for transitions whose first reply arrives; the model follows the code.

## Model

| member | source | states |
|---|---|---|
| Outbox.OutboxSafety | agent/services/time_weaver/outbox.py:248-472 | In every state that any interleaving of threads, timers and halts reaches: reserved plus queued slots stay within the capacity, the latch is on at the high mark and off below the low one, the counter is the sum of the queues, removed followed by queued is exactly what was enqueued, and an open group with waiting results has a live drainer, an armed timer or a pending schedule call, or was parked by a halt |
| Outbox.PickedIsNextInLine | agent/services/time_weaver/outbox.py:354-361 | Also when two drainers overlap, the item a drainer picks is the first not yet removed: every earlier result of its group is gone |
| Outbox.HeadOrGone | agent/services/time_weaver/outbox.py:437-446 | A picked item is either still the head of its queue or already removed, so removing by identity never takes another one |
| Outbox.OnlySettleRemoves | agent/services/time_weaver/outbox.py:373-398 | Only settling a send takes a result off the queue, and then it is the head, with its verdict logged |
| Outbox.CounterFollowsQueue | agent/services/time_weaver/outbox.py:437-446 | Whatever a drainer does, the counter of queued results changes by exactly the change of the queue's length |
| Outbox.UnhaltedScheduleUnparks | agent/services/time_weaver/outbox.py:332-343 | For one group in a state that the invariant allows: an un-halted schedule call for a waiting group leaves a live drainer or an armed timer |
| Outbox.WakeUnparks | agent/services/time_weaver/outbox.py:298-302 | In every run the schedule call that a wake makes for a waiting group stays pending until one is taken, and taken un-halted while the group still waits it leaves a live drainer or an armed timer: a wake reaches every parked group |
| Outbox.QuietMeansDelivered | agent/services/time_weaver/outbox.py:345-411 | When an open, never halted outbox has nothing under way for a group, all its results were removed in order and each was reported to the executor |
| Outbox.EarlyTimerOverlaps | agent/services/time_weaver/outbox.py:448-472 | From one drainer per group, a firing timer makes a second one beside the first if and only if the drainer that armed it has not left its finally block |
| Outbox.PatientRunsReportOnce | agent/services/time_weaver/outbox.py:399-411 | If no timer fires before its drainer has left, a group has at most one drainer, the set of sending groups is exact, and each removed result is reported exactly once, in order |
| Outbox.HurriedTimerDropsActive | agent/services/time_weaver/outbox.py:399-411 | A concrete run: the late finally block of a deferring drainer takes the group of the next drainer out of the active set |
| Outbox.HurriedTimerStartsTwo | agent/services/time_weaver/outbox.py:448-472 | The run goes on to two drainers that both send one result |
| Outbox.HurriedTimerReportsTwice | agent/services/time_weaver/outbox.py:498-505 | The run ends with one result removed once and acknowledged twice, and with no group counted as sending while a request is out |
| Outbox.ReportedTwiceIff | agent/services/time_weaver/outbox.py:437-446 | In every run a result is reported, or being reported, more than once if and only if some send of it was settled with the result no longer at the head of its queue; it is one report more for each such send |
| Outbox.SendingUnmarkedIff | agent/services/time_weaver/outbox.py:399-411 | In every run, while a drainer is past its start its group is missing from the set of sending groups if and only if another drainer of the group has left beside it and none has started since |
| Outbox.NoneSendingMeansIdle | agent/services/time_weaver/outbox.py:318-326 | With patient timers no drainer is past its start once no group counts as sending, which is what the wait of close looks for |
| Outbox.BacklogEventsAreRisingEdgesIff | agent/services/time_weaver/outbox.py:484-490 | In every run the rising edges of the latch exceed the events made and still to be made by exactly the number of reports dropped because the latch counted as reported; so they agree if and only if no report was dropped |
| Outbox.BacklogEventsAreRisingEdges | agent/services/time_weaver/outbox.py:474-496 | It is enough that the latch never falls while a report is under way: then every rising edge is reported once, and the latch counts as reported exactly when it is on with its report made |
| Outbox.PromptReportsBeforeFall | agent/services/time_weaver/outbox.py:248-262 | With each reservation and enqueue atomic the latch never falls while a report is under way |
| Outbox.LateReportLosesAnEvent | agent/services/time_weaver/outbox.py:283-289 | A concrete run of the failing side: a report that comes after the falling edge leaves the next rising edge without its event |
| OutboxHistory.LatchedIffHighSince | agent/services/time_weaver/outbox.py:474-482 | Hysteresis, over sizes and the latch alone: in every run the latch is on if and only if the slots in use reached the high mark at some state and were below the low mark at none since |
| OutboxHistory.LatchStep | agent/services/time_weaver/outbox.py:474-482 | One step leaves the latch on if and only if the size after it has reached the high mark, or the latch was on and the size is not below the low one |
| OutboxHistory.SlotsBalance | agent/services/time_weaver/outbox.py:248-291 | In every run the reserved slots are those taken less those given back or turned into results, the queued ones those queued less those taken off; a slot is taken if and only if the outbox is open and one is free |
| OutboxHistory.FlagsStandSince | agent/services/time_weaver/outbox.py:332-411 | In every run each mark of a group (active, sending, timed, parked) and the reported mark of the backlog stands if and only if one of the named steps set it and none of those that clear it came since |
| OutboxHistory.DrainerGoesOn | agent/services/time_weaver/outbox.py:345-411 | From every phase of a drainer, by open or closed, halted or not and what is queued: its next phase, what is sent or reported, and whether it calls for the group again when it leaves |
| OutboxHistory.CallsForGroup | agent/services/time_weaver/outbox.py:332-343 | A schedule call is used up whatever it finds, and starts a drainer if and only if it is un-halted and finds the group waiting, inactive and without a timer in the open outbox; an enqueue or a timer makes one call |
| OutboxHistory.CloseAndWake | agent/services/time_weaver/outbox.py:298-317 | A wake makes one call for each group with a waiting result and for no other; closing takes the timers out of the table; neither touches anything else |
| OutboxHistory.ClosedSendsNothing | agent/services/time_weaver/outbox.py:304-361 | Once closed the outbox stays closed, starts no drainer and picks no result in any later state of the run |
| OutboxHistory.ClosedIff | agent/services/time_weaver/outbox.py:304-317 | In every run the outbox is closed if and only if it was told to close |
| OutboxObject.ResultOutbox.constructor | agent/services/time_weaver/outbox.py:170-232 | An empty, open outbox |
| OutboxObject.ResultOutbox.UpdateBacklogLatch | agent/services/time_weaver/outbox.py:474-482 | A latch that is on goes off if and only if the size is below the low mark, one that is off goes on if and only if the size has reached the high mark, and the answer says whether it went on |
| OutboxObject.ResultOutbox.ReserveSlot | agent/services/time_weaver/outbox.py:248-262 | Takes a slot exactly when the outbox is open and has room; the new state is the machine's |
| OutboxObject.ResultOutbox.ReleaseSlot | agent/services/time_weaver/outbox.py:264-269 | Gives back one slot, or fails when none is reserved |
| OutboxObject.ResultOutbox.EmitBacklogOnce | agent/services/time_weaver/outbox.py:484-496 | Reports once per latch period |
| OutboxObject.ResultOutbox.Enqueue | agent/services/time_weaver/outbox.py:271-291 | Turns a reserved slot into the last item of its group's queue, or fails when none is reserved |
| OutboxObject.ResultOutbox.RemoveHead | agent/services/time_weaver/outbox.py:437-446 | Removes the head only if it is the very item that was sent; counter, queue and latch follow |
| OutboxObject.ResultOutbox.ScheduleGroup | agent/services/time_weaver/outbox.py:332-343 | Submits a drainer unless closed, halted, active, timed or empty; the new state is the machine's |
| OutboxObject.ResultOutbox.DrainStart | agent/services/time_weaver/outbox.py:345-352 | A drainer of a closed outbox leaves at once, another one counts as sending |
| OutboxObject.ResultOutbox.DrainPick | agent/services/time_weaver/outbox.py:354-361 | The head of the queue, or nothing when closed, halted or empty |
| OutboxObject.ResultOutbox.DeferGroup | agent/services/time_weaver/outbox.py:448-467 | The group is inactive and has a new timer; its drainer is still there |
| OutboxObject.ResultOutbox.DrainFinish | agent/services/time_weaver/outbox.py:399-411 | Drops both marks of the group and calls for it again exactly when it waits without a timer in an open, un-halted outbox |
| OutboxObject.ResultOutbox.RetryGroup | agent/services/time_weaver/outbox.py:469-472 | The timer is gone and a schedule call is pending |
| OutboxObject.ResultOutbox.Wake | agent/services/time_weaver/outbox.py:298-302 | Calls for exactly the groups with a waiting result |
| OutboxObject.ResultOutbox.Close | agent/services/time_weaver/outbox.py:304-317 | Closed, with every timer cancelled; with a wait it tells whether no group counted as sending when it ended |
| OutboxObject.ResultOutbox.DrainGroup | agent/services/time_weaver/outbox.py:345-411 | One drainer task among other threads: some run of the machine leads from the old state to the new one in which this drainer takes exactly the steps of its script in order (start, turns of which only the last may find nothing, finish), and other threads any others |
| OutboxObject.ResultOutbox.DrainOnce | agent/services/time_weaver/outbox.py:354-398 | One turn among other threads takes exactly a pick and, if it found something, the steps that the outcome of the request asks for; it ends ready for the next turn, or leaving or deferred |
| ExecutionTables.LeaseMachine | server/repositories/agent_execution.py:322-405 | Over every run of claims, results and sweeps with a monotone clock: a manual run is processing exactly when it has a token and an expiry, it has at most one log row ever, it is done if and only if that row's code is zero and failed if and only if it is not |
| ExecutionTables.FinishedIsFinal | server/repositories/agent_execution.py:340-350 | A manual run that is done or failed stays so in every later state |
| ExecutionTables.LeaseIsHeld | server/repositories/agent_execution.py:172-202 | Until it expires a lease keeps its token and its expiry in every run: no claim, no sweep and no result without that very token ends it |
| ExecutionTables.OnlyTheHolderRecords | server/repositories/agent_execution.py:334-349 | While a lease is live a new result of its run is recorded with the lease's token and refused with any other |
| ExecutionTables.TransitionsAreTheChanges | server/repositories/agent_execution.py:387-431 | The transitions in a reply are exactly the status changes that the transaction made, and no other status changes; an error of the group is reported if and only if the key had no row, the task is regular, its code is not zero and the group stops on errors |
| ExecutionTables.ReplayIsNoOp | server/repositories/agent_execution.py:315-320 | In any run, an accepted payload submitted again at any later time while the device owns the detail returns the same id without transitions and changes only the running marker |
| ExecutionTables.ConflictIsRejected | server/repositories/agent_execution.py:459-462 | Another payload under a recorded key is rejected with no change |
| ExecutionTables.SubmittedCanBeReplayed | server/services/agent/execution_service.py:99-145 | Behind the service, which cuts times to whole seconds first, every accepted result can be submitted again, also after its lease is over |
| ExecutionTables.ReplayNeedsWholeSeconds | server/repositories/agent_execution.py:72-81 | Without the cut, a new result could be submitted again if and only if both its times are whole seconds |
| ExecutionTables.AcceptedIsLogged | server/repositories/agent_execution.py:351-385 | After acceptance the log holds a row with the payload's key and content under the id returned |
| ExecutionTables.LogOnlyGrows | server/repositories/agent_execution.py:351-372 | Rows of the log are never changed or dropped in any run |
| ExecutionTables.ClaimableIsWinnable | server/repositories/agent_execution.py:172-202 | A claim by the run's own device wins if and only if the run waits or its lease is over; a refused claim changes nothing |
| ExecutionTables.AbandonKeepsLeaseIff | server/res/sql/sqloader/mysql/time_weaver.json:51 | The dashboard's abandon statement keeps the lease machine's invariant if and only if the run had already failed |
| ExecutionAnswers.ClaimAnswers | server/repositories/agent_execution.py:110-204 | A claim is answered by the rows: not found if and only if the run, its detail or its group is missing, the detail is deleted or the group is another device's; won if and only if none of that and the run waits or its lease is over, with the reply's token and an expiry of thirty minutes in the row and nothing else changed; taken otherwise, with no change |
| ExecutionAnswers.MalformedAnswers | server/services/agent/execution_service.py:99-145 | A result without its own key as header, with a token and no run or a run and no token, or that ends before it starts is an invalid request; one of no detail of the device's schedules is not found; neither changes anything |
| ExecutionAnswers.RepeatAnswers | server/repositories/agent_execution.py:315-320 | A key that has a row gets the row's id as a duplicate when schedule, run, times, code, message and environment are the same, losing only the running marker, and is an invalid request without any change otherwise |
| ExecutionAnswers.FirstAnswers | server/repositories/agent_execution.py:322-350 | A key without a row is recorded under the next id if and only if the task is regular, or its run exists with this detail, is processing and still leased under this token; the two refusals are told apart by the run's row |
| ExecutionAnswers.RecordedRow | server/repositories/agent_execution.py:351-372 | A newly recorded result is one more row with its key and content under the next id, after all that were there |
| ExecutionAnswers.RecordedChanges | server/repositories/agent_execution.py:381-431 | What else a recorded result changes: its running marker goes, and at most one of the run's end, the group's error and the detail's error is set, by code and error-stop marks, with the transition that says so |
| ExecutionAnswers.RowIsNearest | server/repositories/agent_execution.py:351-372 | Any payload's row has its own key and content under the next id, with both times at the nearest whole second |
| ExecutionAnswers.CutIsFloor | server/services/agent/execution_service.py:31-37 | The service cuts a time to the last whole second |
| ExecutionAnswers.StartAnswers | server/repositories/agent_execution.py:206-271 | A start sets the marker of an undeleted detail of the device's own schedule, and changes nothing otherwise |
| ExecutionAnswers.SweepAnswers | server/repositories/agent_execution.py:496-533 | A sweep returns to waiting, without token and expiry, those of the selected runs that are processing with an expiry not after now, and leaves every other row as it is |
| ExecutionRepository.AgentExecutionRepository.ReadClock | server/repositories/agent_execution.py:172 | The clock never goes back |
| ExecutionRepository.AgentExecutionRepository.ClaimManualRun | server/repositories/agent_execution.py:110-204 | The claim of the tables, at a clock not before the last one: won if and only if the run, its undeleted detail and its group with this very device exist and the run waits or its lease is over; the row then holds the token and the expiry of the reply |
| ExecutionRepository.AgentExecutionRepository.FindResult | server/repositories/agent_execution.py:443-456 | The row with this key, or none |
| ExecutionRepository.AgentExecutionRepository.AcceptResult | server/repositories/agent_execution.py:273-433 | The acceptance of the tables: refusals change nothing, a duplicate only the running marker |
| ExecutionRepository.AgentExecutionRepository.InsertResult | server/repositories/agent_execution.py:351-431 | Inserts the row, clears the running marker and applies at most one status change |
| ExecutionRepository.AgentExecutionRepository.SelectExpired | server/repositories/agent_execution.py:503-515 | The first expired rows by expiry and id, as many as the limit allows and there are |
| ExecutionRepository.AgentExecutionRepository.SweepExpiredClaims | server/repositories/agent_execution.py:496-533 | For any table and any batch size of at least one: it ends, returns exactly the number of claims that were expired at its last clock and resets exactly those; none is left, and no live lease is touched |
| Delivery.ExactlyOnce | server/repositories/agent_execution.py:315-381 | End to end, for every interleaving of sends, lost or repeated requests, lost replies and retries over any number of groups: a key has at most one row; a result that left its queue has its row, or an attempt failed for good; the rows of acknowledged results follow their group's order |
| Delivery.LeavesQueueForCause | agent/services/time_weaver/outbox.py:373-398 | A result leaves only from the head of its queue, and only because its row exists or its failure is final; FailureOutcome says which failures are |
| Delivery.FailedRequestOutcome | agent/services/time_weaver/outbox.py:373-435 | In every run, at every failed request: the drainer gives up if and only if the device is inactive, or authentication failed and delivery is halted; it takes the result off as refused if and only if the failure is neither of these two kinds and is a client rejection, a schema mismatch, one of the four permanent codes, or none of the retryable kinds and codes; and it defers with a timer otherwise |
| Delivery.FailureOutcome | agent/services/time_weaver/outbox.py:413-435 | The three outcomes of a failure by its kind and code alone, and the code that a rejection is reported with |
| Delivery.RepliedRequestOutcome | agent/services/time_weaver/outbox.py:373-398 | In every run, at every delivered reply: a recorded result comes off its queue with the reply's transitions, an unavailable server defers it, and every other refusal takes it off with its own code |
| Delivery.RefusalsAreFinal | agent/services/time_weaver/outbox.py:413-435 | The server's refusals are all classified as final, except that it is unavailable |
| Delivery.LostReplySilencesErrorStop | server/repositories/agent_execution.py:459-462 | From any state of the invariant in which a request stops its schedule: the repeated request is answered without transitions, and that answer may be the one delivered |
| Delivery.AgentIsToldIff | server/repositories/agent_execution.py:398-431 | In every run, at every step that takes a result off its queue: the verdict reports an error of the schedule if and only if the reply delivered was given by the step that found no row for the key, for a regular result with a code other than zero in a group that stops on errors |
| Delivery.ErrorStopIsLostIff | server/repositories/agent_execution.py:443-462 | When a step has stopped the schedule because of the result, the verdict with which that result leaves its queue is silent about it if and only if it is not that step's own reply |
| Delivery.ToldByTheRecordingReplyOnly | server/repositories/agent_execution.py:387-431 | A delivered reply brings the status change of the step that recorded its result if it is that step's reply, and no transitions otherwise |
| Delivery.RecordedOnce | server/repositories/agent_execution.py:315-320 | In every run at most one step records a result |
| Delivery.NewsIsOwn | server/repositories/agent_execution.py:387-431 | In every run the transitions a drainer reports name the schedule, the detail or the manual run of its own result and no other |
| ExecutorRuns.SlotConservation | agent/services/time_weaver/app.py:218-272 | In every run reserved slots are exactly the registered or running jobs that have not reported, on every path, and stay within the capacity with the queued ones; a reporting job always finds its slot |
| ExecutorRuns.AckAttribution | agent/services/time_weaver/app.py:455-519 | A live job belongs to its schedule's current context and last started sequence, so completion by schedule id credits the right context; a schedule is marked as running exactly while it has a live job, or for ever once the scheduler has thrown |
| ExecutorGuarantees.SequenceBarrier | agent/services/time_weaver/app.py:498-519 | When a job is registered, every job its context registered before is of a smaller sequence and another detail, and has been acknowledged or rejected |
| ExecutorGuarantees.NoStartAfterStop | agent/services/time_weaver/app.py:483-511 | Once a context is marked to stop it starts no sequence again, in any continuation of the run |
| ExecutorGuarantees.ExcludedNeverRuns | agent/services/time_weaver/app.py:576-592 | A detail that is out of a context's sequences is not registered again in that context |
| ExecutorGuarantees.AckShrinks | agent/services/time_weaver/app.py:464-477 | After an acknowledgement no detail that its transitions exclude is left in any sequence of the context, and nothing is added |
| ExecutorGuarantees.ContextsTerminate | agent/services/time_weaver/app.py:498-519 | For one step from a state of the invariant: a first acknowledgement or a rejection makes (sequences to start, details outstanding) lexicographically smaller, and no other step changes that pair while the context lasts |
| ExecutorGuarantees.ResultsAreBounded | agent/services/time_weaver/app.py:498-519 | From any point of any run on, while a context lasts it takes in at most as many results as it has details still to be registered or to be answered |
| ExecutorGuarantees.CrossesIff | agent/services/time_weaver/app.py:498-519 | An acknowledgement starts another sequence if and only if it closes its own, nothing stops the context, the smallest sequence ahead has details, all of them get a slot and the scheduler takes them; that whole sequence is what starts |
| ExecutorGuarantees.CompleteUnlessStopped | agent/services/time_weaver/app.py:174-202 | With the server's transitions, a context that came to rest without a stop mark registered every detail of its plan and had each acknowledged |
| ExecutorGuarantees.StuckForEver | agent/services/time_weaver/app.py:260-271 | A schedule at which the scheduler threw keeps that context marked as running for ever and starts nothing again |
| ExecutorGuarantees.StuckIff | agent/services/time_weaver/app.py:260-271 | In every run a schedule is stuck if and only if an earlier trigger or acknowledgement came to register a sequence, with details and with slots for all, and the scheduler threw at one of them |
| ExecutorGuarantees.ThrowSticks | agent/services/time_weaver/app.py:198-201 | A concrete run: the scheduler refuses the one task of a trigger, and the next trigger does nothing |
| ExecutorSteps.TriggerIgnored | agent/services/time_weaver/app.py:168-185 | A trigger changes nothing when execution is not allowed, the schedule is running or has no details |
| ExecutorSteps.TriggerOpensContext | agent/services/time_weaver/app.py:174-202 | Any other trigger gives the schedule a new context that plans all its details, each under its sequence and in their order, and puts exactly the smallest sequence through the executor |
| ExecutorSteps.SequenceStarts | agent/services/time_weaver/app.py:205-256 | In any state a sequence with slots for all its details starts whole when the scheduler takes them: one slot and one job a detail under the context's id, jobs of the same name replaced, and nothing else changed |
| ExecutorSteps.SequenceRefused | agent/services/time_weaver/app.py:218-226 | Without slots for all, no slot and no job is taken, and the context is marked to stop and over |
| ExecutorSteps.SequenceHangs | agent/services/time_weaver/app.py:257-271 | When the scheduler throws, the jobs it took go with the slots and the list, and the context is to stop but stays marked as running |
| ExecutorSteps.SequenceEmpty | agent/services/time_weaver/app.py:205-216 | A sequence without details left ends the context, without a stop mark |
| ExecutorSteps.PlanInOrder | agent/services/time_weaver/app.py:181-183 | A plan has exactly the sequences that the details have, and under each one its details in the order of the list |
| ExecutorSteps.AckEffect | agent/services/time_weaver/app.py:455-519 | An acknowledgement takes its detail off the list, after the transitions; while others are left that is all, with the last one the context is over when it is to stop or has nothing ahead, and otherwise the smallest planned sequence not started goes through the executor |
| ExecutorSteps.TransitionsMean | agent/services/time_weaver/app.py:464-477 | Transitions mark the context if and only if one reports an error of the group, and take out of its sequences exactly the details that one reports in error; plan and id stay |
| ExecutorSteps.RejectionEffect | agent/services/time_weaver/app.py:483-511 | A rejection marks the context to stop and takes the detail off the list, and with the last one the context is over; no other schedule and no job changes |
| ExecutorSteps.ManualAnswered | agent/services/time_weaver/app.py:455-490 | The answer to a manual run's result takes away that run's status and nothing else |
| ExecutorSteps.DispatchEffect | agent/services/time_weaver/app.py:275-370 | A dispatch registers exactly the task of this run, schedule, detail and token, takes one slot and sets the run's mark and status if and only if it is ready, the run is not in flight and is in the snapshot, a slot is free and the claim is won; otherwise slots, jobs, threads and registrations are as before, and only a dispatch that is not ready takes the run's mark away |
| ExecutorSteps.EnvelopeRoundTrip | agent/services/time_weaver/app.py:433-448 | From a queued result its task and its outcome can be read back, and its key is context, detail and the first attempt |
| ExecutorSteps.SettlesOne | agent/services/time_weaver/app.py:498-508 | One answer takes one entry off the list, also when a detail is listed twice |
| ExecutorSteps.FireAndReportEffect | agent/services/time_weaver/app.py:373-448 | A task that fires leaves the scheduler and has its schedule marked as running; one that is over turns its slot into a queued result |
| ExecutorSteps.MarkEffect | agent/services/time_weaver/app.py:601-610 | A call for marks marks the contexts of exactly the schedules it names |
| ExecutorSteps.NamesAreUnique | agent/services/time_weaver/app.py:236-256 | In every run, results acknowledged twice or not, the scheduler holds at most one task for a schedule, a detail and a sequence |
| ExecutorGuarantees.RepeatHarmlessIff | agent/services/time_weaver/app.py:498-515 | A second acknowledgement of one result, whatever its transitions, keeps the executor consistent if and only if the schedule does not have that very detail outstanding; then it changes only the marks its transitions set; within the result's own context it never has |
| ExecutorGuarantees.RepeatCreditsAnotherContext | agent/services/time_weaver/app.py:498-515 | A concrete run: a repeated acknowledgement ends the next context while its job is still registered |
| ExecutorGuarantees.RepeatLosesASlot | agent/services/time_weaver/app.py:228-255 | The run goes on: the next trigger replaces that job and its slot is lost for good |
| ExecutorOwnership.RunIsOwned | agent/services/time_weaver/app.py:187-194 | In every run a context id belongs to one schedule, or to one manual task, and a detail is registered at most once in a context |
| ExecutorOwnership.KeysNeverCollide | agent/services/time_weaver/app.py:433-448 | In every run two registered tasks make the same idempotency key if and only if they are the same task |
| EndToEnd.RunIsJoint | agent/services/time_weaver/app.py:433-448 | Executor, outbox, network and server as one machine: in every run with patient timers each queued result is that of one registered task that has reported, the executor waits for exactly those it was not told of, a row of one of the agent's contexts is of a queued result, and an answered task of an unmarked context has its row |
| EndToEnd.ToldOnce | agent/services/time_weaver/outbox.py:498-505 | The executor's part of every such run is a run of the executor in which every result is acknowledged or rejected once, so every statement about those runs holds here |
| EndToEnd.KeysAreFresh | agent/services/time_weaver/app.py:433-448 | The rest of every such run is a run of outbox, network and server in which every result is queued under a key no one used before, so every statement about those runs holds here |
| EndToEnd.RowsBeforeNextSequence | agent/services/time_weaver/app.py:498-519 | When a job is registered, every job its context registered before is of a smaller sequence and has its row in the server's log |
| EndToEnd.CompleteMeansRecorded | agent/services/time_weaver/app.py:174-202 | In every run a context that has come to rest without a stop mark has a row in the server's log for every detail of its plan |
| EndToEnd.ToldContextStartsNothing | agent/services/time_weaver/app.py:464-477 | When the transitions of an acknowledgement report an error of the group, the context starts no sequence in any later state of the run |
| EndToEnd.NextSequenceStartsIff | agent/services/time_weaver/app.py:498-519 | An acknowledgement that a drainer reports starts the next sequence if and only if it is the last one outstanding, the context has no stop mark, no transition reports an error of the group, and the sequence has details, slots and a scheduler that takes them |
| ErrorStopLost.StoppedScheduleGoesOn | server/repositories/agent_execution.py:459-462 | A concrete run from the start: the server stops the schedule because of a result, that reply is lost, the repeated request is answered without transitions, and the next sequence's job is registered |
| ErrorStopLost.ErrorStopIsLost | server/repositories/agent_execution.py:459-462 | The same of outbox, network and server alone: the one result has left its queue acknowledged without the error that the server holds |
| ExecutorObject.TaskExecutor.constructor | agent/services/time_weaver/app.py:63-72 | No context, job or slot |
| ExecutorObject.TaskExecutor.ReserveAll | agent/services/time_weaver/app.py:218-226 | Takes all the slots or none |
| ExecutorObject.TaskExecutor.RegisterTasks | agent/services/time_weaver/app.py:232-256 | Registers up to the point where the scheduler throws; a job with the same id is replaced |
| ExecutorObject.TaskExecutor.Undo | agent/services/time_weaver/app.py:260-271 | Takes back the jobs, the slots and the completion list, and marks the context to stop |
| ExecutorObject.TaskExecutor.ExecuteNextTask | agent/services/time_weaver/app.py:205-272 | Reserves and registers the whole sequence, or changes nothing but the stop mark |
| ExecutorObject.TaskExecutor.GroupBySequence | agent/services/time_weaver/app.py:181-183 | The details of each sequence, in their order |
| ExecutorObject.TaskExecutor.StartGroupExecution | agent/services/time_weaver/app.py:168-202 | A new context whose smallest sequence is started, or no change |
| ExecutorObject.TaskExecutor.FinishDetail | agent/services/time_weaver/app.py:498-519 | Takes the detail off the list and crosses to the next sequence, or ends the context |
| ExecutorObject.TaskExecutor.HandleResultAck | agent/services/time_weaver/app.py:455-480 | Applies the transitions one by one and then settles the detail; the schedule's cron job is taken out if and only if there is a context and a transition reports an error of the group |
| ExecutorObject.TaskExecutor.HandleResultRejection | agent/services/time_weaver/app.py:483-495 | Marks the context to stop and settles the detail |
| ExecutorObject.TaskExecutor.ApplyTransition | agent/services/time_weaver/app.py:468-477 | Excludes the detail, or marks the context to stop and takes out the cron job |
| ExecutorObject.TaskExecutor.FireTask | agent/services/time_weaver/app.py:388-389 | The job leaves the scheduler and its schedule is marked as running |
| ExecutorObject.TaskExecutor.ReportTask | agent/services/time_weaver/app.py:433-448 | The job's slot becomes the last entry of its context's queue, under the job's own key, and the envelope names the job it is of |
| ExecutorObject.TaskExecutor.DispatchManual | agent/services/time_weaver/app.py:275-370 | Claims and registers a manual run; every way to fail gives back its slot and its mark |
| Reconcile.PlanReplaces | agent/services/time_weaver/sync_coordinator.py:245-304 | For any two snapshots, applying the plan to a table that holds exactly the schedules and the claimable, unfinished runs listed by the first gives one that holds exactly those listed by the second |
| Reconcile.SpecsAreTheLists | agent/services/time_weaver/sync_coordinator.py:250-271 | For every snapshot, ids repeated or not, the jobs asked for are exactly the listed schedules and the listed runs that are claimable and not over, of two with one id the later, each under its own key |
| Reconcile.EveryListedIsAsked | agent/services/time_weaver/sync_coordinator.py:250-271 | With distinct ids that is every schedule of the snapshot, and every manual run that is claimable and neither done, failed, cancelled nor claimed |
| Reconcile.MarkedIffGoneOrChanged | agent/services/time_weaver/sync_coordinator.py:281-292 | A running context is marked if and only if the current snapshot lists its schedule and the next one does not list that very schedule |
| Reconcile.HandledIffDiffers | agent/services/time_weaver/sync_coordinator.py:250-279 | The plan handles a key if and only if the snapshots do not list the same job under it |
| Reconcile.PlanIsTheDifference | agent/services/time_weaver/sync_coordinator.py:250-279 | The plan removes the keys that go, adds those that come and updates exactly those whose job differs; unchanged jobs are not touched |
| Reconcile.MarksFollowThePlan | agent/services/time_weaver/sync_coordinator.py:281-292 | A running context is marked to stop if and only if the plan removes or updates its schedule's job |
| Reconcile.HandledAreTheDifferent | agent/services/time_weaver/sync_coordinator.py:250-279 | The plan takes out or puts in a key's job if and only if the two snapshots differ at it |
| ReconcileObject.ApSchedulerAdapter.constructor | agent/services/time_weaver/scheduler_adapter.py:22-51 | No jobs |
| ReconcileObject.ApSchedulerAdapter.AddJob | agent/services/time_weaver/scheduler_adapter.py:53-61 | The spec is recorded exactly when the scheduler took the job; a manual run's spec even when it did not |
| ReconcileObject.ApSchedulerAdapter.UpdateJob | agent/services/time_weaver/scheduler_adapter.py:63-73 | The new spec; on a throw the old one, or none for a schedule, and the scheduler's jobs still match |
| ReconcileObject.ApSchedulerAdapter.RemoveJob | agent/services/time_weaver/scheduler_adapter.py:75-87 | The spec and its job are gone, or nothing changed |
| ReconcileObject.ApSchedulerAdapter.SchedulePendingManuals | agent/services/time_weaver/scheduler_adapter.py:93-100 | Every managed manual run is in flight or has its dispatch |
| ReconcileObject.ApSchedulerAdapter.FireDispatch | agent/services/time_weaver/scheduler_adapter.py:133-148 | The dispatch is gone once it fires; everything else stays |
| ReconcileObject.ApSchedulerAdapter.ScheduleManual | agent/services/time_weaver/scheduler_adapter.py:133-148 | One dispatch at most, none while the run is in flight |
| ReconcileObject.ApSchedulerAdapter.DropSchedule | agent/services/time_weaver/app.py:472-477 | An error stop of the schedule takes the job out of the scheduler but leaves its spec |
| ReconcileObject.SyncCoordinator.RemoveAllManaged | agent/services/time_weaver/sync_coordinator.py:328-332 | No snapshot; no jobs either when no removal throws |
| ReconcileObject.SyncCoordinator.RestoreJobs | agent/services/time_weaver/sync_coordinator.py:552-557 | The jobs as they were when nothing throws, including those an error stop had dropped; manual runs that were still managed lose their in-flight mark, and every one to be restored is in flight or has its dispatch |
| ReconcileObject.SyncCoordinator.ApplyReconcilePlan | agent/services/time_weaver/sync_coordinator.py:334-371 | Applied if and only if no call throws, rolled back to exactly the previous jobs and snapshot if and only if exactly one throws; after a rollback no managed manual run is in flight and each has its dispatch; the scheduler's jobs match the specs throughout; a stale plan changes nothing |
| ReconcileObject.SyncCoordinator.ApplySnapshot | agent/services/time_weaver/app.py:124-161 | From exactly the jobs that the current snapshot lists to exactly those that the new one lists, with the contexts of changed schedules marked, or back to where it was |
| OperatingState.ClosingStandsSince | agent/services/time_weaver/operating_state.py:84-186 | Whatever the manager is told, in any order: a closing reason stands if and only if it was given and not taken back since |
| OperatingState.DegradingStandsSince | agent/services/time_weaver/operating_state.py:84-186 | A degrading reason stands if and only if it was given and its own channel has not succeeded since; an unknown device status is never taken back |
| OperatingState.ValidHoldsSince | agent/services/time_weaver/operating_state.py:129-136 | The snapshot counts as valid if and only if one was taken and no closing reason was given since |
| OperatingState.ModeFollowsHistory | agent/services/time_weaver/operating_state.py:50-68 | After any changes the mode is HALTED if and only if a closing reason stands, BOOTSTRAP if and only if none does and no snapshot is valid, DEGRADED if and only if a degrading reason stands besides; execution is allowed if and only if no closing reason stands and a snapshot is valid |
| OperatingState.ChangeAllowsOnly | agent/services/time_weaver/operating_state.py:50-68 | Only a snapshot's success, or taking back the last closing reason of a valid snapshot, starts execution |
| OperatingState.OperatingStateManager.CredentialSucceededNow | agent/services/time_weaver/operating_state.py:84-89 | The facts after credential_succeeded, as the rules about standing reasons use them |
| OperatingState.OperatingStateManager.CredentialFailedWith | agent/services/time_weaver/operating_state.py:91-99 | The facts after credential_failed, as the rules about standing reasons use them |
| OperatingState.OperatingStateManager.EnrollmentSucceededNow | agent/services/time_weaver/operating_state.py:101-108 | The facts after enrollment_succeeded, as the rules about standing reasons use them |
| OperatingState.OperatingStateManager.HeartbeatSucceededNow | agent/services/time_weaver/operating_state.py:110-114 | The facts after heartbeat_succeeded, as the rules about standing reasons use them |
| OperatingState.OperatingStateManager.HeartbeatFailedWith | agent/services/time_weaver/operating_state.py:116-127 | The facts after heartbeat_failed, as the rules about standing reasons use them |
| OperatingState.OperatingStateManager.SnapshotSucceededNow | agent/services/time_weaver/operating_state.py:129-135 | The facts after snapshot_succeeded, as the rules about standing reasons use them |
| OperatingState.OperatingStateManager.SnapshotFailedWith | agent/services/time_weaver/operating_state.py:137-141 | The facts after snapshot_failed, as the rules about standing reasons use them |
| OperatingState.OperatingStateManager.ClockWarningIs | agent/services/time_weaver/operating_state.py:143-150 | The facts after clock_warning, as the rules about standing reasons use them |
| OperatingState.OperatingStateManager.DeviceStatusIs | agent/services/time_weaver/operating_state.py:152-164 | The facts after device_status, as the rules about standing reasons use them |
| OperatingState.OperatingStateManager.ReconciliationFailedNow | agent/services/time_weaver/operating_state.py:166-174 | The facts after reconciliation_failed, as the rules about standing reasons use them |
| OperatingState.OperatingStateManager.ReconciliationSucceededNow | agent/services/time_weaver/operating_state.py:176-180 | The facts after reconciliation_succeeded, as the rules about standing reasons use them |
| OperatingState.OperatingStateManager.ClearFailClosedReason | agent/services/time_weaver/operating_state.py:182-186 | The facts after clear_fail_closed_reason, as the rules about standing reasons use them |
| Recovery.AllowedMeansCurrent | agent/services/time_weaver/operating_state.py:50-68 | In every run in which a failed restore is not explicitly cleared: execution is allowed if and only if no closing reason stands and a snapshot was applied or confirmed after the last event that closed execution; then there is a current snapshot, the adapter manages exactly the jobs that it lists, and the scheduler has the cron jobs of exactly its schedules, save those an error stop took out that nothing has put back since |
| Recovery.DroppedIff | agent/services/time_weaver/app.py:472-477 | In every run a managed schedule is without its cron job if and only if an error stop took it out and since then no halt, no plan that handles its key and no failed plan came |
| Recovery.SoundIff | agent/services/time_weaver/app.py:601-610 | A step loses the agreement of jobs and snapshot if and only if it clears the reason of a failed restore while they differ |
| Recovery.OnlyClosingHalts | agent/services/time_weaver/operating_state.py:91-174 | From allowed execution a report stops it if and only if it brings a closing reason, and then every job goes; any other failure keeps the snapshot, its jobs and execution |
| Recovery.RestoreFailureIsFinal | agent/services/time_weaver/operating_state.py:166-174 | After a failed restore the agent never executes again, whatever it is told, unless that reason is cleared, which nothing in the agent calls for |
| Recovery.ClearingLosesTheJobs | agent/services/time_weaver/sync_coordinator.py:352-361 | A concrete run: a restore that fails while the agent is already halted leaves its snapshot current without jobs; were the reason cleared, an unchanged reply would allow execution with nothing scheduled |
| RecoveryObject.AgentRuntime.HandleTransition | agent/services/time_weaver/app.py:601-610 | Entering HALTED, and nothing else, takes out every job, forgets the snapshot and calls for the stop marks of the running contexts |
| RecoveryObject.AgentRuntime.Tell | agent/services/time_weaver/operating_state.py:188-200 | Stores the change and publishes the transition |
| RecoveryObject.AgentRuntime.ApplySnapshot | agent/services/time_weaver/sync_coordinator.py:334-371 | The machine's apply event, with the outcome the coordinator had |
| RecoveryObject.AgentRuntime.SnapshotOnce | agent/timeweaver.py:322-401 | Exactly the events of one snapshot request, for every token, reply and outcome |
| RecoveryObject.AgentRuntime.HeartbeatOnce | agent/timeweaver.py:262-313 | Exactly the events of one heartbeat; a device that is not active ends it early, and a failure after the success was noted is noted as well |
| RecoverySteps.NoTokenOutcome | agent/timeweaver.py:423-435 | Without an access token neither request goes on: a named failure closes execution under its name, any other degrades it |
| RecoverySteps.UnchangedOutcome | agent/timeweaver.py:322-400 | An unchanged reply makes the held snapshot valid and takes back the failures of the channel, or is such a failure when no snapshot is held |
| RecoverySteps.UnusableOutcome | agent/timeweaver.py:322-400 | A reply without the device's identity closes execution; a snapshot that fails validation degrades it |
| RecoverySteps.RefusedHalts | agent/timeweaver.py:437-447 | An inactive or revoked device and a refused token close execution on either channel, each under its own reason |
| RecoverySteps.RefusedDegrades | agent/timeweaver.py:437-447 | Every other refusal degrades its own channel, save that a heartbeat refused for want of enrollment closes execution |
| RecoverySteps.AppliedOutcome | agent/timeweaver.py:322-400 | A snapshot that the scheduler takes is current and valid and clears the channel's failures; a skewed clock or dispatches that did not go in degrade execution |
| RecoverySteps.RolledBackOutcome | agent/timeweaver.py:322-400 | One that was taken back leaves snapshot and jobs, puts dropped jobs back and degrades execution for both reasons |
| RecoverySteps.BrokenOutcome | agent/timeweaver.py:322-400 | One that could not be taken back leaves no jobs and closes execution; the snapshot goes unless execution was closed before |
| RecoverySteps.NotActiveOutcome | agent/timeweaver.py:262-313 | A heartbeat that finds the device inactive or revoked closes execution, one that finds its status unknown degrades it, and neither goes on to the clock |
| RecoverySteps.BeatOutcome | agent/timeweaver.py:262-313 | Any other beat takes back the heartbeat's failures, with an active status the device's closing reasons, and notes the clock; an exception after that is a failure again |
| Normalize.NormalizeForgetsOrder | server/services/agent/runtime_service.py:133-240 | For any permutation of the fetched rows the normalised snapshot, or the error, is the same |
| Normalize.RankIsDense | server/services/agent/runtime_service.py:153-169 | In sorted rows the counter of the loop is one more than the number of smaller sequences of the schedule |
| Normalize.RankDetails | server/services/agent/runtime_service.py:153-199 | Every schedule's details with their ranks, or the error if and only if a detail of a listed schedule has no task row |
| Normalize.NormalizeSnapshot | server/services/agent/runtime_service.py:133-240 | The specified snapshot, or the error if and only if a detail row of a listed group has no task row |
| SnapshotContents.ScheduleContents | server/services/agent/runtime_service.py:133-199 | The schedules of a snapshot are exactly the group rows, strictly by id, each with exactly its own detail rows, strictly by sequence and id, each with one more than the number of smaller sequences of its schedule |
| SnapshotContents.ManualContents | server/services/agent/runtime_service.py:201-227 | The manual runs of a snapshot are exactly the rows, strictly by due second and id, claimable if and only if they wait or are processing with a lease that is over |
| SnapshotContract.RanksFollowSequences | server/services/agent/runtime_service.py:166-169 | Equal ranks if and only if equal sequences, greater ranks for greater sequences |
| SnapshotContract.RanksHaveNoGaps | server/services/agent/runtime_service.py:166-169 | A schedule with n different sequences has exactly the ranks 1 to n |
| SnapshotContract.ServerSnapshotAccepted | agent/services/time_weaver/sync_coordinator.py:130-225 | Given the tables' keys and references, the agent's structural checks accept what the server sends if and only if ids are positive and no sequence is negative |
| SnapshotContract.AgentRunsInSourceOrder | agent/services/time_weaver/app.py:181-195 | From rows to run: the sequences the agent starts are numbered 1 to n, each detail is in one, and details run together or one before the other just as their source sequences say |
| SnapshotContract.ClaimableFlagIsRight | server/services/agent/runtime_service.py:213-220 | A manual run is marked claimable if and only if a claim by its device would win at that time, and the agent schedules its dispatch exactly then |
| SnapshotContract.CheckRanks | agent/services/time_weaver/sync_coordinator.py:189-198 | Comparing neighbours in sorted order decides the ordering of the whole list |
| SnapshotContract.CheckSchedules | agent/services/time_weaver/sync_coordinator.py:130-199 | Accepts exactly the lists with unique schedule and detail ids, valid numbers and rising ranks |
| SnapshotContract.CheckManuals | agent/services/time_weaver/sync_coordinator.py:201-225 | Accepts exactly the manual runs with unique ids that reference an existing schedule and detail pair |
| SnapshotContract.ValidateStructure | agent/services/time_weaver/sync_coordinator.py:125-225 | Accepts exactly the well-formed snapshots |
| SnapshotContents.AcceptedIffFaultless | agent/services/time_weaver/sync_coordinator.py:125-225 | A snapshot is accepted if and only if no id or number is out of range, no schedule, detail or run id is at two places, no rank falls where sequence and id rise, and no run refers to a detail its schedule does not list |
| TokenBucket.WindowBoundForAnyClock | server/services/security/rate_limit.py:14-35 | Whatever the clock does, a window of requests admits at most the capacity plus what the clock's forward movement refills, which is what passed between its ends and every step back once more |
| TokenBucket.WindowBound | server/services/security/rate_limit.py:14-35 | With a clock that never steps back, a window of requests admits at most the capacity plus what it refills, from any state of the bucket |
| TokenBucket.BurstIsCapacity | server/services/security/rate_limit.py:26-28 | The bound is met: a burst on a full bucket admits exactly the capacity |
| TokenBucket.NothingIsLost | server/services/security/rate_limit.py:14-35 | While no request finds the bucket full, what is left plus what was admitted is exactly what was there plus what the clock's forward movement earned, for any clock and any requests |
| TokenBucket.TtlIsLeast | server/services/security/rate_limit.py:64 | A key lives the least whole number of seconds, at least one, in which an empty bucket fills twice |
| TokenBucket.RetryAfterIsEnough | server/services/security/rate_limit.py:29-31 | After the seconds it was told to wait, a request that no other came before is admitted |
| TokenBucket.RetryAfterIsTight | server/services/security/rate_limit.py:29-31 | When told to wait more than a second, a second less would be refused |
| TokenBucket.ExpiryIsUnseen | server/services/security/rate_limit.py:64 | No stream of requests can tell a store that drops keys after the computed time to live from one that never does |
| TokenBucket.SteppingBackRefillsTwice | server/services/security/rate_limit.py:20-23 | With a clock that steps back the bound of a monotone clock fails, and the bound for any clock is met: concrete times admit exactly so many |
| TokenBucket.DeviceRateLimiter.constructor | server/services/security/rate_limit.py:45-57 | No buckets |
| TokenBucket.DeviceRateLimiter.RunScript | server/services/security/rate_limit.py:14-35 | One request against one key; other keys keep their buckets |
| TokenBucket.DeviceRateLimiter.Enforce | server/services/security/rate_limit.py:59-88 | The script's answer, or a pass without any change while the store does not answer and for a minute after |
| TokenBucket.DeviceRateLimiter.Expire | server/services/security/rate_limit.py:33 | A dropped key answers the next request as the bucket would have |
| Identity.RunIsSound | server/repositories/agent_identity.py:84-288 | In every run: at most one unrevoked credential per device, every digest traded in at most once and revoked since, every enrollment token spent at most once and never both spent and revoked |
| Identity.ReplaceLeavesOne | server/repositories/agent_identity.py:187-203 | The new credential is the device's only live one, and other devices' are untouched |
| Identity.EnrollmentIsFinal | server/repositories/agent_identity.py:205-217 | A spent enrollment stays spent, by the same device and at the same time; a revoked one stays revoked and unspent |
| Identity.RevokedIsFinal | server/repositories/agent_identity.py:245-250 | A revoked digest is refused in every later state, with no change |
| CredentialAnswers.LiveIffLatest | server/repositories/agent_identity.py:187-203 | In every run of enrollments, rotations and changes of devices a credential is live if and only if it was added at some step and none of its device was added since |
| CredentialAnswers.EnrollAnswers | server/repositories/agent_identity.py:108-225 | An enrollment is granted if and only if the token is there, in time, neither spent nor revoked, of this name if it names one, of an active group, and the device's row, if there is one, is active; it then spends the token at this time, revokes the device's credentials, adds the new one and a missing device's row, and changes nothing otherwise |
| CredentialAnswers.RotateAnswers | server/repositories/agent_identity.py:227-288 | A rotation is granted if and only if the digest's credential is there, unrevoked and in time and its device is active; the first failing condition names the error, and a refusal changes nothing |
| CredentialAnswers.RevokeAnswers | server/repositories/agent_identity.py:84-106 | A revocation is refused if and only if there is no such token or it is spent; a second one keeps the time of the first |
| IdentityRepository.AgentIdentityRepository.constructor | server/repositories/agent_identity.py:31-32 | Empty tables |
| IdentityRepository.AgentIdentityRepository.RevokeEnrollment | server/repositories/agent_identity.py:84-106 | Revokes once; refuses an unknown or a spent token |
| IdentityRepository.AgentIdentityRepository.FindDevice | server/repositories/agent_identity.py:155-162 | The device of that name in the group, or a new id when there is none |
| IdentityRepository.AgentIdentityRepository.ReplaceCredentials | server/repositories/agent_identity.py:187-203 | Revokes what the device has and inserts one live credential |
| IdentityRepository.AgentIdentityRepository.EnrollDevice | server/repositories/agent_identity.py:108-225 | The enrollment of the tables, with every refusal before any change |
| IdentityRepository.AgentIdentityRepository.RotateToken | server/repositories/agent_identity.py:227-288 | The rotation of the tables, with every refusal before any change |
| CredentialChain.HeldTokenIsLive | agent/services/time_weaver/credential_manager.py:246-299 | Over every run of one agent and the server: the token on file is its device's one live credential if and only if no issue was lost on the way to the file; the token in memory belongs to an issue that was written |
| CredentialChain.LosslessHoldsLive | agent/services/time_weaver/credential_manager.py:278-299 | When no reply is lost and every write replaces the file, the stored token is always the live one |
| CredentialChain.RefreshLosesIff | agent/services/time_weaver/credential_manager.py:278-299 | A refresh the server grants keeps the stored token live if and only if the request never arrived, or the reply did and the file was replaced |
| CredentialChain.LostStrands | agent/services/time_weaver/credential_manager.py:336-353 | After a loss every refresh that arrives is refused and deletes the file, or raises and changes nothing when the file cannot be removed; one that does not arrive changes nothing: only a new enrollment helps |
| CredentialChain.LostEnrollmentIsSpent | server/repositories/agent_identity.py:128-134 | An enrollment whose reply is lost has spent its token: the agent has no file and enrolling again with it is refused |
| CredentialManager.Manager.constructor | agent/services/time_weaver/credential_manager.py:218-236 | The stored credential and an empty memory |
| CredentialManager.Manager.EnsureAccessToken | agent/services/time_weaver/credential_manager.py:246-299 | Memory's token while it is valid long enough; otherwise the file's outcome, the reply's and the write's, with memory set only after a complete write; a file that cannot be removed raises |
| CredentialManager.Manager.InstallIssued | agent/services/time_weaver/credential_manager.py:301-318 | File first, memory second; a failed write leaves memory empty |
| CredentialManager.Manager.HandleRefreshFailure | agent/services/time_weaver/credential_manager.py:336-353 | A refused token deletes the file, or raises with no change when it cannot; other failures only empty the memory |
| CredentialAnswers.MemoryAnswers | agent/services/time_weaver/credential_manager.py:327-334 | A token in memory that lives for the minimum is returned as it is, and nobody is asked |
| CredentialAnswers.FileAnswers | agent/services/time_weaver/credential_manager.py:250-276 | Otherwise an unreadable file is a passing failure that keeps the file, a corrupt one is discarded, and a missing or outdated one asks for enrollment; nobody is asked |
| CredentialAnswers.ServerAnswers | agent/services/time_weaver/credential_manager.py:278-299 | Only then the server is asked: a new token is handed out exactly when it is on disk, a refused one costs the file, and any other failure only the memory |
| CredentialAnswers.RefreshOutcome | agent/services/time_weaver/credential_manager.py:278-299 | One refresh over the network: what the server and the agent hold afterwards and what the caller gets, by what was lost, the server's reply and how the write went |
| CredentialAnswers.EnrollOutcome | agent/services/time_weaver/credential_manager.py:301-318 | One enrollment over the network: the server's side happens unless the request is lost, the agent changes only when the credential comes back |
| SingleFlight.OneRefreshForAll | agent/services/time_weaver/credential_manager.py:238-299 | Any number of threads in any interleaving of single reads, writes and lock operations: at most one refresh and one file replacement, exactly one once any thread is done, and every thread gets the same new token |
| SingleFlight.TokensAreDurable | agent/services/time_weaver/credential_manager.py:289-299 | Whatever fails, a token in memory or handed out is of an issue that was written to the file |
| SingleFlight.CountsAreExact | agent/services/time_weaver/credential_manager.py:278-299 | In every interleaving, whatever fails, the server is asked exactly as often as a thread with the lock found no usable token, and the file replaced exactly as often as a write went that far |
| SingleFlight.PersistedIff | agent/services/time_weaver/credential_manager.py:289-299 | An issue counts as written if and only if it was held at the start or replaced the file |
| SingleFlight.LockedHandsOutMemory | agent/services/time_weaver/credential_manager.py:246-299 | A thread that ends with the lock gives it back and hands out what memory then holds, which after a failure is nothing |
| SingleFlight.NoDeadlock | agent/services/time_weaver/credential_manager.py:246-249 | Until all threads are done one of them can move |
| SingleFlight.RaisesIff | agent/services/time_weaver/credential_manager.py:327-334 | Outside the lock a thread that has found an expiry raises at its second read of it if and only if another thread's failed refresh emptied memory in between and no new expiry was stored since; otherwise it returns the token or waits for the lock |
| SingleFlight.RaceRaises | agent/services/time_weaver/credential_manager.py:327-334 | A concrete run in which a thread raises |

## Left out

- HTTP, JSON envelopes, FastAPI routers and schemas: a reply is a value, a failure one of the classified kinds.
- Task bodies, mail, logging, the status file, installers and the web client.
- Cron meaning, misfires and the scheduler's threads: a trigger may come at any time.
- The payload limits that `_bounded_envelope` applies to a result before it is queued.
- Delays: the value that `RetryBackoff` computes is not modelled, a timer may fire at any time after it is armed.
- The order of actions inside the removals, updates and additions of a plan, which is by key text in the code: the proofs hold for any order.
- Deadlock retries and `SKIP LOCKED`: no other transaction holds a row that the sweep selects.
- The dashboard's statements, except that `AbandonKeepsLeaseIff` says what the abandon statement does to the lease machine.
- `start_execution` and its request check: the running marker it sets is a step of the tables, without a method of its own.
- Revision and ETag digests, cron expressions and task fields in the validation of a snapshot.
- File permissions, directory synchronisation and the temporary file of a credential write, beyond whether the file was replaced.
- Close: its deadline is a number of wake-ups, and the shutdown of the worker pool, which cancels drainers not yet started, is not modelled.
- Interfere: stands for other threads between the lock sections of one drainer; its contract lets them take any steps that are not this drainer's, and its body takes none.
- OthersAct: as Interfere, for the threads that act while close waits.
- ReportTask: the start signal to the server and the work of the thread itself are not modelled.
- ExecuteNextTask: no job of the sequence fires before the last one is registered, which the one-second delay of each job gives room for.
- HandleResultAck: says whether the schedule's cron job is taken out of the scheduler; the scheduler's own jobs are those of `ApSchedulerAdapter`, where `DropSchedule` takes it out.
- ApplyTransition: as HandleResultAck.
- HandleTransition: says whether running contexts are marked to stop; the marking itself is the `Mark` step of the executor.
- CheckSchedules: ids, numbers and order; cron expressions, task types and required fields are not checked in the model.
- CheckManuals: ids and references; that the schedule time is in UTC is not checked in the model.
- ValidateStructure: as CheckSchedules and CheckManuals.
- SequenceBarrier: says nothing about runs in which a result is acknowledged twice; those are `RepeatHarmlessIff` and the two runs after it.
- AckAttribution: as SequenceBarrier, for runs in which every result is acknowledged once.
- SlotConservation: as SequenceBarrier, for runs in which every result is acknowledged once; `RepeatLosesASlot` shows why.
- RunIsJoint: for runs with patient timers, in which by `ToldOnce` no result is acknowledged twice. The slot counters of executor and outbox are not linked here, so it has more runs than the agent; `TaskExecutor` uses the outbox's own counters.
- AllowedMeansCurrent: for runs in which taking out the jobs on a halt succeeds and a request for the snapshot is one step; a removal that throws leaves its job behind.
- WindowBound: over real numbers and while the store answers; the store keeps tokens as rounded decimal text.
- WindowBoundForAnyClock: as WindowBound.
- OneRefreshForAll: for threads that start with no usable token, with calls and writes that succeed and a new token that outlives what is asked for.
- HeldTokenIsLive: for one agent per device; a second agent that enrolls under the same name revokes the first one's credential.
- ExactlyOnce: a result that is refused for good has no row, as the design intends; results still in memory when the agent stops are lost.
