# A verified model of the speedtest tracker's core

The project models the parts of the speedtest tracker whose correctness depends on
order, on interleaving or on bookkeeping, and proves what they promise for every input
and every run. It is checked as a whole with `dafny verify dfyconfig.toml`.

**The runner** (`RunnerTypes`, `RunnerModel`, `RunnerInvariant`, `RunnerProof`, `RunnerMoves`,
`RunnerEnqueue`, `RunnerWork`, `RunnerResults`, `RunnerFinish`, `RunnerTheorems`,
`RunnerProperties`, `RunnerAdmission`, `RunnerOutcome`, `RunnerReports`, `RunnerClosing`,
`RunnerTransit`, `RunnerGoroutines`, `RunnerProgress`, `RunnerWitness`, `RunnerObject`).
Callers of Start, Enqueue, Cancel and Shutdown and the queue workers are a labelled transition system. A step
is one critical section of `enqueueMu` or `r.mu`, one store access or one publish; the outcome
of a test, the failure of a store access, and a panic are choices in the label.
`RunnerInvariant.Inv` is the inductive invariant, the middle modules show that each of the 34
kinds of step keeps it, and `RunnerProperties` draws the promises from it for every execution,
any number of callers, runs and queues. The next modules say what the steps of an execution decide:
`RunnerAdmission` when a run is let in, `RunnerOutcome` how it ends, read off who asked to cancel
it and what its queues reported, `RunnerReports` that reports, rows and published events agree,
`RunnerClosing` what Shutdown leaves; `RunnerTransit` that the in-transit marks do not pile up.
There a worker is named by its queue;
`RunnerGoroutines` gives every worker goroutine an identity of its own, spawned as queueChan
spawns it, and shows that each of its executions is one of the transition system's.
`RunnerProgress` shows that the runner gets its work done: without new calls its steps are
bounded in number, and until all is quiet it has one to take. `RunnerWitness` exhibits
executions: one that reaches "done", and the two in which the events of a run come out of
order. `RunnerObject` holds the critical sections as methods of a class
that updates its fields; each contract writes its new state out and equates it with the
function the transition system steps with.

**The notifier** (`NotifyRules`, `Notifier`, `NotifierMessages`): thresholds, evaluation, quiet
hours, and the alert state machine over the notification_state table, for any history of
results, settings and store failures; which messages a result sends is determined from the
messages sent before it.

**Hand-off protocols** (`SettingsFeed`, `PushRing`): the settings subscriber that loses
nothing, and the VictoriaMetrics ring that drops its oldest batch and accounts for it.

**Algorithms**: the target revision log with delete and restore (`Revisions`), outage
grouping (`Outages`), masked secrets (`Masking`), rate limits (`RateLimits`), overlapping
schedules (`Overlap`), the signed login state (`StateCodec`).

Assumptions that hold throughout: a store write that fails has no effect; a read sees
every committed write; integers are unbounded except where a range is written out; measured
values, tokens and seconds of the rate limiters are real numbers.

Where the code and its own comments disagree, the model follows the code:

- The comment of setRunStatus (`internal/runner/runner.go:454-457`) promises a retry. Its error
  survives into the second round unless a statusHook replaces it, and only tests set one. A
  failed terminal write is survived if and only if a hook is set, it was the first attempt and
  it was not Shutdown's (`FailedWriteStrandsUnless`); a panic before the write strands the run
  in the same way (`PanicBeforeWriteStrands`).
- The comment of waitNominatim (`internal/ooklaweb/search.go:159-163`) promises that no two
  requests start less than an interval apart. The code spaces the reserved slots, not the
  starts: `LateStartsMayBeClose` gives two requests that start 0.1 s apart,
  `StartsApartExactlyWhen` says for which calls the promise holds when starts may be late,
  and `StartsAreBounded` is the bound that always holds.
- The comment of Tx.Set (`internal/settings/settings.go:439-441`) promises that unchanged values
  are never notified. `SettingTwiceMayOverreport` gives a transaction that does, and
  `UnreadMayOverreport` one in which the error of reading the old value, which Tx.Set ignores,
  does; `OverreportedExactlyWhen` says exactly when it happens, failed reads included.

Promises with a condition, each shown to need it by an execution or an input:

- The events of a run are well ordered unless that run was force-cancelled by an expired
  Shutdown or its "queue full" was published without being written (`EventsAreOrdered`;
  `RunningAfterForcedCancel` and `CanceledAfterQueueFull` reach both disorders).
- OnResult's last select never finds the ring full, because of its mutex
  (`LastSelectFindsRoom`; `LastSelectNeedsTheMutex` without it).
- The token bucket grants at most burst + rate times the time its clock gained, on any clock;
  that this is burst + rate (e - s) needs a clock that does not go back, as time.Now's
  monotonic reading (`GrantsFromStartToEnd`; `ClockMustNotGoBack`).

## Model

| member | source | states |
|---|---|---|
| RunnerTypes.PositionsSpec | internal/runner/runner.go:272-284 | a queue's job is exactly the order-preserving subsequence of the request for that queue |
| RunnerTypes.QueueOrderSpec | internal/runner/runner.go:272-284 | the queues used are those some target names, each once |
| RunnerTypes.JobsPartitionRequest | internal/runner/runner.go:272-284 | every requested occurrence is in exactly one job, at exactly one place |
| RunnerTypes.GroupByQueue | internal/runner/runner.go:272-284 | the grouping loop computes that split |
| RunnerTheorems.SweptTableStarts | internal/store/reap.go:12-20 | whatever table a dead process left, the sweep keeps every terminal row, turns every active one into "failed" with its schedule kept, and a fresh runner over that table satisfies the invariant |
| RunnerTheorems.StepKeeps | internal/runner/runner.go:204-841 | every step of every agent, with any failure or panic, keeps the invariant |
| RunnerTheorems.TraceKeeps | internal/runner/runner.go:204-841 | the invariant holds in every state of every execution |
| RunnerProperties.DoneIsEarned | internal/runner/runner.go:478-708 | the step that writes "done" is a finisher's write, every requested occurrence then has exactly one row and it is "ok", and done equals total equals the request's size |
| RunnerProperties.OnlyFinishersFinish | internal/runner/runner.go:454-475 | a row becomes terminal only by the write of an agent that claimed the run, with the status of its claim |
| RunnerProperties.DoneStaysComplete | internal/runner/runner.go:478-708 | a run shown as "done" has one "ok" row for every occurrence, at all times |
| RunnerProperties.OneRowPerOccurrence | internal/runner/runner.go:506-669 | no occurrence ever gets a second result row, panics and failed writes included |
| RunnerProperties.ClaimIsExclusive | internal/runner/runner.go:314-475 | refusal, Cancel, cancelOrphan, the last finishQueue and forced cancel never hold the right to finish a run together, and nobody holds it while the run is tracked |
| RunnerProperties.TerminalIsFinal | internal/store/runs.go:58-90 | no step changes a terminal row, and nobody is about to write it again |
| RunnerProperties.TerminalWriteNeverRefused | internal/store/runs.go:58-90 | the guard in SetRunStatus never refuses a terminal write the runner attempts |
| RunnerProperties.PendingCountsJobs | internal/runner/runner.go:328-371 | a tracked run's pending count is the number of queues that still buffer or execute a job of it, and is positive |
| RunnerProperties.JobsLeaveThroughFinish | internal/runner/runner.go:478-559 | a job of a tracked run leaves its queue only through one finishQueue, which lowers pending by one |
| RunnerProperties.QuietMeansSettled | internal/runner/runner.go:673-708 | with empty channels and nobody at work no run is tracked and every row is terminal, except runs whose finisher gave up |
| RunnerProperties.LossNeedsFailure | internal/runner/runner.go:454-475 | a run is lost only in a step whose status write failed or that panicked |
| RunnerProperties.FailedWriteStrandsUnless | internal/runner/runner.go:454-475 | after a failed terminal write someone still answers for the run iff a statusHook is set, it was the first attempt and it was not Shutdown's; otherwise the run is lost |
| RunnerProperties.PanicBeforeWriteStrands | internal/runner/runner.go:404-409 | a panic of a finisher before its write leaves the row as it was, the run untracked, and nobody to write it |
| RunnerProperties.NothingLost | internal/runner/runner.go:454-475 | without such steps nothing is lost over a whole execution |
| RunnerProperties.NoRunIsStranded | internal/store/reap.go:12-20 | from a swept table and with status writes succeeding, every run row is terminal once all is quiet |
| RunnerProgress.WorkIsBounded | internal/runner/runner.go:204-841 | without new calls, workers, finishers, Enqueue, Cancel and Shutdown take at most a known number of steps, in any order, failures and panics included |
| RunnerProgress.NeverStuck | internal/runner/runner.go:204-841 | in every execution the runner is quiet or has a step to take that needs no new call, no expiring deadline and no failure, so enqueueMu never deadlocks and no wait is in vain |
| RunnerProgress.EveryRunSettles | internal/runner/runner.go:204-841 | after the last call the runner stops within that number of steps, where it stops all is quiet, and with status writes succeeding every run row is then terminal |
| RunnerProgress.WorkLowers | internal/runner/runner.go:204-841 | every step but a new call lowers the measure |
| RunnerProperties.EventsAreOrdered | internal/runner/runner.go:321-368 | for every run neither force-cancelled nor published full without a write: at most one terminal event, as the last; "running" only after "queued"; done at most total |
| RunnerProperties.RunningFollowsQueued | internal/runner/runner.go:338-344 | in any execution a "running" event of a run is preceded by its "queued" |
| RunnerWitness.RunningAfterForcedCancel | internal/runner/runner.go:797-841 | an execution in which a worker publishes "running" after Shutdown's forced "canceled" |
| RunnerWitness.CanceledAfterQueueFull | internal/runner/runner.go:365-438 | an execution in which Cancel publishes "canceled" after an unwritten "queue full" |
| RunnerWitness.DoneHappens | internal/runner/runner.go:478-708 | an execution in which a run is written "done" |
| RunnerProperties.DoneNeverExceedsTotal | internal/runner/runner.go:713-741 | in any execution no event reports more targets done than there are |
| RunnerProperties.PatientShutdownForcesNothing | internal/runner/runner.go:794-841 | a Shutdown whose context does not expire never force-cancels a run |
| RunnerGoroutines.StepRefines | internal/runner/runner.go:210-228 | a step of any goroutine that serves a queue is a step of the runner, and keeps one goroutine per channel |
| RunnerGoroutines.RunRefines | internal/runner/runner.go:204-841 | every execution with goroutines is an execution of the runner, so all its theorems hold there |
| RunnerGoroutines.OneWorkerPerQueue | internal/runner/runner.go:210-228 | in every execution each channel is served by exactly one of the goroutines spawned |
| RunnerGoroutines.GoroutinesNeverOverlap | internal/runner/runner.go:210-228 | two goroutines never test targets with the same queue id at the same time |
| RunnerProperties.CommitOrderKept | internal/runner/runner.go:314-363 | a queue's jobs are taken in the order Enqueue committed them, none skipped |
| RunnerProperties.NeverSendsOnClosed | internal/runner/runner.go:782-792 | a channel only grows in Enqueue's registration step, when it is not closed |
| RunnerProperties.OneRunPerSchedule | internal/runner/runner.go:286-303 | at most one queued or running row per schedule, for any number of racing Enqueue calls |
| RunnerAdmission.ScheduleGoesOnUnless | internal/runner/runner.go:286-296 | Enqueue goes on to create a run iff its request names no schedule or no queued or running row has that schedule |
| RunnerAdmission.RunIsCreated | internal/runner/runner.go:297-303 | the new row has a fresh id, is queued, and carries the schedule of the request |
| RunnerAdmission.RunIsAdmittedUnless | internal/runner/runner.go:314-371 | before Start and after Shutdown a run is refused as canceled; otherwise it fails as "queue full" iff a queue it names holds cap jobs, else it is tracked and exactly the queues it names get one job each, its targets in order |
| RunnerOutcome.CancelAnswers | internal/runner/runner.go:387-411 | what Cancel leaves of a tracked run: one a queue has started is flagged and its context canceled, one none has started is claimed by the caller as canceled |
| RunnerOutcome.CancelHolds | internal/runner/runner.go:373-411 | once Cancel was called for a tracked run or Shutdown flagged it, its context stays canceled, it stays flagged while tracked, every claim on it says canceled, and its row can only become canceled |
| RunnerOutcome.CanceledRunStops | internal/runner/runner.go:487-541 | from then on no queue of the run starts a target |
| RunnerOutcome.ContextIsHistory | internal/runner/runner.go:387-402 | the context of a tracked run is canceled iff Cancel or Shutdown asked for it earlier |
| RunnerOutcome.FlagsAreHistory | internal/runner/runner.go:673-688 | a tracked run is flagged canceled iff it was asked to stop or a queue of it reported so, and failed iff a queue of it reported that |
| RunnerOutcome.LastQueueDecides | internal/runner/runner.go:673-708 | the last queue claims canceled iff the run was asked to stop while tracked or some queue of it reported canceled, failed iff not and some queue reported failed, done otherwise, with the run's counts |
| RunnerOutcome.JobStartsUnless | internal/runner/runner.go:478-499 | a queue takes up a job iff its run is tracked, nobody asked to cancel it, no queue of it reported canceled and Shutdown has not been called; it reports the job of a tracked run it must not take up as canceled |
| RunnerOutcome.NextTargetUnless | internal/runner/runner.go:537-559 | between two targets of a tracked run a queue goes on iff there is a next one and nobody asked to cancel the run |
| RunnerReports.QueueReports | internal/runner/runner.go:501-559 | a queue reports failed iff since it took the job a target of it got no "ok" row or a panic struck, and canceled iff it found the run told to stop |
| RunnerReports.RowsSayWhatHappened | internal/runner/runner.go:506-669 | only a test's end and the recovery of a panic write a result row, one for the target at hand, "ok" iff the test came out so and was stored |
| RunnerReports.PanicIsRecovered | internal/runner/runner.go:502-531 | a panic during a test leads to a failed row for its target, any other panic fails the queue at once |
| RunnerReports.EachFinisherWrites | internal/runner/runner.go:314-475 | a refused, cancelled, forced or orphaned run is claimed as canceled, one that met a full queue as failed; only the last queue claims done |
| RunnerClosing.RunningIsWritten | internal/runner/runner.go:533-535 | "running" is written only over a row that is not terminal, and published only after that write; a failed write is tried again only with a hook |
| RunnerClosing.OutcomeIsWritten | internal/runner/runner.go:458-475 | a terminal write that does not fail puts the claim's status in the row and keeps its schedule |
| RunnerReports.AnnouncedAsStored | internal/runner/runner.go:704-720 | the outcome clients are told is the one in the row, unless it is an unwritten "queue full" |
| RunnerReports.OutcomeIsAnnounced | internal/runner/runner.go:704-720 | without a panic of a finisher, every outcome written during an execution has been published once all is quiet |
| RunnerReports.ProgressIsReported | internal/runner/runner.go:548-558 | after each target of a tracked run clients are told the number counted so far and the size of the run |
| RunnerReports.OrphanIsCanceledWhen | internal/runner/runner.go:415-438 | cancelOrphan claims a run iff at its last look the row is queued or running, and never looks while the runner tracks the run or it is in transit |
| RunnerClosing.ShutdownForces | internal/runner/runner.go:751-761 | a listed run still tracked is taken from its workers with the counts it has reached, any other is passed over |
| RunnerClosing.ShutdownLeavesNone | internal/runner/runner.go:782-841 | the Shutdown that closed the runner returns only when no run is tracked, whether the workers left or it went through its list |
| RunnerTransit.TransitIsCarried | internal/runner/runner.go:439-452 | without a panic of a finisher, each run marked as in transit has an agent that will clear the mark |
| RunnerTransit.QuietMeansNoTransit | internal/runner/runner.go:439-452 | so when all is quiet nothing is in transit |
| RunnerObject.Runner.constructor | internal/runner/runner.go:175-201 | empty maps, capacity 32 unless configured |
| RunnerObject.Runner.QueueChan | internal/runner/runner.go:213-228 | the channel exists afterwards, with its old contents if it existed; a worker is spawned iff it did not |
| RunnerObject.Runner.OpenQueues | internal/runner/runner.go:333-336 | all channels of the run exist, none is changed, and each new one got a worker |
| RunnerObject.Runner.SendJobs | internal/runner/runner.go:346-356 | sends in order up to the first full channel |
| RunnerObject.Runner.Register | internal/runner/runner.go:314-363 | refuses when closing or not started; otherwise "queue full" iff a queue named holds cap jobs, and the run map, contexts and transit marks written out for both; the registration step of the transition system |
| RunnerObject.Runner.Cancel | internal/runner/runner.go:387-402 | of a started run: canceled set, context canceled, the rest unchanged; of one not started: removed, in transit, context canceled |
| RunnerObject.Runner.BeginExecute | internal/runner/runner.go:478-499 | the opening section of execute |
| RunnerObject.Runner.MarkTargetDone | internal/runner/runner.go:722-731 | counts one target of a tracked run and reports both numbers |
| RunnerObject.Runner.FinishQueue | internal/runner/runner.go:673-702 | folds in the outcome while queues are left; the last one removes the run and claims it as canceled, else failed, else done |
| RunnerObject.Runner.ClaimForForceCancel | internal/runner/runner.go:751-761 | claims a run iff it is still tracked |
| RunnerObject.Runner.Close | internal/runner/runner.go:782-792 | closes every channel once |
| RunnerObject.Runner.MarkStuck | internal/runner/runner.go:808-815 | flags and lists exactly the tracked runs |
| RunnerObject.RunsTable.CreateRun | internal/store/runs.go:38-50 | a queued row under an id never used before |
| RunnerObject.RunsTable.SetStatus | internal/store/runs.go:58-90 | the guarded update and its three outcomes |
| RunnerObject.RunsTable.QueuedRunForSchedule | internal/store/runs.go:195-207 | finds the newest active run of the schedule iff there is one |
| NotifyRules.Merge | internal/notify/evaluate.go:90-119 | every field: an explicit null disables it, a set override wins, else the default is kept; the SLA plan stays the default's |
| NotifyRules.Evaluate | internal/notify/evaluate.go:132-175 | appends exactly the checks due, in order, with value, limit and unit |
| NotifyRules.EvalsSpec | internal/notify/evaluate.go:132-175 | each checked metric appears once, with its verdict and what a message quotes, and nothing else appears |
| NotifyRules.QuietIsClockInterval | internal/notify/notifier.go:425-442 | quiet hours are the stretch of the clock face from start to end, across midnight or not, and none without both bounds |
| Notifier.Worker.Fire | internal/notify/notifier.go:347-368 | the new table, trace and counter, quiet hours and a failed write included |
| Notifier.Worker.Recover | internal/notify/notifier.go:374-387 | clears the row, then sends the recovery iff asked to and not quiet; a failed clear does nothing |
| Notifier.Worker.HandleEval | internal/notify/notifier.go:292-323 | what one check does to table and trace |
| Notifier.Worker.ClearStaleState | internal/notify/notifier.go:270-290 | removes the rows of metrics no longer checked |
| Notifier.Worker.Process | internal/notify/notifier.go:194-256 | a whole result equals its specification function |
| Notifier.Worker.TargetGone | internal/store/migrations/0001_init.sql:90-96 | deleting a target removes exactly its rows, each removal a clear |
| Notifier.ProcessRows | internal/notify/notifier.go:194-323 | after an ok result exactly its breaches have rows; after another, the old rows and "failure" iff switched on |
| Notifier.TableFollowsHistory | internal/notify/notifier.go:194-387 | over any history of results and target deletions the stored rows of a target are a simple function of it |
| Notifier.HistoryIsSound | internal/notify/notifier.go:270-387 | over any history, with deletions and store failures, the rows say exactly when the last alert since the last clear was sent |
| Notifier.AlertsKeepCooldown | internal/notify/notifier.go:292-368 | two alerts of a metric with no clear between are at least the cooldown apart |
| Notifier.RecoveryAnswersAnAlert | internal/notify/notifier.go:374-387 | a recovery directly follows its own clear and answers an alert sent since the clear before |
| Notifier.QuietDoesNotDelay | internal/notify/notifier.go:337-368 | breaches met in quiet hours start no cooldown: the next one outside them is alerted |
| NotifierMessages.AlertIsSentExactlyWhen | internal/notify/notifier.go:292-368 | after any history, a metric that breaches is alerted iff it is not quiet, none was since the last clear or the cooldown has passed since the last, and the store answers; nothing else is said of it |
| NotifierMessages.RecoveryIsSentExactlyWhen | internal/notify/notifier.go:306-387 | after any history, a metric within its limit is reported recovered iff an alert was sent since the last clear, recoveries are on, it is not quiet and the store answers; its row is cleared then |
| NotifierMessages.UncheckedIsClearedSilently | internal/notify/notifier.go:270-290 | of a metric not checked an ok result clears the row without a message, any other result says nothing |
| NotifierMessages.OthersHearNothing | internal/notify/notifier.go:194-323 | a result says nothing of other targets and leaves their rows |
| NotifierMessages.SummaryIsSentExactlyWhen | internal/notify/notifier.go:226-256 | a result ends with one summary iff every result is asked for, it is not quiet, and it is not a failed result with the failure alert on |
| NotifierMessages.SuppressedIsExact | internal/notify/notifier.go:347-387 | the suppressed counter grows by exactly the messages quiet hours held back |
| SettingsFeed.StepKeeps | internal/settings/settings.go:719-792 | every step of mark, pump, reader and cancel keeps the invariant |
| SettingsFeed.ChangesAreNeverLost | internal/settings/settings.go:730-764 | in every interleaving a marked key not yet received is in the dirty set, the pump's batch or the out buffer |
| SettingsFeed.ParkedPumpWillWake | internal/settings/settings.go:730-754 | a parked pump with dirty keys and no mark under way finds the wake slot full |
| SettingsFeed.DeliveryFinishes | internal/settings/settings.go:740-792 | pump and reader take only so many steps in any order, and are never stuck while a change is owed and no mark is under way |
| SettingsFeed.EveryStepLowers | internal/settings/settings.go:740-764 | each step of the pump or the reader brings delivery nearer |
| SettingsFeed.Subscriber.MarkKey | internal/settings/settings.go:730-738 | the key is dirty and the wake slot full, as after the protocol's two mark steps |
| SettingsFeed.Subscriber.TakeDirty | internal/settings/settings.go:748-754 | drains the dirty set into a list of the same keys without repeats, as the protocol's step does |
| SettingsFeed.Tx.Set | internal/settings/settings.go:442-464 | writes inside the transaction; what it has recorded is exactly what the sets so far record, unread old values included |
| SettingsFeed.Tx.Commit | internal/settings/settings.go:468-480 | all values at once, and every recorded key marked for every live subscriber after, so each changed key is owed to each; a failed commit notifies nothing |
| SettingsFeed.Store.Notify | internal/settings/settings.go:794-800 | marks the key for every subscriber and changes nothing else |
| SettingsFeed.MarkedAreOwed | internal/settings/settings.go:730-738 | a run of marks makes exactly its keys dirty and owed, and fills the wake slot |
| SettingsFeed.MarkIsTwoSteps | internal/settings/settings.go:730-738 | a mark is the two steps of the subscriber's protocol, between which others may come |
| SettingsFeed.Tx.Rollback | internal/settings/settings.go:484-490 | changes and notifies nothing |
| SettingsFeed.RecordedMeansChanged | internal/settings/settings.go:442-480 | every changed key is notified, and only those if no key is set twice and every old value is read |
| SettingsFeed.RecordedExactlyWhen | internal/settings/settings.go:442-480 | a key is notified iff some set of the transaction gave it another value than it had or could not read the value it had |
| SettingsFeed.OverreportedExactlyWhen | internal/settings/settings.go:439-480 | a key is notified although unchanged iff such a set was made and the last set of the key wrote its old value |
| SettingsFeed.SettingTwiceMayOverreport | internal/settings/settings.go:442-480 | a key set twice can be notified although unchanged |
| SettingsFeed.UnreadMayOverreport | internal/settings/settings.go:450-462 | a key set once is notified although unchanged when its old value could not be read |
| PushRing.StepKeeps | internal/vmpush/writer.go:119-307 | every step of callers, worker, Configure and Close keeps the invariant |
| PushRing.BatchesAreConserved | internal/vmpush/writer.go:119-307 | every accepted batch is in exactly one of caller, ring, worker, pushed, dropped, rejected, abandoned |
| PushRing.RingHoldsTheNewest | internal/vmpush/writer.go:119-148 | the ring is a contiguous suffix of what was handed over, within its size |
| PushRing.PushesKeepOrder | internal/vmpush/writer.go:177-307 | batches are pushed in acceptance order |
| PushRing.LastSelectFindsRoom | internal/vmpush/writer.go:143-147 | the final drop of OnResult is unreachable |
| PushRing.LastSelectNeedsTheMutex | internal/vmpush/writer.go:129-147 | an execution without the mutex reaches it |
| PushRing.CountersBalance | internal/vmpush/writer.go:151-158 | accepted batches equal pushed, dropped, conclusively failed, queued and in hand, so the reported counters bracket them |
| PushRing.CloseSettlesTheRing | internal/vmpush/writer.go:163-207 | what had been handed over when the worker left is pushed, dropped, rejected or abandoned |
| PushRing.Ring.Put | internal/vmpush/writer.go:129-148 | however many batches the worker takes in between, the new batch is last and at most one old one, the oldest, is lost |
| PushRing.Ring.TrySend | internal/vmpush/writer.go:133-137 | the protocol's first send |
| PushRing.Ring.DropOne | internal/vmpush/writer.go:138-142 | the protocol's drop of the oldest batch |
| PushRing.Ring.SendOrDrop | internal/vmpush/writer.go:143-147 | the protocol's last send |
| PushRing.Deliver | internal/vmpush/writer.go:260-307 | the first deciding attempt settles the batch, and the waits double from 200 ms up to the limit |
| PushRing.FatesAreEarned | internal/vmpush/writer.go:119-307 | which step pushes, rejects, abandons, drops or retries which batch, with the status ranges written out: below 300 pushes, a 4xx other than 429 rejects, all other answers retry |
| PushRing.DeliveryGoesOn | internal/vmpush/writer.go:177-307 | where the worker stands after each deciding step; a post Close cut short and a wait it ended go on as the bounded flush |
| Revisions.ApplyKeeps | internal/store/targets.go:57-263 | every operation with any arguments keeps log, rows and queues in step |
| Revisions.RunKeeps | internal/store/targets.go:57-263 | so does any sequence of operations |
| Revisions.KeptVersions | internal/store/target_revisions.go:49-77 | a target's kept versions are exactly its last 50, without gaps |
| Revisions.VersionsAreNeverReused | internal/store/target_revisions.go:49-77 | two moments that both hold a version hold the same revision under it; a new one is larger than all before |
| Revisions.RowUnlessDeleted | internal/store/targets.go:57-233 | a target with history has a row iff its newest revision is not a delete |
| Revisions.EveryTargetHasItsQueue | internal/store/queues.go:127-165 | a live target's queue always exists, even when callers name unknown queues |
| Revisions.DeleteThenRestore | internal/store/target_revisions.go:161-233 | restoring gives back every field and created_at, with its own queue or, if that is gone, the default one, whatever happened to others in between |
| Revisions.DeletedListIsExact | internal/store/target_revisions.go:115-207 | what can be restored is what was last deleted; restoring a live id is refused |
| Revisions.RevertGivesBack | internal/api/revisions.go:84-131 | the error in every case; otherwise the version's fields, as validation passes them, are written on an existing queue and logged |
| Revisions.PreparedEarlier | internal/api/revisions.go:84-160 | a restore or revert prepared before other operations writes the row it prepared, or fails for a stated reason and changes nothing |
| Revisions.ResolveFindsAQueue | internal/store/queues.go:199-223 | a snapshot resolves to an existing queue: its own, else its lane's, else the lowest |
| Revisions.LoadLookup | internal/store/queues.go:168-197 | the two indexes mirror the table and the default is the lowest id; no queues at all is an error |
| Revisions.ResolveWith | internal/store/queues.go:199-223 | resolving through the indexes is resolving against the table |
| Revisions.Tables.InsertRevision | internal/store/target_revisions.go:49-77 | the revision under the next version, that target's versions 50 or more back gone, every other one as it was |
| Revisions.Tables.Create | internal/store/targets.go:57-87 | a row under the next id with the caller's fields, "{}" for empty documents, and a create revision of exactly that row; fails iff the queue is unknown, and then changes nothing |
| Revisions.Tables.UpdateWithAction | internal/store/targets.go:166-201 | the row has the caller's name, engine, enabled, queue and documents and its old id, rotation and created; the newest revision is exactly that row; not found iff there is no row, failed iff the queue is unknown, and then nothing changes |
| Revisions.Tables.Delete | internal/store/targets.go:206-233 | the row is gone and a delete revision holds it; not found iff it cannot be read |
| Revisions.Tables.Restore | internal/store/target_revisions.go:196-233 | the row is back under its id with the given fields and created; conflict iff the id is live, failed iff the queue is unknown |
| Revisions.Tables.RemoveQueue | internal/store/queues.go:130-165 | of DeleteQueue: missing, last and used queues are refused |
| Revisions.Tables.AddQueue | internal/store/queues.go:102-112 | a queue under the next id, refused iff the name is taken |
| Revisions.Tables.Rename | internal/store/queues.go:116-125 | the queue has the new name, refused iff it is missing or another one has the name |
| Revisions.Tables.Rotate | internal/store/targets.go:235-258 | hands out the cursor modulo n and moves it on by one, without a revision; n must be positive |
| Outages.GroupOutages | internal/store/outages.go:49-106 | the incidents are a grouping of the bad rows, each described correctly; an unreadable time is an error |
| Outages.GroupingIsUnique | internal/store/outages.go:49-106 | there is only one grouping, so the loop computes it |
| Outages.CountsAddUp | internal/store/outages.go:49-106 | the counts sum to the number of bad rows |
| Outages.NeighboursAreApart | internal/store/outages.go:73-104 | neighbouring incidents of a target are separated by an ok row or a longer gap |
| Outages.OneTarget | internal/store/outages.go:73-76 | all members of an incident belong to its target |
| Masking.MergeAppriseUrls | internal/api/settings.go:1263-1286 | the nested loops compute the resolution by identity |
| Masking.UrlRoundTrip | internal/api/settings.go:1254-1286 | the masked list sent back resolves to the stored list, duplicates included |
| Masking.EditsResolve | internal/api/settings.go:1254-1286 | with distinct redactions every deletion, reordering or addition resolves each line to its own URL |
| Masking.RefusedExactlyWhen | internal/api/settings.go:1263-1286 | refused iff some masked URL is submitted more often than stored URLs redact to it |
| Masking.StoredUsedOnce | internal/api/settings.go:1264-1276 | no stored URL is used twice |
| Masking.MaskedOutputIsStored | internal/api/settings.go:1277-1284 | an output with the mask in it was stored that way |
| Masking.MaskChannelTokens | internal/api/settings.go:255-271 | every channel is masked in place: a secret that is set reads "***", a URL keeps scheme and host, all other fields are as stored |
| Masking.MergeChannelSecrets | internal/api/settings.go:1204-1252 | refused iff some channel has the mask as token or header and no stored channel of its id, type and url, or a masked URL more often than stored ones redact to it; otherwise every mask is filled in from there and all other fields are the submitted ones |
| Masking.SettingsRoundTrip | internal/api/settings.go:1212-1252 | any choice of masked channels in any order merges back to the stored ones |
| Masking.SecretsStayWithTheirUrl | internal/api/settings.go:1204-1238 | a stored token or header is only filled in for the same id, type and url |
| RateLimits.GrantsAreBounded | internal/api/ookla.go:77-95 | on any clock, any stretch of calls grants at most burst + rate times the time the clock gained |
| RateLimits.GrantsFromStartToEnd | internal/api/ookla.go:77-95 | on a clock that does not go back that is burst + rate (e - s) |
| RateLimits.BurstIsGranted | internal/api/ookla.go:77-95 | the bound is met: a full bucket grants its burst at once |
| RateLimits.WaitingHelps | internal/api/ookla.go:77-95 | a call after a token's worth of time is granted |
| RateLimits.AllowIsExact | internal/api/ookla.go:77-95 | a call is granted iff what was left and what time brought, up to the burst, holds a whole token, and takes one |
| RateLimits.TokensAreConserved | internal/api/ookla.go:77-95 | granted, left and spilled over the burst make up what there was and what the clock's gains brought |
| RateLimits.ClockMustNotGoBack | internal/api/ookla.go:80-86 | a clock that goes back exceeds burst + rate (e - s) |
| RateLimits.Limiter.Ask | internal/api/ookla.go:77-95 | the method updates tokens and last as the bucket function does |
| RateLimits.Geocoder.Reserve | internal/ooklaweb/search.go:164-186 | the reserved slot and the wait until it |
| RateLimits.SlotsAreApart | internal/ooklaweb/search.go:172-183 | for any clock readings and interleaving, slots are at least a second apart each |
| RateLimits.StartsAreBounded | internal/ooklaweb/search.go:164-191 | requests started by a time are at most the slots by then |
| RateLimits.StartsApartExactlyWhen | internal/ooklaweb/search.go:159-191 | with starts up to a lateness after their slots, all starts are an interval apart iff the lateness is zero or all calls come an interval and the lateness apart |
| RateLimits.LateStartsMayBeClose | internal/ooklaweb/search.go:159-191 | an overrunning sleep lets two starts be closer |
| Overlap.NearestCollision | internal/scheduler/overlap.go:85-105 | the two-pointer walk succeeds iff some pair is within 60 s, and returns the earliest own fire time |
| Overlap.SharedQueue | internal/scheduler/overlap.go:41-52 | the first queue of the other that both have, iff there is one |
| Overlap.PlacesAreExact | internal/scheduler/overlap.go:58-83 | the places warned about are exactly the overlapping others, ascending |
| Overlap.FindOverlaps | internal/scheduler/overlap.go:58-83 | one warning for each of those, with the shared queue and the time |
| StateCodec.RoundTripExactlyWhen | internal/oidcauth/state.go:40-79 | decoding what was encoded returns the fields iff none holds a NUL and the expiry is ahead; otherwise it fails |
| StateCodec.EncodedForm | internal/oidcauth/state.go:40-45 | the encoded value is the four fields joined by NULs, in base64url, a dot, and the signature of that payload |
| StateCodec.AcceptedIsSigned | internal/oidcauth/state.go:47-79 | what is accepted carries the signature of a payload of exactly those fields and a later expiry |
| StateCodec.LivesFiveMinutes | internal/oidcauth/state.go:14-15 | a value expires five minutes on, in whole seconds |
| StateCodec.Base64RoundTrip | internal/oidcauth/state.go:44-63 | unpadded base64url decodes to what was encoded and holds no dot |
| StateCodec.Base64SpellsBits | internal/oidcauth/state.go:44 | the symbols are the bits of the input, six by six, in the alphabet of table 2 of RFC 4648, without padding |
| StateCodec.Base64DecodesExactlyWhen | internal/oidcauth/state.go:55-62 | decodable is what holds symbols and line breaks only and not one symbol left over |
| StateCodec.NumberRoundTrip | internal/oidcauth/state.go:41-74 | a 64-bit number survives printing and parsing, without a NUL |
| StateCodec.NumbersAreDecimal | internal/oidcauth/state.go:41-74 | digits are read in base ten and a number is written without leading zeros |
| StateCodec.SplitJoined | internal/oidcauth/state.go:42-70 | splitting undoes joining when no field holds a NUL |

## Left out

- HTTP routing, handlers, the SSE endpoint, the web interface and the OpenAPI registration: framework wiring.
- SQL, migrations and connection pools: a table is a map changed by whole transactions.
- The engines and their output: a test is an ok, a failed, a canceled or a panicking step.
- Which targets a request names: looking them up and filterRunnable happen before the model's Enqueue, which takes the runnable list.
- Progress events and result sinks of the runner, run metadata, run rows the scheduler writes as "skipped", and pruning of old runs and results.
- A panic while a caller holds a lock it does not give back by defer: to the model that is a caller that never moves again; a panic that nothing recovers ends the process.
- Fairness and time: RunnerProgress bounds the number of steps and shows one is always possible; that the scheduler takes it, that a test ends, and that locks and channels wake their waiters is taken for granted.
- RunnerProperties.NoRunIsStranded: takes status writes to succeed, because one failed write strands its run.
- Notifier.TableFollowsHistory: takes store accesses to succeed, because a failed access leaves the row as it was.
- Message texts and delivery of the notifier; a target deleted while one of its results is being processed.
- Parsing of threshold documents and of quiet-hour times: the parsed values are inputs.
- The order in which the pump sorts one batch of keys: the model allows any order.
- The lock that serialises notify: in the subscriber's protocol marks may interleave freely, which allows more than the code does.
- The payload format, authentication and HTTP details of the push writer; its timeouts are nondeterministic steps.
- JSON text of snapshots and options: a snapshot is the value its JSON denotes, so restoring is stated up to JSON equality.
- What validation of target fields accepts: an arbitrary function that may refuse or normalise them but keeps the queue.
- The final sort and the cap of the outage list, and the skipped fires added to it.
- How a URL splits into scheme and host: an arbitrary function.
- Legacy single-secret settings, whose round trip is not the identity for old auth headers.
- Floating-point rounding in the token bucket and saturation of time differences.
- Cron expressions and time zones: the fire times of a schedule are an ascending input list.
- HMAC-SHA256 is an arbitrary function of the payload; key generation and the OIDC exchange are not modelled.
