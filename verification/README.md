# Loadstar: a verified model of the daemon

Loadstar measures page speed. This project models the logic of its daemon that
is easy to get wrong, and proves what that logic keeps:

- **Job coordination** (`Jobs`, `JobSafety`, `JobTables`, `JobOwnership`,
  `Scheduling`, `JobManager`, `Witnesses`, `Crowding`). Submitters, cancellers, workers, the scheduler, retention and
  restarts share a bounded queue, the set `pendingJobs` behind a mutex, and the
  job and schedule tables. `Jobs` is a state machine in which every lock section,
  channel operation and store call is one step, and in which any store call may
  fail, with or without effect. `JobSafety` proves an inductive invariant over
  all runs of it, `JobTables` says of every row which steps insert, change and remove it, `JobOwnership` says exactly which failures leave a live row
  without an owner, `Scheduling` says how far apart and how late scheduled jobs
  are. `JobManager` is the code itself: a class whose methods follow the source
  function by function, with the other goroutines taking arbitrary steps between
  any two of its own, proved to be runs of the machine. `Witnesses` holds runs from the
  initial state that show where properties end, `Crowding` those that attain the bound
  on waiting schedules.
- **Webhook delivery** (`Webhooks`, `WebhookWorker`, `Starvation`). The persisted
  retry queue, its notify channel and its sweep, again as a state machine and as
  code under interference, and runs that attain the starvation bound.
- **RUM rate limiter** (`RateLimiter`). The token bucket is the greedy
  sliding-window limiter.
- **Layout shifts** (`LayoutShift`). The streaming observer computes the worst
  greedy session, which no legal window exceeds twice.
- **Statistics, budgets, history** (`Stats`, `Budget`, `History`). Percentile
  laws, and the majority theorem from percentile to verdict.
- **Job outcome** (`JobOutcome`). The run and tier loop with its status.
- **Metrics** (`Labels`, `Metrics`). Label rendering read back; histograms as
  aggregates of the observation log.
- **Migrations** (`Migrations`). Crashes and retries.

`Ordering`, `Selection`, `Sets` and `Wrappers` hold what several of these share:
string order and sorting, the `ORDER BY ... LIMIT` of the polling queries, sizes of
sets, `Option` and the outcome of a store call.

`float64` and durations are `real`, clocks are `real` and never run backwards,
ids are natural numbers that are never reused, tables are maps. The clock, the
outcome of every store call, of every HTTP post and of every tier, and the point
at which a job panics are parameters.

Run `dafny verify dfyconfig.toml` to check the whole project.

## Where the code and its comments differ

- `internal/job/manager.go:176-177` says that a rejected submission leaves no
  PENDING row. The clean-up uses the caller's context, and for the scheduler that
  is the manager's own: when shutdown is what rejects a scheduled job, the
  deletion is bound to fail and the row stays until the next start
  (`JobOwnership.ShutdownOrphans`, the exact condition in
  `JobOwnership.RejectedRowStays`, and the run `Witnesses.ShutdownLeavesRow`).
- `internal/job/scheduler.go:44-47` says that `next_run_at` always advances. While
  the manager is not stopping, a schedule that a tick takes advances if and only if
  the count of its active jobs (`internal/job/scheduler.go:60-64`) is read and the
  update takes effect; otherwise it stays due (`JobManager.TickAdvancesExactly`,
  `JobManager.Manager.RunDueSchedules`). `Witnesses.FailedCountStaysDue` and
  `Witnesses.LostSkipStaysDue` are runs in which it does not advance.
- If the advance of a submitted schedule is lost, because the update fails or the
  daemon dies before it, the schedule stays due and fires again without waiting for
  its interval: after a crash with the first tick (`Witnesses.CrashRepeatsSubmission`),
  after a lost update as soon as its job has ended (`Witnesses.LostAdvanceRepeats`),
  unless a tick that finds the job still active moves it on. As long as none is lost, jobs are spaced (`Scheduling.Spacing`); the times on record are right
  if and only if none is lost (`Scheduling.SpacedExactly`). The spacing is that of
  the ticks that submit: on the clock, a job inserted late in its tick can be followed
  sooner, by at most that delay and for every delay by just that
  (`Scheduling.ClockSpacing`, `Witnesses.DelayedInsertNarrowsGap`).
- `internal/job/manager.go:606` lists a backoff of 32 seconds. The fifth failure is
  final, so the delays are 2, 4, 8 and 16, thirty seconds in all
  (`Webhooks.DeliveryBounds`).
- `internal/store/migrations/migrations.go:16-57` relies on ascending versions
  without checking them. A list is safe against crashes if and only if the
  versions that can apply at all are strictly ascending
  (`Migrations.CrashSafeIffAscending`).

## Model

| member | source | states |
|---|---|---|
| `JobSafety.StepKeepsInv` | internal/job/manager.go:150-270 | Every step of every submitter, canceller, worker, scheduler, retention, shutdown and restart keeps the whole invariant, whichever store call fails. |
| `JobSafety.RunKeepsInv` | internal/job/manager.go:150-270 | The invariant holds in every state of every interleaving. |
| `JobSafety.NeverTwoJobs` | internal/job/scheduler.go:55-94 | No pile-up: in no state of any run, store failures and restarts included, are two different jobs of one schedule PENDING or RUNNING, although counting and submitting are separate steps. |
| `JobSafety.SubmitKeepsSchedules` | internal/job/scheduler.go:76-84 | Submitting keeps at most one active row per schedule, and keeps the count of zero true until the scheduler's own insert. |
| `JobSafety.WorkKeepsSchedules` | internal/job/manager.go:243-269 | No status update of a worker makes a row of any schedule active that was not. |
| `JobSafety.AtMostOnce` | internal/job/manager.go:232-256 | Over every run a job id is handed to processJob at most once, across restarts too. |
| `JobSafety.CancelledNeverStarts` | internal/job/manager.go:205-216 | A job whose cancel succeeded is never processed, before or after, even when it was cancelled between the insert into pendingJobs and the send. |
| `JobSafety.LateCancelRefused` | internal/job/manager.go:209-212 | Once a job was claimed or cancelled, every later CancelJob of it is refused and changes nothing. |
| `JobSafety.OnlyCancelledAreSkipped` | internal/job/manager.go:238-241 | A worker drops a job from the queue only if a CancelJob of it succeeded earlier in the run. |
| `JobSafety.SubmitKeepsPending` | internal/job/manager.go:178-201 | pendingJobs stays exactly the set of ids between registration and claim that were not cancelled, across the steps of a submission. |
| `JobSafety.WorkKeepsPending` | internal/job/manager.go:227-241 | The same across receive and claim. |
| `JobSafety.WorkKeepsStarts` | internal/job/manager.go:232-257 | A claim starts an id that is nowhere else and was neither started nor cancelled before. |
| `JobSafety.WorkKeepsPlaces` | internal/job/manager.go:227-257 | An id stays with one submitter, one place in the queue or one worker. |
| `JobSafety.WorkKeepsRows` | internal/store/store.go:380-392 | completed_at stays set exactly on terminal rows, and rows of jobs not yet begun stay PENDING. |
| `JobSafety.RowsOnlyAdvance` | internal/store/store.go:380-392 | No row ever goes from RUNNING to PENDING or from a terminal status back, and a deleted row never returns, including panics and restart recovery. |
| `JobSafety.PurgeSparesActive` | internal/store/schedules.go:128-141 | In every reachable state retention removes a row if and only if it is terminal and was completed before the cutoff. |
| `JobTables.StepOnRow` | internal/store/store.go:380-392 | What any step does to one row: only an insert of its own submission creates it, PENDING, for the scheduler's schedule or none; only a cancel, the API, retention or the clean-up of its rejection removes it; only the worker that has the job and recovery write a status, with the completion time if it is terminal. |
| `JobTables.RowStory` | internal/job/manager.go:150-202 | In every reachable state each row was inserted PENDING by one submission, has been there ever since and is for the same schedule. |
| `JobTables.RowGone` | internal/job/manager.go:172-216 | A row that is missing at a later moment was removed by such a step in between. |
| `JobTables.QueuedRow` | internal/job/manager.go:172-201 | While a job is in the queue its row is as it was inserted, or somebody other than its submitter has removed it. |
| `JobTables.ProcessingIsRunning` | internal/job/manager.go:260-269 | In every reachable state the row of a job that a worker runs, if it was not deleted, is RUNNING. |
| `JobTables.StepOnSchedule` | internal/store/schedules.go:90-116 | What any step does to one schedule: only an effective advance by the tick that is at it sets last run and next run, only the API creates, switches and deletes it. |
| `JobOwnership.OwnerIsUnique` | internal/job/manager.go:172-216 | No job is owned by two of: a submitter, a queue entry, a canceller, a worker; whatever fails. |
| `JobOwnership.StepOwned` | internal/job/manager.go:172-269 | From a state where all live rows are owned, a step leaves one without owner if and only if it is one of the listed store failures. |
| `JobOwnership.OwnedExactly` | internal/job/manager.go:172-269 | All live rows are owned throughout a run if and only if none of those failures happens in it. |
| `JobOwnership.PendingHasOneOwner` | internal/job/manager.go:172-241 | With a working store every PENDING row has exactly one owner: a submitter, a queue entry still in pendingJobs, a canceller, or a worker that has taken it. |
| `JobOwnership.RunningHasOneWorker` | internal/job/manager.go:243-269 | With a working store every RUNNING row has exactly one worker. |
| `JobOwnership.Bounded` | internal/job/manager.go:57-71 | RUNNING rows never exceed the number of workers, nor the queue its depth. |
| `JobOwnership.NoRowAfterwards` | internal/job/manager.go:178-186 | A rejected submission whose clean-up took effect, and a cancel whose deletion took effect, leave no row at any later time. |
| `JobOwnership.ShutdownOrphans` | internal/job/manager.go:178-194 | In any state in which a scheduled submission was rejected by shutdown, its failing deletion leaves a PENDING row that nobody owns, unless it took effect all the same. |
| `JobOwnership.RejectedRowStays` | internal/job/manager.go:172-194 | If deletions fail only because their context is cancelled, a rejected submission leaves its row behind if and only if it is the scheduler's own and the manager is stopping; the row is PENDING then and nobody owns it. |
| `Witnesses.ShutdownLeavesRow` | internal/job/manager.go:178-194 | A run from the initial state, in which every row has an owner, to one with a PENDING row that nobody owns. |
| `JobManager.Manager.SubmitJob` | internal/job/manager.go:150-202 | Under any interference: an insert that takes effect writes a PENDING row for the schedule, if any; accepted, the job is at the end of the queue, in pendingJobs unless cancelled, and its row is as inserted unless somebody else has removed it; rejected, for a failing insert, a full queue or shutdown only, it is nowhere, and its row is gone if the clean-up can and does work. |
| `JobManager.Manager.EnqueueFailed` | internal/job/manager.go:178-186 | The clean-up of a rejected submission, under any interference. |
| `JobManager.Manager.Offer` | internal/job/manager.go:188-201 | Registration, shutdown test and non-blocking send, under any interference. |
| `JobManager.Manager.CancelJob` | internal/job/manager.go:205-216 | Removed, the job will never run and its row is gone if the deletion works; refused, it was not waiting any more or had been cancelled. |
| `JobManager.Manager.Serve` | internal/job/manager.go:227-257 | One turn of the worker: the job received is processed if and only if it was not cancelled, and ends with the status its attempts come to, or FAILED after a panic, if the updates work. |
| `JobManager.Manager.ClaimJob` | internal/job/manager.go:232-241 | The claim takes the id out of pendingJobs; what is not in it had been cancelled. |
| `JobManager.Manager.ProcessJob` | internal/job/manager.go:243-440 | From claim to end, with a panic at any point: if the updates work, the row ends with the status that all its attempts together mean, or FAILED after a panic, and the worker is free. |
| `JobManager.Manager.FinishJob` | internal/job/manager.go:300-440 | The runs and the final update with the status they come to, which only a later panic overwrites. |
| `JobManager.Manager.RecoverPanic` | internal/job/manager.go:244-257 | A panic frees the worker and marks the row FAILED if the update works. |
| `JobManager.Manager.UpdateJobStatus` | internal/store/store.go:380-392 | An effective update sets the status of that row, and its completion time if the status is terminal, and nothing else; a failing one, or a missing row, changes nothing. |
| `JobManager.Manager.RunDueSchedules` | internal/job/scheduler.go:48-95 | A query that fails, as it must during shutdown, ends the tick with nothing changed. Otherwise the tick takes the earliest due schedules. Each gets a PENDING row if and only if it was counted as idle and the insert took effect, and is moved on by its interval if and only if it was counted and the update took effect; otherwise it stays due. No other schedule is touched. |
| `JobManager.Manager.HandleSchedule` | internal/job/scheduler.go:59-94 | One schedule of a tick under any interference: what was counted, whether a job was inserted and whether it was advanced, with the table and the record of submissions after each combination. |
| `JobManager.TickAdvancesExactly` | internal/job/scheduler.go:44-95 | While the manager is not stopping, a taken schedule that still exists ends at tick plus interval if and only if its count was read and its update took effect, and otherwise keeps its next run and stays due. |
| `Witnesses.FailedCountStaysDue` | internal/job/scheduler.go:60-64 | A run from the initial state in which a tick whose count fails leaves the schedule due. |
| `Witnesses.LostSkipStaysDue` | internal/job/scheduler.go:65-74 | A run from the initial state in which a tick skips a schedule with an active job, loses the update, and leaves it due. |
| `JobManager.SelectDue` | internal/store/schedules.go:90-109 | The earliest enabled schedules whose time has come, in the order of their times, at most the batch. |
| `Jobs.PicksDueInWords` | internal/store/schedules.go:90-109 | The due query in the columns of the table: at most twenty, enabled, next run not after now, in ascending order, and none left out that comes before one taken. |
| `JobManager.Manager.PurgeOldJobs` | internal/store/schedules.go:128-141 | Deletes exactly the terminal rows completed before the cutoff and returns their number; if a statement fails there is no count, and nothing is deleted unless that of the jobs took effect. |
| `JobManager.Manager.Restart` | internal/store/store.go:541-551 | After a restart the memory is empty; if recovery took effect, every PENDING or RUNNING row is FAILED with that moment as completion time, and all other rows are as they were. |
| `JobManager.StepDisturbsNone` | internal/job/manager.go:150-270 | No step of another goroutine moves a submitter, a lock holder, a worker or the scheduler, or changes a row in a worker's hands other than by deleting it. |
| `Scheduling.StepSpaced` | internal/job/scheduler.go:55-94 | A step keeps the recorded submissions and next runs of all schedules in order if and only if it does not lose the advance of a submitted schedule. |
| `Scheduling.SpacedExactly` | internal/job/scheduler.go:55-94 | The recorded submissions and next runs are in order throughout a run if and only if no advance is lost in it. |
| `Scheduling.Spacing` | internal/job/scheduler.go:55-94 | If no advance was lost, two jobs of one schedule are submitted by ticks at least its interval apart. |
| `Scheduling.ClockSpacing` | internal/job/scheduler.go:55-94 | Two inserts of jobs of one schedule are apart by at least the interval less the delay of the first insert within its tick. |
| `Scheduling.DelayNarrowsGap` | internal/job/scheduler.go:55-94 | In any state with a single, counted schedule, whatever the delay so far, the next insert can follow earlier by just that delay. |
| `Witnesses.DelayedInsertNarrowsGap` | internal/job/scheduler.go:55-94 | For every interval of a minute or more and every delay up to it, a run from the initial state that loses no advance and inserts two jobs of a schedule interval minus delay apart. |
| `Scheduling.SubmittedSpaced` | internal/job/scheduler.go:76-84 | Each submission is at least an interval after the one before. |
| `Scheduling.CrashRepeats` | internal/job/scheduler.go:76-93 | In any state with a single schedule between submission and advance, a crash makes the next tick ready to submit again at the same moment. |
| `Witnesses.CrashRepeatsSubmission` | internal/job/scheduler.go:76-93 | A run from the initial state in which a crash before the advance lets two jobs of a schedule be inserted at the same moment. |
| `Witnesses.LostAdvanceRepeats` | internal/job/scheduler.go:91-93 | The same without a crash, when the update that advances the schedule is lost. |
| `Scheduling.FairnessBudget` | internal/store/schedules.go:90-109 | Twenty times the ticks that passed a schedule over, plus the schedules still ahead of it, never exceed those ahead at first plus arrivals. |
| `Scheduling.Fairness` | internal/store/schedules.go:90-109 | A schedule with k schedules ahead, now or arriving, is passed over by at most floor(k / 20) ticks before one takes it. |
| `Crowding.FairnessIsAttained` | internal/job/scheduler.go:48-95 | For every k, a run from the initial state in which counts and advances succeed, k schedules are ahead of a due one, none arrives, and floor(k / 20) ticks pass it over: the bound is attained. |
| `Selection.Select` | internal/store/store.go:571-577 | ORDER BY a time ASC LIMIT n: the entries taken are in the order of their times, no entry left out is earlier than one taken, and fewer than n are taken only if none is left. |
| `Webhooks.StepKeepsInv` | internal/job/manager.go:481-612 | Every step of senders, worker, deletions and crashes keeps every delivery row sound and accounted for. |
| `Webhooks.RunKeepsInv` | internal/job/manager.go:481-612 | The same over every run. |
| `Webhooks.AttemptIsSound` | internal/job/manager.go:578-612 | An attempt, persisted or lost, keeps attempts, status, next attempt and the account of posts and delays consistent. |
| `Webhooks.DeliveryBounds` | internal/job/manager.go:562-612 | Posts are at most persisted attempts plus lost updates; attempts at most 5, below 5 while PENDING, 5 when FAILED; next is last plus 2 to the attempts; delays at most 30 s in all; at most one early attempt. |
| `Webhooks.TerminalIsFinal` | internal/job/manager.go:568-574 | A persisted SUCCESS or FAILED never changes and is never posted again. |
| `Webhooks.SuccessIsLast` | internal/job/manager.go:588-592 | After a persisted 2xx answer the row stays SUCCESS without a next attempt, and the delivery is never posted again. |
| `Webhooks.EarlyOnce` | internal/job/manager.go:549-576 | Over a whole run a delivery is posted before its next attempt was due at most once. |
| `Webhooks.StepOnRow` | internal/job/manager.go:481-612 | What any step does to one row: only its insert creates it, PENDING without attempts, only a deletion removes it, and only a persisted attempt changes it, as the answer says; crashes and lost notices leave it. |
| `Webhooks.StarvationBudget` | internal/store/store.go:571-577 | Ten times the sweeps that passed a delivery over are paid for by the attempts the older deliveries have left. |
| `Webhooks.StarvationBound` | internal/store/store.go:571-577 | With k older deliveries pending or arriving, a due delivery is passed over by at most floor(5k / 10) sweeps. |
| `Starvation.BoundIsAttained` | internal/job/manager.go:549-612 | For every k, a run from the initial state in which a due delivery with k older ones pending and none arriving is passed over by five sweeps for every full ten of them: the bound itself when k is a multiple of ten, and at most four less otherwise. |
| `Webhooks.PostBudget` | internal/job/manager.go:549-612 | Posts to a set of deliveries are paid for by the attempts its members have left. |
| `Webhooks.FivePostsEach` | internal/job/manager.go:549-612 | A set of n deliveries takes at most 5n posts, and after that many all of them are terminal or gone. |
| `WebhookWorker.Dispatcher.SendWebhook` | internal/job/manager.go:481-521 | The row is persisted first, then offered to the channel; an insert that fails is not announced and, if it had no effect, changes nothing; a full channel drops the notice, not the row. |
| `WebhookWorker.Dispatcher.SendOneWebhook` | internal/job/manager.go:578-612 | One attempt: a persisted 2xx answer makes the row SUCCESS without a next attempt, the fifth persisted failure FAILED, an earlier one PENDING with the next attempt 2 to the attempts seconds later; an update that is lost or finds no row changes nothing; no other row is touched and one post is recorded. |
| `WebhookWorker.Dispatcher.AttemptWebhook` | internal/job/manager.go:562-576 | Under any interference the notify path makes one attempt, whatever the next attempt says, if and only if the row can be read and is still PENDING; it is posted once, also if the update gets lost, and no other delivery is posted or changed. |
| `WebhookWorker.Dispatcher.ProcessPendingWebhooks` | internal/job/manager.go:549-560 | Under any interference a sweep posts each of the oldest due deliveries once, at some moment of the sweep, also if its row is deleted meanwhile or the update gets lost, and neither posts nor changes any other; a query that fails ends it with nothing changed. |
| `WebhookWorker.GetPendingWebhooks` | internal/store/store.go:571-600 | The oldest due deliveries, at most ten. |
| `Webhooks.PicksInWords` | internal/store/store.go:571-600 | The query of the sweep in the columns of the table: at most ten, PENDING, without a next attempt or past it, oldest first, and none left out that is older than one taken. |
| `RateLimiter.TokenBucket.Allow` | internal/api/rum.go:53-67 | A call is admitted if and only if the burst is at least 1 and, for every earlier call, the admissions since then including this one are at most the burst plus rate times the time since then. |
| `RateLimiter.AdmissionsAreCalls` | internal/api/rum.go:63-66 | Admissions are the calls that were let through. |
| `RateLimiter.CallKeepsAccounts` | internal/api/rum.go:53-67 | The token count is the room of the tightest window over the whole call history. |
| `RateLimiter.AdmittedWindow` | internal/api/rum.go:53-67 | Every window that ends in an admitted call holds at most the burst plus rate times its length. |
| `RateLimiter.WindowBound` | internal/api/rum.go:53-67 | Any window at all admits at most the burst plus rate times its length. |
| `RateLimiter.TimesDecide` | internal/api/rum.go:53-67 | The rule determines the decisions: two histories with the same call times agree. |
| `RateLimiter.BucketIsOptimal` | internal/api/rum.go:53-67 | No other choice that keeps every window within its bound is ever ahead of the bucket. |
| `LayoutShift.Observer.OnEntries` | internal/collector/vitals/collector.go:58-72 | However entries are split over callbacks, cls is the largest session sum of the greedy partition of the shifts without recent input, where a shift of value 0 opens no session. |
| `LayoutShift.SessionsAppend` | internal/collector/vitals/collector.go:63-68 | A new shift joins the last greedy session or opens a new one by the gap and span rules. |
| `LayoutShift.ReachIsMaximal` | internal/collector/vitals/collector.go:63-65 | A greedy session takes every next shift at most 1 s after the one before and 5 s after its first, which must not have value 0, and ends where one is not. |
| `LayoutShift.WorstIsLargest` | internal/collector/vitals/collector.go:71 | The score is the largest sum of a session, or 0. |
| `LayoutShift.ZeroOpensNone` | internal/collector/vitals/collector.go:63-66 | A first shift of value 0 is a session of its own that no other joins, and does not change the score. |
| `LayoutShift.KeptWithoutInput` | internal/collector/vitals/collector.go:62 | A shift with recent input, anywhere, makes no difference. |
| `LayoutShift.KeptAll` | internal/collector/vitals/collector.go:61-62 | All other shifts count. |
| `LayoutShift.TwoSessionsOnly` | internal/collector/vitals/collector.go:55-57 | Every window of positive shifts with gaps of at most 1 s and a span of at most 5 s meets at most two greedy sessions, one right after the other. |
| `LayoutShift.WindowAtMostTwice` | internal/collector/vitals/collector.go:55-57 | The sum of any such window, also with shifts of value 0, is at most twice the reported value. |
| `LayoutShift.ScoreIsAWindow` | internal/collector/vitals/collector.go:55-57 | The reported value is itself the sum of such a window. |
| `LayoutShift.FactorTwoIsTight` | internal/collector/vitals/collector.go:58-72 | For every small margin there are shifts with a window of sum 2 and a reported value that close to 1. |
| `Stats.SortInPlace` | internal/stats/stats.go:16-18 | Sorting the copy in place gives the sorted list of the same values. |
| `Stats.Percentile` | internal/stats/stats.go:12-34 | Interpolation between closest ranks, for every list and every p, 0 for the empty list. |
| `Stats.PercentileAtValue` | internal/stats/stats.go:18-33 | A percentile that falls on the k-th smallest value is that value: at most k values are smaller, and more than k are not larger. |
| `Stats.PercentileAffineInCell` | internal/stats/stats.go:27-33 | Between two neighbouring values the percentile moves in proportion to p. |
| `Stats.PercentileAtEnds` | internal/stats/stats.go:13-26 | 0 for the empty list; below 0 and above 100 the percentile is that of the end. |
| `Stats.CountIsSize` | internal/stats/stats.go:18-33 | Counting values is counting positions. |
| `Stats.SortedByCounts` | internal/stats/stats.go:16-18 | Lists with the same number of values up to every bound sort to the same list. |
| `Stats.OrderStatistic` | internal/stats/stats.go:18-33 | The k-th smallest value satisfies a downward closed condition if and only if more than k values do. |
| `Stats.PercentileInRange` | internal/stats/stats.go:12-34 | A percentile lies between the smallest and the largest value. |
| `Stats.PercentileOfPermutation` | internal/stats/stats.go:12-34 | The order of the values does not matter. |
| `Stats.PercentileMonotoneInP` | internal/stats/stats.go:20-33 | A percentile grows with p, across the cells of the interpolation. |
| `Stats.PercentileMonotoneInSamples` | internal/stats/stats.go:12-34 | A percentile grows with every sample. |
| `Stats.MedianMeets` | internal/stats/stats.go:48-51 | If more than half of the values satisfy a downward closed condition, so does the median. |
| `Stats.MedianFails` | internal/stats/stats.go:48-51 | If more than half of them violate it, so does the median. |
| `Stats.Mean` | internal/stats/stats.go:37-46 | The mean times the number of values is their sum; 0 for the empty list. |
| `Stats.MeanInRange` | internal/stats/stats.go:37-46 | The mean lies between the smallest and the largest value. |
| `Budget.Collect` | internal/budget/budget.go:185-190 | The values of each metric over the runs that collected it, in run order. |
| `Budget.ColumnOfAll` | internal/budget/budget.go:185-190 | If every run collected a metric, its column is its value in each run. |
| `Budget.ColumnSkips` | internal/budget/budget.go:185-190 | A run that did not collect a metric makes no difference to its column. |
| `Budget.Aggregate` | internal/budget/budget.go:184-196 | The median of every metric over the runs that collected it, and nothing for the others. |
| `Budget.Evaluate` | internal/budget/budget.go:202-248 | Exactly one result for every bound, each judged by its metric, sorted by metric and op. The status is Fail if and only if some bound not at level warn has its metric missing or beyond it, Warn if and only if there is none but one at level warn, and Pass otherwise. |
| `Budget.SortResults` | internal/budget/budget.go:259-266 | The results by metric, then op, none lost. |
| `Ordering.LessInWords` | internal/budget/budget.go:259-266 | One string sorts before another if it is a proper prefix of it, or smaller where they first differ. |
| `Budget.VerdictIsUnique` | internal/budget/budget.go:202-266 | Results and status are the same for every iteration order of the map. |
| `Budget.MissingMetricNeverHelps` | internal/budget/budget.go:227-230 | Deleting a metric never turns Fail into anything else, nor Warn into Pass. |
| `Budget.MajorityPasses` | internal/budget/budget.go:184-248 | A bound met by more than half of the collecting runs passes. |
| `Budget.MajorityTrips` | internal/budget/budget.go:184-248 | A bound violated by more than half of them gives Warn at level warn and Fail at any other. |
| `Budget.OneNoisyRunCannotFlip` | internal/budget/budget.go:181-196 | One run, whatever it measured, cannot flip a line on which all others, two or more, agree. |
| `Budget.MajorityVerdict` | internal/budget/budget.go:202-248 | If most collecting runs meet every bound, the budget passes. |
| `History.Describe` | internal/api/rum.go:208-214 | Count, mean and percentiles of one list of values. |
| `History.GetHistory` | internal/store/store.go:481-528 | A line for every metric some recent result has, describing its values, and the two legacy averages. |
| `History.LinesAreOrdered` | internal/store/store.go:514-523 | min <= P50 <= P75 <= P95 <= max, and the average lies between min and max. |
| `JobOutcome.ProcessRuns` | internal/job/manager.go:294-402 | COMPLETED if and only if no attempt failed, FAILED if and only if some failed and none succeeded, PARTIAL otherwise; with the error of the last failing attempt, and for PARTIAL the number of clean runs and the sorted set of tiers that ever failed. |
| `JobOutcome.RunTiers` | internal/job/manager.go:311-381 | One run attempts every selected tier and counts, collects and remembers its failures. |
| `JobOutcome.TiersOfJob` | internal/job/manager.go:272-282 | A job that names no tier gets the network tier, "all" stands for all four, and otherwise the tiers it names are attempted, always in the order network, browser, vitals, lighthouse. |
| `JobOutcome.DeriveStatus` | internal/job/manager.go:454-469 | FAILED with the last error when every run failed, else PARTIAL with the counts, the failing tiers in order and the last error when a run was not clean, else COMPLETED without message. |
| `JobOutcome.SortedKeys` | internal/job/manager.go:472-479 | The keys, each once, in order. |
| `JobOutcome.CountsMean` | internal/job/manager.go:385-390 | The counts of clean and failed runs decide what all attempts together mean. |
| `JobOutcome.LogIsComplete` | internal/job/manager.go:311-381 | Every attempt of every selected tier is in the log, and nothing else. |
| `Labels.RenderLabels` | internal/metrics/metrics.go:90-115 | The loop writes the rendering of the pairs sorted by key, a missing value padded. |
| `Labels.PairsInWords` | internal/metrics/metrics.go:94-101 | Arguments 2i and 2i + 1 are pair i, and a last key without value gets INVALID. |
| `Labels.RenderedRoundTrip` | internal/metrics/metrics.go:103-114 | Reading a rendered list of pairs with identifier keys gives it back, values with backslash, quote and newline included. |
| `Labels.LabelsRoundTrip` | internal/metrics/metrics.go:90-115 | Reading rendered labels gives the pairs sorted by key with their original values. |
| `Labels.OrderDoesNotMatter` | internal/metrics/metrics.go:102 | For distinct keys the rendering does not depend on the order of the arguments. |
| `Labels.RenderingIsInjective` | internal/metrics/metrics.go:90-115 | Equal renderings come from the same pairs. |
| `Labels.OpenLabelsAppends` | internal/metrics/metrics.go:222-227 | Merging le into rendered labels equals rendering the pairs with le appended. |
| `Labels.BucketLabelsRoundTrip` | internal/metrics/metrics.go:222-233 | Bucket labels read back to the sorted pairs followed by le. |
| `Metrics.Registry.CounterAdd` | internal/metrics/metrics.go:123-130 | The registry stays the aggregate of its log. A negative amount changes nothing; any other is added to that series, and no other series changes. |
| `Metrics.Registry.GaugeSet` | internal/metrics/metrics.go:133-139 | The registry stays the aggregate of its log. The value of that series is the one set, the name is a gauge, and no other series changes. |
| `Metrics.Registry.Observe` | internal/metrics/metrics.go:151-168 | The registry stays the aggregate of its log. The value is added to the sum of that series and counted in total and in each of the eight buckets whose bound it does not exceed; the name is a histogram, and no other series changes. |
| `Metrics.Registry.Help` | internal/metrics/metrics.go:61-65 | Setting a help text records nothing and touches no other family. |
| `Metrics.ObserveInto` | internal/metrics/metrics.go:157-167 | After every observation each bucket holds the number of observed values at most its bound, with their sum and count. |
| `Metrics.WriteHistogram` | internal/metrics/metrics.go:220-241 | The lines written are those counts, cumulative, then the total as +Inf, sum and count. |
| `Metrics.BucketsNondecreasing` | internal/metrics/metrics.go:161-165 | Over ascending bounds, bucket counts never decrease and never exceed the total. |
| `Metrics.HistogramsCumulative` | internal/metrics/metrics.go:151-168 | After any log of operations the buckets of every histogram in the registry are nondecreasing and at most its count. |
| `Migrations.Database.Run` | internal/store/migrations/migrations.go:16-57 | A run that cannot start changes nothing; any other applies, in list order, the entries above the highest version on record, up to the first whose version is taken or whose transaction does not commit; that one is applied too if its commit was durable. It succeeds if and only if there is no such entry. |
| `Migrations.CurrentIsHighest` | internal/store/migrations/migrations.go:23-29 | The current version is the highest on record, and 0 if there is none. |
| `Migrations.RunFromPrefix` | internal/store/migrations/migrations.go:31-54 | A run on a prefix of the list, interrupted anywhere, ends on a prefix that is at least as long; a run that gets to the end has applied all. |
| `Migrations.InterruptedRuns` | internal/store/migrations/migrations.go:16-57 | Any number of interrupted runs of growing lists leaves a prefix applied, each migration once and in order. |
| `Migrations.UninterruptedBuildsAll` | internal/store/migrations/migrations.go:16-57 | An uninterrupted run applies every positive version once, in list order. |
| `Migrations.DescentIsNotSafe` | internal/store/migrations/migrations.go:23-32 | Two applicable versions out of order admit an interruption that no later run repairs. |
| `Migrations.CrashSafeIffAscending` | internal/store/migrations/migrations.go:16-57 | After every sequence of interrupted runs one successful run gives the schema of a single uninterrupted one, if and only if the applicable versions are strictly ascending. |

## Left out

- The collectors' work, Chrome, throttling profiles: a tier is an arbitrary success or failure, a run an arbitrary map of metrics.
- SQL text, JSON columns, row scanning and UUID generation: each statement is one atomic step on a map, ids are fresh by construction.
- The HTTP `DELETE` handler as a guarantee: its status check is not atomic with the claim of a worker, so the machine lets any row be deleted at any time.
- Rows written by the command line tool, which are terminal without `completed_at`.
- Liveness under failing store calls: a lost final update leaves a row RUNNING until restart by design; `JobOwnership.OwnedExactly` says which failures these are.
- Terminal statuses among themselves: a panic after the final update overwrites it with FAILED.
- The exit of workers and loops on shutdown: a stopped goroutine is one that takes no further step.
- The contents of a job other than its status, schedule and completion time; results, budget results and the payload of webhooks.
- JobManager.Manager.UpdateJobStatus: the error text and `started_at` are not part of a row.
- JobManager.Manager.PurgeOldJobs: the job table only, and its two statements are one moment; the deliveries deleted with the jobs are the deletion step of `Webhooks`.
- WebhookWorker.Dispatcher.SendOneWebhook: the start of a post, its answer and the update of the row are one moment; an update lost in between is one that was not persisted.
- Scheduling.Fairness: assumes that counts and advances succeed and the process lives; schedules created or enabled meanwhile count as arrivals.
- Webhooks.StarvationBound: assumes that updates are persisted and the process lives; deliveries enqueued meanwhile count as arrivals.
- Starvation.BoundIsAttained: for k that is no multiple of ten it is not said which of the at most five values from its count to the bound is the maximum.
- LayoutShift.Observer.OnEntries: shifts that count have scores that are not negative, as a browser reports them.
- LayoutShift.TwoSessionsOnly: positive shifts, since each shift of value 0 that opens no session counts as one of its own.
- Labels.RenderLabels: the escapes of backslash, quote and newline only, not those `%q` has for other control characters.
- Labels.LabelsRoundTrip: keys are distinct identifiers, as every caller passes them.
- Metrics.Registry.Observe: series and families are values inside the registry's map, so sharing of a series by reference is not captured.
- Function-backed gauges and the traversal of all families by `Write`.
- Float rounding and NaN: arithmetic is over `real`.
- Stats.SortInPlace: insertion sort stands for the library's sort; its result is proved, its algorithm is not the library's.
- TBT and LCP observers, user interface, authentication, configuration, reports, URL validation.
