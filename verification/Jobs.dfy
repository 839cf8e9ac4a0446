/**
 The daemon's coordination (internal/job/manager.go, internal/job/scheduler.go):
 submitters, cancellers, a pool of workers, the scheduler, retention and restarts
 share a bounded queue, the set `pendingJobs` behind a mutex, and the tables of
 jobs and schedules. Every lock section, channel operation and store call is one
 step; CancelJob, which calls the store with the mutex held, is two steps that
 keep every other lock section out.
 */
module Jobs {
  import opened Wrappers
  import opened Selection

  const SCHEDULER_BATCH := 20
  const MIN_SCHEDULE_INTERVAL := 60.0

  type Id = nat
  type ScheduleId = nat

  datatype Status = Pending | Running | Completed | Partial | Failed | Timeout {
    predicate Active() {
      Pending? || Running?
    }
  }

  datatype Row = Row(status: Status, schedule: Option<ScheduleId>, completedAt: Option<real>)

  datatype Schedule = Schedule(enabled: bool, interval: real, lastRun: Option<real>, nextRun: real)

  /** Where a call of SubmitJob stands. */
  datatype Phase =
    | Created  // the row is inserted
    | Registered  // the id is in pendingJobs
    | Passed  // the manager was not shutting down
    | Rejecting
    | Dropping  // out of pendingJobs again, the row still to be deleted

  datatype Worker =
    | Idle
    | Dequeued(id: Id)
    | Claimed(id: Id)  // it was in pendingJobs: processJob is entered
    | Processing(id: Id)  // the row is RUNNING
    | Finishing(id: Id)  // the final update is behind it
    | Panicked(id: Id)

  datatype Due = Due(id: ScheduleId, interval: real)

  datatype Stage = Look | Ready | Submitting(id: Id) | Mark

  /** A tick of the scheduler: the schedule being handled, the others still to come. */
  datatype Scheduler = Asleep | Busy(now: real, head: Due, rest: seq<Due>, stage: Stage)

  datatype State = State(
    jobs: map<Id, Row>,
    schedules: map<ScheduleId, Schedule>,
    clock: real,
    depth: nat,
    queue: seq<Id>,
    pending: set<Id>,
    canceller: Option<Id>,  // the mutex is held by a CancelJob that still has to delete this row
    submits: map<Id, Phase>,
    workers: seq<Worker>,
    scheduler: Scheduler,
    stopping: bool,
    used: set<Id>,  // history: every id ever generated
    started: seq<Id>,  // history: the ids handed to processJob
    cancelled: set<Id>,  // history: the ids CancelJob took out of pendingJobs
    submittedAt: map<ScheduleId, real>,  // history: the tick that last submitted a job of the schedule
    intervals: map<ScheduleId, real>)  // history: every schedule ever created

  /** SubmitJob */
  datatype SubmitStep =
    | Create(outcome: Outcome)
    | CreateScheduled(outcome: Outcome)
    | Register
    | CheckStop
    | Enqueue
    | Unregister
    | Drop(outcome: Outcome)

  /** worker and processJob */
  datatype WorkStep =
    | Dequeue
    | Claim
    | Begin(outcome: Outcome)
    | Finish(status: Status, outcome: Outcome)
    | Done
    | Panic
    | PanicFail(outcome: Outcome)

  /** runDueSchedules */
  datatype TickStep =
    | Query(due: seq<ScheduleId>)
    | Count(read: bool)
    | Advance(outcome: Outcome)  // MarkScheduleRun

  /** Everyone else. */
  datatype OtherStep =
    | CancelBegin(id: Id)
    | CancelFinish(outcome: Outcome)
    | DeleteRow(id: Id)  // the trailing DeleteJob of the HTTP handler
    | Purge(cutoff: real)
    | CreateSchedule(sid: ScheduleId, schedule: Schedule)
    | DeleteSchedule(sid: ScheduleId)
    | SetEnabled(sid: ScheduleId, enabled: bool)
    | Clock(now: real)
    | Stop
    | Restart(recovered: Outcome, workerCount: nat, queueDepth: nat)

  datatype Action =
    | Submit(id: Id, submit: SubmitStep)
    | Work(w: nat, work: WorkStep)
    | Tick(tick: TickStep)
    | Other(other: OtherStep)

  // ----- the tables -----

  /** UPDATE jobs SET status, completed_at WHERE id: a missing row is not an error. */
  function Updated(jobs: map<Id, Row>, id: Id, status: Status, now: real, outcome: Outcome): (after: map<Id, Row>)
    ensures after.Keys == jobs.Keys && forall x :: x in jobs && x != id ==> after[x] == jobs[x]
  {
    if outcome.Effective() && id in jobs then
      jobs[id := jobs[id].(status := status,
        completedAt := if status.Active() then jobs[id].completedAt else Some(now))]
    else jobs
  }

  function Deleted(jobs: map<Id, Row>, id: Id, outcome: Outcome): map<Id, Row> {
    if outcome.Effective() then jobs - {id} else jobs
  }

  /** RecoverInterruptedJobs */
  function Recovered(jobs: map<Id, Row>, now: real, outcome: Outcome): map<Id, Row> {
    map id | id in jobs ::
      if outcome.Effective() && jobs[id].status.Active() then jobs[id].(status := Failed, completedAt := Some(now))
      else jobs[id]
  }

  /** PurgeOldJobs */
  function Purged(jobs: map<Id, Row>, cutoff: real): map<Id, Row> {
    map id | id in jobs && !(jobs[id].completedAt.Some? && jobs[id].completedAt.value < cutoff) :: jobs[id]
  }

  /** CountActiveJobsForSchedule > 0 */
  predicate SomeActive(jobs: map<Id, Row>, sid: ScheduleId) {
    exists id | id in jobs :: jobs[id].status.Active() && jobs[id].schedule == Some(sid)
  }

  predicate IsDue(schedule: Schedule, now: real) {
    schedule.enabled && schedule.nextRun <= now
  }

  /** The schedules that are due, and since when. */
  function DueTimes(schedules: map<ScheduleId, Schedule>, now: real): map<ScheduleId, real> {
    map id | id in schedules && IsDue(schedules[id], now) :: schedules[id].nextRun
  }

  /** GetDueSchedules: the earliest due schedules, at most a batch of them. */
  predicate PicksDue(schedules: map<ScheduleId, Schedule>, now: real, due: seq<ScheduleId>) {
    Earliest(DueTimes(schedules, now), SCHEDULER_BATCH, due)
  }

  /** The query in the terms of the table. */
  lemma PicksDueInWords(schedules: map<ScheduleId, Schedule>, now: real, due: seq<ScheduleId>)
    ensures PicksDue(schedules, now, due) <==> (
      && |due| <= 20
      && (forall i :: 0 <= i < |due| ==>
        due[i] in schedules && schedules[due[i]].enabled && schedules[due[i]].nextRun <= now)
      && (forall i, j :: 0 <= i < j < |due| ==>
        due[i] != due[j] && schedules[due[i]].nextRun <= schedules[due[j]].nextRun)
      && (forall x :: x in schedules && x !in due && schedules[x].enabled && schedules[x].nextRun <= now ==>
        |due| == 20 && forall i :: 0 <= i < |due| ==> schedules[due[i]].nextRun <= schedules[x].nextRun))
  {}

  lemma PickedAreDue(schedules: map<ScheduleId, Schedule>, now: real, due: seq<ScheduleId>)
    requires PicksDue(schedules, now, due)
    ensures forall i, j :: 0 <= i < j < |due| ==> due[i] != due[j]
    ensures forall i :: 0 <= i < |due| ==> due[i] in schedules && IsDue(schedules[due[i]], now)
  {}

  function DueList(schedules: map<ScheduleId, Schedule>, due: seq<ScheduleId>): (list: seq<Due>)
    requires forall i :: 0 <= i < |due| ==> due[i] in schedules
    ensures |list| == |due|
    ensures forall i :: 0 <= i < |due| ==> list[i] == Due(due[i], schedules[due[i]].interval)
  {
    seq(|due|, i requires 0 <= i < |due| => Due(due[i], schedules[due[i]].interval))
  }

  /** UPDATE schedules SET last_run_at, next_run_at WHERE id: a missing row is not an error. */
  function Marked(schedules: map<ScheduleId, Schedule>, due: Due, now: real, outcome: Outcome)
    : map<ScheduleId, Schedule>
  {
    if outcome.Effective() && due.id in schedules then
      schedules[due.id := schedules[due.id].(lastRun := Some(now), nextRun := now + due.interval)]
    else schedules
  }

  function Resume(now: real, list: seq<Due>): Scheduler {
    if list == [] then Asleep else Busy(now, list[0], list[1..], Look)
  }

  /** The scheduler waits for its own submission only. */
  function Returned(scheduler: Scheduler, id: Id): Scheduler {
    if scheduler.Busy? && scheduler.stage == Submitting(id) then scheduler.(stage := Mark) else scheduler
  }

  predicate Submits(scheduler: Scheduler, id: Id) {
    scheduler.Busy? && scheduler.stage == Submitting(id)
  }

  // ----- the steps -----

  predicate At(s: State, id: Id, phase: Phase) {
    id in s.submits && s.submits[id] == phase
  }

  predicate Unlocked(s: State) {
    s.canceller.None?
  }

  /** Calls with the manager's own context cannot succeed once it is cancelled. */
  predicate Possible(s: State, outcome: Outcome) {
    s.stopping ==> !outcome.Ok?
  }

  predicate SubmitEnabled(s: State, id: Id, step: SubmitStep) {
    match step
    case Create(outcome) => id !in s.used
    case CreateScheduled(outcome) =>
      id !in s.used && s.scheduler.Busy? && s.scheduler.stage.Ready? && Possible(s, outcome)
    case Register => At(s, id, Created) && Unlocked(s)
    case CheckStop => At(s, id, Registered)
    case Enqueue => At(s, id, Passed)
    case Unregister => At(s, id, Rejecting) && Unlocked(s)
    case Drop(outcome) => At(s, id, Dropping) && (Submits(s.scheduler, id) ==> Possible(s, outcome))
  }

  function SubmitNext(s: State, id: Id, step: SubmitStep): State
    requires SubmitEnabled(s, id, step)
  {
    match step
    case Create(outcome) =>
      s.(used := s.used + {id},
        jobs := if outcome.Effective() then s.jobs[id := Row(Pending, None, None)] else s.jobs,
        submits := if outcome.Ok? then s.submits[id := Created] else s.submits)
    case CreateScheduled(outcome) =>
      var sid := s.scheduler.head.id;
      s.(used := s.used + {id},
        jobs := if outcome.Effective() then s.jobs[id := Row(Pending, Some(sid), None)] else s.jobs,
        submits := if outcome.Ok? then s.submits[id := Created] else s.submits,
        scheduler := s.scheduler.(stage := if outcome.Ok? then Submitting(id) else Mark),
        submittedAt := if outcome.Effective() then s.submittedAt[sid := s.scheduler.now] else s.submittedAt)
    case Register =>
      s.(pending := s.pending + {id}, submits := s.submits[id := Registered])
    case CheckStop =>
      s.(submits := s.submits[id := if s.stopping then Rejecting else Passed])
    case Enqueue =>
      if |s.queue| < s.depth then
        s.(queue := s.queue + [id], submits := s.submits - {id}, scheduler := Returned(s.scheduler, id))
      else
        s.(submits := s.submits[id := Rejecting])
    case Unregister =>
      s.(pending := s.pending - {id}, submits := s.submits[id := Dropping])
    case Drop(outcome) =>
      s.(jobs := Deleted(s.jobs, id, outcome), submits := s.submits - {id}, scheduler := Returned(s.scheduler, id))
  }

  predicate WorkEnabled(s: State, w: nat, step: WorkStep) {
    && w < |s.workers|
    && var me := s.workers[w];
      match step
      case Dequeue => me.Idle? && s.queue != []
      case Claim => me.Dequeued? && Unlocked(s)
      case Begin(outcome) => me.Claimed? && Possible(s, outcome)
      case Finish(status, outcome) => me.Processing? && !status.Active() && Possible(s, outcome)
      case Done => me.Finishing?
      case Panic => me.Claimed? || me.Processing? || me.Finishing?
      case PanicFail(outcome) => me.Panicked? && Possible(s, outcome)
  }

  function WorkNext(s: State, w: nat, step: WorkStep): State
    requires WorkEnabled(s, w, step)
  {
    var me := s.workers[w];
    match step
    case Dequeue =>
      s.(queue := s.queue[1..], workers := s.workers[w := Dequeued(s.queue[0])])
    case Claim =>
      if me.id in s.pending then
        s.(pending := s.pending - {me.id}, workers := s.workers[w := Claimed(me.id)], started := s.started + [me.id])
      else
        s.(workers := s.workers[w := Idle])
    case Begin(outcome) =>
      s.(jobs := Updated(s.jobs, me.id, Running, s.clock, outcome),
        workers := s.workers[w := if outcome.Ok? then Processing(me.id) else Idle])
    case Finish(status, outcome) =>
      s.(jobs := Updated(s.jobs, me.id, status, s.clock, outcome), workers := s.workers[w := Finishing(me.id)])
    case Done =>
      s.(workers := s.workers[w := Idle])
    case Panic =>
      s.(workers := s.workers[w := Panicked(me.id)])
    case PanicFail(outcome) =>
      s.(jobs := Updated(s.jobs, me.id, Failed, s.clock, outcome), workers := s.workers[w := Idle])
  }

  predicate TickEnabled(s: State, step: TickStep) {
    match step
    case Query(due) => s.scheduler.Asleep? && !s.stopping && PicksDue(s.schedules, s.clock, due)
    case Count(read) => s.scheduler.Busy? && s.scheduler.stage.Look? && (s.stopping ==> !read)
    case Advance(outcome) => s.scheduler.Busy? && s.scheduler.stage.Mark? && Possible(s, outcome)
  }

  function TickNext(s: State, step: TickStep): State
    requires TickEnabled(s, step)
  {
    match step
    case Query(due) =>
      s.(scheduler := Resume(s.clock, DueList(s.schedules, due)))
    case Count(read) =>
      if !read then s.(scheduler := Resume(s.scheduler.now, s.scheduler.rest))
      else s.(scheduler := s.scheduler.(stage := if SomeActive(s.jobs, s.scheduler.head.id) then Mark else Ready))
    case Advance(outcome) =>
      var now, head := s.scheduler.now, s.scheduler.head;
      s.(scheduler := Resume(now, s.scheduler.rest),
        schedules := Marked(s.schedules, head, now, outcome))
  }

  predicate OtherEnabled(s: State, step: OtherStep) {
    match step
    case CancelBegin(id) => Unlocked(s)
    case CancelFinish(outcome) => s.canceller.Some?
    case CreateSchedule(sid, schedule) => sid !in s.intervals && MIN_SCHEDULE_INTERVAL <= schedule.interval
    case Clock(now) => s.clock <= now
    case _ => true
  }

  function OtherNext(s: State, step: OtherStep): State
    requires OtherEnabled(s, step)
  {
    match step
    case CancelBegin(id) =>
      if id in s.pending then
        s.(pending := s.pending - {id}, cancelled := s.cancelled + {id}, canceller := Some(id))
      else s
    case CancelFinish(outcome) =>
      s.(jobs := Deleted(s.jobs, s.canceller.value, outcome), canceller := None)
    case DeleteRow(id) => s.(jobs := s.jobs - {id})
    case Purge(cutoff) => s.(jobs := Purged(s.jobs, cutoff))
    case CreateSchedule(sid, schedule) =>
      s.(schedules := s.schedules[sid := schedule], intervals := s.intervals[sid := schedule.interval])
    case DeleteSchedule(sid) => s.(schedules := s.schedules - {sid})
    case SetEnabled(sid, enabled) =>
      s.(schedules :=
        if sid in s.schedules then s.schedules[sid := s.schedules[sid].(enabled := enabled)] else s.schedules)
    case Clock(now) => s.(clock := now)
    case Stop => s.(stopping := true)
    case Restart(recovered, workerCount, queueDepth) =>
      s.(jobs := Recovered(s.jobs, s.clock, recovered),
        queue := [], pending := {}, canceller := None, submits := map[],
        workers := seq(workerCount, _ => Idle), depth := queueDepth, scheduler := Asleep, stopping := false)
  }

  predicate Enabled(s: State, a: Action) {
    match a
    case Submit(id, step) => SubmitEnabled(s, id, step)
    case Work(w, step) => WorkEnabled(s, w, step)
    case Tick(step) => TickEnabled(s, step)
    case Other(step) => OtherEnabled(s, step)
  }

  function Next(s: State, a: Action): State
    requires Enabled(s, a)
  {
    match a
    case Submit(id, step) => SubmitNext(s, id, step)
    case Work(w, step) => WorkNext(s, w, step)
    case Tick(step) => TickNext(s, step)
    case Other(step) => OtherNext(s, step)
  }

  predicate Initial(s: State) {
    && s.jobs == map[] && s.schedules == map[] && s.queue == [] && s.pending == {} && s.canceller == None
    && s.submits == map[] && (forall w :: 0 <= w < |s.workers| ==> s.workers[w].Idle?) && s.scheduler == Asleep
    && s.used == {} && s.started == [] && s.cancelled == {} && s.submittedAt == map[] && s.intervals == map[]
    && !s.stopping
  }

  // ----- runs -----

  ghost predicate IsRun(run: seq<State>, actions: seq<Action>) {
    && |run| == |actions| + 1
    && forall i :: 0 <= i < |actions| ==> Steps(run, actions, i)
  }

  ghost predicate Steps(run: seq<State>, actions: seq<Action>, i: nat)
    requires i < |actions| && i + 1 < |run|
  {
    Enabled(run[i], actions[i]) && run[i + 1] == Next(run[i], actions[i])
  }

  lemma RunAppend(run: seq<State>, actions: seq<Action>, a: Action)
    requires IsRun(run, actions) && Enabled(run[|run| - 1], a)
    ensures IsRun(run + [Next(run[|run| - 1], a)], actions + [a])
  {
    hide Enabled, Next;
    var run', actions' := run + [Next(run[|run| - 1], a)], actions + [a];
    forall i: nat | i < |actions'|
      ensures Steps(run', actions', i)
    {
      if i < |actions| {
        assert Steps(run, actions, i);
      }
    }
  }

  ghost predicate Goes(s: State, a: Action, t: State) {
    Enabled(s, a) && Next(s, a) == t
  }

  lemma Extend(run: seq<State>, actions: seq<Action>, a: Action, t: State)
    returns (run': seq<State>, actions': seq<Action>)
    requires IsRun(run, actions) && Goes(run[|run| - 1], a, t)
    ensures IsRun(run', actions') && run' == run + [t] && actions' == actions + [a]
  {
    RunAppend(run, actions, a);
    run', actions' := run + [t], actions + [a];
  }
}
