/**
 The code of the manager (internal/job/manager.go), one goroutine at a time. Each
 method is a sequence of steps of the machine in module Jobs; between any two of
 them the other goroutines take steps of their own, given by a script, so what a
 method promises holds under every interleaving.
 */
module JobManager {
  import opened Wrappers
  import opened Jobs
  import opened JobSafety
  import opened JobTables
  import opened Selection
  import JobOutcome

  datatype Actor = Bystander | Submitter(id: Id) | Canceller | Server(w: nat) | Ticker

  /** The steps the goroutine takes itself; while it runs, the process does not die. */
  predicate Mine(me: Actor, a: Action) {
    || (a.Other? && a.other.Restart?)
    || match me
       case Bystander => false
       case Submitter(id) => a.Submit? && a.id == id
       case Canceller => a.Other? && a.other.CancelFinish?
       case Server(w) => a.Work? && a.w == w
       case Ticker => a.Tick? || (a.Submit? && a.submit.CreateScheduled?)
  }

  /** Only the scheduler itself advances a schedule. */
  ghost predicate NoneAdvanced(s: State, t: State) {
    forall x :: x in t.schedules && x in s.intervals ==>
      x in s.schedules && t.schedules[x].nextRun == s.schedules[x].nextRun
        && t.schedules[x].interval == s.schedules[x].interval
  }

  ghost predicate Later(s: State, t: State) {
    && s.used <= t.used && s.started <= t.started && s.cancelled <= t.cancelled && s.intervals.Keys <= t.intervals.Keys
    && s.clock <= t.clock && (s.stopping ==> t.stopping)
  }

  /** What the goroutine has is still as it left it; only the row may have been deleted. */
  ghost predicate SamePlace(s: State, t: State, me: Actor) {
    match me
    case Bystander => true
    case Submitter(id) =>
      && (id in t.submits <==> id in s.submits) && (id in s.submits ==> t.submits[id] == s.submits[id])
      && (Submits(t.scheduler, id) <==> Submits(s.scheduler, id))
      && (Submits(s.scheduler, id) ==>
        t.scheduler == s.scheduler && t.submittedAt == s.submittedAt && NoneAdvanced(s, t))
    case Canceller =>
      s.canceller.Some? ==> t.canceller == s.canceller
    case Server(w) =>
      w < |s.workers| ==>
        && w < |t.workers| && t.workers[w] == s.workers[w]
        && (!s.workers[w].Idle? ==> SameRow(s.jobs, t.jobs, s.workers[w].id))
    case Ticker =>
      !(s.scheduler.Busy? && s.scheduler.stage.Submitting?) ==>
        t.scheduler == s.scheduler && t.submittedAt == s.submittedAt && NoneAdvanced(s, t)
  }

  ghost predicate SameRow(jobs: map<Id, Row>, jobs': map<Id, Row>, id: Id) {
    id in jobs' ==> id in jobs && jobs'[id] == jobs[id]
  }

  ghost predicate Undisturbed(s: State, t: State, me: Actor) {
    Later(s, t) && SamePlace(s, t, me)
  }

  lemma UndisturbedTwice(s: State, t: State, u: State, me: Actor)
    requires Undisturbed(s, t, me) && Undisturbed(t, u, me)
    ensures Undisturbed(s, u, me)
  {}

  lemma SubmitIsLater(s: State, id: Id, step: SubmitStep)
    requires SubmitEnabled(s, id, step)
    ensures Later(s, SubmitNext(s, id, step))
  {}

  lemma SubmitDisturbsNone(s: State, id: Id, step: SubmitStep, me: Actor)
    requires Inv(s) && SubmitEnabled(s, id, step) && !Mine(me, Submit(id, step))
    requires me.Submitter? ==> me.id in s.used
    ensures SamePlace(s, SubmitNext(s, id, step), me)
  {
    hide Inv, SubmitNext, SubmitEnabled, Mine, SamePlace;
    match me
    case Bystander => BystandersStay(s, SubmitNext(s, id, step));
    case Submitter(other) => SubmitLeavesSubmitters(s, id, step, other);
    case Canceller => SubmitLeavesCanceller(s, id, step);
    case Server(w) => SubmitLeavesWorkers(s, id, step, w);
    case Ticker => SubmitLeavesTicker(s, id, step);
  }

  lemma BystandersStay(s: State, t: State)
    ensures SamePlace(s, t, Bystander)
  {}

  lemma SubmitLeavesSubmitters(s: State, id: Id, step: SubmitStep, other: Id)
    requires Inv(s) && SubmitEnabled(s, id, step) && !Mine(Submitter(other), Submit(id, step)) && other in s.used
    ensures SamePlace(s, SubmitNext(s, id, step), Submitter(other))
  {
    hide Inv, SubmitNext, SubmitEnabled;
    SubmitFrames(s, id, step);
    SubmitLeavesTick(s, id, step, other);
  }

  lemma SubmitLeavesTick(s: State, id: Id, step: SubmitStep, other: Id)
    requires SubmitEnabled(s, id, step) && id != other
    ensures var t := SubmitNext(s, id, step);
      && (Submits(t.scheduler, other) <==> Submits(s.scheduler, other)) && t.schedules == s.schedules
      && (Submits(s.scheduler, other) ==> t.scheduler == s.scheduler && t.submittedAt == s.submittedAt)
  {
    hide Deleted, Possible, Unlocked;
    if |s.queue| < s.depth {
    } else {
    }
  }

  lemma SubmitLeavesCanceller(s: State, id: Id, step: SubmitStep)
    requires Inv(s) && SubmitEnabled(s, id, step)
    ensures SamePlace(s, SubmitNext(s, id, step), Canceller)
  {
    hide SubmitNext, SubmitEnabled;
    SubmitSubmitsOne(s, id, step);
  }

  lemma SubmitLeavesTicker(s: State, id: Id, step: SubmitStep)
    requires SubmitEnabled(s, id, step) && !Mine(Ticker, Submit(id, step))
    requires Inv(s)
    ensures SamePlace(s, SubmitNext(s, id, step), Ticker)
  {
    SchedulesKnown(s);
    hide Inv;
  }

  lemma SubmitLeavesWorkers(s: State, id: Id, step: SubmitStep, w: nat)
    requires Inv(s) && SubmitEnabled(s, id, step)
    ensures SamePlace(s, SubmitNext(s, id, step), Server(w))
  {
    hide SubmitNext, SubmitEnabled;
    assert Known(s) && Exclusive(s);
    hide Inv;
    SubmitSubmitsOne(s, id, step);
  }

  lemma WorkIsLater(s: State, w: nat, step: WorkStep)
    requires WorkEnabled(s, w, step)
    ensures Later(s, WorkNext(s, w, step))
  {
    hide WorkNext;
    WorkMovesOne(s, w, step);
  }

  lemma WorkDisturbsNone(s: State, w: nat, step: WorkStep, me: Actor)
    requires Inv(s) && WorkEnabled(s, w, step) && !Mine(me, Work(w, step))
    ensures SamePlace(s, WorkNext(s, w, step), me)
  {
    WorkMovesOne(s, w, step);
    assert Exclusive(s);
    assert WorkNext(s, w, step).schedules == s.schedules;
    hide Inv, WorkNext, WorkEnabled, Submits;
  }

  lemma TickDisturbsNone(s: State, step: TickStep, me: Actor)
    requires Inv(s) && TickEnabled(s, step) && !Mine(me, Tick(step))
    ensures Undisturbed(s, TickNext(s, step), me)
  {
    hide Inv, PicksDue, SomeActive;
    TickFrame(s, step);
  }

  lemma OtherDisturbsNone(s: State, step: OtherStep, me: Actor)
    requires OtherEnabled(s, step) && !Mine(me, Other(step))
    ensures SamePlace(s, OtherNext(s, step), me)
  {
    hide OtherNext, OtherEnabled, SameRow, NoneAdvanced;
    OtherKeepsPlaces(s, step);
    forall id
      ensures SameRow(s.jobs, OtherNext(s, step).jobs, id)
    {
      OtherKeepsRow(s, step, id);
    }
  }

  lemma OtherKeepsPlaces(s: State, step: OtherStep)
    requires OtherEnabled(s, step) && !step.Restart?
    ensures var t := OtherNext(s, step);
      && t.submits == s.submits && t.workers == s.workers
      && t.scheduler == s.scheduler && t.submittedAt == s.submittedAt
      && (s.canceller.Some? && !step.CancelFinish? ==> t.canceller == s.canceller) && NoneAdvanced(s, t)
  {
    hide Purged, Deleted, Recovered;
  }

  lemma OtherKeepsRow(s: State, step: OtherStep, id: Id)
    requires OtherEnabled(s, step) && !step.Restart?
    ensures SameRow(s.jobs, OtherNext(s, step).jobs, id)
  {}

  lemma OtherIsLater(s: State, step: OtherStep)
    requires OtherEnabled(s, step)
    ensures Later(s, OtherNext(s, step)) || step.Restart?
  {}

  lemma StepDisturbsNone(s: State, a: Action, me: Actor)
    requires Inv(s) && Enabled(s, a) && !Mine(me, a)
    requires me.Submitter? ==> me.id in s.used
    ensures Undisturbed(s, Next(s, a), me)
  {
    hide Inv, Later, SamePlace, SubmitEnabled, SubmitNext, WorkEnabled, WorkNext, TickEnabled, TickNext, OtherEnabled,
      OtherNext;
    match a
    case Submit(id, step) =>
      SubmitIsLater(s, id, step);
      SubmitDisturbsNone(s, id, step, me);
    case Work(w, step) =>
      WorkIsLater(s, w, step);
      WorkDisturbsNone(s, w, step, me);
    case Tick(step) =>
      TickDisturbsNone(s, step, me);
    case Other(step) =>
      OtherIsLater(s, step);
      OtherDisturbsNone(s, step, me);
  }

  /** A store call with the manager's own context fails once that is cancelled. */
  function Under(done: bool, outcome: Outcome): Outcome {
    if done && outcome.Ok? then Lost else outcome
  }

  /** GetDueSchedules */
  method SelectDue(schedules: map<ScheduleId, Schedule>, now: real) returns (due: seq<ScheduleId>)
    ensures PicksDue(schedules, now, due)
  {
    due := Select(DueTimes(schedules, now), SCHEDULER_BATCH);
  }

  ghost predicate Still(s: State, t: State) {
    Later(s, t) && NoneAdvanced(s, t) && t.submittedAt == s.submittedAt
  }

  lemma StillTwice(s: State, t: State, u: State)
    requires Still(s, t) && Still(t, u)
    ensures Still(s, u)
  {}

  /** What became of one schedule in a tick. */
  datatype Visit = Visit(counted: bool, active: bool, submitted: bool, advanced: bool)

  /**
   What the store calls of a visit decide: a job is inserted exactly if the count was
   read as zero and the insert took effect, and the schedule moves on exactly if the
   count was read and the update took effect. During shutdown calls fail that would
   have succeeded.
   */
  ghost predicate Decided(v: Visit, count: bool, inserted: Outcome, marked: Outcome, stopping: bool) {
    && (v.counted ==> count) && (v.active ==> v.counted)
    && (v.submitted ==> v.counted && !v.active && inserted.Effective())
    && (v.advanced ==> v.counted && marked.Effective())
    && (!stopping ==>
      && v.counted == count
      && (v.submitted <==> v.counted && !v.active && inserted.Effective())
      && (v.advanced <==> v.counted && marked.Effective()))
  }

  /** At step m of the run the scheduler counted the active jobs of the schedule and found what `active` says. */
  ghost predicate CountsAt(run: seq<State>, m: nat, sid: ScheduleId, active: bool)
    requires m < |run|
  {
    && run[m].scheduler.Busy? && run[m].scheduler.head.id == sid && run[m].scheduler.stage.Look?
    && (active <==> exists id :: ActiveFor(run[m].jobs, id, sid))
  }

  ghost predicate Counted(run: seq<State>, from: nat, sid: ScheduleId, active: bool) {
    exists m: nat :: from <= m < |run| && CountsAt(run, m, sid, active)
  }

  lemma CountedStays(run: seq<State>, run': seq<State>, from: nat, from': nat, sid: ScheduleId, active: bool)
    requires run <= run' && from' <= from && Counted(run, from, sid, active)
    ensures Counted(run', from', sid, active)
  {
    var m: nat :| from <= m < |run| && CountsAt(run, m, sid, active);
    assert CountsAt(run', m, sid, active);
  }

  /** Step m of the run inserts a job for the schedule. */
  ghost predicate InsertsAt(run: seq<State>, m: nat, id: Id, sid: ScheduleId)
    requires m + 1 < |run|
  {
    id !in run[m].jobs && id in run[m + 1].jobs && run[m + 1].jobs[id] == Row(Pending, Some(sid), None)
  }

  ghost predicate Inserted(run: seq<State>, from: nat, sid: ScheduleId) {
    exists m: nat, id: Id :: from <= m && m + 1 < |run| && InsertsAt(run, m, id, sid)
  }

  lemma InsertedStays(run: seq<State>, run': seq<State>, from: nat, from': nat, sid: ScheduleId)
    requires run <= run' && from' <= from && Inserted(run, from, sid)
    ensures Inserted(run', from', sid)
  {
    var m: nat, id: Id :| from <= m && m + 1 < |run| && InsertsAt(run, m, id, sid);
    assert InsertsAt(run', m, id, sid);
  }

  /** The table after one visit: nothing but this schedule's next run, and that only if it was advanced. */
  ghost predicate Visited(s: State, t: State, due: Due, now: real, v: Visit) {
    && Later(s, t)
    && (forall x :: x in t.schedules && x in s.intervals ==>
      && x in s.schedules && t.schedules[x].interval == s.schedules[x].interval
      && t.schedules[x].nextRun == if x == due.id && v.advanced then now + due.interval else s.schedules[x].nextRun)
    && t.submittedAt == if v.submitted then s.submittedAt[due.id := now] else s.submittedAt
  }

  lemma StillVisited(s: State, t: State, due: Due, now: real, counted: bool, active: bool)
    requires Still(s, t)
    ensures Visited(s, t, due, now, Visit(counted, active, false, false))
  {}

  lemma VisitedStill(s: State, t: State, u: State, due: Due, now: real, v: Visit)
    requires Visited(s, t, due, now, v) && Still(t, u)
    ensures Visited(s, u, due, now, v)
  {}

  lemma VisitedThenMarked(s: State, t: State, u: State, due: Due, now: real, v: Visit, advanced: bool)
    requires Visited(s, t, due, now, v) && !v.advanced
    requires Visited(t, u, due, now, Visit(true, v.active, false, advanced))
    ensures Visited(s, u, due, now, v.(advanced := advanced))
  {}

  /** Visits in a tick that began in s, for the first schedules of its list. */
  ghost predicate Handled(s: State, t: State, due: seq<ScheduleId>, visits: seq<Visit>) {
    && |visits| <= |due| && Later(s, t)
    && (forall x :: x in t.schedules && x in s.intervals ==>
      && x in s.schedules && t.schedules[x].interval == s.schedules[x].interval
      && (x !in due[..|visits|] ==> t.schedules[x].nextRun == s.schedules[x].nextRun))
    && (forall k :: 0 <= k < |visits| ==> NextRunAfter(s, t, due[k], visits[k]))
    && (forall x :: x !in due[..|visits|] ==> SameSubmission(s, t, x))
    && (forall k :: 0 <= k < |visits| ==>
      if visits[k].submitted then due[k] in t.submittedAt && t.submittedAt[due[k]] == s.clock
        else SameSubmission(s, t, due[k]))
  }

  ghost predicate NextRunAfter(s: State, t: State, id: ScheduleId, v: Visit) {
    id in s.schedules && id in t.schedules ==>
      t.schedules[id].nextRun == if v.advanced then s.clock + s.schedules[id].interval else s.schedules[id].nextRun
  }

  /** No job of the schedule was submitted in between. */
  ghost predicate SameSubmission(s: State, t: State, id: ScheduleId) {
    (id in t.submittedAt <==> id in s.submittedAt) && (id in s.submittedAt ==> t.submittedAt[id] == s.submittedAt[id])
  }

  ghost predicate TakenOnce(schedules: map<ScheduleId, Schedule>, due: seq<ScheduleId>) {
    && (forall k, l :: 0 <= k < l < |due| ==> due[k] != due[l])
    && (forall k :: 0 <= k < |due| ==> due[k] in schedules)
  }

  lemma PickedOnce(schedules: map<ScheduleId, Schedule>, now: real, due: seq<ScheduleId>)
    requires PicksDue(schedules, now, due)
    ensures TakenOnce(schedules, due)
  {}

  lemma SchedulesKnown(s: State)
    requires Inv(s)
    ensures SchedulesSound(s.schedules, s.intervals)
  {
    assert SchedulerSound(s);
  }

  lemma NoneHandled(s: State, t: State, due: seq<ScheduleId>)
    requires Still(s, t) || s == t
    requires SchedulesSound(s.schedules, s.intervals)
    ensures Handled(s, t, due, [])
  {}

  lemma HandledOneMore(s: State, t: State, u: State, due: seq<ScheduleId>, visits: seq<Visit>, v: Visit)
    requires |visits| < |due| && TakenOnce(s.schedules, due)
    requires SchedulesSound(s.schedules, s.intervals) && Handled(s, t, due, visits)
    requires Visited(t, u, Due(due[|visits|], s.schedules[due[|visits|]].interval), s.clock, v)
    ensures Handled(s, u, due, visits + [v])
  {
    var i := |visits|;
    assert due[..i + 1] == due[..i] + [due[i]];
    assert due[i] !in due[..i];
    forall k | 0 <= k <= i
      ensures NextRunAfter(s, u, due[k], (visits + [v])[k])
      ensures if (visits + [v])[k].submitted then due[k] in u.submittedAt && u.submittedAt[due[k]] == s.clock
        else SameSubmission(s, u, due[k])
    {
      assert k < i ==> NextRunAfter(s, t, due[k], visits[k]) && due[k] != due[i];
    }
    forall x | x !in due[..i + 1]
      ensures SameSubmission(s, u, x)
    {
      assert SameSubmission(s, t, x);
    }
  }

  ghost predicate AllDecided(visits: seq<Visit>, counts: nat -> bool, inserted: nat -> Outcome, marked: nat -> Outcome,
      stopping: bool)
  {
    forall k :: 0 <= k < |visits| ==> Decided(visits[k], counts(k), inserted(k), marked(k), stopping)
  }

  /** What the visit says was counted and inserted is what the run shows. */
  ghost predicate OnRecord(run: seq<State>, from: nat, sid: ScheduleId, v: Visit) {
    && (v.counted ==> Counted(run, from, sid, v.active))
    && (v.submitted ==> Inserted(run, from, sid))
  }

  lemma OnRecordStays(run: seq<State>, run': seq<State>, from: nat, from': nat, sid: ScheduleId, v: Visit)
    requires run <= run' && from' <= from && OnRecord(run, from, sid, v)
    ensures OnRecord(run', from', sid, v)
  {
    hide Counted, Inserted;
    if v.counted {
      CountedStays(run, run', from, from', sid, v.active);
    }
    if v.submitted {
      InsertedStays(run, run', from, from', sid);
    }
  }

  ghost predicate AllOnRecord(run: seq<State>, from: nat, due: seq<ScheduleId>, visits: seq<Visit>)
    requires |visits| <= |due|
  {
    forall k :: 0 <= k < |visits| ==> OnRecord(run, from, due[k], visits[k])
  }

  /**
   A taken schedule ends an interval after the tick if its count was read and its update took effect;
   if not, it stays due.
   */
  ghost predicate AdvancedExactly(s: State, t: State, due: seq<ScheduleId>, counts: nat -> bool,
      marked: nat -> Outcome)
  {
    forall k :: 0 <= k < |due| && due[k] in t.schedules ==>
      due[k] in s.schedules && AdvancedIff(s, t, due[k], counts(k) && marked(k).Effective())
  }

  ghost predicate AdvancedIff(s: State, t: State, id: ScheduleId, works: bool)
    requires id in s.schedules && id in t.schedules
  {
    && (t.schedules[id].nextRun == s.clock + s.schedules[id].interval <==> works)
    && (!works ==> t.schedules[id].nextRun == s.schedules[id].nextRun <= s.clock <= t.clock)
  }

  lemma TickAdvancesExactly(s: State, t: State, due: seq<ScheduleId>, visits: seq<Visit>, counts: nat -> bool,
                            inserted: nat -> Outcome, marked: nat -> Outcome)
    requires SchedulesSound(s.schedules, s.intervals) && PicksDue(s.schedules, s.clock, due) && |visits| == |due|
    requires Handled(s, t, due, visits) && AllDecided(visits, counts, inserted, marked, t.stopping) && !t.stopping
    ensures AdvancedExactly(s, t, due, counts, marked)
  {
    forall k | 0 <= k < |due| && due[k] in t.schedules
      ensures due[k] in s.schedules && AdvancedIff(s, t, due[k], counts(k) && marked(k).Effective())
    {
      assert NextRunAfter(s, t, due[k], visits[k]);
      assert Decided(visits[k], counts(k), inserted(k), marked(k), t.stopping);
    }
  }

  lemma NoneDecided(counts: nat -> bool, inserted: nat -> Outcome, marked: nat -> Outcome, stopping: bool)
    ensures AllDecided([], counts, inserted, marked, stopping)
    ensures forall s, t :: AdvancedExactly(s, t, [], counts, marked)
  {}

  lemma OneMoreDecided(visits: seq<Visit>, v: Visit, counts: nat -> bool, inserted: nat -> Outcome,
      marked: nat -> Outcome, before: bool, after: bool)
    requires AllDecided(visits, counts, inserted, marked, before) && (before ==> after)
    requires Decided(v, counts(|visits|), inserted(|visits|), marked(|visits|), after)
    ensures AllDecided(visits + [v], counts, inserted, marked, after)
  {
    forall k | 0 <= k <= |visits|
      ensures Decided((visits + [v])[k], counts(k), inserted(k), marked(k), after)
    {
      assert k < |visits| ==> Decided(visits[k], counts(k), inserted(k), marked(k), before);
    }
  }

  lemma OneMoreOnRecord(run: seq<State>, run': seq<State>, from: nat, due: seq<ScheduleId>, visits: seq<Visit>,
      v: Visit)
    requires run <= run' && from < |run| && |visits| < |due| && AllOnRecord(run, from, due, visits)
    requires OnRecord(run', |run| - 1, due[|visits|], v)
    ensures AllOnRecord(run', from, due, visits + [v])
  {
    hide OnRecord;
    forall k | 0 <= k <= |visits|
      ensures OnRecord(run', from, due[k], (visits + [v])[k])
    {
      if k < |visits| {
        OnRecordStays(run, run', from, from, due[k], visits[k]);
      } else {
        OnRecordStays(run', run', |run| - 1, from, due[k], v);
      }
    }
  }

  lemma CountedNow(run: seq<State>, from: nat, s: State, sid: ScheduleId, active: bool)
    requires from < |run| && run[from] == s && s.scheduler.Busy? && s.scheduler.head.id == sid
    requires s.scheduler.stage.Look?
    requires active <==> SomeActive(s.jobs, sid)
    ensures Counted(run, from, sid, active)
  {
    assert forall id :: ActiveFor(s.jobs, id, sid) <==>
      id in s.jobs && s.jobs[id].status.Active() && s.jobs[id].schedule == Some(sid);
    assert CountsAt(run, from, sid, active);
  }

  predicate CompletedBefore(row: Row, cutoff: real) {
    row.completedAt.Some? && row.completedAt.value < cutoff
  }

  lemma PurgedAreOld(s: State, cutoff: real)
    requires Inv(s)
    ensures forall id :: id in s.jobs ==>
      (id !in Purged(s.jobs, cutoff) <==>
        s.jobs[id].status != Pending && s.jobs[id].status != Running && CompletedBefore(s.jobs[id], cutoff))
  {
    assert RowsSound(s);
  }

  /** How processJob ends. */
  datatype Fate = Returns | PanicsAtStart | PanicsInRuns | PanicsAtEnd

  /** What a job asks for, how its attempts go, and where it panics. */
  datatype Task = Task(tiers: seq<string>, runs: int, attempt: JobOutcome.Attempts, fate: Fate)

  /** The status column for what the runs came to. */
  function Final(status: JobOutcome.Status): Status {
    match status
    case Completed => Completed
    case Partial => Partial
    case Failed => Failed
  }

  /** The status is FAILED after a panic, and otherwise what all the attempts together mean. */
  ghost predicate EndsAs(task: Task, status: Status) {
    if !task.fate.Returns? then status == Failed
    else exists verdict, message ::
      && JobOutcome.Means(task.tiers, task.runs, task.attempt, verdict, message)
      && (verdict == JobOutcome.Status.Completed ==> status == Status.Completed)
      && (verdict == JobOutcome.Status.Partial ==> status == Status.Partial)
      && (verdict == JobOutcome.Status.Failed ==> status == Status.Failed)
  }

  /** The loop over the runs. */
  method RunJob(task: Task) returns (status: Status)
    ensures !status.Active() && EndsAs(task.(fate := Returns), status)
  {
    hide JobOutcome.Means;
    var verdict, message := JobOutcome.ProcessRuns(task.tiers, task.runs, task.attempt);
    status := Final(verdict);
  }

  function Insertion(scheduled: bool, outcome: Outcome): SubmitStep {
    if scheduled then CreateScheduled(outcome) else Create(outcome)
  }

  /** Where every goroutine stands, time and history. */
  datatype World = World(
    clock: real,
    depth: nat,
    canceller: Option<Id>,
    submits: map<Id, Phase>,
    workers: seq<Worker>,
    scheduler: Scheduler,
    used: set<Id>,
    started: seq<Id>,
    cancelled: set<Id>,
    submittedAt: map<ScheduleId, real>,
    intervals: map<ScheduleId, real>)

  function WorldOf(s: State): World {
    World(s.clock, s.depth, s.canceller, s.submits, s.workers, s.scheduler, s.used, s.started, s.cancelled,
      s.submittedAt, s.intervals)
  }

  // ----- cancelled and claimed jobs -----

  lemma NotPending(s: State, id: Id)
    requires Inv(s) && id !in s.pending
    ensures id in s.cancelled || !Waiting(s, id)
  {
    assert PendingExact(s);
  }

  lemma CancelledIsOut(s: State, id: Id)
    requires Inv(s) && id in s.cancelled
    ensures id !in s.pending && id !in s.started
  {
    assert CancelledForGood(s);
  }

  lemma SkippedIsCancelled(s: State, w: nat, id: Id)
    requires Inv(s) && w < |s.workers| && s.workers[w] == Dequeued(id)
    ensures id in s.pending || id in s.cancelled
  {
    assert PendingExact(s) && AtHand(s, id);
  }

  lemma ClaimedOrCancelled(s: State, id: Id)
    requires Inv(s) && (id in s.started || id in s.cancelled)
    ensures id !in s.pending && (id in s.started <==> id !in s.cancelled)
  {
    assert CancelledForGood(s) && StartedOnce(s);
  }

  // ----- a submission in flight -----

  /** The scheduler goes on after its submission, which is on record. */
  ghost predicate GoesOn(s0: State, t: State)
    requires s0.scheduler.Busy?
  {
    && t.scheduler == s0.scheduler.(stage := Mark) && NoneAdvanced(s0, t)
    && t.submittedAt == s0.submittedAt[s0.scheduler.head.id := s0.scheduler.now]
  }

  /** A submission that began in s0 has reached the phase; a scheduled one has the scheduler wait for it. */
  ghost predicate Stands(s0: State, s: State, id: Id, scheduled: bool, phase: Phase) {
    && id in s.used && At(s, id, phase) && Later(s0, s)
    && (Submits(s.scheduler, id) <==> scheduled)
    && (scheduled ==>
      && s0.scheduler.Busy? && s.scheduler == s0.scheduler.(stage := Submitting(id)) && NoneAdvanced(s0, s)
      && s.submittedAt == s0.submittedAt[s0.scheduler.head.id := s0.scheduler.now])
  }

  lemma SubmissionVisits(s0: State, s: State, t: State, submitted: bool)
    requires Still(s0, s) && Later(s, t) && s.scheduler.Busy?
    requires if submitted then GoesOn(s, t) else NoneAdvanced(s, t) && t.submittedAt == s.submittedAt
    ensures Visited(s0, t, s.scheduler.head, s.scheduler.now, Visit(true, false, submitted, false))
  {}

  lemma InsertionStands(s0: State, id: Id, scheduled: bool)
    requires Inv(s0) && SubmitEnabled(s0, id, Insertion(scheduled, Ok))
    ensures Stands(s0, SubmitNext(s0, id, Insertion(scheduled, Ok)), id, scheduled, Created)
  {}

  lemma StandsUndisturbed(s0: State, s: State, t: State, id: Id, scheduled: bool, phase: Phase)
    requires Stands(s0, s, id, scheduled, phase) && Undisturbed(s, t, Submitter(id))
    ensures Stands(s0, t, id, scheduled, phase) && At(t, id, phase) && id in t.used
  {}

  lemma StepStands(s0: State, s: State, id: Id, scheduled: bool, step: SubmitStep)
    requires SubmitEnabled(s, id, step) && id in s.submits && Stands(s0, s, id, scheduled, s.submits[id])
    requires !(step.Create? || step.CreateScheduled? || step.Drop?)
    ensures var t := SubmitNext(s, id, step);
      match step
      case Register => Stands(s0, t, id, scheduled, Registered)
      case CheckStop => Stands(s0, t, id, scheduled, if s.stopping then Rejecting else Passed)
      case Enqueue => |s.queue| < s.depth || Stands(s0, t, id, scheduled, Rejecting)
      case Unregister => Stands(s0, t, id, scheduled, Dropping)
      case _ => true
  {}

  lemma StandsScheduled(s0: State, s: State, id: Id, scheduled: bool, phase: Phase)
    requires Stands(s0, s, id, scheduled, phase)
    ensures At(s, id, phase) && (Submits(s.scheduler, id) <==> scheduled)
  {}

  /** The submission is over: a scheduled one has the scheduler go on. */
  lemma EndOfSubmission(s0: State, s: State, id: Id, scheduled: bool, step: SubmitStep)
    requires SubmitEnabled(s, id, step) && id in s.submits && Stands(s0, s, id, scheduled, s.submits[id])
    requires step.Drop? || (step.Enqueue? && |s.queue| < s.depth)
    ensures var t := SubmitNext(s, id, step);
      Later(s0, t) && (scheduled ==> s0.scheduler.Busy? && GoesOn(s0, t))
  {}

  lemma AcceptedIsQueued(s: State, id: Id)
    requires Inv(s) && SubmitEnabled(s, id, Enqueue) && |s.queue| < s.depth && Inv(SubmitNext(s, id, Enqueue))
    ensures var t := SubmitNext(s, id, Enqueue);
      t.queue != [] && t.queue[|t.queue| - 1] == id && (id in t.pending <==> id !in t.cancelled) && id !in t.started
      && id in t.used
  {
    var t := SubmitNext(s, id, Enqueue);
    assert id in t.queue && Waiting(t, id);
    assert PendingExact(t) && StartedOnce(t) && Known(s);
  }

  lemma RejectedIsNowhere(s: State, id: Id, outcome: Outcome)
    requires Inv(s) && SubmitEnabled(s, id, Drop(outcome))
    ensures var t := SubmitNext(s, id, Drop(outcome));
      id !in t.pending && !Waiting(t, id) && id !in t.submits && id !in t.started && id in t.used
      && (outcome.Effective() ==> id !in t.jobs) && t.stopping == s.stopping
  {
    assert Known(s) && Exclusive(s) && StartedOnce(s) && PendingExact(s);
    assert !Waiting(s, id);
  }

  lemma FailedInsertion(s: State, id: Id, scheduled: bool, outcome: Outcome)
    requires Inv(s) && SubmitEnabled(s, id, Insertion(scheduled, outcome)) && !outcome.Ok?
    ensures var t := SubmitNext(s, id, Insertion(scheduled, outcome));
      && id !in t.pending && !Waiting(t, id) && id !in t.submits && id !in t.started && id in t.used
      && (!outcome.Applied? ==> id !in t.jobs) && t.stopping == s.stopping && Later(s, t)
      && (scheduled ==>
        if outcome.Applied? then GoesOn(s, t)
        else t.scheduler == s.scheduler.(stage := Mark) && NoneAdvanced(s, t) && t.submittedAt == s.submittedAt)
  {
    assert Known(s) && PendingExact(s);
    assert !Waiting(s, id);
  }

  lemma IdIsNew(s: State, id: Id)
    requires Inv(s) && id !in s.used
    ensures id !in s.jobs
  {
    assert Known(s);
  }

  /** At some step from `from` on, the manager was stopping or the queue was full. */
  ghost predicate Refused(run: seq<State>, from: nat) {
    exists m: nat :: from <= m < |run| && (run[m].stopping || run[m].depth <= |run[m].queue|)
  }

  lemma RefusedAt(run: seq<State>, m: nat, from: nat)
    requires from <= m < |run| && (run[m].stopping || run[m].depth <= |run[m].queue|)
    ensures Refused(run, from)
  {}

  lemma RefusedStays(run: seq<State>, run': seq<State>, from: nat, from': nat)
    requires Refused(run, from) && run <= run' && from' <= from
    ensures Refused(run', from')
  {
    var m: nat :| from <= m < |run| && (run[m].stopping || run[m].depth <= |run[m].queue|);
    assert run'[m] == run[m];
  }

  class Manager {
    // the store
    var jobs: map<Id, Row>
    var schedules: map<ScheduleId, Schedule>
    // the manager
    var jobQueue: seq<Id>
    var pendingJobs: set<Id>
    var stopping: bool
    // everything else
    var world: World
    ghost var run: seq<State>
    ghost var actions: seq<Action>

    function Snapshot(): State
      reads this
    {
      State(jobs, schedules, world.clock, world.depth, jobQueue, pendingJobs, world.canceller,
        world.submits, world.workers,
        world.scheduler, stopping, world.used, world.started, world.cancelled, world.submittedAt, world.intervals)
    }

    /** The present state is the last one of a run of the machine. */
    ghost predicate Valid()
      reads this
    {
      run != [] && IsRun(run, actions) && Inv(run[0]) && run[|run| - 1] == Snapshot()
    }

    constructor (start: State)
      requires Initial(start)
      ensures Valid() && Snapshot() == start && actions == []
    {
      jobs, schedules, jobQueue, pendingJobs, stopping := start.jobs, start.schedules, start.queue, start.pending,
        start.stopping;
      world, run, actions := WorldOf(start), [start], [];
      new;
      InitialInv(start);
    }

    lemma NowInv()
      requires Valid()
      ensures Inv(Snapshot())
    {
      hide Inv;
      RunKeepsInv(run, actions, |run| - 1);
    }

    ghost method Perform(a: Action)
      requires run != [] && IsRun(run, actions) && Inv(run[0])
      requires Enabled(run[|run| - 1], a) && Snapshot() == Next(run[|run| - 1], a)
      modifies this`run, this`actions
      ensures Valid() && run == old(run) + [Snapshot()] && actions == old(actions) + [a]
    {
      hide Inv, Enabled, Next, IsRun;
      RunAppend(run, actions, a);
      run, actions := run + [Snapshot()], actions + [a];
    }

    method Load(s: State)
      modifies this
      ensures Snapshot() == s && run == old(run) && actions == old(actions)
    {
      jobs, schedules, jobQueue, pendingJobs, stopping, world := s.jobs, s.schedules, s.queue, s.pending, s.stopping,
        WorldOf(s);
    }

    /** The other goroutines take those steps of the script that they can take. */
    method Others(me: Actor, script: seq<Action>)
      requires Valid() && (me.Submitter? ==> me.id in world.used)
      modifies this
      ensures Valid() && old(run) <= run && Undisturbed(old(Snapshot()), Snapshot(), me)
    {
      hide Inv, IsRun, Enabled, Next, Mine, SamePlace;
      ghost var start := Snapshot();
      assert Undisturbed(start, Snapshot(), me) by {
        StaysUndisturbed(start, me);
      }
      for i := 0 to |script|
        invariant Valid() && old(run) <= run && Undisturbed(start, Snapshot(), me)
      {
        var s := Snapshot();
        if Enabled(s, script[i]) && !Mine(me, script[i]) {
          NowInv();
          StepDisturbsNone(s, script[i], me);
          Load(Next(s, script[i]));
          Perform(script[i]);
          UndisturbedTwice(start, s, Snapshot(), me);
        }
      }
    }

    /** m.mu.Lock: a CancelJob that holds the mutex finishes first. */
    method Lock(me: Actor, deleted: Outcome)
      requires Valid() && (me.Submitter? ==> me.id in world.used) && !me.Canceller?
      modifies this
      ensures Valid() && old(run) <= run && Undisturbed(old(Snapshot()), Snapshot(), me) && Unlocked(Snapshot())
    {
      ghost var s := Snapshot();
      if world.canceller.Some? {
        NowInv();
        ghost var a := Other(CancelFinish(deleted));
        jobs, world := Deleted(jobs, world.canceller.value, deleted), world.(canceller := None);
        assert Snapshot() == Next(s, a);
        hide Inv, IsRun, Next, Enabled;
        StepDisturbsNone(s, a, me);
        Perform(a);
      } else {
        StaysUndisturbed(s, me);
      }
    }

    // ----- SubmitJob -----

    /** uuid.New: an id that was never used. */
    method NewId() returns (id: Id)
      ensures id !in world.used
    {
      id := 0;
      var rest := world.used;
      while rest != {}
        invariant rest <= world.used && forall x :: x in world.used && x !in rest ==> x < id
      {
        var x :| x in rest;
        rest := rest - {x};
        id := if id <= x then x + 1 else id;
      }
    }

    /** m.store.CreateJob */
    method CreateJob(id: Id, scheduled: bool, outcome: Outcome)
      requires Valid() && SubmitEnabled(Snapshot(), id, Insertion(scheduled, outcome))
      modifies this
      ensures Valid() && run == old(run) + [Snapshot()]
      ensures Snapshot() == SubmitNext(old(Snapshot()), id, Insertion(scheduled, outcome))
      ensures outcome == Lost ==> jobs == old(jobs)
      ensures outcome != Lost ==>
        var schedule := if scheduled then Some(old(world.scheduler).head.id) else None;
        jobs == old(jobs)[id := Row(Pending, schedule, None)]
    {
      hide Inv, IsRun, PicksDue;
      var schedule := if scheduled then Some(world.scheduler.head.id) else None;
      if outcome.Effective() {
        jobs := jobs[id := Row(Pending, schedule, None)];
      }
      world := world.(used := world.used + {id},
        submits := if outcome.Ok? then world.submits[id := Created] else world.submits);
      if scheduled {
        world := world.(
          submittedAt := if outcome.Effective() then world.submittedAt[schedule.value := world.scheduler.now]
            else world.submittedAt,
          scheduler := world.scheduler.(stage := if outcome.Ok? then Submitting(id) else Mark));
      }
      Perform(Submit(id, Insertion(scheduled, outcome)));
    }

    /** The lock section that adds the id to pendingJobs. */
    method AddPending(id: Id)
      requires Valid() && SubmitEnabled(Snapshot(), id, Register)
      modifies this
      ensures Valid() && old(run) <= run && Snapshot() == SubmitNext(old(Snapshot()), id, Register)
    {
      hide Inv, IsRun;
      pendingJobs, world := pendingJobs + {id}, world.(submits := world.submits[id := Registered]);
      Perform(Submit(id, Register));
    }

    /** m.ctx.Err() != nil */
    method ShuttingDown(id: Id) returns (yes: bool)
      requires Valid() && SubmitEnabled(Snapshot(), id, CheckStop)
      modifies this
      ensures Valid() && old(run) <= run && yes == old(stopping)
      ensures Snapshot() == SubmitNext(old(Snapshot()), id, CheckStop)
    {
      hide Inv, IsRun;
      yes := stopping;
      world := world.(submits := world.submits[id := if yes then Rejecting else Passed]);
      Perform(Submit(id, CheckStop));
    }

    /** The select that sends without blocking. */
    method TrySend(id: Id) returns (sent: bool)
      requires Valid() && SubmitEnabled(Snapshot(), id, Enqueue)
      modifies this
      ensures Valid() && old(run) <= run && Snapshot() == SubmitNext(old(Snapshot()), id, Enqueue)
      ensures sent == (|old(jobQueue)| < old(world.depth))
    {
      hide Inv, IsRun;
      sent := |jobQueue| < world.depth;
      if sent {
        jobQueue := jobQueue + [id];
        world := world.(submits := world.submits - {id}, scheduler := Returned(world.scheduler, id));
      } else {
        world := world.(submits := world.submits[id := Rejecting]);
      }
      Perform(Submit(id, Enqueue));
    }

    /** The lock section of enqueueFailed. */
    method RemovePending(id: Id)
      requires Valid() && SubmitEnabled(Snapshot(), id, Unregister)
      modifies this
      ensures Valid() && old(run) <= run && Snapshot() == SubmitNext(old(Snapshot()), id, Unregister)
    {
      hide Inv, IsRun;
      pendingJobs, world := pendingJobs - {id}, world.(submits := world.submits[id := Dropping]);
      Perform(Submit(id, Unregister));
    }

    /** The clean-up of enqueueFailed, after which SubmitJob returns its error. */
    method DeleteRejected(id: Id, outcome: Outcome)
      requires Valid() && SubmitEnabled(Snapshot(), id, Drop(outcome))
      modifies this
      ensures Valid() && old(run) <= run && Snapshot() == SubmitNext(old(Snapshot()), id, Drop(outcome))
    {
      hide Inv, IsRun;
      jobs := Deleted(jobs, id, outcome);
      world := world.(submits := world.submits - {id}, scheduler := Returned(world.scheduler, id));
      Perform(Submit(id, Drop(outcome)));
    }

    /** Between two steps of a submission. */
    method Pause(ghost start: State, id: Id, ghost scheduled: bool, ghost phase: Phase, script: seq<Action>, lock: bool)
      requires Valid() && Stands(start, Snapshot(), id, scheduled, phase)
      modifies this
      ensures Valid() && old(run) <= run && Stands(start, Snapshot(), id, scheduled, phase) && At(Snapshot(), id, phase)
      ensures lock ==> Unlocked(Snapshot())
    {
      hide Inv, IsRun, Undisturbed;
      ghost var s := Snapshot();
      assert id in s.used;
      hide Stands;
      Others(Submitter(id), script);
      StandsUndisturbed(start, s, Snapshot(), id, scheduled, phase);
      if lock {
        s := Snapshot();
        Lock(Submitter(id), Ok);
        StandsUndisturbed(start, s, Snapshot(), id, scheduled, phase);
      }
    }

    /** enqueueFailed: takes the job out again; the deletion uses the context of the caller. */
    method EnqueueFailed(ghost start: State, id: Id, scheduled: bool, cleaned: Outcome, others: nat -> seq<Action>)
      requires Valid() && Stands(start, Snapshot(), id, scheduled, Rejecting)
      modifies this
      ensures Valid() && old(run) <= run && id in world.used && id !in world.started
      ensures id !in pendingJobs && !Waiting(Snapshot(), id) && id !in world.submits
      ensures cleaned.Effective() && !(scheduled && stopping && cleaned.Ok?) ==> id !in jobs
      ensures Later(start, Snapshot())
      ensures scheduled ==> start.scheduler.Busy? && GoesOn(start, Snapshot())
    {
      hide Inv, IsRun, NoneAdvanced, Waiting, SubmitNext, Undisturbed, Stands, Later, GoesOn;
      Pause(start, id, scheduled, Rejecting, others(3), true);
      StepStands(start, Snapshot(), id, scheduled, Unregister);
      RemovePending(id);
      Pause(start, id, scheduled, Dropping, others(4), false);
      NowInv();
      ghost var s := Snapshot();
      var outcome := Under(scheduled && stopping, cleaned);
      StandsScheduled(start, s, id, scheduled, Dropping);
      RejectedIsNowhere(s, id, outcome);
      EndOfSubmission(start, s, id, scheduled, Drop(outcome));
      DeleteRejected(id, outcome);
    }

    /** Since the step `from` of the run somebody else has removed the row. */
    ghost predicate WasRemoved(from: nat, id: Id)
      reads this
    {
      exists m: nat :: from <= m < |run| && m < |actions| && RemovedByOthers(run[m], actions[m], id)
    }

    lemma AcceptedRow(m: nat, id: Id)
      requires Valid() && m < |run| && id in run[m].jobs && id in jobQueue
      ensures id in jobs ==> jobs[id] == Row(Pending, run[m].jobs[id].schedule, None)
      ensures id !in jobs ==> WasRemoved(m, id)
    {
      hide Inv, RemovedByOthers;
      QueuedRow(run, actions, m, id);
    }

    /** Into the queue, if there is room. */
    method Send(ghost start: State, id: Id, ghost scheduled: bool, script: seq<Action>) returns (accepted: bool)
      requires Valid() && Stands(start, Snapshot(), id, scheduled, Passed)
      modifies this
      ensures Valid() && old(run) <= run
      ensures accepted ==> id in world.used && id !in world.started && Later(start, Snapshot())
      ensures accepted ==>
        jobQueue != [] && jobQueue[|jobQueue| - 1] == id && (id in pendingJobs <==> id !in world.cancelled)
      ensures accepted && scheduled ==>
        start.scheduler.Busy? && GoesOn(start, Snapshot())
      ensures !accepted ==> Stands(start, Snapshot(), id, scheduled, Rejecting) && Refused(run, |old(run)| - 1)
    {
      hide Inv, IsRun, NoneAdvanced, Waiting, SubmitNext, Undisturbed, Stands, Later, GoesOn, Refused;
      Pause(start, id, scheduled, Passed, script, false);
      ghost var here := |run| - 1;
      NowInv();
      ghost var s := Snapshot();
      StepStands(start, s, id, scheduled, Enqueue);
      accepted := TrySend(id);
      if accepted {
        NowInv();
        AcceptedIsQueued(s, id);
        EndOfSubmission(start, s, id, scheduled, Enqueue);
      } else {
        RefusedAt(run, here, |old(run)| - 1);
      }
    }

    /** Into pendingJobs, before the test for shutdown. */
    method Announce(ghost start: State, id: Id, ghost scheduled: bool, others: nat -> seq<Action>)
      returns (rejected: bool)
      requires Valid() && Stands(start, Snapshot(), id, scheduled, Created)
      modifies this
      ensures Valid() && old(run) <= run
      ensures Stands(start, Snapshot(), id, scheduled, if rejected then Rejecting else Passed)
      ensures rejected ==> Refused(run, |old(run)| - 1)
    {
      hide Inv, IsRun, NoneAdvanced, Waiting, SubmitNext, Undisturbed, Stands, Later, GoesOn, Refused;
      Pause(start, id, scheduled, Created, others(0), true);
      StepStands(start, Snapshot(), id, scheduled, Register);
      AddPending(id);
      Pause(start, id, scheduled, Registered, others(1), false);
      StepStands(start, Snapshot(), id, scheduled, CheckStop);
      ghost var here := |run| - 1;
      rejected := ShuttingDown(id);
      if rejected {
        RefusedAt(run, here, |old(run)| - 1);
      }
    }

    /** Into pendingJobs, and into the queue if the manager is not stopping and there is room. */
    method Offer(ghost start: State, id: Id, ghost scheduled: bool, others: nat -> seq<Action>) returns (accepted: bool)
      requires Valid() && Stands(start, Snapshot(), id, scheduled, Created)
      modifies this
      ensures Valid() && old(run) <= run
      ensures accepted ==> id in world.used && id !in world.started
      ensures accepted ==>
        jobQueue != [] && jobQueue[|jobQueue| - 1] == id && (id in pendingJobs <==> id !in world.cancelled)
      ensures accepted ==> Later(start, Snapshot())
      ensures accepted && scheduled ==>
        start.scheduler.Busy? && GoesOn(start, Snapshot())
      ensures !accepted ==> Stands(start, Snapshot(), id, scheduled, Rejecting) && Refused(run, |old(run)| - 1)
    {
      hide Inv, IsRun, NoneAdvanced, Waiting, SubmitNext, Undisturbed, Stands, Later, GoesOn, Refused;
      var rejected := Announce(start, id, scheduled, others);
      accepted := false;
      if !rejected {
        ghost var here := |run| - 1;
        accepted := Send(start, id, scheduled, others(2));
        if !accepted {
          RefusedStays(run, run, here, |old(run)| - 1);
        }
      }
    }

    /**
     An insert that takes effect writes a PENDING row for the schedule, if any. Accepted,
     the job is at the end of the queue, and in pendingJobs unless it was cancelled
     meanwhile; its row is as it was inserted, unless somebody else has removed it.
     Rejected, which takes a failing insert, a full queue or shutdown, it is nowhere; its
     row is gone too, provided the clean-up works, which it cannot for a scheduled job
     during shutdown.
     */
    method SubmitJob(scheduled: bool, inserted: Outcome, cleaned: Outcome, others: nat -> seq<Action>)
      returns (id: Id, accepted: bool)
      requires Valid()
      requires scheduled ==> world.scheduler.Busy? && world.scheduler.stage.Ready?
      modifies this
      ensures Valid() && old(run) <= run && id !in old(world.used) && id in world.used && id !in world.started
      ensures accepted ==>
        jobQueue != [] && jobQueue[|jobQueue| - 1] == id && (id in pendingJobs <==> id !in world.cancelled)
      ensures id !in old(jobs)
      ensures inserted == Lost || (scheduled && old(stopping) && inserted == Ok) ==> !accepted && id !in jobs
      ensures inserted != Lost && !(scheduled && old(stopping) && inserted == Ok) ==>
        var schedule := if scheduled then Some(old(world.scheduler).head.id) else None;
        && |old(run)| < |run| && id in run[|old(run)|].jobs
        && run[|old(run)|].jobs[id] == Row(Pending, schedule, None)
        && (accepted && id in jobs ==> jobs[id] == Row(Pending, schedule, None))
      ensures accepted ==> inserted == Ok && (id in jobs || WasRemoved(|old(run)|, id))
      ensures !accepted && inserted == Ok ==> Refused(run, |old(run)| - 1)
      ensures !accepted ==> id !in pendingJobs && !Waiting(Snapshot(), id) && id !in world.submits
      ensures !accepted && !inserted.Applied? && cleaned.Effective() && !(scheduled && stopping && cleaned.Ok?) ==>
        id !in jobs
      ensures Later(old(Snapshot()), Snapshot())
      ensures scheduled ==>
        if inserted != Lost && !(old(stopping) && inserted == Ok) then GoesOn(old(Snapshot()), Snapshot())
        else
          && world.scheduler == old(world.scheduler).(stage := Mark) && NoneAdvanced(old(Snapshot()), Snapshot())
          && world.submittedAt == old(world.submittedAt)
    {
      hide Inv, IsRun, NoneAdvanced, Waiting, SubmitNext, Undisturbed, Stands, Later, GoesOn, Refused, RemovedByOthers;
      id := NewId();
      ghost var start := Snapshot();
      var outcome := Under(scheduled && stopping, inserted);
      NowInv();
      IdIsNew(start, id);
      CreateJob(id, scheduled, outcome);
      ghost var m := |run| - 1;
      if !outcome.Ok? {
        FailedInsertion(start, id, scheduled, outcome);
        if start.stopping {
          RefusedAt(run, m - 1, m - 1);
        }
        return id, false;
      }
      InsertionStands(start, id, scheduled);
      accepted := Offer(start, id, scheduled, others);
      if !accepted {
        ghost var before := run;
        EnqueueFailed(start, id, scheduled, cleaned, others);
        RefusedStays(before, run, m, |old(run)| - 1);
      } else {
        AcceptedRow(m, id);
      }
    }

    // ----- CancelJob -----

    /**
     Removed, the job will never run, and its row is gone if the deletion works.
     Refused, it was not waiting any more, or had been cancelled before.
     */
    method CancelJob(id: Id, deleted: Outcome, others: nat -> seq<Action>) returns (removed: bool)
      requires Valid()
      modifies this
      ensures Valid() && old(run) <= run && id !in pendingJobs
      ensures removed ==> id in world.cancelled && id !in world.started && (deleted.Effective() ==> id !in jobs)
      ensures !removed ==> id in world.cancelled || !Waiting(Snapshot(), id)
    {
      hide Inv, IsRun, Undisturbed;
      Lock(Bystander, Ok);
      removed := id in pendingJobs;
      if !removed {
        Perform(Other(CancelBegin(id)));
        NowInv();
        NotPending(Snapshot(), id);
        return;
      }
      pendingJobs := pendingJobs - {id};
      world := world.(cancelled := world.cancelled + {id}, canceller := Some(id));
      Perform(Other(CancelBegin(id)));
      DeleteCancelled(id, deleted, others(0));
      NowInv();
      CancelledIsOut(Snapshot(), id);
    }

    /** The deletion, still under the mutex. */
    method DeleteCancelled(id: Id, deleted: Outcome, script: seq<Action>)
      requires Valid() && world.canceller == Some(id) && id in world.cancelled
      modifies this
      ensures Valid() && old(run) <= run && id in world.cancelled && (deleted.Effective() ==> id !in jobs)
    {
      hide Inv, IsRun;
      Others(Canceller, script);
      jobs, world := Deleted(jobs, id, deleted), world.(canceller := None);
      Perform(Other(CancelFinish(deleted)));
    }

    // ----- the worker -----

    predicate Has(w: nat, id: Id)
      reads this
    {
      w < |world.workers| && !world.workers[w].Idle? && world.workers[w].id == id
    }

    method Receive(w: nat) returns (id: Id)
      requires Valid() && WorkEnabled(Snapshot(), w, Dequeue)
      modifies this
      ensures Valid() && old(run) <= run && id == old(jobQueue)[0]
      ensures w < |world.workers| && world.workers[w] == Dequeued(id)
    {
      hide Inv, IsRun;
      id := jobQueue[0];
      jobQueue, world := jobQueue[1..], world.(workers := world.workers[w := Dequeued(id)]);
      Perform(Work(w, Dequeue));
    }

    /** The lock section that takes the id out of pendingJobs. */
    method ClaimJob(w: nat, id: Id) returns (pending: bool)
      requires Valid() && WorkEnabled(Snapshot(), w, Claim) && world.workers[w] == Dequeued(id)
      modifies this
      ensures Valid() && old(run) <= run && w < |world.workers| && id !in pendingJobs
      ensures if pending then world.workers[w] == Claimed(id) && id in world.started
        else world.workers[w].Idle? && id in world.cancelled
    {
      hide Inv, IsRun, SubmitNext, TickNext, OtherNext;
      NowInv();
      SkippedIsCancelled(Snapshot(), w, id);
      pending := id in pendingJobs;
      if pending {
        pendingJobs := pendingJobs - {id};
        world := world.(workers := world.workers[w := Claimed(id)], started := world.started + [id]);
        Perform(Work(w, Claim));
      } else {
        world := world.(workers := world.workers[w := Idle]);
        Perform(Work(w, Claim));
      }
    }

    /** UpdateJobStatus by the worker that has the job, which then is at `next`. */
    method UpdateJobStatus(w: nat, step: WorkStep, id: Id, status: Status, outcome: Outcome, next: Worker)
      requires Valid() && WorkEnabled(Snapshot(), w, step) && Has(w, id)
      requires
        || (step == Begin(outcome) && status == Running && next == if outcome.Ok? then Processing(id) else Idle)
        || (step == Finish(status, outcome) && next == Finishing(id))
        || (step == PanicFail(outcome) && status == Failed && next == Idle)
      modifies this
      ensures Valid() && old(run) <= run && w < |world.workers| && world.workers[w] == next
      ensures Later(old(Snapshot()), Snapshot()) && stopping == old(stopping)
      ensures jobs.Keys == old(jobs).Keys && forall x :: x in jobs && x != id ==> jobs[x] == old(jobs)[x]
      ensures id in jobs && !outcome.Effective() ==> jobs[id] == old(jobs)[id]
      ensures id in jobs && outcome.Effective() ==>
        && jobs[id].status == status && jobs[id].schedule == old(jobs)[id].schedule
        && jobs[id].completedAt == if status == Running then old(jobs)[id].completedAt else Some(world.clock)
    {
      hide Inv, IsRun;
      jobs := Updated(jobs, id, status, world.clock, outcome);
      world := world.(workers := world.workers[w := next]);
      Perform(Work(w, step));
    }

    /** Between two steps of a worker. */
    method WorkerPause(w: nat, id: Id, script: seq<Action>)
      requires Valid() && Has(w, id)
      modifies this
      ensures Valid() && old(run) <= run && w < |world.workers| && world.workers[w] == old(world.workers)[w]
      ensures Later(old(Snapshot()), Snapshot()) && SameRow(old(jobs), jobs, id)
    {
      hide Inv, IsRun;
      Others(Server(w), script);
    }

    method StartPanic(w: nat, id: Id)
      requires Valid() && WorkEnabled(Snapshot(), w, Panic) && Has(w, id)
      modifies this
      ensures Valid() && old(run) <= run && w < |world.workers| && world.workers[w] == Panicked(id)
      ensures Later(old(Snapshot()), Snapshot())
    {
      hide Inv, IsRun;
      world := world.(workers := world.workers[w := Panicked(id)]);
      Perform(Work(w, Panic));
    }

    /** The deferred function: a panic is recovered from, and the row marked FAILED. */
    method RecoverPanic(w: nat, id: Id, recorded: Outcome, script: seq<Action>)
      requires Valid() && WorkEnabled(Snapshot(), w, Panic) && Has(w, id)
      modifies this
      ensures Valid() && old(run) <= run && w < |world.workers| && world.workers[w].Idle?
      ensures Later(old(Snapshot()), Snapshot())
      ensures recorded.Effective() && !stopping && id in jobs ==> jobs[id].status == Failed
    {
      hide Inv, IsRun;
      StartPanic(w, id);
      WorkerPause(w, id, script);
      var outcome := Under(stopping, recorded);
      UpdateJobStatus(w, PanicFail(outcome), id, Failed, outcome, Idle);
    }

    method EndProcessing(w: nat, id: Id)
      requires Valid() && w < |world.workers| && world.workers[w] == Finishing(id)
      modifies this
      ensures Valid() && old(run) <= run && w < |world.workers| && world.workers[w].Idle? && jobs == old(jobs)
      ensures Later(old(Snapshot()), Snapshot()) && stopping == old(stopping)
    {
      hide Inv, IsRun;
      world := world.(workers := world.workers[w := Idle]);
      Perform(Work(w, Done));
    }

    /** What comes after the final update: metrics, budget and webhook leave the row alone, but may panic. */
    method FollowUp(w: nat, id: Id, panics: bool, recorded: Outcome, others: nat -> seq<Action>)
      requires Valid() && w < |world.workers| && world.workers[w] == Finishing(id)
      modifies this
      ensures Valid() && old(run) <= run && w < |world.workers| && world.workers[w].Idle?
      ensures Later(old(Snapshot()), Snapshot())
      ensures if panics then recorded.Effective() && !stopping && id in jobs ==> jobs[id].status == Failed
        else SameRow(old(jobs), jobs, id)
    {
      hide Inv, IsRun;
      WorkerPause(w, id, others(4));
      if panics {
        RecoverPanic(w, id, recorded, others(5));
      } else {
        EndProcessing(w, id);
      }
    }

    /** The runs, and the final update with the status they come to. */
    method FinishJob(w: nat, id: Id, task: Task, finished: Outcome, recorded: Outcome, others: nat -> seq<Action>)
      requires Valid() && w < |world.workers| && world.workers[w] == Processing(id) && !task.fate.PanicsAtStart?
      modifies this
      ensures Valid() && old(run) <= run && w < |world.workers| && world.workers[w].Idle?
      ensures Later(old(Snapshot()), Snapshot())
      ensures finished.Effective() && recorded.Effective() && !stopping && id in jobs ==> EndsAs(task, jobs[id].status)
    {
      hide Inv, IsRun;
      WorkerPause(w, id, others(2));
      if task.fate.PanicsInRuns? {
        RecoverPanic(w, id, recorded, others(3));
        return;
      }
      RecordVerdict(w, id, task, finished, recorded, others);
    }

    method RecordVerdict(w: nat, id: Id, task: Task, finished: Outcome, recorded: Outcome, others: nat -> seq<Action>)
      requires Valid() && w < |world.workers| && world.workers[w] == Processing(id)
      requires !task.fate.PanicsAtStart? && !task.fate.PanicsInRuns?
      modifies this
      ensures Valid() && old(run) <= run && w < |world.workers| && world.workers[w].Idle?
      ensures Later(old(Snapshot()), Snapshot())
      ensures finished.Effective() && recorded.Effective() && !stopping && id in jobs ==> EndsAs(task, jobs[id].status)
    {
      hide Inv, IsRun;
      var verdict := RunJob(task);
      var outcome := Under(stopping, finished);
      UpdateJobStatus(w, Finish(verdict, outcome), id, verdict, outcome, Finishing(id));
      FollowUp(w, id, task.fate.PanicsAtEnd?, recorded, others);
    }

    /**
     From the claim to the end of processJob, or to a panic anywhere in between. If
     the updates work, the row ends with the status its attempts come to, or FAILED
     after a panic.
     */
    method ProcessJob(w: nat, id: Id, task: Task, begun: Outcome, finished: Outcome, recorded: Outcome,
        others: nat -> seq<Action>)
      requires Valid() && w < |world.workers| && world.workers[w] == Claimed(id)
      modifies this
      ensures Valid() && old(run) <= run && w < |world.workers| && world.workers[w].Idle?
      ensures Later(old(Snapshot()), Snapshot())
      ensures begun.Ok? && finished.Effective() && recorded.Effective() && !stopping && id in jobs ==>
        EndsAs(task, jobs[id].status)
    {
      hide Inv, IsRun;
      WorkerPause(w, id, others(0));
      if task.fate.PanicsAtStart? {
        RecoverPanic(w, id, recorded, others(1));
        return;
      }
      var outcome := Under(stopping, begun);
      UpdateJobStatus(w, Begin(outcome), id, Running, outcome, if outcome.Ok? then Processing(id) else Idle);
      if !outcome.Ok? {
        return;
      }
      FinishJob(w, id, task, finished, recorded, others);
    }

    /** One turn of the worker's loop: a job is processed exactly if it was not cancelled before the claim. */
    method Serve(w: nat, task: Task, begun: Outcome, finished: Outcome, recorded: Outcome, others: nat -> seq<Action>)
      returns (id: Id, processed: bool)
      requires Valid() && w < |world.workers| && world.workers[w].Idle? && jobQueue != []
      modifies this
      ensures Valid() && old(run) <= run && id == old(jobQueue)[0] && w < |world.workers| && world.workers[w].Idle?
      ensures id !in pendingJobs && (processed <==> id in world.started) && (processed <==> id !in world.cancelled)
      ensures processed && begun.Ok? && finished.Effective() && recorded.Effective() && !stopping && id in jobs ==>
        EndsAs(task, jobs[id].status)
    {
      hide Inv, IsRun;
      id := Receive(w);
      Others(Server(w), others(6));
      Lock(Server(w), Ok);
      processed := ClaimJob(w, id);
      if processed {
        ProcessJob(w, id, task, begun, finished, recorded, others);
      }
      NowInv();
      ClaimedOrCancelled(Snapshot(), id);
    }

    // ----- the scheduler -----

    method GetDueSchedules() returns (due: seq<ScheduleId>)
      requires Valid() && world.scheduler.Asleep? && !stopping
      modifies this
      ensures Valid() && old(run) <= run && PicksDue(schedules, world.clock, due)
      ensures schedules == old(schedules) && world.clock == old(world.clock) && Still(old(Snapshot()), Snapshot())
      ensures world.scheduler == Resume(world.clock, DueList(schedules, due))
    {
      hide Inv, IsRun;
      due := SelectDue(schedules, world.clock);
      world := world.(scheduler := Resume(world.clock, DueList(schedules, due)));
      Perform(Tick(Query(due)));
    }

    /** CountActiveJobsForSchedule; `active` is only meaningful if it could be read. */
    method CountActive(read: bool) returns (active: bool)
      requires Valid() && TickEnabled(Snapshot(), Count(read))
      modifies this
      ensures Valid() && old(run) <= run && Still(old(Snapshot()), Snapshot()) && stopping == old(stopping)
      ensures active <==> SomeActive(old(jobs), old(world.scheduler).head.id)
      ensures world.scheduler == if !read then Resume(old(world.scheduler).now, old(world.scheduler).rest)
        else old(world.scheduler).(stage := if active then Mark else Ready)
    {
      hide Inv, IsRun;
      active := SomeActive(jobs, world.scheduler.head.id);
      world := world.(scheduler := if !read then Resume(world.scheduler.now, world.scheduler.rest)
        else world.scheduler.(stage := if active then Mark else Ready));
      Perform(Tick(Count(read)));
    }

    method MarkScheduleRun(outcome: Outcome, ghost active: bool)
      requires Valid() && TickEnabled(Snapshot(), Advance(outcome))
      modifies this
      ensures Valid() && old(run) <= run && stopping == old(stopping)
      ensures world.scheduler == Resume(old(world.scheduler).now, old(world.scheduler).rest)
      ensures Visited(old(Snapshot()), Snapshot(), old(world.scheduler).head, old(world.scheduler).now,
        Visit(true, active, false, outcome.Effective()))
    {
      hide Inv, IsRun;
      schedules := Marked(schedules, world.scheduler.head, world.scheduler.now, outcome);
      world := world.(scheduler := Resume(world.scheduler.now, world.scheduler.rest));
      Perform(Tick(Advance(outcome)));
    }

    /** Between two steps of a tick. */
    method TickPause(script: seq<Action>)
      requires Valid() && !(world.scheduler.Busy? && world.scheduler.stage.Submitting?)
      modifies this
      ensures Valid() && old(run) <= run && world.scheduler == old(world.scheduler)
      ensures Still(old(Snapshot()), Snapshot())
      ensures old(stopping) ==> stopping
    {
      hide Inv, IsRun;
      Others(Ticker, script);
    }

    /**
     One schedule of a tick: counted, submitted if it has no active job, and moved on
     to its next run unless the count or the update fails.
     */
    method HandleSchedule(count: bool, inserted: Outcome, cleaned: Outcome, marked: Outcome, others: nat -> seq<Action>)
      returns (v: Visit)
      requires Valid() && world.scheduler.Busy? && world.scheduler.stage.Look?
      modifies this
      ensures Valid() && old(run) <= run
      ensures world.scheduler == Resume(old(world.scheduler).now, old(world.scheduler).rest)
      ensures Visited(old(Snapshot()), Snapshot(), old(world.scheduler).head, old(world.scheduler).now, v)
      ensures Decided(v, count, inserted, marked, stopping) && (old(stopping) ==> stopping)
      ensures OnRecord(run, |old(run)| - 1, old(world.scheduler).head.id, v)
    {
      hide Inv, IsRun, Waiting, SomeActive, Visited, Resume, Still, Counted, Inserted;
      ghost var start := Snapshot();
      ghost var due, now := start.scheduler.head, start.scheduler.now;
      TickPause(others(0));
      ghost var s, from := Snapshot(), |run| - 1;
      var counted := count && !stopping;
      var active := CountActive(counted);
      StillTwice(start, s, Snapshot());
      StillVisited(start, Snapshot(), due, now, counted, counted && active);
      if !counted {
        return Visit(false, false, false, false);
      }
      CountedNow(run, from, s, due.id, active);
      ghost var before := run;
      v := MoveOn(start, due, active, inserted, cleaned, marked, others);
      CountedStays(before, run, from, |old(run)| - 1, due.id, active);
      if v.submitted {
        InsertedStays(run, run, |before| - 1, |old(run)| - 1, due.id);
      }
    }

    method MoveOn(ghost start: State, ghost due: Due, active: bool, inserted: Outcome, cleaned: Outcome,
        marked: Outcome, others: nat -> seq<Action>)
      returns (v: Visit)
      requires Valid() && Still(start, Snapshot())
      requires world.scheduler.Busy? && world.scheduler.stage == (if active then Mark else Ready)
      requires world.scheduler.head == due
      modifies this
      ensures Valid() && old(run) <= run
      ensures world.scheduler == Resume(old(world.scheduler).now, old(world.scheduler).rest)
      ensures Visited(start, Snapshot(), due, old(world.scheduler).now, v)
      ensures Decided(v, true, inserted, marked, stopping) && v.counted && v.active == active
      ensures old(stopping) ==> stopping
      ensures v.submitted ==> Inserted(run, |old(run)| - 1, due.id)
    {
      hide Inv, IsRun, Waiting, Resume, Still, Visited, Inserted;
      ghost var now := world.scheduler.now;
      var submitted := false;
      StillVisited(start, Snapshot(), due, now, true, active);
      if !active {
        submitted := SubmitDue(start, inserted, cleaned, others);
      }
      ghost var visit := Visit(true, active, submitted, false);
      ghost var s, before := Snapshot(), run;
      TickPause(others(1));
      VisitedStill(start, s, Snapshot(), due, now, visit);
      s := Snapshot();
      var outcome := Under(stopping, marked);
      MarkScheduleRun(outcome, active);
      v := Visit(true, active, submitted, outcome.Effective());
      VisitedThenMarked(start, s, Snapshot(), due, now, visit, outcome.Effective());
      if submitted {
        InsertedStays(before, run, |old(run)| - 1, |old(run)| - 1, due.id);
      }
    }

    method SubmitDue(ghost start: State, inserted: Outcome, cleaned: Outcome, others: nat -> seq<Action>)
      returns (submitted: bool)
      requires Valid() && world.scheduler.Busy? && world.scheduler.stage.Ready? && Still(start, Snapshot())
      modifies this
      ensures Valid() && old(run) <= run && (old(stopping) ==> stopping)
      ensures world.scheduler == old(world.scheduler).(stage := Mark)
      ensures Visited(start, Snapshot(), old(world.scheduler).head, old(world.scheduler).now,
        Visit(true, false, submitted, false))
      ensures submitted ==> inserted.Effective()
      ensures !stopping ==> (submitted <==> inserted.Effective())
      ensures submitted ==> Inserted(run, |old(run)| - 1, old(world.scheduler).head.id)
    {
      hide Inv, IsRun, Waiting, NoneAdvanced, Still, Visited;
      ghost var s := Snapshot();
      TickPause(others(2));
      StillTwice(start, s, Snapshot());
      s := Snapshot();
      submitted := Under(stopping, inserted).Effective();
      ghost var m := |run| - 1;
      var id, _ := SubmitJob(true, inserted, cleaned, (k: nat) => others(k + 3));
      if submitted {
        assert InsertsAt(run, m, id, s.scheduler.head.id);
      }
      SubmissionVisits(start, s, Snapshot(), submitted);
    }

    /**
     A tick. A query that fails, as it must once the context is cancelled, ends it.
     Every schedule it takes gets a job exactly if it was counted as idle and the
     insert took effect, and is moved on by its interval exactly if it was counted
     and the update took effect; otherwise it stays due. No other schedule is touched.
     */
    method RunDueSchedules(queried: bool, counts: nat -> bool, inserted: nat -> Outcome, cleaned: nat -> Outcome,
                           marked: nat -> Outcome, others: nat -> nat -> seq<Action>)
      returns (due: seq<ScheduleId>, visits: seq<Visit>)
      requires Valid() && world.scheduler.Asleep?
      modifies this
      ensures Valid() && world.scheduler.Asleep? && old(run) <= run
      ensures old(stopping) || !queried ==> due == [] && Snapshot() == old(Snapshot())
      ensures !old(stopping) && queried ==> PicksDue(old(schedules), old(world.clock), due)
      ensures |visits| == |due| && Handled(old(Snapshot()), Snapshot(), due, visits)
      ensures AllDecided(visits, counts, inserted, marked, stopping) && AllOnRecord(run, |old(run)| - 1, due, visits)
      ensures !stopping ==> AdvancedExactly(old(Snapshot()), Snapshot(), due, counts, marked)
    {
      hide Inv, IsRun, PicksDue, Handled, Visited, Still, OnRecord, AdvancedExactly, AllDecided;
      ghost var start := Snapshot();
      NowInv();
      SchedulesKnown(start);
      if stopping || !queried {
        due, visits := [], [];
        NoneHandled(start, start, due);
        NoneDecided(counts, inserted, marked, stopping);
        return;
      }
      due := GetDueSchedules();
      NoneHandled(start, Snapshot(), due);
      PickedOnce(schedules, world.clock, due);
      ghost var from := |old(run)| - 1;
      visits := HandleAll(start, from, due, counts, inserted, cleaned, marked, others);
      if !stopping {
        TickAdvancesExactly(start, Snapshot(), due, visits, counts, inserted, marked);
      }
    }

    method HandleNext(ghost start: State, ghost from: nat, due: seq<ScheduleId>, visits: seq<Visit>,
        counts: nat -> bool, inserted: nat -> Outcome, cleaned: nat -> Outcome, marked: nat -> Outcome,
        others: nat -> nat -> seq<Action>)
      returns (more: seq<Visit>)
      requires Valid() && SchedulesSound(start.schedules, start.intervals) && TakenOnce(start.schedules, due)
      requires from < |run|
      requires |visits| < |due| && Handled(start, Snapshot(), due, visits)
      requires AllDecided(visits, counts, inserted, marked, stopping) && AllOnRecord(run, from, due, visits)
      requires world.scheduler.Busy? && world.scheduler.stage.Look? && world.scheduler.now == start.clock
      requires world.scheduler.head == Due(due[|visits|], start.schedules[due[|visits|]].interval)
      modifies this
      ensures Valid() && old(run) <= run && world.scheduler == Resume(start.clock, old(world.scheduler).rest)
      ensures |more| == |visits| + 1 && Handled(start, Snapshot(), due, more)
      ensures AllDecided(more, counts, inserted, marked, stopping) && AllOnRecord(run, from, due, more)
    {
      hide Inv, IsRun, Handled, Visited, OnRecord, AllDecided, AllOnRecord, SchedulesSound, TakenOnce, Resume;
      ghost var s, before := Snapshot(), run;
      var i := |visits|;
      var v := HandleSchedule(counts(i), inserted(i), cleaned(i), marked(i), others(i));
      HandledOneMore(start, s, Snapshot(), due, visits, v);
      OneMoreDecided(visits, v, counts, inserted, marked, s.stopping, stopping);
      OneMoreOnRecord(before, run, from, due, visits, v);
      more := visits + [v];
    }

    method HandleAll(ghost start: State, ghost from: nat, due: seq<ScheduleId>, counts: nat -> bool,
        inserted: nat -> Outcome, cleaned: nat -> Outcome, marked: nat -> Outcome, others: nat -> nat -> seq<Action>)
      returns (visits: seq<Visit>)
      requires Valid() && SchedulesSound(start.schedules, start.intervals) && TakenOnce(start.schedules, due)
      requires from < |run|
      requires world.scheduler == Resume(start.clock, DueList(start.schedules, due))
      requires Handled(start, Snapshot(), due, [])
      modifies this
      ensures Valid() && world.scheduler.Asleep? && old(run) <= run
      ensures |visits| == |due| && Handled(start, Snapshot(), due, visits)
      ensures AllDecided(visits, counts, inserted, marked, stopping) && AllOnRecord(run, from, due, visits)
    {
      hide Inv, IsRun, Handled, Visited, OnRecord, AllDecided;
      ghost var list := DueList(start.schedules, due);
      visits := [];
      NoneDecided(counts, inserted, marked, stopping);
      assert list[0..] == list;
      for i := 0 to |due|
        invariant Valid() && old(run) <= run && world.scheduler == Resume(start.clock, list[i..])
        invariant |visits| == i && Handled(start, Snapshot(), due, visits)
        invariant AllDecided(visits, counts, inserted, marked, stopping) && AllOnRecord(run, from, due, visits)
      {
        assert list[i..] == [list[i]] + list[i + 1..];
        visits := HandleNext(start, from, due, visits, counts, inserted, cleaned, marked, others);
      }
    }

    // ----- retention and restart -----

    /**
     DELETE ... WHERE completed_at < cutoff: terminal jobs only, whatever the state. The
     deliveries are deleted by a statement before it (`cleared`); if either fails there
     is no count, and no row is gone unless the second took effect all the same.
     */
    method PurgeOldJobs(cutoff: real, cleared: bool, outcome: Outcome) returns (deleted: Option<int>)
      requires Valid()
      modifies this
      ensures Valid() && old(run) <= run && jobs.Keys <= old(jobs).Keys
      ensures deleted == if cleared && outcome.Ok? && !stopping then Some(|old(jobs)| - |jobs|) else None
      ensures !cleared || outcome.Lost? || (stopping && outcome.Ok?) ==> Snapshot() == old(Snapshot())
      ensures forall id :: id in jobs ==> jobs[id] == old(jobs)[id]
      ensures deleted.Some? || (cleared && outcome.Applied?) ==> forall id :: id in old(jobs) ==>
        (id !in jobs <==>
          old(jobs)[id].status != Pending && old(jobs)[id].status != Running
          && old(jobs)[id].completedAt != None && old(jobs)[id].completedAt.value < cutoff)
    {
      hide Inv, IsRun;
      NowInv();
      deleted := None;
      if cleared {
        var purged := Under(stopping, outcome);
        if purged.Ok? {
          deleted := Some(|jobs| - |Purged(jobs, cutoff)|);
        }
        if purged.Effective() {
          PurgedAreOld(Snapshot(), cutoff);
          jobs := Purged(jobs, cutoff);
          Perform(Other(Purge(cutoff)));
        }
      }
    }

    /** The daemon dies and starts again: only the tables are left, and what was live in them is failed. */
    method Restart(recovered: Outcome, workerCount: nat, queueDepth: nat)
      requires Valid()
      modifies this
      ensures Valid() && old(run) <= run && jobs.Keys == old(jobs).Keys && schedules == old(schedules)
      ensures jobQueue == [] && pendingJobs == {} && !stopping && world.submits == map[] && world.scheduler.Asleep?
      ensures |world.workers| == workerCount && forall w :: 0 <= w < workerCount ==> world.workers[w].Idle?
      ensures world.depth == queueDepth && world.clock == old(world.clock)
      ensures recovered.Lost? ==> jobs == old(jobs)
      ensures !recovered.Lost? ==> forall id :: id in jobs ==>
        jobs[id] ==
        if old(jobs)[id].status == Pending || old(jobs)[id].status == Running then
          Row(Failed, old(jobs)[id].schedule, Some(world.clock))
        else old(jobs)[id]
    {
      hide Inv, IsRun, SubmitNext, WorkNext, TickNext, SubmitEnabled, WorkEnabled, TickEnabled;
      jobs := Recovered(jobs, world.clock, recovered);
      jobQueue, pendingJobs, stopping := [], {}, false;
      world := world.(canceller := None, submits := map[], workers := seq(workerCount, _ => Idle), depth := queueDepth,
        scheduler := Asleep);
      Perform(Other(OtherStep.Restart(recovered, workerCount, queueDepth)));
    }
  }

  lemma StaysUndisturbed(s: State, me: Actor)
    ensures Undisturbed(s, s, me)
  {}
}
