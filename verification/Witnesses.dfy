/**
 Runs of the coordination, from its initial state on, in which something goes
 wrong: they show that the conditions of the theorems in JobOwnership, Scheduling
 and JobManager cannot be dropped.
 */
module Witnesses {
  import opened Wrappers
  import opened Jobs
  import opened JobSafety
  import opened JobOwnership
  import opened Scheduling

  /** A daemon with one worker and room for one job. */
  function Start(): State {
    State(map[], map[], 0.0, 1, [], {}, None, map[], [Idle], Asleep, false, {}, [], {}, map[], map[])
  }

  function EveryInterval(interval: real): Schedule {
    Schedule.Schedule(true, interval, None, 0.0)
  }

  function Created(interval: real): State {
    Start().(schedules := map[0 := EveryInterval(interval)], intervals := map[0 := interval])
  }

  /** The tick of moment 0 handles schedule 0, at this stage. */
  function AtStage(s: State, interval: real, stage: Stage): State {
    s.(scheduler := Busy(0.0, Due(0, interval), [], stage))
  }

  /** The tick has counted schedule 0 as idle; it is `delay` later now. */
  function Idled(interval: real, delay: real): State {
    AtStage(Created(interval), interval, Ready).(clock := delay)
  }

  /** Job 0 is inserted, its submission in this phase. */
  function Inserted(interval: real, delay: real, phase: Phase): State {
    AtStage(Created(interval), interval, Submitting(0)).(clock := delay,
      jobs := map[0 := Row(Pending, Some(0), None)], submits := map[0 := phase], used := {0},
        submittedAt := map[0 := 0.0])
  }

  function Registered(interval: real, delay: real, phase: Phase): State {
    Inserted(interval, delay, phase).(pending := {0})
  }

  /** Job 0 is in the queue, the schedule still to be advanced. */
  function Sent(interval: real, delay: real): State {
    AtStage(Registered(interval, delay, Jobs.Registered).(submits := map[], queue := [0]), interval, Mark)
  }

  /** The schedule is advanced as the outcome says. */
  function Queued(interval: real, delay: real, outcome: Outcome): State {
    Sent(interval, delay).(scheduler := Asleep,
      schedules := Marked(map[0 := EveryInterval(interval)], Due(0, interval), 0.0, outcome))
  }

  /** Job 0 is with the worker. */
  function Served(s: State, worker: Worker, status: Status, completedAt: Option<real>): State {
    s.(pending := {}, queue := [], started := [0], workers := [worker],
      jobs := map[0 := Row(status, Some(0), completedAt)])
  }

  /** Job 0 is done. */
  function Finished(interval: real, delay: real, outcome: Outcome): State {
    Served(Queued(interval, delay, outcome), Worker.Idle, Completed, Some(delay))
  }

  ghost predicate Reaches(run: seq<State>, actions: seq<Action>, s: State) {
    IsRun(run, actions) && |run| == |actions| + 1 && run[0] == Start() && run[|run| - 1] == s
  }

  lemma StartIsInitial()
    ensures Initial(Start()) && Inv(Start()) && NoOrphans(Start()) && Spaced(Start())
  {
    InitialInv(Start());
    InitialOwned(Start());
    InitialSpaced(Start());
  }

  // ----- the steps from one to the next -----

  lemma CountingSteps(interval: real, delay: real)
    requires MIN_SCHEDULE_INTERVAL <= interval && 0.0 <= delay
    ensures Goes(Start(), Other(CreateSchedule(0, EveryInterval(interval))), Created(interval))
    ensures Goes(Created(interval), Tick(Query([0])), AtStage(Created(interval), interval, Look))
    ensures Goes(AtStage(Created(interval), interval, Look), Tick(Count(true)), Idled(interval, 0.0))
    ensures Goes(AtStage(Created(interval), interval, Look), Tick(Count(false)), Created(interval))
    ensures Goes(Idled(interval, 0.0), Other(Clock(delay)), Idled(interval, delay))
  {
    assert DueList(Created(interval).schedules, [0]) == [Due(0, interval)];
    assert [Due(0, interval)][1..] == [];
  }

  lemma SubmissionSteps(interval: real, delay: real)
    ensures Goes(Idled(interval, delay), Submit(0, CreateScheduled(Ok)), Inserted(interval, delay, Jobs.Created))
    ensures Goes(Inserted(interval, delay, Jobs.Created), Submit(0, Register),
      Registered(interval, delay, Jobs.Registered))
    ensures Goes(Registered(interval, delay, Jobs.Registered), Submit(0, CheckStop),
      Registered(interval, delay, Passed))
    ensures Goes(Registered(interval, delay, Passed), Submit(0, Enqueue), Sent(interval, delay))
  {}

  lemma AdvanceStep(interval: real, delay: real, outcome: Outcome)
    ensures Goes(Sent(interval, delay), Tick(Advance(outcome)), Queued(interval, delay, outcome))
  {}

  lemma WorkSteps(interval: real, delay: real, outcome: Outcome)
    ensures var s := Queued(interval, delay, outcome);
      && Goes(s, Work(0, Dequeue), s.(queue := [], workers := [Dequeued(0)]))
      && Goes(s.(queue := [], workers := [Dequeued(0)]), Work(0, Claim), Served(s, Claimed(0), Pending, None))
      && Goes(Served(s, Claimed(0), Pending, None), Work(0, Begin(Ok)), Served(s, Processing(0), Running, None))
  {}

  lemma FinishSteps(interval: real, delay: real, outcome: Outcome)
    ensures var s := Queued(interval, delay, outcome);
      && Goes(Served(s, Processing(0), Running, None), Work(0, Finish(Completed, Ok)),
        Served(s, Finishing(0), Completed, Some(delay)))
      && Goes(Served(s, Finishing(0), Completed, Some(delay)), Work(0, Done), Finished(interval, delay, outcome))
  {}

  // ----- the runs -----

  function ToIdled(interval: real, delay: real): seq<Action> {
    [Other(CreateSchedule(0, EveryInterval(interval))), Tick(Query([0])), Tick(Count(true)), Other(Clock(delay))]
  }

  function ToInserted(interval: real, delay: real): seq<Action> {
    ToIdled(interval, delay) + [Submit(0, CreateScheduled(Ok))]
  }

  function ToQueued(interval: real, delay: real, outcome: Outcome): (actions: seq<Action>)
    ensures |actions| == 9 && actions[8] == Tick(Advance(outcome))
  {
    ToInserted(interval, delay)
      + [Submit(0, Register), Submit(0, CheckStop), Submit(0, Enqueue), Tick(Advance(outcome))]
  }

  function ToFinished(interval: real, delay: real, outcome: Outcome): (actions: seq<Action>)
    ensures |actions| == 14 && actions[8] == Tick(Advance(outcome))
  {
    ToQueued(interval, delay, outcome)
    + [Work(0, Dequeue), Work(0, Claim), Work(0, Begin(Ok)), Work(0, Finish(Completed, Ok)), Work(0, Done)]
  }

  lemma ReachStart()
    ensures Reaches([Start()], [], Start())
  {}

  lemma ReachIdled(interval: real, delay: real) returns (run: seq<State>, actions: seq<Action>)
    requires MIN_SCHEDULE_INTERVAL <= interval && 0.0 <= delay
    ensures Reaches(run, actions, Idled(interval, delay)) && actions == ToIdled(interval, delay)
  {
    hide IsRun, Goes, Start, Created, AtStage, Idled;
    ReachStart();
    CountingSteps(interval, delay);
    run, actions := Extend([Start()], [], Other(CreateSchedule(0, EveryInterval(interval))), Created(interval));
    run, actions := Extend(run, actions, Tick(Query([0])), AtStage(Created(interval), interval, Look));
    run, actions := Extend(run, actions, Tick(Count(true)), Idled(interval, 0.0));
    run, actions := Extend(run, actions, Other(Clock(delay)), Idled(interval, delay));
  }

  lemma ReachInserted(interval: real, delay: real) returns (run: seq<State>, actions: seq<Action>)
    requires MIN_SCHEDULE_INTERVAL <= interval && 0.0 <= delay
    ensures Reaches(run, actions, Inserted(interval, delay, Jobs.Created)) && actions == ToInserted(interval, delay)
    ensures Fires(run, actions, 4, 0) && run[4].clock == delay
  {
    hide IsRun, Goes, Inserted;
    SubmissionSteps(interval, delay);
    run, actions := ReachIdled(interval, delay);
    run, actions := Extend(run, actions, Submit(0, CreateScheduled(Ok)), Inserted(interval, delay, Jobs.Created));
  }

  lemma ReachQueued(interval: real, delay: real, outcome: Outcome) returns (run: seq<State>, actions: seq<Action>)
    requires MIN_SCHEDULE_INTERVAL <= interval && 0.0 <= delay
    ensures Reaches(run, actions, Queued(interval, delay, outcome)) && actions == ToQueued(interval, delay, outcome)
    ensures Fires(run, actions, 4, 0) && run[4].clock == delay && run[8] == Sent(interval, delay)
  {
    hide IsRun, Goes, Inserted, Registered, Sent, Queued, Fires;
    SubmissionSteps(interval, delay);
    AdvanceStep(interval, delay, outcome);
    var before, done := ReachInserted(interval, delay);
    run, actions := Extend(before, done, Submit(0, Register), Registered(interval, delay, Jobs.Registered));
    run, actions := Extend(run, actions, Submit(0, CheckStop), Registered(interval, delay, Passed));
    run, actions := Extend(run, actions, Submit(0, Enqueue), Sent(interval, delay));
    run, actions := Extend(run, actions, Tick(Advance(outcome)), Queued(interval, delay, outcome));
    FiresStays(before, done, run, actions, 4);
  }

  lemma ReachFinished(interval: real, delay: real, outcome: Outcome) returns (run: seq<State>, actions: seq<Action>)
    requires MIN_SCHEDULE_INTERVAL <= interval && 0.0 <= delay
    ensures Reaches(run, actions, Finished(interval, delay, outcome)) && actions == ToFinished(interval, delay, outcome)
    ensures Fires(run, actions, 4, 0) && run[4].clock == delay && run[8] == Sent(interval, delay)
  {
    hide IsRun, Goes, Sent, Queued, Served, Finished, Fires, ToQueued;
    var s := Queued(interval, delay, outcome);
    WorkSteps(interval, delay, outcome);
    FinishSteps(interval, delay, outcome);
    var before, done := ReachQueued(interval, delay, outcome);
    run, actions := Extend(before, done, Work(0, Dequeue), s.(queue := [], workers := [Dequeued(0)]));
    run, actions := Extend(run, actions, Work(0, Claim), Served(s, Claimed(0), Pending, None));
    run, actions := Extend(run, actions, Work(0, Begin(Ok)), Served(s, Processing(0), Running, None));
    run, actions := Extend(run, actions, Work(0, Finish(Completed, Ok)),
      Served(s, Finishing(0), Completed, Some(delay)));
    run, actions := Extend(run, actions, Work(0, Done), Finished(interval, delay, outcome));
    FiresStays(before, done, run, actions, 4);
  }

  lemma FiresStays(run: seq<State>, actions: seq<Action>, run': seq<State>, actions': seq<Action>, i: nat)
    requires i < |run| && i < |actions| && Fires(run, actions, i, 0) && run <= run' && actions <= actions'
    ensures Fires(run', actions', i, 0) && run'[i] == run[i] && actions'[i] == actions[i]
  {}

  // ----- two jobs too close together -----

  /** Schedule 0 is due and has no active job. */
  predicate CanFire(s: State) {
    && s.scheduler == Asleep && !s.stopping && 1 !in s.used && s.schedules.Keys == {0}
    && IsDue(s.schedules[0], s.clock) && !SomeActive(s.jobs, 0)
  }

  lemma FireAgainSteps(s: State, interval: real)
    requires CanFire(s) && s.schedules[0].interval == interval
    ensures var busy := s.(scheduler := Busy(s.clock, Due(0, interval), [], Look));
      && Goes(s, Tick(Query([0])), busy)
      && Goes(busy, Tick(Count(true)), busy.(scheduler := busy.scheduler.(stage := Ready)))
      && Enabled(busy.(scheduler := busy.scheduler.(stage := Ready)), Submit(1, CreateScheduled(Ok)))
  {
    assert DueList(s.schedules, [0]) == [Due(0, interval)];
    assert [Due(0, interval)][1..] == [];
  }

  /** The next tick submits job 1 at once. */
  lemma FireAgain(run: seq<State>, actions: seq<Action>) returns (run': seq<State>, actions': seq<Action>)
    requires IsRun(run, actions) && |run| == |actions| + 1 && CanFire(run[|run| - 1])
    ensures IsRun(run', actions') && run <= run' && |run'| == |run| + 3
    ensures actions' == actions + [Tick(Query([0])), Tick(Count(true)), Submit(1, CreateScheduled(Ok))]
    ensures Fires(run', actions', |actions| + 2, 0) && run'[|actions| + 2].clock == run[|run| - 1].clock
  {
    hide IsRun, Enabled, Next;
    var s := run[|run| - 1];
    var interval := s.schedules[0].interval;
    FireAgainSteps(s, interval);
    var busy := s.(scheduler := Busy(s.clock, Due(0, interval), [], Look));
    var ready := busy.(scheduler := busy.scheduler.(stage := Ready));
    run', actions' := Extend(run, actions, Tick(Query([0])), busy);
    run', actions' := Extend(run', actions', Tick(Count(true)), ready);
    run', actions' := Extend(run', actions', Submit(1, CreateScheduled(Ok)),
      Next(ready, Submit(1, CreateScheduled(Ok))));
  }

  lemma FinishedCanFire(interval: real, delay: real)
    requires MIN_SCHEDULE_INTERVAL <= interval && 0.0 <= delay
    ensures delay <= interval ==>
      Goes(Finished(interval, delay, Ok), Other(Clock(interval)), Finished(interval, delay, Ok).(clock := interval))
    ensures delay <= interval ==> CanFire(Finished(interval, delay, Ok).(clock := interval))
    ensures CanFire(Finished(interval, delay, Lost)) && Finished(interval, delay, Lost).clock == delay
    ensures Slips(Sent(interval, delay), Tick(Advance(Lost)))
  {}

  lemma RestartedCanFire(interval: real, delay: real)
    requires MIN_SCHEDULE_INTERVAL <= interval && 0.0 <= delay
    ensures var s := Inserted(interval, delay, Jobs.Created);
      && Slips(s, Other(Restart(Ok, 1, 1))) && OtherNext(s, Restart(Ok, 1, 1)).clock == delay
      && Goes(s, Other(Restart(Ok, 1, 1)), OtherNext(s, Restart(Ok, 1, 1))) && CanFire(OtherNext(s, Restart(Ok, 1, 1)))
  {}

  /** Two jobs of schedule 0, inserted at steps i and j of a run from the start, `gap` apart. */
  ghost predicate TwoJobs(run: seq<State>, actions: seq<Action>, i: nat, j: nat, gap: real) {
    && IsRun(run, actions) && Initial(run[0]) && i < j < |actions|
    && Fires(run, actions, i, 0) && Fires(run, actions, j, 0) && run[j].clock - run[i].clock == gap
  }

  /** No advance is lost, and still two jobs are inserted as close together as the delay of the first allows. */
  lemma DelayedInsertNarrowsGap(interval: real, delay: real) returns (run: seq<State>, actions: seq<Action>)
    requires MIN_SCHEDULE_INTERVAL <= interval && 0.0 <= delay <= interval
    ensures TwoJobs(run, actions, 4, 17, interval - delay) && Spaced(run[0]) && NoSlips(run, actions, 17)
  {
    hide CanFire, IsRun, Start, Fires, Slips, Spaced, Initial, Inv, NoOrphans, Goes, Finished;
    StartIsInitial();
    FinishedCanFire(interval, delay);
    var before, done := ReachFinished(interval, delay, Ok);
    run, actions := Extend(before, done, Other(Clock(interval)), Finished(interval, delay, Ok).(clock := interval));
    run, actions := FireAgain(run, actions);
    FiresStays(before, done, run, actions, 4);
    NothingLost(run, actions, 17);
  }

  lemma NothingLost(run: seq<State>, actions: seq<Action>, m: nat)
    requires m <= |actions| && m <= |run|
    requires forall i :: 0 <= i < m ==>
      actions[i] != Tick(Advance(Lost)) && !(actions[i].Other? && actions[i].other.Restart?)
    ensures NoSlips(run, actions, m)
  {}

  /** The update that advances the schedule is lost: the second job comes at the moment of the first. */
  lemma LostAdvanceRepeats(interval: real, delay: real) returns (run: seq<State>, actions: seq<Action>)
    requires MIN_SCHEDULE_INTERVAL <= interval && 0.0 <= delay
    ensures TwoJobs(run, actions, 4, 16, 0.0) && actions[8] == Tick(Advance(Lost)) && Slips(run[8], actions[8])
  {
    hide CanFire, IsRun, Start, Fires, Slips, Spaced, Initial, Inv, NoOrphans, Goes, Finished, Sent, ToFinished;
    StartIsInitial();
    FinishedCanFire(interval, delay);
    var before, done := ReachFinished(interval, delay, Lost);
    run, actions := FireAgain(before, done);
    FiresStays(before, done, run, actions, 4);
    assert run[8] == before[8] && actions[8] == done[8];
  }

  /** The daemon dies before that update: the same. */
  lemma CrashRepeatsSubmission(interval: real, delay: real) returns (run: seq<State>, actions: seq<Action>)
    requires MIN_SCHEDULE_INTERVAL <= interval && 0.0 <= delay
    ensures TwoJobs(run, actions, 4, 8, 0.0) && actions[5] == Other(Restart(Ok, 1, 1)) && Slips(run[5], actions[5])
  {
    hide CanFire, IsRun, Start, Fires, Slips, Spaced, Initial, Inv, NoOrphans, Goes, Inserted, OtherNext;
    StartIsInitial();
    RestartedCanFire(interval, delay);
    var before, done := ReachInserted(interval, delay);
    var s := Inserted(interval, delay, Jobs.Created);
    run, actions := Extend(before, done, Other(Restart(Ok, 1, 1)), OtherNext(s, Restart(Ok, 1, 1)));
    run, actions := FireAgain(run, actions);
    FiresStays(before, done, run, actions, 4);
  }

  // ----- a row that nobody owns -----

  lemma RejectionSteps(interval: real)
    ensures var s, t := Registered(interval, 0.0, Jobs.Registered),
      Inserted(interval, 0.0, Dropping).(stopping := true);
      && Goes(s, Other(Stop), s.(stopping := true))
      && Goes(s.(stopping := true), Submit(0, CheckStop), s.(stopping := true, submits := map[0 := Rejecting]))
      && Goes(s.(stopping := true, submits := map[0 := Rejecting]), Submit(0, Unregister), t)
      && SubmitEnabled(t, 0, Drop(Lost)) && Goes(t, Submit(0, Drop(Lost)), SubmitNext(t, 0, Drop(Lost)))
      && Submits(t.scheduler, 0) && 0 in t.jobs
  {}

  /** Shutdown catches a scheduled submission: its row stays PENDING, and nobody owns it. */
  lemma ShutdownLeavesRow(interval: real) returns (run: seq<State>, actions: seq<Action>)
    requires MIN_SCHEDULE_INTERVAL <= interval
    ensures IsRun(run, actions) && run != [] && Initial(run[0]) && NoOrphans(run[0])
    ensures var s := run[|run| - 1];
      && 0 in s.jobs && s.jobs[0].status == Pending && (forall owner :: !Owns(s, owner, 0)) && !NoOrphans(s)
  {
    hide Inv, NoOrphans, Goes, IsRun, Initial, Spaced, Start, SubmitNext, Owns, Inserted, Registered;
    StartIsInitial();
    SubmissionSteps(interval, 0.0);
    RejectionSteps(interval);
    var s, t := Registered(interval, 0.0, Jobs.Registered), Inserted(interval, 0.0, Dropping).(stopping := true);
    run, actions := ReachInserted(interval, 0.0);
    run, actions := Extend(run, actions, Submit(0, Register), s);
    run, actions := Extend(run, actions, Other(Stop), s.(stopping := true));
    run, actions := Extend(run, actions, Submit(0, CheckStop), s.(stopping := true, submits := map[0 := Rejecting]));
    run, actions := Extend(run, actions, Submit(0, Unregister), t);
    RunKeepsInv(run, actions, |run| - 1);
    ShutdownOrphans(t, 0, Lost);
    SubmitLosesOne(t, 0, Drop(Lost));
    run, actions := Extend(run, actions, Submit(0, Drop(Lost)), SubmitNext(t, 0, Drop(Lost)));
  }

  // ----- schedules that do not move on -----

  /** `next_run_at` does not always advance: a tick whose count fails leaves the schedule due. */
  lemma FailedCountStaysDue(interval: real) returns (run: seq<State>)
    requires MIN_SCHEDULE_INTERVAL <= interval
    ensures IsRun(run, [Other(CreateSchedule(0, EveryInterval(interval))), Tick(Query([0])), Tick(Count(false))])
    ensures Initial(run[0]) && |run| == 4 && run[3] == run[1]
    ensures 0 in run[3].schedules && IsDue(run[3].schedules[0], run[3].clock)
  {
    hide IsRun, Goes, AtStage;
    ReachStart();
    CountingSteps(interval, 0.0);
    var actions;
    run, actions := Extend([Start()], [], Other(CreateSchedule(0, EveryInterval(interval))), Created(interval));
    run, actions := Extend(run, actions, Tick(Query([0])), AtStage(Created(interval), interval, Look));
    run, actions := Extend(run, actions, Tick(Count(false)), Created(interval));
    assert actions == [Other(CreateSchedule(0, EveryInterval(interval))), Tick(Query([0])), Tick(Count(false))];
  }

  lemma SkipSteps(interval: real)
    requires MIN_SCHEDULE_INTERVAL <= interval
    ensures var s := Queued(interval, 0.0, Ok).(clock := interval);
      var busy := s.(scheduler := Busy(interval, Due(0, interval), [], Look));
      && Goes(Queued(interval, 0.0, Ok), Other(Clock(interval)), s)
      && Goes(s, Tick(Query([0])), busy)
      && Goes(busy, Tick(Count(true)), busy.(scheduler := busy.scheduler.(stage := Mark)))
      && Goes(busy.(scheduler := busy.scheduler.(stage := Mark)), Tick(Advance(Lost)), s)
      && SomeActive(s.jobs, 0) && 0 in s.schedules && IsDue(s.schedules[0], s.clock)
  {
    assert DueList(Queued(interval, 0.0, Ok).schedules, [0]) == [Due(0, interval)];
    assert [Due(0, interval)][1..] == [];
  }

  /** Nor does it when the tick only skips, because the last job is still active, and the update fails. */
  lemma LostSkipStaysDue(interval: real) returns (run: seq<State>, actions: seq<Action>)
    requires MIN_SCHEDULE_INTERVAL <= interval
    ensures IsRun(run, actions) && |run| == 14 && Initial(run[0]) && |actions| == 13
    ensures actions[10] == Tick(Query([0])) && actions[11] == Tick(Count(true)) && actions[12] == Tick(Advance(Lost))
    ensures SomeActive(run[10].jobs, 0) && run[13] == run[10]
    ensures 0 in run[13].schedules && IsDue(run[13].schedules[0], run[13].clock)
  {
    hide Inv, NoOrphans, Goes, IsRun, Initial, Spaced, Start, Queued, Sent, SomeActive, Fires, ToQueued;
    StartIsInitial();
    SkipSteps(interval);
    run, actions := ReachQueued(interval, 0.0, Ok);
    var s := Queued(interval, 0.0, Ok).(clock := interval);
    var busy := s.(scheduler := Busy(interval, Due(0, interval), [], Look));
    run, actions := Extend(run, actions, Other(Clock(interval)), s);
    run, actions := Extend(run, actions, Tick(Query([0])), busy);
    run, actions := Extend(run, actions, Tick(Count(true)), busy.(scheduler := busy.scheduler.(stage := Mark)));
    run, actions := Extend(run, actions, Tick(Advance(Lost)), s);
  }
}
