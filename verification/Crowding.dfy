/**
 Runs of the scheduler that attain the bound of Scheduling.Fairness, whatever the
 number of schedules ahead: k + 1 schedules are due at once, and each tick takes
 twenty of the others, submits their jobs and moves them on.
 */
module Crowding {
  import opened Wrappers
  import opened Jobs
  import opened Scheduling
  import opened Sets

  function Never(): Schedule {
    Schedule.Schedule(true, MIN_SCHEDULE_INTERVAL, None, 0.0)
  }

  function Once(): Schedule {
    Schedule.Schedule(true, MIN_SCHEDULE_INTERVAL, Some(0.0), MIN_SCHEDULE_INTERVAL)
  }

  function Entry(x: ScheduleId, j: nat): Schedule {
    if x < j then Once() else Never()
  }

  /** The first n schedules, of which the first j had their tick at moment 0. */
  function Table(n: nat, j: nat): map<ScheduleId, Schedule> {
    map x: nat | x < n :: Entry(x, j)
  }

  function Ids(j: nat, n: nat): (ids: seq<ScheduleId>)
    ensures |ids| == n && forall i :: 0 <= i < n ==> ids[i] == j + i
  {
    seq(n, (i: nat) => j + i)
  }

  function Dues(j: nat, n: nat): (list: seq<Due>)
    ensures |list| == n && forall i :: 0 <= i < n ==> list[i] == Due(j + i, MIN_SCHEDULE_INTERVAL)
  {
    seq(n, (i: nat) => Due(j + i, MIN_SCHEDULE_INTERVAL))
  }

  /** The jobs of the first j schedules are in the queue, and there is room for the others. */
  ghost predicate Room(s: State, k: nat, j: nat) {
    && s.clock == 0.0 && !s.stopping && Unlocked(s) && |s.queue| <= j && k < s.depth
    && (forall id :: id in s.used ==> id < j)
    && (forall id :: id in s.jobs ==> id < j && s.jobs[id].schedule == Some(id))
  }

  /** The first j schedules are done, and the tick at moment 0 has n more before it. */
  ghost predicate Working(s: State, k: nat, j: nat, n: nat) {
    Room(s, k, j) && j + n <= k && s.schedules == Table(k + 1, j) && s.scheduler == Resume(0.0, Dues(j, n))
  }

  /** The run has no step about schedules other than those of ticks, and schedule k is passed over p times so far. */
  ghost predicate Passing(run: seq<State>, actions: seq<Action>, k: nat, p: nat) {
    && IsRun(run, actions) && AllWork(actions, k) && (forall i :: 0 <= i < |actions| ==> !actions[i].Other?)
    && Passes(run, actions, k, |actions|) == p
  }

  /** What is counted over a run depends on its part so far. */
  lemma {:induction false} PassesOfPrefix(run: seq<State>, actions: seq<Action>,
      run': seq<State>, actions': seq<Action>, k: nat, m: nat)
    requires m <= |actions| && m <= |run| && run <= run' && actions <= actions'
    ensures Passes(run', actions', k, m) == Passes(run, actions, k, m)
  {
    if 0 < m {
      PassesOfPrefix(run, actions, run', actions', k, m - 1);
    }
  }

  lemma OneMore(run: seq<State>, actions: seq<Action>, k: nat, p: nat, a: Action, t: State)
    returns (run': seq<State>, actions': seq<Action>)
    requires Passing(run, actions, k, p) && Goes(run[|run| - 1], a, t) && Works(a, k) && !a.Other?
    ensures Passing(run', actions', k, p + if PassesOver(run[|run| - 1], a, k) then 1 else 0)
    ensures run <= run' && run' != [] && run'[|run'| - 1] == t
  {
    hide Goes, PassesOver;
    run', actions' := Extend(run, actions, a, t);
    PassesOfPrefix(run, actions, run', actions', k, |actions|);
  }

  /** A tick that finds schedule k and at least twenty others due may leave it out. */
  lemma QueryStep(s: State, k: nat, j: nat)
    requires Working(s, k, j, 0) && j + 20 <= k
    ensures var a, t := Tick(Query(Ids(j, 20))), s.(scheduler := Resume(0.0, Dues(j, 20)));
      Goes(s, a, t) && Working(t, k, j, 20) && PassesOver(s, a, k) && Works(a, k)
  {
    hide PicksDue, DueList, Entry;
    CrowdIsPicked(k, j);
  }

  lemma CrowdIsPicked(k: nat, j: nat)
    requires j + 20 <= k
    ensures var schedules := Table(k + 1, j);
      && PicksDue(schedules, 0.0, Ids(j, 20)) && IsDue(schedules[k], 0.0)
      && DueList(schedules, Ids(j, 20)) == Dues(j, 20)
  {}

  // ----- one schedule of a tick -----

  function Counted(s: State): State
    requires s.scheduler.Busy?
  {
    s.(scheduler := s.scheduler.(stage := Ready))
  }

  /** The schedule has no job yet, so it is idle. */
  lemma CountStep(s: State, k: nat, j: nat, n: nat)
    requires Working(s, k, j, n) && 0 < n
    ensures s.scheduler == Busy(0.0, Due(j, MIN_SCHEDULE_INTERVAL), Dues(j + 1, n - 1), Look)
    ensures Goes(s, Tick(Count(true)), Counted(s)) && CanSubmit(Counted(s), j)
  {
    assert Dues(j, n)[1..] == Dues(j + 1, n - 1);
  }

  /** A submission step by step. */
  lemma SubmissionSteps(s: State, id: Id)
    requires CanSubmit(s, id)
    ensures SubmitEnabled(s, id, CreateScheduled(Ok))
    ensures var s1 := SubmitNext(s, id, CreateScheduled(Ok));
      && Goes(s, Submit(id, CreateScheduled(Ok)), s1) && SubmitEnabled(s1, id, Register)
      && var s2 := SubmitNext(s1, id, Register);
      && Goes(s1, Submit(id, Register), s2) && SubmitEnabled(s2, id, CheckStop)
      && var s3 := SubmitNext(s2, id, CheckStop);
      && Goes(s2, Submit(id, CheckStop), s3) && Goes(s3, Submit(id, Enqueue), Submitted(s, id))
  {}

  lemma SubmitInFull(run: seq<State>, actions: seq<Action>, k: nat, p: nat, id: Id)
    returns (run': seq<State>, actions': seq<Action>)
    requires Passing(run, actions, k, p) && run != [] && CanSubmit(run[|run| - 1], id)
    ensures Passing(run', actions', k, p) && run <= run' && run' != []
    ensures run'[|run'| - 1] == Submitted(run[|run| - 1], id)
  {
    hide Passing, CanSubmit, Goes, SubmitNext, SubmitEnabled, Submitted;
    var s := run[|run| - 1];
    SubmissionSteps(s, id);
    var s1 := SubmitNext(s, id, CreateScheduled(Ok));
    var s2 := SubmitNext(s1, id, Register);
    var s3 := SubmitNext(s2, id, CheckStop);
    run', actions' := OneMore(run, actions, k, p, Submit(id, CreateScheduled(Ok)), s1);
    run', actions' := OneMore(run', actions', k, p, Submit(id, Register), s2);
    run', actions' := OneMore(run', actions', k, p, Submit(id, CheckStop), s3);
    run', actions' := OneMore(run', actions', k, p, Submit(id, Enqueue), Submitted(s, id));
  }

  lemma SubmittedRoom(s: State, k: nat, j: nat)
    requires Room(s, k, j) && CanSubmit(s, j) && s.scheduler.head.id == j
    ensures Room(Submitted(s, j), k, j + 1)
  {}

  lemma AdvanceStep(s: State, t: State, k: nat, j: nat, n: nat)
    requires Room(s, k, j + 1) && 0 < n && j + n <= k && s.schedules == Table(k + 1, j)
    requires s.scheduler == Busy(0.0, Due(j, MIN_SCHEDULE_INTERVAL), Dues(j + 1, n - 1), Mark)
    requires t == s.(scheduler := Resume(0.0, Dues(j + 1, n - 1)), schedules := Table(k + 1, j + 1))
    ensures Goes(s, Tick(Advance(Ok)), t) && Working(t, k, j + 1, n - 1)
  {
    assert Table(k + 1, j)[j := Once()] == Table(k + 1, j + 1);
  }

  /** The schedule gets its job and moves on. */
  lemma HandleOne(run: seq<State>, actions: seq<Action>, k: nat, p: nat, j: nat, n: nat)
    returns (run': seq<State>, actions': seq<Action>)
    requires Passing(run, actions, k, p) && run != [] && Working(run[|run| - 1], k, j, n) && 0 < n
    ensures Passing(run', actions', k, p) && run <= run' && run' != [] && Working(run'[|run'| - 1], k, j + 1, n - 1)
  {
    hide Passing, CanSubmit, Goes, Submitted, Room, Table, Dues, Resume;
    var s := run[|run| - 1];
    CountStep(s, k, j, n);
    CountedRoom(s, k, j);
    run', actions' := OneMore(run, actions, k, p, Tick(Count(true)), Counted(s));
    run', actions' := SubmitInFull(run', actions', k, p, j);
    SubmittedRoom(Counted(s), k, j);
    var u := Submitted(Counted(s), j);
    var t := u.(scheduler := Resume(0.0, Dues(j + 1, n - 1)), schedules := Table(k + 1, j + 1));
    AdvanceStep(u, t, k, j, n);
    run', actions' := OneMore(run', actions', k, p, Tick(Advance(Ok)), t);
  }

  lemma CountedRoom(s: State, k: nat, j: nat)
    requires Room(s, k, j) && s.scheduler.Busy?
    ensures Room(Counted(s), k, j)
  {}

  lemma {:induction false} HandleAll(run: seq<State>, actions: seq<Action>, k: nat, p: nat, j: nat, n: nat)
    returns (run': seq<State>, actions': seq<Action>)
    requires Passing(run, actions, k, p) && run != [] && Working(run[|run| - 1], k, j, n)
    ensures Passing(run', actions', k, p) && run <= run' && run' != [] && Working(run'[|run'| - 1], k, j + n, 0)
    decreases n
  {
    hide Passing, Working;
    run', actions' := run, actions;
    if 0 < n {
      run', actions' := HandleOne(run, actions, k, p, j, n);
      run', actions' := HandleAll(run', actions', k, p, j + 1, n - 1);
    }
  }

  // ----- one tick after the other -----

  lemma {:induction false} Ticks(start: State, k: nat, m: nat) returns (run: seq<State>, actions: seq<Action>)
    requires Working(start, k, 0, 0) && 20 * m <= k
    ensures Passing(run, actions, k, m) && run != [] && run[0] == start && Working(run[|run| - 1], k, 20 * m, 0)
  {
    hide Passing, Working;
    if m == 0 {
      run, actions := [start], [];
      NonePassed(start, k);
    } else {
      run, actions := Ticks(start, k, m - 1);
      run, actions := OneTick(run, actions, k, m - 1);
    }
  }

  lemma NonePassed(start: State, k: nat)
    ensures Passing([start], [], k, 0)
  {}

  lemma OneTick(run: seq<State>, actions: seq<Action>, k: nat, m: nat) returns (run': seq<State>, actions': seq<Action>)
    requires Passing(run, actions, k, m) && run != [] && Working(run[|run| - 1], k, 20 * m, 0) && 20 * (m + 1) <= k
    ensures Passing(run', actions', k, m + 1) && run <= run' && Working(run'[|run'| - 1], k, 20 * (m + 1), 0)
  {
    hide Passing, Working, PassesOver, Works, Goes, Resume, Dues, Ids;
    var s, j := run[|run| - 1], 20 * m;
    QueryStep(s, k, j);
    run', actions' := OneMore(run, actions, k, m, Tick(Query(Ids(j, 20))), s.(scheduler := Resume(0.0, Dues(j, 20))));
    run', actions' := HandleAll(run', actions', k, m + 1, j, 20);
  }

  // ----- the start -----

  ghost predicate Made(s: State, k: nat, n: nat) {
    && s.schedules == Table(n, 0) && s.scheduler == Asleep && s.clock == 0.0 && !s.stopping && Unlocked(s)
    && s.queue == [] && k < s.depth && s.used == {} && s.jobs == map[] && (forall x: nat :: x in s.intervals <==> x < n)
  }

  lemma {:induction false} Make(k: nat, n: nat) returns (run: seq<State>, actions: seq<Action>)
    ensures IsRun(run, actions) && run != [] && Initial(run[0]) && Made(run[|run| - 1], k, n)
    ensures NoSlips(run, actions, |actions|)
  {
    hide Made, Initial, Goes, OtherNext, OtherEnabled, Steps;
    if n == 0 {
      run, actions := [Start(k)], [];
      NoneMade(k);
    } else {
      var before, done := Make(k, n - 1);
      var s := before[|before| - 1];
      MakeStep(s, k, n - 1);
      run, actions := Extend(before, done, Other(CreateSchedule(n - 1, Never())),
        OtherNext(s, CreateSchedule(n - 1, Never())));
    }
  }

  /** A daemon with one worker and room for k + 1 jobs. */
  function Start(k: nat): State {
    State(map[], map[], 0.0, k + 1, [], {}, None, map[], [Idle], Asleep, false, {}, [], {}, map[], map[])
  }

  lemma NoneMade(k: nat)
    ensures Initial(Start(k)) && Made(Start(k), k, 0)
  {}

  lemma MakeStep(s: State, k: nat, n: nat)
    requires Made(s, k, n)
    ensures var a := CreateSchedule(n, Never());
      OtherEnabled(s, a) && Goes(s, Other(a), OtherNext(s, a)) && Made(OtherNext(s, a), k, n + 1)
  {
    assert Table(n, 0)[n := Never()] == Table(n + 1, 0);
  }

  lemma {:induction false} NoArrivals(actions: seq<Action>, at: real, m: nat)
    requires m <= |actions| && forall i :: 0 <= i < |actions| ==> !actions[i].Other?
    ensures Arrivals(actions, at, m) == 0
  {
    if 0 < m {
      NoArrivals(actions, at, m - 1);
    }
  }

  /** For every k: with k schedules ahead and none arriving, floor(k / 20) ticks do pass the last one over. */
  lemma FairnessIsAttained(k: nat)
    returns (before: seq<State>, done: seq<Action>, run: seq<State>, actions: seq<Action>)
    ensures run != [] && IsRun(before, done) && before != [] && Initial(before[0]) && before[|before| - 1] == run[0]
    ensures IsRun(run, actions) && Spaced(run[0]) && AllWork(actions, k)
    ensures k in run[0].schedules && !InTick(run[0].scheduler, k)
    ensures var at := run[0].schedules[k].nextRun; |Ahead(run[0], k, at)| == k && Arrivals(actions, at, |actions|) == 0
    ensures Passes(run, actions, k, |actions|) == k / 20
  {
    before, done := Make(k, k + 1);
    var start := before[|before| - 1];
    InitialSpaced(before[0]);
    RunSpaced(before, done, |before| - 1);
    run, actions := Ticks(start, k, k / 20);
    NoArrivals(actions, start.schedules[k].nextRun, |actions|);
    assert Ahead(start, k, 0.0) == FirstIds(k);
  }
}
