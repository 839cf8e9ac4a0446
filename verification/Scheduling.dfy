/**
 When schedules fire (internal/job/scheduler.go, internal/store/schedules.go):
 how far apart the jobs of one schedule are, and how long a due schedule can be
 passed over.
 */
module Scheduling {
  import opened Wrappers
  import opened Jobs
  import opened JobSafety
  import opened Sets

  // ----- spacing -----

  /** The schedules of the tick that are not handled yet, the current one first. */
  function ToDo(scheduler: Scheduler): seq<Due> {
    if scheduler.Asleep? then [] else [scheduler.head] + scheduler.rest
  }

  /** A job of the schedule was submitted in this tick and `next_run_at` is still to be advanced. */
  predicate Open(s: State, sid: ScheduleId) {
    && s.scheduler.Busy? && s.scheduler.head.id == sid && (s.scheduler.stage.Submitting? || s.scheduler.stage.Mark?)
    && sid in s.submittedAt && s.submittedAt[sid] == s.scheduler.now
  }

  /** What the tables and the tick know about intervals and times. */
  ghost predicate Timely(s: State) {
    && (forall sid :: sid in s.schedules ==> sid in s.intervals && s.schedules[sid].interval == s.intervals[sid])
    && (forall sid :: sid in s.intervals ==> MIN_SCHEDULE_INTERVAL <= s.intervals[sid])
    && (forall sid :: sid in s.submittedAt ==> sid in s.intervals)
    && (s.scheduler.Busy? ==> s.scheduler.now <= s.clock)
    && (forall i :: 0 <= i < |ToDo(s.scheduler)| ==> Fits(s, ToDo(s.scheduler)[i]))
    && (forall i, j :: 0 <= i < j < |ToDo(s.scheduler)| ==> ToDo(s.scheduler)[i].id != ToDo(s.scheduler)[j].id)
  }

  ghost predicate Fits(s: State, due: Due)
    requires s.scheduler.Busy?
  {
    && due.id in s.intervals && due.interval == s.intervals[due.id]
    && (due.id in s.schedules ==> s.schedules[due.id].nextRun <= s.scheduler.now)
  }

  /** The next run of a schedule is at least an interval after its last submission, as soon as that is recorded. */
  ghost predicate Settled(s: State) {
    forall sid :: sid in s.submittedAt && sid in s.schedules && sid in s.intervals && !Open(s, sid) ==>
      s.submittedAt[sid] + s.intervals[sid] <= s.schedules[sid].nextRun
  }

  /** What the tick will still submit is due. */
  ghost predicate Ripe(s: State) {
    forall i :: 0 <= i < |ToDo(s.scheduler)| ==> RipeAt(s, ToDo(s.scheduler)[i])
  }

  ghost predicate RipeAt(s: State, due: Due)
    requires s.scheduler.Busy?
  {
    due.id in s.submittedAt && due.id in s.intervals && !Open(s, due.id) ==>
      s.submittedAt[due.id] + s.intervals[due.id] <= s.scheduler.now
  }

  ghost predicate Spaced(s: State) {
    Timely(s) && Settled(s) && Ripe(s)
  }

  /** The advance of a submitted schedule gets lost: the update fails, or the process dies before it. */
  predicate Slips(s: State, a: Action) {
    && s.scheduler.Busy? && Open(s, s.scheduler.head.id) && s.scheduler.head.id in s.schedules
    && (a == Tick(Advance(Lost)) || (a.Other? && a.other.Restart?))
  }

  lemma InitialSpaced(s: State)
    requires Initial(s)
    ensures Spaced(s)
  {}

  ghost predicate SameTimes(s: State, t: State) {
    t.schedules == s.schedules && t.intervals == s.intervals && t.submittedAt == s.submittedAt && t.clock == s.clock
  }

  ghost predicate StageOnly(s: State, t: State) {
    && s.scheduler.Busy? && t.scheduler.Busy? && t.scheduler == s.scheduler.(stage := t.scheduler.stage)
    && (Open(t, s.scheduler.head.id) <==> Open(s, s.scheduler.head.id))
  }

  /** Only the stage of the tick changes, and the window after a submission stays open. */
  lemma StageSpaced(s: State, t: State)
    requires Spaced(s) && SameTimes(s, t)
    requires t.scheduler == s.scheduler || StageOnly(s, t)
    ensures Spaced(t)
  {
    assert ToDo(t.scheduler) == ToDo(s.scheduler);
    assert forall sid :: Open(t, sid) <==> Open(s, sid);
    hide Open;
    forall i | 0 <= i < |ToDo(t.scheduler)|
      ensures Fits(t, ToDo(t.scheduler)[i]) && RipeAt(t, ToDo(t.scheduler)[i])
    {
      assert Fits(s, ToDo(s.scheduler)[i]) && RipeAt(s, ToDo(s.scheduler)[i]);
    }
  }

  lemma SubmitSpaced(s: State, id: Id, step: SubmitStep)
    requires Spaced(s) && SubmitEnabled(s, id, step) && !(step.CreateScheduled? && step.outcome.Effective())
    ensures Spaced(SubmitNext(s, id, step))
  {
    var t := SubmitNext(s, id, step);
    if s.scheduler.Busy? {
      assert ToDo(s.scheduler)[0] == s.scheduler.head;
      assert RipeAt(s, s.scheduler.head) && Fits(s, s.scheduler.head);
    }
    hide Timely, Settled, Ripe, ToDo;
    StageSpaced(s, t);
  }

  /** A submission is an interval after the one before, and opens the window. */
  lemma SubmittedSpaced(s: State, id: Id, outcome: Outcome)
    requires Spaced(s) && SubmitEnabled(s, id, CreateScheduled(outcome)) && outcome.Effective()
    ensures Spaced(SubmitNext(s, id, CreateScheduled(outcome)))
    ensures var sid, now := s.scheduler.head.id, s.scheduler.now;
      && sid in s.intervals && s.scheduler.head.interval == s.intervals[sid] && now <= s.clock
      && (sid in s.submittedAt ==> s.submittedAt[sid] + s.intervals[sid] <= now)
  {
    var t, sid := SubmitNext(s, id, CreateScheduled(outcome)), s.scheduler.head.id;
    assert ToDo(s.scheduler)[0] == s.scheduler.head;
    assert RipeAt(s, s.scheduler.head) && Fits(s, s.scheduler.head);
    assert ToDo(t.scheduler) == [t.scheduler.head] + s.scheduler.rest;
    assert Open(t, sid);
    forall i | 0 <= i < |ToDo(t.scheduler)|
      ensures Fits(t, ToDo(t.scheduler)[i]) && RipeAt(t, ToDo(t.scheduler)[i])
    {
      assert Fits(s, ToDo(s.scheduler)[i]) && RipeAt(s, ToDo(s.scheduler)[i]);
    }
  }

  lemma WorkSpaced(s: State, w: nat, step: WorkStep)
    requires Spaced(s) && WorkEnabled(s, w, step)
    ensures Spaced(WorkNext(s, w, step))
  {
    hide Timely, Settled, Ripe, WorkNext;
    WorkMovesOne(s, w, step);
    StageSpaced(s, WorkNext(s, w, step));
  }

  lemma QuerySpaced(s: State, due: seq<ScheduleId>)
    requires Spaced(s) && TickEnabled(s, Query(due))
    ensures Spaced(TickNext(s, Query(due)))
  {
    hide PicksDue, ToDo, Timely, Open;
    PickedAreDue(s.schedules, s.clock, due);
    QueryListed(s, due);
    QueryTimely(s, due);
  }

  /** Nothing was taken before the query; after it, what the query returned, and nothing is submitted yet. */
  lemma QueryListed(s: State, due: seq<ScheduleId>)
    requires TickEnabled(s, Query(due))
    ensures var t := TickNext(s, Query(due));
      ToDo(t.scheduler) == DueList(s.schedules, due) && forall sid :: !Open(s, sid) && !Open(t, sid)
  {
    hide PicksDue;
  }

  lemma QueryTimely(s: State, due: seq<ScheduleId>)
    requires Timely(s) && TickEnabled(s, Query(due))
    ensures Timely(TickNext(s, Query(due)))
  {
    hide PicksDue, ToDo, Open;
    PickedAreDue(s.schedules, s.clock, due);
    QueryListed(s, due);
  }

  /** The tick goes on to its next schedule. */
  lemma ResumeSpaced(s: State, t: State)
    requires Spaced(s) && s.scheduler.Busy? && t.scheduler == Resume(s.scheduler.now, s.scheduler.rest)
    requires t.intervals == s.intervals && t.submittedAt == s.submittedAt && t.clock == s.clock
    requires var sid := s.scheduler.head.id;
      && t.schedules.Keys == s.schedules.Keys
      && (forall x :: x in s.schedules && x != sid ==> t.schedules[x] == s.schedules[x])
      && (sid in s.schedules ==> t.schedules[sid].interval == s.schedules[sid].interval)
      && (sid in s.schedules && sid in s.submittedAt && sid in s.intervals ==>
        s.submittedAt[sid] + s.intervals[sid] <= t.schedules[sid].nextRun)
    ensures Spaced(t)
  {
    var todo := ToDo(s.scheduler);
    assert ToDo(t.scheduler) == todo[1..];
    forall i | 0 <= i < |ToDo(t.scheduler)|
      ensures Fits(t, ToDo(t.scheduler)[i]) && RipeAt(t, ToDo(t.scheduler)[i])
    {
      var due := todo[i + 1];
      assert ToDo(t.scheduler)[i] == due && due.id != todo[0].id;
      assert Fits(s, due) && RipeAt(s, due);
    }
  }

  lemma TickSpaced(s: State, step: TickStep)
    requires Spaced(s) && TickEnabled(s, step) && !Slips(s, Tick(step))
    ensures Spaced(TickNext(s, step))
  {
    var t := TickNext(s, step);
    if step.Query? {
      QuerySpaced(s, step.due);
    } else {
      assert ToDo(s.scheduler)[0] == s.scheduler.head;
      assert RipeAt(s, s.scheduler.head) && Fits(s, s.scheduler.head);
      if step.Count? && step.read {
        StageSpaced(s, t);
      } else {
        ResumeSpaced(s, t);
      }
    }
  }

  /** Schedules come, go and are switched; time passes. */
  lemma TablesSpaced(s: State, t: State)
    requires Spaced(s) && t.scheduler == s.scheduler && t.submittedAt == s.submittedAt && s.clock <= t.clock
    requires forall x :: x in s.intervals ==> x in t.intervals && t.intervals[x] == s.intervals[x]
    requires forall x :: x in t.intervals && x !in s.intervals ==> MIN_SCHEDULE_INTERVAL <= t.intervals[x]
    requires forall x :: x in t.schedules && x in s.intervals ==>
      x in s.schedules && t.schedules[x].interval == s.schedules[x].interval
        && t.schedules[x].nextRun == s.schedules[x].nextRun
    requires forall x :: x in t.schedules && x !in s.intervals ==>
      x in t.intervals && t.schedules[x].interval == t.intervals[x]
    ensures Spaced(t)
  {
    assert forall sid :: Open(t, sid) <==> Open(s, sid);
    hide Open;
    forall i | 0 <= i < |ToDo(t.scheduler)|
      ensures Fits(t, ToDo(t.scheduler)[i]) && RipeAt(t, ToDo(t.scheduler)[i])
    {
      assert Fits(s, ToDo(s.scheduler)[i]) && RipeAt(s, ToDo(s.scheduler)[i]);
    }
  }

  lemma OtherSpaced(s: State, step: OtherStep)
    requires Spaced(s) && OtherEnabled(s, step) && !Slips(s, Other(step))
    ensures Spaced(OtherNext(s, step))
  {
    if step.Restart? {
      RestartSpaced(s, step);
    } else {
      EventSpaced(s, step);
    }
  }

  lemma EventSpaced(s: State, step: OtherStep)
    requires Spaced(s) && OtherEnabled(s, step) && !step.Restart?
    ensures Spaced(OtherNext(s, step))
  {
    hide Settled, Ripe, Open, ToDo, Recovered, Purged, Deleted;
    TablesSpaced(s, OtherNext(s, step));
  }

  lemma RestartSpaced(s: State, step: OtherStep)
    requires Spaced(s) && step.Restart? && !Slips(s, Other(step))
    ensures Spaced(OtherNext(s, step))
  {}

  /** A lost advance leaves the schedule due right away. */
  lemma SlipUnsettles(s: State, a: Action)
    requires Spaced(s) && Enabled(s, a) && Slips(s, a)
    ensures !Spaced(Next(s, a))
  {
    var t, sid := Next(s, a), s.scheduler.head.id;
    assert ToDo(s.scheduler)[0] == s.scheduler.head;
    assert Fits(s, s.scheduler.head);
    assert !Open(t, sid) && sid in t.submittedAt && sid in t.schedules;
  }

  /** The timing of every schedule stays right exactly as long as no advance is lost. */
  lemma StepSpaced(s: State, a: Action)
    requires Spaced(s) && Enabled(s, a)
    ensures Spaced(Next(s, a)) <==> !Slips(s, a)
  {
    hide Spaced, SubmitNext, WorkNext, TickNext, OtherNext, Enabled, Next, Slips;
    if Slips(s, a) {
      SlipUnsettles(s, a);
    } else {
      StepStaysSpaced(s, a);
    }
  }

  lemma StepStaysSpaced(s: State, a: Action)
    requires Spaced(s) && Enabled(s, a) && !Slips(s, a)
    ensures Spaced(Next(s, a))
  {
    hide Spaced, SubmitNext, SubmitEnabled, WorkNext, WorkEnabled, TickNext, TickEnabled, OtherNext, OtherEnabled,
      Slips;
    match a
    case Submit(id, step) =>
      if step.CreateScheduled? && step.outcome.Effective() {
        SubmittedSpaced(s, id, step.outcome);
      } else {
        SubmitSpaced(s, id, step);
      }
    case Work(w, step) => WorkSpaced(s, w, step);
    case Tick(step) => TickSpaced(s, step);
    case Other(step) => OtherSpaced(s, step);
  }

  /** Step i inserts a job of the schedule. */
  ghost predicate Fires(run: seq<State>, actions: seq<Action>, i: nat, sid: ScheduleId)
    requires i < |actions| && i < |run|
  {
    && actions[i].Submit? && actions[i].submit.CreateScheduled? && actions[i].submit.outcome.Effective()
    && run[i].scheduler.Busy? && run[i].scheduler.head.id == sid
  }

  ghost predicate NoSlips(run: seq<State>, actions: seq<Action>, m: nat)
    requires m <= |actions| && m <= |run|
  {
    forall i :: 0 <= i < m ==> !Slips(run[i], actions[i])
  }

  lemma {:induction false} RunSpaced(run: seq<State>, actions: seq<Action>, i: nat)
    requires IsRun(run, actions) && Spaced(run[0]) && i < |run| && NoSlips(run, actions, i)
    ensures Spaced(run[i])
  {
    hide Spaced, Enabled, Next, Slips;
    if 0 < i {
      RunSpaced(run, actions, i - 1);
      assert Steps(run, actions, i - 1);
      StepSpaced(run[i - 1], actions[i - 1]);
    }
  }

  /** The last submission of a schedule is remembered, and only moves on. */
  ghost predicate Remembers(s: State, sid: ScheduleId, tick: real, interval: real) {
    sid in s.submittedAt && sid in s.intervals && tick <= s.submittedAt[sid] && s.intervals[sid] == interval
  }

  lemma SubmitRemembers(s: State, id: Id, step: SubmitStep, sid: ScheduleId, tick: real, interval: real)
    requires Spaced(s) && SubmitEnabled(s, id, step) && Remembers(s, sid, tick, interval)
    ensures Remembers(SubmitNext(s, id, step), sid, tick, interval)
  {
    if step.CreateScheduled? && step.outcome.Effective() {
      SubmittedSpaced(s, id, step.outcome);
      assert Timely(s);
    }
    hide Spaced;
  }

  lemma WorkRemembers(s: State, w: nat, step: WorkStep)
    requires WorkEnabled(s, w, step)
    ensures var t := WorkNext(s, w, step); t.submittedAt == s.submittedAt && t.intervals == s.intervals
  {
    hide WorkNext;
    WorkMovesOne(s, w, step);
  }

  lemma OtherRemembers(s: State, step: OtherStep)
    requires OtherEnabled(s, step)
    ensures var t := OtherNext(s, step);
      t.submittedAt == s.submittedAt && forall sid :: sid in s.intervals ==>
        sid in t.intervals && t.intervals[sid] == s.intervals[sid]
  {}

  lemma StepRemembers(s: State, a: Action, sid: ScheduleId, tick: real, interval: real)
    requires Spaced(s) && Enabled(s, a) && Remembers(s, sid, tick, interval)
    ensures Remembers(Next(s, a), sid, tick, interval)
  {
    hide Spaced, SubmitNext, WorkNext, OtherNext, SubmitEnabled, WorkEnabled, OtherEnabled;
    match a
    case Submit(id, step) => SubmitRemembers(s, id, step, sid, tick, interval);
    case Work(w, step) => WorkRemembers(s, w, step);
    case Tick(step) =>
    case Other(step) => OtherRemembers(s, step);
  }

  lemma FiringRemembered(run: seq<State>, actions: seq<Action>, i: nat, sid: ScheduleId)
    requires IsRun(run, actions) && i < |actions| && Spaced(run[i]) && Fires(run, actions, i, sid)
    ensures Remembers(run[i + 1], sid, run[i].scheduler.now, run[i].scheduler.head.interval)
  {
    hide Spaced;
    assert Steps(run, actions, i);
    SubmittedSpaced(run[i], actions[i].id, actions[i].submit.outcome);
  }

  lemma {:induction false} SubmissionRemembered(run: seq<State>, actions: seq<Action>, i: nat, k: nat, sid: ScheduleId)
    requires IsRun(run, actions) && Spaced(run[0]) && i < k < |run| && NoSlips(run, actions, k)
    requires Fires(run, actions, i, sid)
    ensures Remembers(run[k], sid, run[i].scheduler.now, run[i].scheduler.head.interval)
  {
    hide Spaced, Enabled, Next, Slips, Remembers;
    RunSpaced(run, actions, k - 1);
    if i == k - 1 {
      FiringRemembered(run, actions, i, sid);
    } else {
      SubmissionRemembered(run, actions, i, k - 1, sid);
      assert Steps(run, actions, k - 1);
      StepRemembers(run[k - 1], actions[k - 1], sid, run[i].scheduler.now, run[i].scheduler.head.interval);
    }
  }

  /**
   As long as no advance gets lost, two jobs of one schedule are submitted by ticks
   that are at least the interval apart, however submissions are delayed within
   a tick.
   */
  lemma Spacing(run: seq<State>, actions: seq<Action>, i: nat, j: nat, sid: ScheduleId)
    requires IsRun(run, actions) && Spaced(run[0]) && i < j < |actions| && NoSlips(run, actions, j)
    requires Fires(run, actions, i, sid) && Fires(run, actions, j, sid)
    ensures run[i].scheduler.now + run[i].scheduler.head.interval <= run[j].scheduler.now <= run[j].clock
  {
    SubmissionRemembered(run, actions, i, j, sid);
    RunSpaced(run, actions, j);
    assert Steps(run, actions, j);
    SubmittedSpaced(run[j], actions[j].id, actions[j].submit.outcome);
  }

  /**
   In clock time the gap can be shorter, by the time the first insert came after its
   tick, and by no more; an insert at the moment of its tick leaves the full interval.
   */
  lemma ClockSpacing(run: seq<State>, actions: seq<Action>, i: nat, j: nat, sid: ScheduleId)
    requires IsRun(run, actions) && Spaced(run[0]) && i < j < |actions| && NoSlips(run, actions, j)
    requires Fires(run, actions, i, sid) && Fires(run, actions, j, sid)
    ensures var delay := run[i].clock - run[i].scheduler.now;
      0.0 <= delay && run[i].scheduler.head.interval - delay <= run[j].clock - run[i].clock
  {
    Spacing(run, actions, i, j, sid);
    RunSpaced(run, actions, i);
  }

  predicate CanSubmit(s: State, id: Id) {
    && s.scheduler.Busy? && s.scheduler.stage.Ready? && id !in s.used
    && Unlocked(s) && !s.stopping && |s.queue| < s.depth
  }

  /** A submission by the scheduler that nobody interrupts. */
  function Submitted(s: State, id: Id): (t: State)
    requires CanSubmit(s, id)
    ensures t.scheduler == s.scheduler.(stage := Mark) && t.schedules == s.schedules && t.clock == s.clock
    ensures t.jobs == s.jobs[id := Row(Pending, Some(s.scheduler.head.id), None)] && !t.stopping
  {
    var s1 := SubmitNext(s, id, CreateScheduled(Ok));
    var s2 := SubmitNext(s1, id, Register);
    var s3 := SubmitNext(s2, id, CheckStop);
    SubmitNext(s3, id, Enqueue)
  }

  /** The first job done and deleted, the clock reaches the next run. */
  function Elapsed(t: State, id: Id): State
    requires t.scheduler.Busy? && t.scheduler.stage.Mark? && !t.stopping
    requires t.clock <= t.scheduler.now + t.scheduler.head.interval
  {
    var t1 := TickNext(t, Advance(Ok));
    var t2 := OtherNext(t1, DeleteRow(id));
    OtherNext(t2, Clock(t.scheduler.now + t.scheduler.head.interval))
  }

  /** Whatever the delay of an insert, the gap to the next one can be shorter by just that. */
  lemma DelayNarrowsGap(s: State, id: Id)
    requires Spaced(s) && CanSubmit(s, id) && s.scheduler.rest == []
    requires s.clock <= s.scheduler.now + s.scheduler.head.interval
    requires s.schedules.Keys == {s.scheduler.head.id} && s.schedules[s.scheduler.head.id].enabled
    requires !SomeActive(s.jobs, s.scheduler.head.id)
    ensures var sid, u := s.scheduler.head.id, Elapsed(Submitted(s, id), id);
      && u.clock - s.clock == s.scheduler.head.interval - (s.clock - s.scheduler.now)
      && TickEnabled(u, Query([sid]))
      && var v := TickNext(u, Query([sid]));
         TickEnabled(v, Count(true)) && TickNext(v, Count(true)).scheduler.stage == Ready
  {
    hide Submitted, Spaced, PicksDue, DueList;
    var sid, t := s.scheduler.head.id, Submitted(s, id);
    var u := Elapsed(t, id);
    assert !SomeActive(u.jobs, sid);
    OnlyDue(u.schedules, u.clock, sid);
  }

  lemma OnlyDue(schedules: map<ScheduleId, Schedule>, now: real, sid: ScheduleId)
    requires schedules.Keys == {sid} && IsDue(schedules[sid], now)
    ensures PicksDue(schedules, now, [sid]) && DueList(schedules, [sid]) == [Due(sid, schedules[sid].interval)]
  {}

  /** The timing is right throughout a run if and only if no advance is lost in it. */
  lemma SpacedExactly(run: seq<State>, actions: seq<Action>)
    requires IsRun(run, actions) && Spaced(run[0])
    ensures (forall i :: 0 <= i < |run| ==> Spaced(run[i])) <==> NoSlips(run, actions, |actions|)
  {
    hide Spaced, Enabled, Next, Slips;
    if NoSlips(run, actions, |actions|) {
      forall i | 0 <= i < |run|
        ensures Spaced(run[i])
      {
        RunSpaced(run, actions, i);
      }
    } else {
      var i: nat :| i < |actions| && Slips(run[i], actions[i]);
      assert Steps(run, actions, i);
      if Spaced(run[i]) {
        StepSpaced(run[i], actions[i]);
        assert !Spaced(run[i + 1]);
      }
    }
  }

  // ----- where spacing ends -----

  /**
   A crash between a submission and its advance: after the restart the schedule is
   due again, its interrupted job is failed, and the next tick is ready to submit a
   second job at the very same moment.
   */
  lemma CrashRepeats(s: State, sid: ScheduleId, workerCount: nat, queueDepth: nat)
    requires Spaced(s) && Open(s, sid) && s.schedules.Keys == {sid} && s.schedules[sid].enabled
    ensures Slips(s, Other(Restart(Ok, workerCount, queueDepth)))
    ensures var t := OtherNext(s, Restart(Ok, workerCount, queueDepth));
      && TickEnabled(t, Query([sid]))
      && var u := TickNext(t, Query([sid]));
         TickEnabled(u, Count(true)) && var v := TickNext(u, Count(true));
         v.clock == s.clock && v.scheduler == Busy(s.clock, Due(sid, s.intervals[sid]), [], Ready)
  {
    assert ToDo(s.scheduler)[0] == s.scheduler.head;
    assert Fits(s, s.scheduler.head);
    var t := OtherNext(s, Restart(Ok, workerCount, queueDepth));
    assert !SomeActive(t.jobs, sid);
    OnlyDue(t.schedules, t.clock, sid);
    hide OtherNext, PicksDue, DueList;
  }

  // ----- how long a due schedule can wait -----

  /** A tick that could have taken the schedule and did not. */
  ghost predicate PassesOver(s: State, a: Action, sid: ScheduleId) {
    a.Tick? && a.tick.Query? && sid in s.schedules && IsDue(s.schedules[sid], s.clock) && sid !in a.tick.due
  }

  ghost function Passes(run: seq<State>, actions: seq<Action>, sid: ScheduleId, m: nat): nat
    requires m <= |actions| && m <= |run|
  {
    if m == 0 then 0
    else
      Passes(run, actions, sid, m - 1) +
      if PassesOver(run[m - 1], actions[m - 1], sid) then 1 else 0
  }

  predicate InTick(scheduler: Scheduler, x: ScheduleId) {
    scheduler.Busy? && (scheduler.head.id == x || exists i :: 0 <= i < |scheduler.rest| && scheduler.rest[i].id == x)
  }

  /** What would be taken before a schedule that is due at `at`; a tick that came after `at` settles what it took. */
  function Ahead(s: State, sid: ScheduleId, at: real): set<ScheduleId> {
    set x | x in s.schedules && x != sid && s.schedules[x].enabled && s.schedules[x].nextRun <= at
      && !(InTick(s.scheduler, x) && at <= s.scheduler.now)
  }

  /** A schedule that is created or switched on may come in before. */
  function Arrival(a: Action, at: real): set<ScheduleId> {
    if a.Other? && a.other.CreateSchedule? && a.other.schedule.nextRun <= at then {a.other.sid}
    else if a.Other? && a.other.SetEnabled? && a.other.enabled then {a.other.sid}
    else {}
  }

  function Arrivals(actions: seq<Action>, at: real, m: nat): nat
    requires m <= |actions|
  {
    if m == 0 then 0 else Arrivals(actions, at, m - 1) + |Arrival(actions[m - 1], at)|
  }

  /** The counts and advances of the tick succeed, the process lives, and no tick takes the schedule. */
  predicate Works(a: Action, sid: ScheduleId) {
    && (a.Tick? ==> a.tick != Count(false) && a.tick != Advance(Lost) && (a.tick.Query? ==> sid !in a.tick.due))
    && !(a.Other? && a.other.Restart?)
  }

  predicate AllWork(actions: seq<Action>, sid: ScheduleId) {
    forall i :: 0 <= i < |actions| ==> Works(actions[i], sid)
  }

  /** The schedule waits for `at`, unless it was deleted. */
  ghost predicate Waits(s: State, sid: ScheduleId, at: real) {
    sid in s.intervals && (sid in s.schedules ==> s.schedules[sid].nextRun == at) && !InTick(s.scheduler, sid)
  }

  /** The step is not about schedules. */
  ghost predicate Calm(s: State, t: State) {
    && t.schedules == s.schedules && t.intervals == s.intervals
    && (t.scheduler == s.scheduler || (s.scheduler.Busy? && t.scheduler.Busy? && t.scheduler.now == s.scheduler.now
      && t.scheduler.head == s.scheduler.head && t.scheduler.rest == s.scheduler.rest))
  }

  lemma CalmKeeps(s: State, t: State, sid: ScheduleId, at: real)
    requires Calm(s, t)
    ensures Waits(s, sid, at) ==> Waits(t, sid, at)
    ensures Ahead(t, sid, at) == Ahead(s, sid, at)
  {
    assert forall x :: InTick(t.scheduler, x) <==> InTick(s.scheduler, x);
    hide InTick;
  }

  lemma SubmitIsCalm(s: State, id: Id, step: SubmitStep)
    requires SubmitEnabled(s, id, step)
    ensures Calm(s, SubmitNext(s, id, step))
  {}

  lemma WorkIsCalm(s: State, w: nat, step: WorkStep)
    requires WorkEnabled(s, w, step)
    ensures Calm(s, WorkNext(s, w, step))
  {
    hide WorkNext;
    WorkMovesOne(s, w, step);
  }

  lemma InResumed(now: real, list: seq<Due>, x: ScheduleId)
    ensures InTick(Resume(now, list), x) <==> exists i :: 0 <= i < |list| && list[i].id == x
  {
    if i: nat :| i < |list| && list[i].id == x {
      assert 0 < i ==> list[1..][i - 1] == list[i];
    }
  }

  /** An advanced schedule is behind one that was due at the tick. */
  lemma AdvanceAhead(s: State, outcome: Outcome, sid: ScheduleId, at: real)
    requires Spaced(s) && TickEnabled(s, Advance(outcome)) && outcome.Effective() && Waits(s, sid, at)
    ensures var t := TickNext(s, Advance(outcome)); Waits(t, sid, at) && Ahead(t, sid, at) <= Ahead(s, sid, at)
  {
    hide Settled, Ripe;
    var t, sc := TickNext(s, Advance(outcome)), s.scheduler;
    forall x
      ensures InTick(t.scheduler, x) <==> InTick(sc, x) && x != sc.head.id
    {
      InResumed(sc.now, sc.rest, x);
      assert ToDo(sc)[0] == sc.head;
      assert forall i :: 0 <= i < |sc.rest| ==> sc.rest[i] == ToDo(sc)[i + 1];
    }
    assert Fits(s, ToDo(sc)[0]);
    assert t.scheduler.Busy? ==> t.scheduler.now == sc.now;
    hide InTick, Resume, Settled, Ripe;
    assert InTick(sc, sc.head.id) by {
      HeadInTick(sc);
    }
  }

  lemma HeadInTick(scheduler: Scheduler)
    requires scheduler.Busy?
    ensures InTick(scheduler, scheduler.head.id)
  {}

  lemma QueryAhead(s: State, due: seq<ScheduleId>, sid: ScheduleId, at: real)
    requires TickEnabled(s, Query(due)) && Waits(s, sid, at) && sid !in due
    ensures var t := TickNext(s, Query(due)); Waits(t, sid, at) && Ahead(t, sid, at) <= Ahead(s, sid, at)
  {
    InResumed(s.clock, DueList(s.schedules, due), sid);
  }

  lemma OtherAhead(s: State, step: OtherStep, sid: ScheduleId, at: real)
    requires Spaced(s) && OtherEnabled(s, step) && !step.Restart? && Waits(s, sid, at)
    ensures var t := OtherNext(s, step);
      Waits(t, sid, at) && Ahead(t, sid, at) <= Ahead(s, sid, at) + Arrival(Other(step), at)
  {
    hide InTick, Settled, Ripe;
  }

  lemma StepAhead(s: State, a: Action, sid: ScheduleId, at: real)
    requires Spaced(s) && Enabled(s, a) && Works(a, sid) && Waits(s, sid, at)
    ensures Waits(Next(s, a), sid, at) && Ahead(Next(s, a), sid, at) <= Ahead(s, sid, at) + Arrival(a, at)
  {
    hide Spaced, SubmitNext, WorkNext, OtherNext, SubmitEnabled, WorkEnabled, OtherEnabled, Ahead, Waits, PicksDue,
      InTick;
    match a
    case Submit(id, step) =>
      SubmitIsCalm(s, id, step);
      CalmKeeps(s, SubmitNext(s, id, step), sid, at);
    case Work(w, step) =>
      WorkIsCalm(s, w, step);
      CalmKeeps(s, WorkNext(s, w, step), sid, at);
    case Tick(Query(due)) => QueryAhead(s, due, sid, at);
    case Tick(Count(_)) => CalmKeeps(s, Next(s, a), sid, at);
    case Tick(Advance(outcome)) => AdvanceAhead(s, outcome, sid, at);
    case Other(step) => OtherAhead(s, step, sid, at);
  }

  function Elements(list: seq<ScheduleId>): set<ScheduleId> {
    set x | x in list
  }

  lemma {:induction false} DistinctElements(list: seq<ScheduleId>)
    requires forall i, j :: 0 <= i < j < |list| ==> list[i] != list[j]
    ensures |Elements(list)| == |list|
  {
    if list == [] {
      assert Elements(list) == {};
    } else {
      var rest, last := list[..|list| - 1], list[|list| - 1];
      DistinctElements(rest);
      assert list == rest + [last];
      assert Elements(list) == Elements(rest) + {last};
      assert last !in rest;
    }
  }

  lemma PassedAhead(s: State, due: seq<ScheduleId>, sid: ScheduleId)
    requires Spaced(s) && TickEnabled(s, Query(due)) && PassesOver(s, Tick(Query(due)), sid)
    ensures var at, taken := s.schedules[sid].nextRun, Elements(due);
      && taken <= Ahead(s, sid, at) && |taken| == SCHEDULER_BATCH
      && Ahead(TickNext(s, Query(due)), sid, at) <= Ahead(s, sid, at) - taken
  {
    DistinctElements(due);
  }

  /** One step of the account: a passing tick takes a full batch from the schedules ahead. */
  lemma StepPays(s: State, a: Action, sid: ScheduleId, at: real)
    requires Spaced(s) && Enabled(s, a) && Works(a, sid) && Waits(s, sid, at)
    ensures |Ahead(Next(s, a), sid, at)| + (if PassesOver(s, a, sid) then SCHEDULER_BATCH else 0)
      <= |Ahead(s, sid, at)| + |Arrival(a, at)|
  {
    hide Spaced, SubmitNext, SubmitEnabled, WorkNext, WorkEnabled, TickNext, TickEnabled, OtherNext, OtherEnabled,
      Ahead, Arrival, Works, Waits;
    if PassesOver(s, a, sid) {
      assert Waits(s, sid, at) && a == Tick(Query(a.tick.due));
      TickPays(s, a.tick.due, sid, at);
    } else {
      StepAhead(s, a, sid, at);
      SubsetSize(Ahead(Next(s, a), sid, at), Ahead(s, sid, at) + Arrival(a, at));
    }
  }

  lemma TickPays(s: State, due: seq<ScheduleId>, sid: ScheduleId, at: real)
    requires Spaced(s) && TickEnabled(s, Query(due)) && PassesOver(s, Tick(Query(due)), sid) && Waits(s, sid, at)
    ensures |Ahead(TickNext(s, Query(due)), sid, at)| + SCHEDULER_BATCH <= |Ahead(s, sid, at)|
  {
    hide Spaced, TickNext, TickEnabled, Ahead, InTick;
    var taken := Elements(due);
    PassedAhead(s, due, sid);
    SubsetSize(taken, Ahead(s, sid, at));
    SubsetSize(Ahead(TickNext(s, Query(due)), sid, at), Ahead(s, sid, at) - taken);
  }

  /** The ticks that pass a schedule over are paid for by the schedules ahead of it, a batch each. */
  lemma {:induction false} FairnessBudget(run: seq<State>, actions: seq<Action>, sid: ScheduleId, at: real, m: nat)
    requires IsRun(run, actions) && Spaced(run[0]) && AllWork(actions, sid) && m <= |actions| && Waits(run[0], sid, at)
    ensures Spaced(run[m]) && Waits(run[m], sid, at)
    ensures SCHEDULER_BATCH * Passes(run, actions, sid, m) + |Ahead(run[m], sid, at)|
      <= |Ahead(run[0], sid, at)| + Arrivals(actions, at, m)
  {
    hide Spaced, Next, Enabled, Ahead, PassesOver, Waits, Slips;
    if 0 < m {
      var s, a := run[m - 1], actions[m - 1];
      FairnessBudget(run, actions, sid, at, m - 1);
      assert Steps(run, actions, m - 1) && Works(a, sid);
      WorkingNeverSlips(s, a, sid);
      StepSpaced(s, a);
      StepAhead(s, a, sid, at);
      StepPays(s, a, sid, at);
    }
  }

  lemma WorkingNeverSlips(s: State, a: Action, sid: ScheduleId)
    requires Works(a, sid)
    ensures !Slips(s, a)
  {}

  /**
   A schedule with k schedules ahead of it in `next_run_at` order, now or arriving
   later, is passed over by at most floor(k / 20) ticks before one takes it.
   */
  lemma Fairness(run: seq<State>, actions: seq<Action>, sid: ScheduleId)
    requires IsRun(run, actions) && Spaced(run[0]) && AllWork(actions, sid)
    requires sid in run[0].schedules && !InTick(run[0].scheduler, sid)
    ensures var at := run[0].schedules[sid].nextRun;
      Passes(run, actions, sid, |actions|) <= (|Ahead(run[0], sid, at)| + Arrivals(actions, at, |actions|)) / 20
  {
    FairnessBudget(run, actions, sid, run[0].schedules[sid].nextRun, |actions|);
  }
}
