/**
 What every reachable state of the coordination satisfies, whatever the order of
 the steps, and whichever store calls fail: at most one execution per job, a
 cancel that is final, a schedule that never has two jobs, rows that never leave
 a terminal status.
 */
module JobSafety {
  import opened Wrappers
  import opened Jobs

  // ----- where an id can be -----

  /** Every id in any part of the state has been generated before. */
  ghost predicate Known(s: State) {
    && s.jobs.Keys <= s.used && s.submits.Keys <= s.used && s.pending <= s.used && s.cancelled <= s.used
    && (forall i :: 0 <= i < |s.queue| ==> s.queue[i] in s.used)
    && (forall w :: 0 <= w < |s.workers| ==> s.workers[w].Idle? || s.workers[w].id in s.used)
    && (forall i :: 0 <= i < |s.started| ==> s.started[i] in s.used)
  }

  /** An id is with one submitter, or at one place of the queue, or with one worker. */
  ghost predicate Exclusive(s: State) {
    && |s.queue| <= s.depth
    && (forall i, j :: 0 <= i < j < |s.queue| ==> s.queue[i] != s.queue[j])
    && (forall i :: 0 <= i < |s.queue| ==> s.queue[i] !in s.submits)
    && (forall w :: 0 <= w < |s.workers| && !s.workers[w].Idle? ==>
      s.workers[w].id !in s.submits && s.workers[w].id !in s.queue)
    && (forall v, w :: 0 <= v < w < |s.workers| ==>
      s.workers[v].Idle? || s.workers[w].Idle? || s.workers[v].id != s.workers[w].id)
  }

  /** An id that was handed to processJob is nowhere where it could be started again or cancelled. */
  ghost predicate StartedOnce(s: State) {
    && (forall i, j :: 0 <= i < j < |s.started| ==> s.started[i] != s.started[j])
    && (forall id :: id in s.started ==> id !in s.submits && id !in s.pending && id !in s.queue)
    && (forall w :: 0 <= w < |s.workers| ==>
      s.workers[w].Idle? || (s.workers[w].Dequeued? <==> s.workers[w].id !in s.started))
  }

  /** A cancelled id is never registered again and never started. */
  ghost predicate CancelledForGood(s: State) {
    && (s.canceller.Some? ==> s.canceller.value in s.cancelled)
    && (s.canceller.Some? && s.canceller.value in s.submits ==> Listed(s, s.canceller.value))
    && (forall id :: id in s.cancelled ==> id !in s.pending && id !in s.started && !At(s, id, Created))
  }

  /** pendingJobs holds exactly the ids between registration and claim that were not cancelled. */
  ghost predicate PendingExact(s: State) {
    forall id :: id in s.pending <==> id !in s.cancelled && Waiting(s, id)
  }

  ghost predicate Waiting(s: State, id: Id) {
    Listed(s, id) || id in s.queue || AtHand(s, id)
  }

  ghost predicate Listed(s: State, id: Id) {
    At(s, id, Registered) || At(s, id, Passed) || At(s, id, Rejecting)
  }

  ghost predicate AtHand(s: State, id: Id) {
    exists w :: 0 <= w < |s.workers| && s.workers[w] == Dequeued(id)
  }

  // ----- the rows -----

  ghost predicate RowSound(row: Row) {
    row.completedAt == None <==> row.status == Pending || row.status == Running
  }

  function Rank(status: Status): nat {
    if status.Pending? then 0 else if status.Running? then 1 else 2
  }

  /** `completed_at` is set exactly for terminal rows. */
  ghost predicate RowsSound(s: State) {
    forall id :: id in s.jobs ==> RowSound(s.jobs[id])
  }

  /** The row of a job that no worker has started on is PENDING. */
  ghost predicate WaitingArePending(s: State) {
    && (forall id :: id in s.submits && id in s.jobs ==> s.jobs[id].status == Pending)
    && (forall i :: 0 <= i < |s.queue| && s.queue[i] in s.jobs ==> s.jobs[s.queue[i]].status == Pending)
    && (forall w ::
      0 <= w < |s.workers| && (s.workers[w].Dequeued? || s.workers[w].Claimed?) && s.workers[w].id in s.jobs ==>
      s.jobs[s.workers[w].id].status == Pending)
  }

  // ----- the schedules -----

  ghost predicate ActiveFor(jobs: map<Id, Row>, id: Id, sid: ScheduleId) {
    id in jobs && (jobs[id].status == Pending || jobs[id].status == Running) && jobs[id].schedule == Some(sid)
  }

  /** At most one PENDING or RUNNING row per schedule. */
  ghost predicate NoPileUp(jobs: map<Id, Row>) {
    forall x, y, sid :: ActiveFor(jobs, x, sid) && ActiveFor(jobs, y, sid) ==> x == y
  }

  /** After a count of zero, nobody but the scheduler itself adds an active row for the schedule. */
  ghost predicate SchedulerSound(s: State) {
    && (s.scheduler.Busy? && s.scheduler.stage.Ready? ==> forall id :: !ActiveFor(s.jobs, id, s.scheduler.head.id))
    && (s.scheduler.Busy? && s.scheduler.stage.Submitting? ==> s.scheduler.stage.id in s.submits)
    && SchedulesSound(s.schedules, s.intervals)
  }

  /** Schedules are created with an interval the API allows. */
  ghost predicate SchedulesSound(schedules: map<ScheduleId, Schedule>, intervals: map<ScheduleId, real>) {
    forall sid :: sid in schedules ==> sid in intervals && 60.0 <= schedules[sid].interval
  }

  ghost predicate Inv(s: State) {
    && Known(s) && Exclusive(s) && StartedOnce(s) && CancelledForGood(s) && PendingExact(s)
    && RowsSound(s) && WaitingArePending(s) && NoPileUp(s.jobs) && SchedulerSound(s)
  }

  lemma InitialInv(s: State)
    requires Initial(s)
    ensures Inv(s)
  {}

  // ----- every step keeps them -----

  /** A step of a submitter is about its own id only, which may go to the end of the queue. */
  ghost predicate SubmitsOne(s: State, t: State, id: Id) {
    SubmitFrame(s, t, id) && SubmitOwn(s, t, id)
  }

  ghost predicate SubmitFrame(s: State, t: State, id: Id) {
    && t.workers == s.workers && t.started == s.started && t.cancelled == s.cancelled && t.canceller == s.canceller
    && t.depth == s.depth && s.used <= t.used <= s.used + {id}
    && (forall x :: x != id ==>
      (x in t.submits <==> x in s.submits) && (x in t.pending <==> x in s.pending) && (x in t.jobs <==> x in s.jobs))
    && (forall x :: x != id && x in t.submits ==> t.submits[x] == s.submits[x])
    && (forall x :: x != id && x in t.jobs ==> t.jobs[x] == s.jobs[x])
  }

  ghost predicate SubmitOwn(s: State, t: State, id: Id) {
    && (t.queue == s.queue ||
      (t.queue == s.queue + [id] && At(s, id, Passed) && id !in t.submits && |s.queue| < s.depth && t.jobs == s.jobs))
    && (id in s.submits || (id !in s.used && id in t.used))
    && (id in t.jobs ==> id in s.jobs || id !in s.used)
    && (id in t.pending ==> id in s.pending || (At(s, id, Created) && Unlocked(s)))
    && (At(t, id, Created) ==> id !in s.used)
    && (Listed(s, id) && id in t.submits ==> Listed(t, id) || Unlocked(s))
  }

  lemma SubmitSubmitsOne(s: State, id: Id, step: SubmitStep)
    requires Known(s) && SubmitEnabled(s, id, step)
    ensures SubmitsOne(s, SubmitNext(s, id, step), id)
  {
    hide SubmitFrame, SubmitOwn, SubmitNext, SubmitEnabled;
    SubmitFrames(s, id, step);
    SubmitOwns(s, id, step);
  }

  lemma SubmitFrames(s: State, id: Id, step: SubmitStep)
    requires SubmitEnabled(s, id, step)
    ensures SubmitFrame(s, SubmitNext(s, id, step), id)
  {
    hide SubmitEnabled, Returned;
    if |s.queue| < s.depth {
    } else {
    }
  }

  lemma SubmitOwns(s: State, id: Id, step: SubmitStep)
    requires Known(s) && SubmitEnabled(s, id, step)
    ensures SubmitOwn(s, SubmitNext(s, id, step), id)
  {}

  lemma SubmitKeepsPlaces(s: State, id: Id, step: SubmitStep)
    requires Known(s) && Exclusive(s)
    requires SubmitEnabled(s, id, step)
    ensures var t := SubmitNext(s, id, step); Known(t) && Exclusive(t)
  {
    hide SubmitNext, SubmitEnabled, Listed;
    SubmitSubmitsOne(s, id, step);
  }

  /** A step of a worker moves one id, from the queue into its hands or out of them. */
  ghost predicate MovesOne(s: State, t: State, w: nat)
    requires w < |s.workers|
  {
    && t.submits == s.submits && t.used == s.used && t.cancelled == s.cancelled && t.canceller == s.canceller
    && t.schedules == s.schedules && t.intervals == s.intervals && t.submittedAt == s.submittedAt && t.clock == s.clock
    && t.stopping == s.stopping
    && t.depth == s.depth && t.scheduler == s.scheduler && t.pending <= s.pending && t.jobs.Keys == s.jobs.Keys
    && |t.workers| == |s.workers| && (forall v :: 0 <= v < |s.workers| && v != w ==> t.workers[v] == s.workers[v])
    && (if s.workers[w].Idle? then
          s.queue != [] && t.queue == s.queue[1..] && t.workers[w] == Dequeued(s.queue[0])
          && t.started == s.started && t.pending == s.pending && t.jobs == s.jobs
        else
          && t.queue == s.queue
          && (forall x :: x in s.jobs && x != s.workers[w].id ==> t.jobs[x] == s.jobs[x])
          && (t.workers[w].Idle? || (t.workers[w].id == s.workers[w].id && !t.workers[w].Dequeued?)))
  }

  lemma WorkMovesOne(s: State, w: nat, step: WorkStep)
    requires WorkEnabled(s, w, step)
    ensures MovesOne(s, WorkNext(s, w, step), w)
    ensures var t, me := WorkNext(s, w, step), s.workers[w];
      if me.Dequeued? && me.id in s.pending then
        t.started == s.started + [me.id] && t.pending == s.pending - {me.id} && t.workers[w] == Claimed(me.id)
          && Unlocked(s)
      else
        t.started == s.started && t.pending == s.pending && (me.Dequeued? ==> t.workers[w].Idle?)
  {
    hide Updated, Possible;
  }

  lemma WorkKeepsPlaces(s: State, w: nat, step: WorkStep)
    requires Known(s) && Exclusive(s)
    requires WorkEnabled(s, w, step)
    ensures var t := WorkNext(s, w, step); Known(t) && Exclusive(t)
  {
    hide WorkNext;
    WorkMovesOne(s, w, step);
  }

  /** A tick only concerns the scheduler and the schedules. */
  lemma TickFrame(s: State, step: TickStep)
    requires TickEnabled(s, step)
    ensures var t := TickNext(s, step);
      t == s.(scheduler := t.scheduler, schedules := t.schedules) && t.schedules.Keys == s.schedules.Keys
  {}

  lemma TickKeepsPlaces(s: State, step: TickStep)
    requires Known(s) && Exclusive(s)
    requires TickEnabled(s, step)
    ensures var t := TickNext(s, step); Known(t) && Exclusive(t)
  {
    hide TickNext, TickEnabled;
    TickFrame(s, step);
  }

  lemma OtherKeepsPlaces(s: State, step: OtherStep)
    requires Known(s) && Exclusive(s)
    requires OtherEnabled(s, step)
    ensures var t := OtherNext(s, step); Known(t) && Exclusive(t)
  {}

  lemma SubmitKeepsStarts(s: State, id: Id, step: SubmitStep)
    requires Known(s) && Exclusive(s) && StartedOnce(s) && CancelledForGood(s)
    requires SubmitEnabled(s, id, step)
    ensures var t := SubmitNext(s, id, step); StartedOnce(t) && CancelledForGood(t)
  {
    hide SubmitNext, SubmitEnabled, Exclusive;
    SubmitSubmitsOne(s, id, step);
  }

  lemma WorkKeepsStarts(s: State, w: nat, step: WorkStep)
    requires Known(s) && Exclusive(s) && StartedOnce(s) && CancelledForGood(s) && PendingExact(s)
    requires WorkEnabled(s, w, step)
    ensures var t := WorkNext(s, w, step); StartedOnce(t) && CancelledForGood(t)
  {
    hide WorkNext, PendingExact;
    WorkMovesOne(s, w, step);
  }

  lemma TickKeepsStarts(s: State, step: TickStep)
    requires Known(s) && Exclusive(s) && StartedOnce(s) && CancelledForGood(s) && PendingExact(s)
    requires TickEnabled(s, step)
    ensures var t := TickNext(s, step); StartedOnce(t) && CancelledForGood(t)
  {
    hide TickNext, TickEnabled;
    TickFrame(s, step);
  }

  lemma OtherKeepsStarts(s: State, step: OtherStep)
    requires Known(s) && Exclusive(s) && StartedOnce(s) && CancelledForGood(s) && PendingExact(s)
    requires OtherEnabled(s, step)
    ensures var t := OtherNext(s, step); StartedOnce(t) && CancelledForGood(t)
  {
    hide Recovered, Purged, Deleted;
  }

  /** The id of the submitter is in pendingJobs as long as it should be. */
  lemma SubmitOwnPending(s: State, id: Id, step: SubmitStep)
    requires Known(s) && Exclusive(s) && CancelledForGood(s) && PendingExact(s)
    requires SubmitEnabled(s, id, step)
    ensures var t := SubmitNext(s, id, step); id in t.pending <==> id !in t.cancelled && Waiting(t, id)
  {
    assert id in s.pending <==> id !in s.cancelled && Waiting(s, id);
    assert AtHand(SubmitNext(s, id, step), id) <==> AtHand(s, id);
    assert AtHand(s, id) ==> id in s.used && id !in s.submits;
  }

  lemma SubmitKeepsPending(s: State, id: Id, step: SubmitStep)
    requires Known(s) && Exclusive(s) && CancelledForGood(s) && PendingExact(s)
    requires SubmitEnabled(s, id, step)
    ensures PendingExact(SubmitNext(s, id, step))
  {
    hide SubmitNext, Known, Exclusive, CancelledForGood, SubmitEnabled;
    SubmitOwnPending(s, id, step);
    SubmitSubmitsOne(s, id, step);
    assert forall x :: AtHand(SubmitNext(s, id, step), x) <==> AtHand(s, x);
    hide AtHand;
  }

  lemma WorkKeepsPending(s: State, w: nat, step: WorkStep)
    requires Exclusive(s) && StartedOnce(s) && PendingExact(s)
    requires WorkEnabled(s, w, step)
    ensures PendingExact(WorkNext(s, w, step))
  {
    hide WorkNext;
    WorkMovesOne(s, w, step);
    var t, me := WorkNext(s, w, step), s.workers[w];
    forall id
      ensures id in t.pending <==> id !in t.cancelled && Waiting(t, id)
    {
      HandAfterWork(s, t, w, id);
      if me.Idle? {
        assert s.queue == [s.queue[0]] + t.queue;
      } else if me.Dequeued? && me.id == id {
        assert !AtHand(t, id);
      }
    }
  }

  lemma HandAfterWork(s: State, t: State, w: nat, id: Id)
    requires w < |s.workers| && MovesOne(s, t, w) && Exclusive(s)
    ensures AtHand(t, id) <==> if s.workers[w].Idle? then AtHand(s, id) || id == s.queue[0]
      else AtHand(s, id) && s.workers[w].id != id
  {
    if AtHand(s, id) {
      var v :| 0 <= v < |s.workers| && s.workers[v] == Dequeued(id);
      assert v != w ==> t.workers[v] == Dequeued(id);
    }
    if AtHand(t, id) {
      var v :| 0 <= v < |t.workers| && t.workers[v] == Dequeued(id);
      assert v != w ==> s.workers[v] == Dequeued(id);
    }
    assert s.workers[w].Idle? ==> t.workers[w] == Dequeued(s.queue[0]);
  }

  lemma TickKeepsPending(s: State, step: TickStep)
    requires PendingExact(s)
    requires TickEnabled(s, step)
    ensures PendingExact(TickNext(s, step))
  {
    hide TickNext, TickEnabled;
    TickFrame(s, step);
    assert forall id :: Waiting(TickNext(s, step), id) <==> Waiting(s, id);
  }

  lemma OtherKeepsPending(s: State, step: OtherStep)
    requires PendingExact(s)
    requires OtherEnabled(s, step)
    ensures PendingExact(OtherNext(s, step))
  {
    hide Waiting;
    OtherWaits(s, step);
  }

  lemma OtherWaits(s: State, step: OtherStep)
    requires OtherEnabled(s, step)
    ensures forall id :: Waiting(OtherNext(s, step), id) <==> !step.Restart? && Waiting(s, id)
  {
    hide Recovered, Purged, Deleted;
  }

  lemma SubmitOwnRow(s: State, id: Id, step: SubmitStep)
    requires Known(s) && RowsSound(s) && WaitingArePending(s)
    requires SubmitEnabled(s, id, step)
    ensures var t := SubmitNext(s, id, step); id in t.jobs ==> RowSound(t.jobs[id]) && t.jobs[id].status == Pending
  {
    hide Returned, Possible, Unlocked, AtHand;
    if |s.queue| < s.depth {
    } else {
    }
  }

  lemma SubmitKeepsRows(s: State, id: Id, step: SubmitStep)
    requires Known(s) && Exclusive(s) && RowsSound(s) && WaitingArePending(s)
    requires SubmitEnabled(s, id, step)
    ensures var t := SubmitNext(s, id, step); RowsSound(t) && WaitingArePending(t)
  {
    hide SubmitNext, SubmitEnabled, RowSound;
    SubmitOwnRow(s, id, step);
    SubmitSubmitsOne(s, id, step);
  }

  /** What a worker does to its own row. */
  lemma WorkRow(s: State, w: nat, step: WorkStep)
    requires WaitingArePending(s) && WorkEnabled(s, w, step)
    ensures var t, me := WorkNext(s, w, step), s.workers[w];
      !me.Idle? && me.id in s.jobs ==>
        && me.id in t.jobs && t.jobs[me.id].schedule == s.jobs[me.id].schedule
        && Rank(s.jobs[me.id].status) <= Rank(t.jobs[me.id].status)
        && (RowSound(s.jobs[me.id]) ==> RowSound(t.jobs[me.id]))
        && (t.workers[w].Claimed? ==> me.Dequeued? && t.jobs[me.id] == s.jobs[me.id])
  {}

  lemma WorkKeepsRows(s: State, w: nat, step: WorkStep)
    requires Exclusive(s) && RowsSound(s) && WaitingArePending(s)
    requires WorkEnabled(s, w, step)
    ensures var t := WorkNext(s, w, step); RowsSound(t) && WaitingArePending(t)
  {
    hide WorkNext, RowSound;
    WorkMovesOne(s, w, step);
    WorkRow(s, w, step);
    var t := WorkNext(s, w, step);
    forall i | 0 <= i < |t.queue| && t.queue[i] in t.jobs
      ensures t.jobs[t.queue[i]].status == Pending
    {
      assert t.queue[i] in s.queue;
    }
    assert s.workers[w].Idle? ==> s.queue[0] in s.queue;
  }

  lemma TickKeepsRows(s: State, step: TickStep)
    requires Known(s) && Exclusive(s) && RowsSound(s) && WaitingArePending(s)
    requires TickEnabled(s, step)
    ensures var t := TickNext(s, step); RowsSound(t) && WaitingArePending(t)
  {
    hide TickNext, TickEnabled;
    TickFrame(s, step);
  }

  lemma OtherKeepsRows(s: State, step: OtherStep)
    requires Known(s) && Exclusive(s) && RowsSound(s) && WaitingArePending(s)
    requires OtherEnabled(s, step)
    ensures var t := OtherNext(s, step); RowsSound(t) && WaitingArePending(t)
  {}

  ghost predicate NoneAdded(before: map<Id, Row>, after: map<Id, Row>) {
    forall id, sid :: ActiveFor(after, id, sid) ==> ActiveFor(before, id, sid)
  }

  lemma NoneAddedKeeps(before: map<Id, Row>, after: map<Id, Row>)
    requires NoPileUp(before) && NoneAdded(before, after)
    ensures NoPileUp(after)
  {
    hide ActiveFor;
  }

  lemma SubmitKeepsSchedules(s: State, id: Id, step: SubmitStep)
    requires Known(s) && Exclusive(s) && WaitingArePending(s) && NoPileUp(s.jobs) && SchedulerSound(s)
    requires SubmitEnabled(s, id, step)
    ensures var t := SubmitNext(s, id, step); NoPileUp(t.jobs) && SchedulerSound(t)
  {
    hide Exclusive, WaitingArePending, NoPileUp, ActiveFor;
    var t := SubmitNext(s, id, step);
    if step.CreateScheduled? && step.outcome.Effective() {
      FirstActive(s.jobs, id, s.scheduler.head.id);
    } else {
      SubmitAddsNone(s, id, step);
      NoneAddedKeeps(s.jobs, t.jobs);
    }
  }

  /** Where there was no active row, one more is the only one. */
  lemma FirstActive(jobs: map<Id, Row>, id: Id, sid: ScheduleId)
    requires NoPileUp(jobs) && id !in jobs && forall x :: !ActiveFor(jobs, x, sid)
    ensures NoPileUp(jobs[id := Row(Pending, Some(sid), None)])
  {
    var after := jobs[id := Row(Pending, Some(sid), None)];
    forall x, y, z | ActiveFor(after, x, z) && ActiveFor(after, y, z)
      ensures x == y
    {
      assert x != id ==> ActiveFor(jobs, x, z);
      assert y != id ==> ActiveFor(jobs, y, z);
    }
  }

  lemma SubmitAddsNone(s: State, id: Id, step: SubmitStep)
    requires SubmitEnabled(s, id, step) && !(step.CreateScheduled? && step.outcome.Effective())
    ensures NoneAdded(s.jobs, SubmitNext(s, id, step).jobs)
  {
    hide SubmitEnabled, Returned;
  }

  lemma WorkAddsNone(s: State, w: nat, step: WorkStep)
    requires WaitingArePending(s) && WorkEnabled(s, w, step)
    ensures NoneAdded(s.jobs, WorkNext(s, w, step).jobs)
  {
    hide WorkNext, WaitingArePending;
    WorkMovesOne(s, w, step);
    WorkRow(s, w, step);
  }

  lemma WorkKeepsSchedules(s: State, w: nat, step: WorkStep)
    requires Known(s) && Exclusive(s) && WaitingArePending(s) && NoPileUp(s.jobs) && SchedulerSound(s)
    requires WorkEnabled(s, w, step)
    ensures var t := WorkNext(s, w, step); NoPileUp(t.jobs) && SchedulerSound(t)
  {
    hide WorkNext, ActiveFor, Known, Exclusive, WaitingArePending;
    var t := WorkNext(s, w, step);
    WorkMovesOne(s, w, step);
    WorkAddsNone(s, w, step);
    NoneAddedKeeps(s.jobs, t.jobs);
  }

  lemma TickKeepsSchedules(s: State, step: TickStep)
    requires SchedulerSound(s)
    requires TickEnabled(s, step)
    ensures var t := TickNext(s, step); t.jobs == s.jobs && SchedulerSound(t)
  {
    hide PicksDue, SchedulesSound;
    MarkedSound(s, step);
  }

  lemma MarkedSound(s: State, step: TickStep)
    requires SchedulesSound(s.schedules, s.intervals) && TickEnabled(s, step)
    ensures var t := TickNext(s, step); SchedulesSound(t.schedules, t.intervals)
  {
    hide PicksDue, SomeActive, Resume, DueList;
  }

  lemma OtherAddsNone(s: State, step: OtherStep)
    requires OtherEnabled(s, step)
    ensures NoneAdded(s.jobs, OtherNext(s, step).jobs)
  {}

  lemma OtherSchedules(s: State, step: OtherStep)
    requires OtherEnabled(s, step)
    ensures SchedulesSound(s.schedules, s.intervals) ==>
      SchedulesSound(OtherNext(s, step).schedules, OtherNext(s, step).intervals)
    ensures var t := OtherNext(s, step);
      (t.scheduler == s.scheduler || t.scheduler == Asleep) && (t.scheduler.Busy? ==> t.submits == s.submits)
  {
    hide Recovered, Purged, Deleted;
  }

  lemma OtherKeepsSchedules(s: State, step: OtherStep)
    requires NoPileUp(s.jobs) && SchedulerSound(s)
    requires OtherEnabled(s, step)
    ensures var t := OtherNext(s, step); NoPileUp(t.jobs) && SchedulerSound(t)
  {
    hide OtherNext, OtherEnabled, ActiveFor;
    OtherAddsNone(s, step);
    OtherSchedules(s, step);
    NoneAddedKeeps(s.jobs, OtherNext(s, step).jobs);
  }

  /** Every step of every goroutine keeps the invariant, also when its store call fails. */
  lemma StepKeepsInv(s: State, a: Action)
    requires Inv(s) && Enabled(s, a)
    ensures Inv(Next(s, a))
  {
    hide Known, Exclusive, StartedOnce, CancelledForGood, PendingExact, RowsSound, WaitingArePending, NoPileUp,
      SchedulerSound,
      SubmitEnabled, SubmitNext, WorkEnabled, WorkNext, TickEnabled, TickNext, OtherEnabled, OtherNext;
    match a
    case Submit(id, step) =>
      SubmitKeepsPlaces(s, id, step);
      SubmitKeepsStarts(s, id, step);
      SubmitKeepsPending(s, id, step);
      SubmitKeepsRows(s, id, step);
      SubmitKeepsSchedules(s, id, step);
    case Work(w, step) =>
      WorkKeepsPlaces(s, w, step);
      WorkKeepsStarts(s, w, step);
      WorkKeepsPending(s, w, step);
      WorkKeepsRows(s, w, step);
      WorkKeepsSchedules(s, w, step);
    case Tick(step) =>
      TickKeepsPlaces(s, step);
      TickKeepsStarts(s, step);
      TickKeepsPending(s, step);
      TickKeepsRows(s, step);
      TickKeepsSchedules(s, step);
    case Other(step) =>
      OtherKeepsPlaces(s, step);
      OtherKeepsStarts(s, step);
      OtherKeepsPending(s, step);
      OtherKeepsRows(s, step);
      OtherKeepsSchedules(s, step);
  }

  lemma {:induction false} RunKeepsInv(run: seq<State>, actions: seq<Action>, i: nat)
    requires IsRun(run, actions) && Inv(run[0]) && i < |run|
    ensures Inv(run[i])
  {
    hide Inv, Enabled, Next;
    if 0 < i {
      RunKeepsInv(run, actions, i - 1);
      assert Steps(run, actions, i - 1);
      StepKeepsInv(run[i - 1], actions[i - 1]);
    }
  }

  // ----- schedules never pile up -----

  /** In no state of any run do two different jobs of one schedule wait or run. */
  lemma NeverTwoJobs(run: seq<State>, actions: seq<Action>, i: nat, x: Id, y: Id, sid: ScheduleId)
    requires IsRun(run, actions) && Inv(run[0]) && i < |run|
    requires x in run[i].jobs && run[i].jobs[x].schedule == Some(sid)
    requires run[i].jobs[x].status == Pending || run[i].jobs[x].status == Running
    requires y in run[i].jobs && run[i].jobs[y].schedule == Some(sid)
    requires run[i].jobs[y].status == Pending || run[i].jobs[y].status == Running
    ensures x == y
  {
    RunKeepsInv(run, actions, i);
    assert ActiveFor(run[i].jobs, x, sid) && ActiveFor(run[i].jobs, y, sid);
  }

  // ----- at most one execution, and a cancel that is final -----

  /** Step i hands the job to processJob. */
  ghost predicate Starts(run: seq<State>, actions: seq<Action>, i: nat, id: Id)
    requires i < |actions| && i < |run|
  {
    actions[i].Work? && actions[i].work.Claim? && actions[i].w < |run[i].workers|
    && run[i].workers[actions[i].w] == Dequeued(id) && id in run[i].pending
  }

  /** Step i is the one at which a CancelJob of the job succeeds. */
  ghost predicate Cancels(run: seq<State>, actions: seq<Action>, i: nat, id: Id)
    requires i < |actions| && i < |run|
  {
    actions[i] == Other(CancelBegin(id)) && id in run[i].pending
  }

  /** A worker drops the job because it is not in pendingJobs. */
  ghost predicate Skips(run: seq<State>, actions: seq<Action>, i: nat, id: Id)
    requires i < |actions| && i < |run|
  {
    actions[i].Work? && actions[i].work.Claim? && actions[i].w < |run[i].workers|
    && run[i].workers[actions[i].w] == Dequeued(id) && id !in run[i].pending
  }

  /** Histories only grow, rows neither come back nor step back. */
  ghost predicate Advances(s: State, t: State) {
    && s.started <= t.started && s.cancelled <= t.cancelled && s.used <= t.used
    && (forall id :: id in s.used && id in t.jobs ==>
      id in s.jobs && Rank(s.jobs[id].status) <= Rank(t.jobs[id].status))
  }

  lemma SubmitAdvances(s: State, id: Id, step: SubmitStep)
    requires SubmitEnabled(s, id, step)
    ensures Advances(s, SubmitNext(s, id, step)) && SubmitNext(s, id, step).cancelled == s.cancelled
  {}

  lemma WorkAdvances(s: State, w: nat, step: WorkStep)
    requires WaitingArePending(s) && WorkEnabled(s, w, step)
    ensures Advances(s, WorkNext(s, w, step)) && WorkNext(s, w, step).cancelled == s.cancelled
  {
    hide WorkNext, WaitingArePending;
    WorkMovesOne(s, w, step);
    WorkRow(s, w, step);
  }

  lemma TickAdvances(s: State, step: TickStep)
    requires TickEnabled(s, step)
    ensures Advances(s, TickNext(s, step)) && TickNext(s, step).cancelled == s.cancelled
  {}

  lemma OtherAdvances(s: State, step: OtherStep)
    requires OtherEnabled(s, step)
    ensures Advances(s, OtherNext(s, step))
    ensures OtherNext(s, step).cancelled == s.cancelled + if step.CancelBegin? && step.id in s.pending then {step.id}
      else {}
  {}

  lemma StepAdvances(s: State, a: Action)
    requires Inv(s) && Enabled(s, a)
    ensures Advances(s, Next(s, a))
    ensures forall id :: id in Next(s, a).cancelled && id !in s.cancelled ==>
      a == Other(CancelBegin(id)) && id in s.pending
  {
    hide SubmitEnabled, SubmitNext, WorkEnabled, WorkNext, TickEnabled, TickNext, OtherEnabled, OtherNext, Advances;
    match a
    case Submit(id, step) => SubmitAdvances(s, id, step);
    case Work(w, step) => WorkAdvances(s, w, step);
    case Tick(step) => TickAdvances(s, step);
    case Other(step) => OtherAdvances(s, step);
  }

  lemma {:induction false} HistoryKept(run: seq<State>, actions: seq<Action>, i: nat, j: nat)
    requires IsRun(run, actions) && Inv(run[0]) && i <= j < |run|
    ensures run[i].started <= run[j].started && run[i].cancelled <= run[j].cancelled && run[i].used <= run[j].used
    decreases j
  {
    hide Enabled, Next, Inv, Rank;
    if i < j {
      HistoryKept(run, actions, i, j - 1);
      RunKeepsInv(run, actions, j - 1);
      assert Steps(run, actions, j - 1);
      StepAdvances(run[j - 1], actions[j - 1]);
    }
  }

  lemma StartIsRecorded(run: seq<State>, actions: seq<Action>, i: nat, j: nat, id: Id)
    requires IsRun(run, actions) && Inv(run[0]) && i < j < |run| && Starts(run, actions, i, id)
    ensures id in run[j].started
  {
    assert Steps(run, actions, i);
    assert run[i + 1].started[|run[i].started|] == id;
    HistoryKept(run, actions, i + 1, j);
  }

  lemma CancelIsRecorded(run: seq<State>, actions: seq<Action>, i: nat, j: nat, id: Id)
    requires IsRun(run, actions) && Inv(run[0]) && i < j < |run| && Cancels(run, actions, i, id)
    ensures id in run[j].cancelled
  {
    assert Steps(run, actions, i);
    HistoryKept(run, actions, i + 1, j);
  }

  /** Over every run a job is handed to processJob at most once, restarts included. */
  lemma AtMostOnce(run: seq<State>, actions: seq<Action>, i: nat, j: nat, id: Id)
    requires IsRun(run, actions) && Inv(run[0]) && i < |actions| && j < |actions|
    requires Starts(run, actions, i, id) && Starts(run, actions, j, id)
    ensures i == j
  {
    if i != j {
      var k, l := if i < j then i else j, if i < j then j else i;
      StartIsRecorded(run, actions, k, l, id);
      RunKeepsInv(run, actions, l);
      assert false;
    }
  }

  /** A job whose cancel succeeded is never processed, wherever in the submission the cancel fell. */
  lemma CancelledNeverStarts(run: seq<State>, actions: seq<Action>, i: nat, j: nat, id: Id)
    requires IsRun(run, actions) && Inv(run[0]) && i < |actions| && j < |actions|
    requires Cancels(run, actions, i, id)
    ensures !Starts(run, actions, j, id)
  {
    if i < j {
      CancelIsRecorded(run, actions, i, j, id);
      RunKeepsInv(run, actions, j);
    } else if j < i && Starts(run, actions, j, id) {
      StartIsRecorded(run, actions, j, i, id);
      RunKeepsInv(run, actions, i);
    }
  }

  /** Once a job is claimed or cancelled, every later CancelJob of it is refused and changes nothing. */
  lemma LateCancelRefused(run: seq<State>, actions: seq<Action>, i: nat, j: nat, id: Id)
    requires IsRun(run, actions) && Inv(run[0]) && i < j < |actions|
    requires Starts(run, actions, i, id) || Cancels(run, actions, i, id)
    requires actions[j] == Other(CancelBegin(id))
    ensures !Cancels(run, actions, j, id) && run[j + 1] == run[j]
  {
    RunKeepsInv(run, actions, j);
    assert Steps(run, actions, j);
    if Starts(run, actions, i, id) {
      StartIsRecorded(run, actions, i, j, id);
    } else {
      CancelIsRecorded(run, actions, i, j, id);
    }
  }

  /** A worker drops a job from the queue only if it was cancelled before. */
  lemma OnlyCancelledAreSkipped(run: seq<State>, actions: seq<Action>, j: nat, id: Id)
    requires IsRun(run, actions) && Inv(run[0]) && run[0].cancelled == {} && j < |actions|
    requires Skips(run, actions, j, id)
    ensures exists i :: 0 <= i < j && Cancels(run, actions, i, id)
  {
    RunKeepsInv(run, actions, j);
    assert AtHand(run[j], id);
    CancelHappened(run, actions, j, id);
  }

  lemma {:induction false} CancelHappened(run: seq<State>, actions: seq<Action>, j: nat, id: Id)
    requires IsRun(run, actions) && Inv(run[0]) && run[0].cancelled == {} && j < |run| && id in run[j].cancelled
    ensures exists i :: 0 <= i < j && Cancels(run, actions, i, id)
  {
    hide Enabled, Next, Inv, Advances;
    if id in run[j - 1].cancelled {
      CancelHappened(run, actions, j - 1, id);
    } else {
      assert Steps(run, actions, j - 1);
      RunKeepsInv(run, actions, j - 1);
      StepAdvances(run[j - 1], actions[j - 1]);
      assert Cancels(run, actions, j - 1, id);
    }
  }

  // ----- rows -----

  /** A row never goes back, from RUNNING to PENDING or out of a terminal status, and a deleted row stays deleted. */
  lemma RowsOnlyAdvance(run: seq<State>, actions: seq<Action>, i: nat, j: nat, id: Id)
    requires IsRun(run, actions) && Inv(run[0]) && i <= j < |run| && id in run[i].used
    ensures id in run[j].jobs ==> id in run[i].jobs
    ensures id in run[j].jobs && run[j].jobs[id].status == Pending ==> run[i].jobs[id].status == Pending
    ensures id in run[j].jobs && run[j].jobs[id].status == Running ==>
      run[i].jobs[id].status == Pending || run[i].jobs[id].status == Running
  {
    RanksOnlyRise(run, actions, i, j, id);
  }

  lemma {:induction false} RanksOnlyRise(run: seq<State>, actions: seq<Action>, i: nat, j: nat, id: Id)
    requires IsRun(run, actions) && Inv(run[0]) && i <= j < |run| && id in run[i].used
    ensures id in run[j].jobs ==> id in run[i].jobs && Rank(run[i].jobs[id].status) <= Rank(run[j].jobs[id].status)
    decreases j
  {
    hide Inv, Enabled, Next, Rank;
    if i < j {
      RanksOnlyRise(run, actions, i, j - 1, id);
      RunKeepsInv(run, actions, j - 1);
      HistoryKept(run, actions, i, j - 1);
      assert Steps(run, actions, j - 1);
      StepAdvances(run[j - 1], actions[j - 1]);
    }
  }

  /** In every reachable state retention deletes terminal jobs completed before the cutoff, and nothing else. */
  lemma PurgeSparesActive(run: seq<State>, actions: seq<Action>, i: nat, cutoff: real, id: Id)
    requires IsRun(run, actions) && Inv(run[0]) && i < |run| && id in run[i].jobs
    ensures var row := run[i].jobs[id];
      && (id in Purged(run[i].jobs, cutoff) ==> Purged(run[i].jobs, cutoff)[id] == row)
      && (id !in Purged(run[i].jobs, cutoff) <==>
        row.status != Pending && row.status != Running && row.completedAt != None && row.completedAt.value < cutoff)
  {
    RunKeepsInv(run, actions, i);
  }
}
