/**
 The job and schedule tables row by row: which step inserts a row, changes it or
 removes it, and with what values; and from that the story of a row over a run.
 */
module JobTables {
  import opened Wrappers
  import opened Jobs
  import opened JobSafety

  // ----- job rows -----

  /** The insert of a submission that took effect. */
  ghost predicate Inserts(a: Action, id: Id) {
    && a.Submit? && a.id == id
    && match a.submit
       case Create(outcome) => outcome != Lost
       case CreateScheduled(outcome) => outcome != Lost
       case _ => false
  }

  /** The row as submissions insert it: PENDING, for the schedule the scheduler is at or for none. */
  ghost predicate IsNew(row: Row, s: State, a: Action)
    requires a.Submit?
  {
    && row.status == Pending && row.completedAt == None
    && (a.submit.CreateScheduled? ==> s.scheduler.Busy? && row.schedule == Some(s.scheduler.head.id))
    && (!a.submit.CreateScheduled? ==> row.schedule == None)
  }

  /** Somebody else deletes the row: a cancel, the API, or retention once it is terminal and old enough. */
  ghost predicate RemovedByOthers(s: State, a: Action, id: Id) {
    && a.Other? && id in s.jobs
    && match a.other
       case CancelFinish(outcome) => outcome != Lost && s.canceller == Some(id)
       case DeleteRow(x) => x == id
       case Purge(cutoff) =>
         && s.jobs[id].status !in {Pending, Running}
         && s.jobs[id].completedAt != None && s.jobs[id].completedAt.value < cutoff
       case _ => false
  }

  /** The clean-up of a rejected submission that took effect. */
  ghost predicate CleansUp(a: Action, id: Id) {
    a.Submit? && a.id == id && a.submit.Drop? && a.submit.outcome != Lost
  }

  /** The status that the step writes into the row, if any: by the worker that has the job, or by recovery. */
  ghost function Written(s: State, a: Action, id: Id): Option<Status> {
    if a.Work? && a.w < |s.workers| && !s.workers[a.w].Idle? && s.workers[a.w].id == id then
      match a.work
      case Begin(outcome) => if outcome != Lost then Some(Running) else None
      case Finish(verdict, outcome) => if outcome != Lost then Some(verdict) else None
      case PanicFail(outcome) => if outcome != Lost then Some(Failed) else None
      case _ => None
    else if a.Other? && a.other.Restart? && a.other.recovered != Lost
      && id in s.jobs && s.jobs[id].status in {Pending, Running} then Some(Failed)
    else None
  }

  /** What becomes of one row of the job table when step `a` leads from s to t. */
  ghost predicate RowStep(s: State, a: Action, t: State, id: Id) {
    && (id !in s.jobs ==> (id in t.jobs <==> Inserts(a, id)))
    && (id !in s.jobs && id in t.jobs ==> IsNew(t.jobs[id], s, a))
    && (id in s.jobs ==> (id !in t.jobs <==> RemovedByOthers(s, a, id) || CleansUp(a, id)))
    && (id in s.jobs && id in t.jobs ==>
      match Written(s, a, id)
      case None => t.jobs[id] == s.jobs[id]
      case Some(status) =>
        && t.jobs[id].status == status && t.jobs[id].schedule == s.jobs[id].schedule
        && t.jobs[id].completedAt == if status == Running then s.jobs[id].completedAt else Some(s.clock))
  }

  lemma StepOnRow(s: State, a: Action, id: Id)
    requires Inv(s) && Enabled(s, a)
    ensures RowStep(s, a, Next(s, a), id)
  {
    assert Known(s) && RowsSound(s);
    hide Inv, Known, RowsSound, RowStep, SubmitNext, SubmitEnabled, WorkNext, WorkEnabled, TickNext, TickEnabled,
      OtherNext, OtherEnabled;
    match a
    case Submit(x, step) => SubmitOnRow(s, x, step, id);
    case Work(w, step) => WorkOnRow(s, w, step, id);
    case Tick(step) => TickOnRow(s, step, id);
    case Other(step) => OtherOnRow(s, step, id);
  }

  lemma SubmitOnRow(s: State, x: Id, step: SubmitStep, id: Id)
    requires Known(s) && SubmitEnabled(s, x, step)
    ensures RowStep(s, Submit(x, step), SubmitNext(s, x, step), id)
  {
    if |s.queue| < s.depth {
    } else {
    }
  }

  lemma WorkOnRow(s: State, w: nat, step: WorkStep, id: Id)
    requires WorkEnabled(s, w, step)
    ensures RowStep(s, Work(w, step), WorkNext(s, w, step), id)
  {
    if s.workers[w].Dequeued? && s.workers[w].id in s.pending {
    } else {
    }
  }

  lemma TickOnRow(s: State, step: TickStep, id: Id)
    requires TickEnabled(s, step)
    ensures RowStep(s, Tick(step), TickNext(s, step), id)
  {
    assert TickNext(s, step).jobs == s.jobs;
    hide TickNext, TickEnabled;
  }

  lemma OtherOnRow(s: State, step: OtherStep, id: Id)
    requires RowsSound(s) && OtherEnabled(s, step)
    ensures RowStep(s, Other(step), OtherNext(s, step), id)
  {}

  // ----- the story of a row -----

  /** A row that goes away between two moments was removed by a step in between. */
  lemma {:induction false} RowGone(run: seq<State>, actions: seq<Action>, i: nat, j: nat, id: Id) returns (k: nat)
    requires IsRun(run, actions) && Inv(run[0]) && i <= j < |run| && id in run[i].jobs && id !in run[j].jobs
    ensures i <= k < j && (RemovedByOthers(run[k], actions[k], id) || CleansUp(actions[k], id))
    decreases j
  {
    hide Inv, Enabled, Next, RemovedByOthers, CleansUp, Inserts, IsNew, Written;
    assert Steps(run, actions, j - 1);
    RunKeepsInv(run, actions, j - 1);
    StepOnRow(run[j - 1], actions[j - 1], id);
    if id in run[j - 1].jobs {
      k := j - 1;
    } else {
      k := RowGone(run, actions, i, j - 1, id);
    }
  }

  /** Every row was inserted by one submission, PENDING; it has been there ever since, for the same schedule. */
  lemma {:induction false} RowStory(run: seq<State>, actions: seq<Action>, n: nat, id: Id) returns (i: nat)
    requires IsRun(run, actions) && Initial(run[0]) && n < |run| && id in run[n].jobs
    ensures i < n && Inserts(actions[i], id) && id in run[i + 1].jobs && IsNew(run[i + 1].jobs[id], run[i], actions[i])
    ensures forall k :: i < k <= n ==> id in run[k].jobs && run[k].jobs[id].schedule == run[i + 1].jobs[id].schedule
  {
    InitialInv(run[0]);
    assert 0 < n;
    assert Steps(run, actions, n - 1);
    hide Inv, Initial, Enabled, Next, RemovedByOthers, CleansUp, Inserts, IsNew, Written;
    RunKeepsInv(run, actions, n - 1);
    StepOnRow(run[n - 1], actions[n - 1], id);
    if id in run[n - 1].jobs {
      i := RowStory(run, actions, n - 1, id);
    } else {
      i := n - 1;
    }
  }

  /** While a row is there it is for the same schedule. */
  lemma {:induction false} ScheduleKept(run: seq<State>, actions: seq<Action>, i: nat, j: nat, id: Id)
    requires IsRun(run, actions) && Inv(run[0]) && i <= j < |run| && id in run[i].jobs && id in run[j].jobs
    ensures run[j].jobs[id].schedule == run[i].jobs[id].schedule
    decreases j
  {
    hide Inv, Enabled, Next, RemovedByOthers, CleansUp, IsNew;
    if i < j {
      assert Steps(run, actions, j - 1);
      RunKeepsInv(run, actions, i);
      RunKeepsInv(run, actions, j - 1);
      StepOnRow(run[j - 1], actions[j - 1], id);
      UsedStays(run, actions, i, j - 1, id);
      ScheduleKept(run, actions, i, j - 1, id);
    }
  }

  /** The id of a row is never used again, so nothing but its first submission inserts it. */
  lemma UsedStays(run: seq<State>, actions: seq<Action>, i: nat, j: nat, id: Id)
    requires IsRun(run, actions) && Inv(run[0]) && i <= j < |actions| && id in run[i].jobs
    ensures !Inserts(actions[j], id)
  {
    RunKeepsInv(run, actions, i);
    HistoryKept(run, actions, i, j);
    assert Steps(run, actions, j);
    assert id in run[i].used;
  }

  // ----- what is rejected stays out -----

  ghost predicate IsOut(s: State, id: Id) {
    id in s.used && id !in s.submits && id !in s.queue
  }

  lemma StepStaysOut(s: State, a: Action, id: Id)
    requires Inv(s) && Enabled(s, a) && IsOut(s, id)
    ensures IsOut(Next(s, a), id)
  {
    assert Known(s);
    hide Inv, SubmitNext, SubmitEnabled, WorkNext, WorkEnabled, TickNext, TickEnabled, OtherNext, OtherEnabled;
    match a
    case Submit(x, step) => SubmitSubmitsOne(s, x, step);
    case Work(w, step) => WorkMovesOne(s, w, step);
    case Tick(step) => TickFrame(s, step);
    case Other(step) => OtherStaysOut(s, step, id);
  }

  lemma OtherStaysOut(s: State, step: OtherStep, id: Id)
    requires OtherEnabled(s, step) && IsOut(s, id)
    ensures IsOut(OtherNext(s, step), id)
  {
    hide Recovered, Purged, Deleted;
  }

  /** A submission whose row was cleaned up is over for good. */
  lemma {:induction false} CleanedUpIsOut(run: seq<State>, actions: seq<Action>, i: nat, j: nat, id: Id)
    requires IsRun(run, actions) && Inv(run[0]) && i < j < |run| && CleansUp(actions[i], id)
    ensures IsOut(run[j], id)
    decreases j
  {
    hide Inv, Enabled, Next, IsOut, CleansUp;
    RunKeepsInv(run, actions, j - 1);
    assert Steps(run, actions, j - 1);
    if i == j - 1 {
      DroppedIsOut(run[i], actions[i], id);
    } else {
      CleanedUpIsOut(run, actions, i, j - 1, id);
      StepStaysOut(run[j - 1], actions[j - 1], id);
    }
  }

  lemma DroppedIsOut(s: State, a: Action, id: Id)
    requires Inv(s) && Enabled(s, a) && CleansUp(a, id)
    ensures IsOut(Next(s, a), id)
  {
    assert Known(s) && Exclusive(s);
    hide Inv;
  }

  /**
   A job in the queue whose row was inserted at step m: the row is as it was
   inserted, or somebody else has removed it meanwhile.
   */
  lemma QueuedRow(run: seq<State>, actions: seq<Action>, m: nat, id: Id)
    requires IsRun(run, actions) && Inv(run[0]) && m < |run| && id in run[m].jobs && id in run[|actions|].queue
    ensures id in run[|actions|].jobs ==>
      run[|actions|].jobs[id] == Row(Pending, run[m].jobs[id].schedule, None)
    ensures id !in run[|actions|].jobs ==>
      exists k: nat :: m <= k < |actions| && RemovedByOthers(run[k], actions[k], id)
  {
    var n := |actions|;
    if id in run[n].jobs {
      ScheduleKept(run, actions, m, n, id);
      RunKeepsInv(run, actions, n);
      assert WaitingArePending(run[n]) && RowsSound(run[n]);
    } else {
      var k := RowGone(run, actions, m, n, id);
      if CleansUp(actions[k], id) {
        CleanedUpIsOut(run, actions, k, n, id);
      }
    }
  }

  // ----- a job that is processed is RUNNING -----

  ghost predicate ProcessedAreRunning(s: State) {
    forall w :: 0 <= w < |s.workers| && s.workers[w].Processing? && s.workers[w].id in s.jobs ==>
      s.jobs[s.workers[w].id].status == Running
  }

  /** A worker in its runs was there before and does something else now, or has just begun. */
  ghost predicate WasProcessing(s: State, a: Action, t: State, w: nat)
    requires w < |t.workers| && t.workers[w].Processing?
  {
    && w < |s.workers|
    && (|| (s.workers[w] == t.workers[w] && !(a.Work? && a.w == w) && !(a.Other? && a.other.Restart?))
        || (a == Work(w, Begin(Ok)) && s.workers[w] == Claimed(t.workers[w].id)))
  }

  lemma Processors(s: State, a: Action, w: nat)
    requires Enabled(s, a) && w < |Next(s, a).workers| && Next(s, a).workers[w].Processing?
    ensures WasProcessing(s, a, Next(s, a), w)
  {
    hide SubmitNext, SubmitEnabled, WorkNext, WorkEnabled, TickNext, TickEnabled, OtherNext, OtherEnabled;
    match a
    case Submit(x, step) => SubmitFrames(s, x, step);
    case Work(v, step) => WorkersOfWork(s, v, step, w);
    case Tick(step) => TickWorkers(s, step);
    case Other(step) => OtherWorkers(s, step);
  }

  lemma WorkersOfWork(s: State, v: nat, step: WorkStep, w: nat)
    requires WorkEnabled(s, v, step) && w < |WorkNext(s, v, step).workers|
    requires WorkNext(s, v, step).workers[w].Processing?
    ensures WasProcessing(s, Work(v, step), WorkNext(s, v, step), w)
  {
    hide WorkNext, WorkEnabled;
    WorkMovesOne(s, v, step);
    if w == v {
      OnlyBeginProcesses(s, v, step);
    }
  }

  lemma OnlyBeginProcesses(s: State, v: nat, step: WorkStep)
    requires WorkEnabled(s, v, step)
    ensures v < |WorkNext(s, v, step).workers|
    ensures WorkNext(s, v, step).workers[v].Processing? ==>
      step == Begin(Ok) && s.workers[v] == Claimed(WorkNext(s, v, step).workers[v].id)
  {
    hide Updated, Possible, Unlocked;
    match step
    case Claim =>
      if s.workers[v].id in s.pending {
      } else {
      }
    case Begin(outcome) =>
      if outcome.Ok? {
      } else {
      }
    case _ =>
  }

  lemma TickWorkers(s: State, step: TickStep)
    requires TickEnabled(s, step)
    ensures TickNext(s, step).workers == s.workers
  {}

  lemma OtherWorkers(s: State, step: OtherStep)
    requires OtherEnabled(s, step)
    ensures var t := OtherNext(s, step).workers;
      if step.Restart? then forall w :: 0 <= w < |t| ==> t[w].Idle? else t == s.workers
  {
    hide Recovered, Purged, Deleted;
  }

  lemma StepKeepsRunning(s: State, a: Action, w: nat)
    requires Inv(s) && Enabled(s, a) && ProcessedAreRunning(s)
    requires w < |Next(s, a).workers| && Next(s, a).workers[w].Processing?
    requires Next(s, a).workers[w].id in Next(s, a).jobs
    ensures Next(s, a).jobs[Next(s, a).workers[w].id].status == Running
  {
    var id := Next(s, a).workers[w].id;
    Processors(s, a, w);
    StepOnRow(s, a, id);
    assert Known(s) && Exclusive(s);
    hide Inv, Next;
    assert Inserts(a, id) ==> id !in s.used;
  }

  /** In every reachable state the row of a job in a worker's runs, if it was not deleted, is RUNNING. */
  lemma {:induction false} ProcessingIsRunning(run: seq<State>, actions: seq<Action>, n: nat)
    requires IsRun(run, actions) && Initial(run[0]) && n < |run|
    ensures ProcessedAreRunning(run[n])
  {
    if 0 < n {
      ProcessingIsRunning(run, actions, n - 1);
      InitialInv(run[0]);
      RunKeepsInv(run, actions, n - 1);
      assert Steps(run, actions, n - 1);
      hide Inv, Next, Enabled;
      forall w: nat | w < |run[n].workers| && run[n].workers[w].Processing? && run[n].workers[w].id in run[n].jobs
        ensures run[n].jobs[run[n].workers[w].id].status == Running
      {
        StepKeepsRunning(run[n - 1], actions[n - 1], w);
      }
    }
  }

  // ----- schedules -----

  /**
   What becomes of one schedule when step `a` leads from s to t: only ticks advance it, only the API
   does the rest.
   */
  ghost predicate ScheduleStep(s: State, a: Action, t: State, sid: ScheduleId) {
    && (sid !in s.schedules ==> (sid in t.schedules <==> a.Other? && a.other.CreateSchedule? && a.other.sid == sid))
    && (sid !in s.schedules && sid in t.schedules ==> t.schedules[sid] == a.other.schedule)
    && (sid in s.schedules ==> (sid !in t.schedules <==> a == Other(DeleteSchedule(sid))))
    && (sid in s.schedules && sid in t.schedules ==>
      var before, after := s.schedules[sid], t.schedules[sid];
      if a.Tick? && a.tick.Advance? && a.tick.outcome != Lost && s.scheduler.Busy? && s.scheduler.head.id == sid then
        && after.enabled == before.enabled && after.interval == before.interval
        && after.lastRun == Some(s.scheduler.now) && after.nextRun == s.scheduler.now + s.scheduler.head.interval
      else if a.Other? && a.other.SetEnabled? && a.other.sid == sid then
        && after.enabled == a.other.enabled && after.interval == before.interval
        && after.lastRun == before.lastRun && after.nextRun == before.nextRun
      else after == before)
  }

  lemma StepOnSchedule(s: State, a: Action, sid: ScheduleId)
    requires Inv(s) && Enabled(s, a)
    ensures ScheduleStep(s, a, Next(s, a), sid)
  {
    assert SchedulerSound(s);
    hide Inv, ScheduleStep, SubmitNext, SubmitEnabled, WorkNext, WorkEnabled, TickNext, TickEnabled,
      OtherNext, OtherEnabled;
    match a
    case Submit(x, step) => SubmitOnSchedule(s, x, step, sid);
    case Work(w, step) => WorkOnSchedule(s, w, step, sid);
    case Tick(step) => TickOnSchedule(s, step, sid);
    case Other(step) => OtherOnSchedule(s, step, sid);
  }

  lemma SubmitOnSchedule(s: State, x: Id, step: SubmitStep, sid: ScheduleId)
    requires SubmitEnabled(s, x, step)
    ensures ScheduleStep(s, Submit(x, step), SubmitNext(s, x, step), sid)
  {
    assert SubmitNext(s, x, step).schedules == s.schedules by {
      if |s.queue| < s.depth {
      } else {
      }
    }
    hide SubmitNext, SubmitEnabled;
  }

  lemma WorkOnSchedule(s: State, w: nat, step: WorkStep, sid: ScheduleId)
    requires WorkEnabled(s, w, step)
    ensures ScheduleStep(s, Work(w, step), WorkNext(s, w, step), sid)
  {
    hide WorkNext;
    WorkMovesOne(s, w, step);
  }

  lemma TickOnSchedule(s: State, step: TickStep, sid: ScheduleId)
    requires TickEnabled(s, step)
    ensures ScheduleStep(s, Tick(step), TickNext(s, step), sid)
  {
    hide PicksDue, SomeActive;
  }

  lemma OtherOnSchedule(s: State, step: OtherStep, sid: ScheduleId)
    requires SchedulesSound(s.schedules, s.intervals) && OtherEnabled(s, step)
    ensures ScheduleStep(s, Other(step), OtherNext(s, step), sid)
  {}
}
