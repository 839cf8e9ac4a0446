/**
 With a store that works, no PENDING or RUNNING row is forgotten: each one belongs
 to exactly one party that will still deal with it.
 */
module JobOwnership {
  import opened Wrappers
  import opened Jobs
  import opened JobSafety
  import opened Sets

  // ----- owners of waiting jobs -----

  datatype Owner = Submitter | QueueEntry(index: nat) | Canceller | Holder(w: nat)

  ghost predicate Owns(s: State, owner: Owner, id: Id) {
    match owner
    case Submitter => At(s, id, Created) || At(s, id, Dropping) || (Listed(s, id) && id in s.pending)
    case QueueEntry(i) => i < |s.queue| && s.queue[i] == id && id in s.pending
    case Canceller => s.canceller == Some(id)
    case Holder(w) =>
      w < |s.workers| &&
      ((s.workers[w] == Dequeued(id) && id in s.pending) || s.workers[w] == Claimed(id) || s.workers[w] == Panicked(id))
  }

  ghost predicate Runs(s: State, w: nat, id: Id) {
    w < |s.workers| && (s.workers[w] == Processing(id) || s.workers[w] == Panicked(id))
  }

  /** Whatever fails, no two parties believe a job is theirs. */
  lemma OwnerIsUnique(s: State, x: Owner, y: Owner, id: Id)
    requires Inv(s) && Owns(s, x, id) && Owns(s, y, id)
    ensures x == y
  {
    hide WaitingArePending, RowsSound, NoPileUp, SchedulerSound;
  }

  lemma RunnerIsUnique(s: State, v: nat, w: nat, id: Id)
    requires Inv(s) && Runs(s, v, id) && Runs(s, w, id)
    ensures v == w
  {}

  // ----- every live row has one -----

  /** The failures of the store that leave a live row behind which nobody will deal with. */
  predicate Orphans(s: State, a: Action)
    requires Enabled(s, a)
  {
    match a
    case Submit(id, step) =>
      if step.Create? || step.CreateScheduled? then step.outcome.Applied?
      else step.Drop? && !step.outcome.Effective() && id in s.jobs
    case Work(w, step) =>
      && !step.Dequeue? && s.workers[w].id in s.jobs
      && if step.Begin? then !step.outcome.Ok?
         else (step.Finish? || step.PanicFail?) && !step.outcome.Effective() && s.jobs[s.workers[w].id].status.Active()
    case Tick(_) => false
    case Other(step) =>
      if step.CancelFinish? then
        !step.outcome.Effective() && s.canceller.value in s.jobs && s.jobs[s.canceller.value].status == Pending
      else
        step.Restart? && !step.recovered.Effective() && exists id | id in s.jobs :: s.jobs[id].status.Active()
  }

  /** A worker past the claim has it. */
  ghost predicate Taken(s: State, id: Id) {
    exists w :: 0 <= w < |s.workers| && (s.workers[w] == Claimed(id) || s.workers[w] == Panicked(id))
  }

  ghost predicate HasRunner(s: State, id: Id) {
    exists w :: Runs(s, w, id)
  }

  ghost predicate Kept(s: State, id: Id) {
    At(s, id, Created) || At(s, id, Dropping) || id in s.pending || s.canceller == Some(id) || Taken(s, id)
  }

  ghost predicate NoOrphans(s: State) {
    forall id :: id in s.jobs ==>
      (s.jobs[id].status == Pending ==> Kept(s, id)) && (s.jobs[id].status == Running ==> HasRunner(s, id))
  }

  lemma InitialOwned(s: State)
    requires Initial(s)
    ensures NoOrphans(s)
  {}

  /** Only the workers decide who holds and who runs a job. */
  lemma SameHolders(s: State, t: State, x: Id)
    requires t.workers == s.workers
    ensures (Taken(s, x) <==> Taken(t, x)) && (HasRunner(s, x) <==> HasRunner(t, x))
  {
    assert forall w :: Runs(s, w, x) <==> Runs(t, w, x);
  }

  lemma SubmitKeepsOwned(s: State, id: Id, step: SubmitStep)
    requires NoOrphans(s) && SubmitEnabled(s, id, step) && !Orphans(s, Submit(id, step))
    ensures NoOrphans(SubmitNext(s, id, step))
  {
    hide Kept, HasRunner, SubmitNext, SubmitEnabled, Orphans;
    var t := SubmitNext(s, id, step);
    SubmitFrames(s, id, step);
    forall x | x in t.jobs
      ensures t.jobs[x].status == Pending ==> Kept(t, x)
      ensures t.jobs[x].status == Running ==> HasRunner(t, x)
    {
      if x == id {
        SubmitKeepsOwn(s, id, step);
      } else {
        SubmitKeepsOther(s, t, id, x);
      }
    }
  }

  lemma SubmitKeepsOwn(s: State, id: Id, step: SubmitStep)
    requires NoOrphans(s) && SubmitEnabled(s, id, step) && !Orphans(s, Submit(id, step))
    ensures var t := SubmitNext(s, id, step);
      id in t.jobs ==>
        && (t.jobs[id].status == Pending ==> Kept(t, id))
        && (t.jobs[id].status == Running ==> HasRunner(t, id))
  {
    hide Taken, HasRunner, Possible;
    SameHolders(s, SubmitNext(s, id, step), id);
  }

  lemma SubmitKeepsOther(s: State, t: State, id: Id, x: Id)
    requires SubmitFrame(s, t, id) && x != id
    ensures (Kept(s, x) <==> Kept(t, x)) && (HasRunner(s, x) <==> HasRunner(t, x))
  {
    hide Taken, HasRunner;
    SameHolders(s, t, x);
  }

  lemma WorkKeepsOwned(s: State, w: nat, step: WorkStep)
    requires Inv(s) && NoOrphans(s) && WorkEnabled(s, w, step) && !Orphans(s, Work(w, step))
    ensures NoOrphans(WorkNext(s, w, step))
  {
    hide WorkNext, Inv;
    var t := WorkNext(s, w, step);
    WorkMovesOne(s, w, step);
    WorkOwn(s, w, step);
    forall x | x in t.jobs
      ensures t.jobs[x].status == Pending ==> Kept(t, x)
      ensures t.jobs[x].status == Running ==> HasRunner(t, x)
    {
      if s.workers[w].Idle? || s.workers[w].id != x {
        WorkElse(s, t, w, x);
      }
    }
  }

  /** Nobody else has what a worker holds. */
  lemma HolderIsAlone(s: State, w: nat)
    requires Inv(s) && w < |s.workers| && !s.workers[w].Idle?
    ensures var me := s.workers[w];
      && me.id !in s.submits
      && (!me.Dequeued? ==> me.id !in s.pending && s.canceller != Some(me.id))
      && (Taken(s, me.id) ==> me.Claimed? || me.Panicked?)
      && (HasRunner(s, me.id) ==> me.Processing? || me.Panicked?)
  {
    hide WaitingArePending, RowsSound, NoPileUp, SchedulerSound, Known;
  }

  /** The worker's own row changes hands with it. */
  lemma WorkOwn(s: State, w: nat, step: WorkStep)
    requires Inv(s) && NoOrphans(s) && WorkEnabled(s, w, step) && !Orphans(s, Work(w, step))
    ensures var t, me := WorkNext(s, w, step), s.workers[w];
      !me.Idle? && me.id in t.jobs ==>
        (t.jobs[me.id].status == Pending ==> Kept(t, me.id))
          && (t.jobs[me.id].status == Running ==> HasRunner(t, me.id))
  {
    var t, me := WorkNext(s, w, step), s.workers[w];
    if !me.Idle? {
      HolderIsAlone(s, w);
      assert WaitingArePending(s);
      hide Inv;
      assert t.workers[w] == Claimed(me.id) || t.workers[w] == Panicked(me.id) ==> Taken(t, me.id);
      assert t.workers[w] == Processing(me.id) || t.workers[w] == Panicked(me.id) ==> Runs(t, w, me.id);
    }
  }

  /** What another party has stays with it. */
  lemma WorkElse(s: State, t: State, w: nat, x: Id)
    requires w < |s.workers| && MovesOne(s, t, w) && (s.workers[w].Idle? || s.workers[w].id != x)
    requires forall y :: y in s.pending && y !in t.pending ==> !s.workers[w].Idle? && y == s.workers[w].id
    ensures Kept(s, x) ==> Kept(t, x)
    ensures HasRunner(s, x) ==> HasRunner(t, x)
  {
    if Taken(s, x) {
      var v :| 0 <= v < |s.workers| && (s.workers[v] == Claimed(x) || s.workers[v] == Panicked(x));
      assert t.workers[v] == s.workers[v];
    }
    if HasRunner(s, x) {
      var v :| Runs(s, v, x);
      assert Runs(t, v, x);
    }
  }

  lemma OtherKeepsOwned(s: State, step: OtherStep)
    requires NoOrphans(s) && OtherEnabled(s, step) && !Orphans(s, Other(step))
    ensures NoOrphans(OtherNext(s, step))
  {
    if step.Restart? {
      RestartKeepsOwned(s, step);
    } else {
      EventKeepsOwned(s, step);
    }
  }

  lemma RestartKeepsOwned(s: State, step: OtherStep)
    requires step.Restart? && !Orphans(s, Other(step))
    ensures NoOrphans(OtherNext(s, step))
  {}

  lemma EventKeepsOwned(s: State, step: OtherStep)
    requires NoOrphans(s) && OtherEnabled(s, step) && !Orphans(s, Other(step)) && !step.Restart?
    ensures NoOrphans(OtherNext(s, step))
  {
    hide Recovered, Runs, Taken, PicksDue;
    var t := OtherNext(s, step);
    forall x | x in t.jobs
      ensures t.jobs[x].status == Pending ==> Kept(t, x)
      ensures t.jobs[x].status == Running ==> HasRunner(t, x)
    {
      SameHolders(s, t, x);
    }
  }

  lemma TickKeepsOwned(s: State, step: TickStep)
    requires NoOrphans(s) && TickEnabled(s, step)
    ensures NoOrphans(TickNext(s, step))
  {
    hide TickNext, TickEnabled, Runs, Taken;
    TickFrame(s, step);
    var t := TickNext(s, step);
    forall x | x in t.jobs
      ensures t.jobs[x].status == Pending ==> Kept(t, x)
      ensures t.jobs[x].status == Running ==> HasRunner(t, x)
    {
      SameHolders(s, t, x);
    }
  }

  /** After an orphaning step some live row has no owner. */
  lemma SubmitLosesOne(s: State, id: Id, step: SubmitStep)
    requires Inv(s) && SubmitEnabled(s, id, step) && Orphans(s, Submit(id, step))
    ensures !NoOrphans(SubmitNext(s, id, step))
  {
    var t := SubmitNext(s, id, step);
    assert id in t.jobs && t.jobs[id].status == Pending && !Kept(t, id);
  }

  lemma WorkLosesOne(s: State, w: nat, step: WorkStep)
    requires Inv(s) && NoOrphans(s) && WorkEnabled(s, w, step) && Orphans(s, Work(w, step))
    ensures !NoOrphans(WorkNext(s, w, step))
  {
    var t, id := WorkNext(s, w, step), s.workers[w].id;
    HolderIsAlone(s, w);
    assert forall v :: 0 <= v < |t.workers| && v != w ==> t.workers[v].Idle? || t.workers[v].id != id;
    assert WaitingArePending(s);
    hide Inv;
    assert id in t.jobs && t.jobs[id].status.Active() && !Kept(t, id) && !HasRunner(t, id);
  }

  lemma OtherLosesOne(s: State, step: OtherStep)
    requires Inv(s) && OtherEnabled(s, step) && Orphans(s, Other(step))
    ensures !NoOrphans(OtherNext(s, step))
  {
    var t := OtherNext(s, step);
    if step.Restart? {
      var id :| id in s.jobs && s.jobs[id].status.Active();
      assert id in t.jobs && t.jobs[id].status.Active() && !Kept(t, id) && !HasRunner(t, id);
    } else {
      var id := s.canceller.value;
      assert id in t.jobs && t.jobs[id].status == Pending && !Kept(t, id);
    }
  }

  /** From a state without orphans, a step makes one exactly when it is one of those failures. */
  lemma StepOwned(s: State, a: Action)
    requires Inv(s) && NoOrphans(s) && Enabled(s, a)
    ensures NoOrphans(Next(s, a)) <==> !Orphans(s, a)
  {
    hide Inv, NoOrphans, SubmitEnabled, SubmitNext, WorkEnabled, WorkNext, TickEnabled, TickNext, OtherEnabled,
      OtherNext;
    match a
    case Submit(id, step) =>
      if Orphans(s, a) {
        SubmitLosesOne(s, id, step);
      } else {
        SubmitKeepsOwned(s, id, step);
      }
    case Work(w, step) =>
      if Orphans(s, a) {
        WorkLosesOne(s, w, step);
      } else {
        WorkKeepsOwned(s, w, step);
      }
    case Tick(step) => TickKeepsOwned(s, step);
    case Other(step) =>
      if Orphans(s, a) {
        OtherLosesOne(s, step);
      } else {
        OtherKeepsOwned(s, step);
      }
  }

  /** No step before the m-th is one of those failures. */
  ghost predicate StoreWorks(run: seq<State>, actions: seq<Action>, m: nat)
    requires IsRun(run, actions) && m <= |actions|
  {
    forall i :: 0 <= i < m ==> Steps(run, actions, i) && !Orphans(run[i], actions[i])
  }

  lemma {:induction false} RunKeepsOwned(run: seq<State>, actions: seq<Action>, i: nat)
    requires IsRun(run, actions) && Inv(run[0]) && NoOrphans(run[0]) && i < |run| && StoreWorks(run, actions, i)
    ensures NoOrphans(run[i])
  {
    hide Inv, NoOrphans, Enabled, Next, Orphans;
    if 0 < i {
      RunKeepsOwned(run, actions, i - 1);
      RunKeepsInv(run, actions, i - 1);
      StepOwned(run[i - 1], actions[i - 1]);
    }
  }

  /** Every live row is owned throughout a run if and only if none of those failures happens in it. */
  lemma OwnedExactly(run: seq<State>, actions: seq<Action>)
    requires IsRun(run, actions) && Inv(run[0]) && NoOrphans(run[0])
    ensures (forall i :: 0 <= i < |run| ==> NoOrphans(run[i])) <==> StoreWorks(run, actions, |actions|)
  {
    hide Inv, NoOrphans, Enabled, Next, Orphans;
    if StoreWorks(run, actions, |actions|) {
      forall i | 0 <= i < |run|
        ensures NoOrphans(run[i])
      {
        RunKeepsOwned(run, actions, i);
      }
    } else {
      var i: nat :| i < |actions| && !(Steps(run, actions, i) && !Orphans(run[i], actions[i]));
      RunKeepsInv(run, actions, i);
      if NoOrphans(run[i]) {
        assert Steps(run, actions, i);
        StepOwned(run[i], actions[i]);
        assert !NoOrphans(run[i + 1]);
      }
    }
  }

  /** Every PENDING row has exactly one owner. */
  lemma PendingHasOneOwner(run: seq<State>, actions: seq<Action>, i: nat, id: Id)
    requires IsRun(run, actions) && Inv(run[0]) && NoOrphans(run[0]) && i < |run| && StoreWorks(run, actions, i)
    requires id in run[i].jobs && run[i].jobs[id].status == Pending
    ensures exists owner :: Owns(run[i], owner, id) && forall other :: Owns(run[i], other, id) ==> other == owner
  {
    var s := run[i];
    RunKeepsOwned(run, actions, i);
    RunKeepsInv(run, actions, i);
    var owner := FindOwner(s, id);
    forall other | Owns(s, other, id)
      ensures other == owner
    {
      OwnerIsUnique(s, other, owner, id);
    }
  }

  lemma FindOwner(s: State, id: Id) returns (owner: Owner)
    requires PendingExact(s) && Kept(s, id)
    ensures Owns(s, owner, id)
  {
    if At(s, id, Created) || At(s, id, Dropping) || (Listed(s, id) && id in s.pending) {
      owner := Submitter;
    } else if s.canceller == Some(id) {
      owner := Canceller;
    } else if Taken(s, id) {
      var w :| 0 <= w < |s.workers| && (s.workers[w] == Claimed(id) || s.workers[w] == Panicked(id));
      owner := Holder(w);
    } else if id in s.queue {
      var i :| 0 <= i < |s.queue| && s.queue[i] == id;
      owner := QueueEntry(i);
    } else {
      assert Waiting(s, id);
      var w :| 0 <= w < |s.workers| && s.workers[w] == Dequeued(id);
      owner := Holder(w);
    }
  }

  /** Every RUNNING row has exactly one worker. */
  lemma RunningHasOneWorker(run: seq<State>, actions: seq<Action>, i: nat, id: Id)
    requires IsRun(run, actions) && Inv(run[0]) && NoOrphans(run[0]) && i < |run| && StoreWorks(run, actions, i)
    requires id in run[i].jobs && run[i].jobs[id].status == Running
    ensures exists w :: Runs(run[i], w, id) && forall v :: Runs(run[i], v, id) ==> v == w
  {
    var s := run[i];
    RunKeepsOwned(run, actions, i);
    RunKeepsInv(run, actions, i);
    var w :| Runs(s, w, id);
    forall v: nat | Runs(s, v, id)
      ensures v == w
    {
      RunnerIsUnique(s, v, w, id);
    }
  }

  // ----- how many -----

  function HeldIds(workers: seq<Worker>): (ids: set<Id>)
    ensures |ids| <= |workers|
    ensures forall w :: 0 <= w < |workers| && !workers[w].Idle? ==> workers[w].id in ids
  {
    if workers == [] then {}
    else HeldIds(workers[..|workers| - 1]) + if workers[|workers| - 1].Idle? then {} else {workers[|workers| - 1].id}
  }

  function RunningIds(jobs: map<Id, Row>): set<Id> {
    set id | id in jobs && jobs[id].status == Running
  }

  /** No more jobs are RUNNING than there are workers, and the queue stays within its depth. */
  lemma Bounded(run: seq<State>, actions: seq<Action>, i: nat)
    requires IsRun(run, actions) && Inv(run[0]) && NoOrphans(run[0]) && i < |run| && StoreWorks(run, actions, i)
    ensures |RunningIds(run[i].jobs)| <= |run[i].workers| && |run[i].queue| <= run[i].depth
  {
    var s := run[i];
    RunKeepsOwned(run, actions, i);
    RunKeepsInv(run, actions, i);
    forall id | id in RunningIds(s.jobs)
      ensures id in HeldIds(s.workers)
    {
      var w :| Runs(s, w, id);
    }
    SubsetSize(RunningIds(s.jobs), HeldIds(s.workers));
  }

  // ----- what is deleted stays deleted -----

  /** A rejected submission whose clean-up took effect, and a cancel, leave no row at any later time. */
  lemma NoRowAfterwards(run: seq<State>, actions: seq<Action>, i: nat, j: nat, id: Id)
    requires IsRun(run, actions) && Inv(run[0]) && i < j < |run|
    requires
      || (exists outcome: Outcome :: actions[i] == Submit(id, Drop(outcome)) && outcome.Effective())
      || (run[i].canceller == Some(id) && exists outcome: Outcome ::
        actions[i] == Other(CancelFinish(outcome)) && outcome.Effective())
    ensures id !in run[j].jobs
  {
    assert Steps(run, actions, i);
    RunKeepsInv(run, actions, i);
    RunKeepsInv(run, actions, i + 1);
    HistoryKept(run, actions, i, i + 1);
    assert id !in run[i + 1].jobs;
    RowsOnlyAdvance(run, actions, i + 1, j, id);
  }

  /**
   The clean-up of a scheduled submission uses the manager's own context, so
   when the rejection is due to shutdown the deletion is bound to fail: unless
   it took effect all the same, the PENDING row stays, and nobody owns it.
   */
  lemma ShutdownOrphans(s: State, id: Id, outcome: Outcome)
    requires Inv(s) && s.stopping && Submits(s.scheduler, id) && id in s.jobs
    requires SubmitEnabled(s, id, Drop(outcome)) && !outcome.Applied?
    ensures var t := SubmitNext(s, id, Drop(outcome));
      id in t.jobs && t.jobs[id].status == Pending && forall owner :: !Owns(t, owner, id)
  {
    var t := SubmitNext(s, id, Drop(outcome));
    assert id !in s.pending;
    assert s.canceller != Some(id);
    assert id !in s.started;
  }

  /**
   With a store that fails only because the context of a call is cancelled, a
   rejected submission leaves its row behind if and only if it is the scheduler's
   own and the manager is stopping; the row is PENDING then, and nobody owns it.
   */
  lemma RejectedRowStays(s: State, id: Id)
    requires Inv(s) && At(s, id, Dropping) && id in s.jobs
    ensures var outcome := if Submits(s.scheduler, id) && s.stopping then Lost else Ok;
      && SubmitEnabled(s, id, Drop(outcome))
      && var t := SubmitNext(s, id, Drop(outcome));
         && (id in t.jobs <==> Submits(s.scheduler, id) && s.stopping)
         && (id in t.jobs ==> t.jobs[id].status == Pending && forall owner :: !Owns(t, owner, id))
  {
    hide Inv, Owns;
    if Submits(s.scheduler, id) && s.stopping {
      ShutdownOrphans(s, id, Lost);
    }
  }
}
