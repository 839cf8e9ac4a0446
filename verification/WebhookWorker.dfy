/**
 The code of webhook delivery, one goroutine at a time: what each function of the
 sender and of the worker does to the table and the channel. Its effect is
 recorded as a run of the machine in module Webhooks, whose theorems cover every
 interleaving.
 */
module WebhookWorker {
  import opened Wrappers
  import opened Selection
  import opened Webhooks

  /** GetPendingWebhooks */
  method GetPendingWebhooks(rows: map<Id, Delivery>, now: real) returns (picked: seq<Id>)
    ensures Picks(rows, now, picked)
  {
    picked := Select(DueTimes(rows, now), BATCH_SIZE);
  }

  // ----- what the other goroutines leave alone -----

  datatype Actor = Sender(id: Id) | Worker

  /** The steps the goroutine takes itself; while it runs, the process does not die. */
  predicate Mine(me: Actor, a: Action) {
    || a.Crash?
    || match me
       case Sender(id) => a.Announce? && a.id == id
       case Worker => a.Sweep? || a.Take? || a.Send?
  }

  /** Only the worker changes rows; others delete them and add new ones. */
  ghost predicate RowsOnlyGo(s: State, t: State) {
    forall id :: id in t.rows && id in s.history ==> id in s.rows && t.rows[id] == s.rows[id]
  }

  /** Only the worker posts. */
  ghost predicate NonePosted(s: State, t: State) {
    forall id :: id in s.history ==> id in t.history && t.history[id] == s.history[id]
  }

  ghost predicate Undisturbed(s: State, t: State, me: Actor) {
    && s.history.Keys <= t.history.Keys && s.clock <= t.clock
    && match me
       case Sender(id) => id in s.announcing ==> id in t.announcing
       case Worker =>
         && t.batch == s.batch && t.notified == s.notified && s.channel <= t.channel
         && RowsOnlyGo(s, t) && NonePosted(s, t)
  }

  lemma UndisturbedTwice(s: State, t: State, u: State, me: Actor)
    requires Undisturbed(s, t, me) && Undisturbed(t, u, me)
    ensures Undisturbed(s, u, me)
  {}

  lemma StepDisturbsNone(s: State, a: Action, me: Actor)
    requires Inv(s) && Enabled(s, a) && !Mine(me, a)
    ensures Undisturbed(s, Next(s, a), me)
  {}

  // ----- what a sweep does -----

  /** The row after at most one attempt, made at some moment of the sweep. */
  ghost predicate SweptRow(before: Delivery, after: Delivery, from: real, to: real, attempted: bool, success: bool) {
    if attempted then exists now: real :: from <= now <= to && AttemptShows(before, after, now, success)
    else after == before
  }

  /**
   One post was made for each picked delivery, also if its row was deleted meanwhile
   or the update got lost, and none for any other. Of the rows there were, those that
   are left show the attempt if they were picked and the update went through, and are
   unchanged if not.
   */
  ghost predicate Swept(s: State, t: State, picked: seq<Id>, answers: Id -> bool, persists: Id -> bool) {
    && (forall id :: id in s.history ==>
      id in t.history && t.history[id].posts == s.history[id].posts + if id in picked then 1 else 0)
    && (forall id :: id in t.rows && id in s.history ==>
      id in s.rows && SweptRow(s.rows[id], t.rows[id], s.clock, t.clock, id in picked && persists(id), answers(id)))
  }

  lemma SweptLater(s: State, t: State, u: State, picked: seq<Id>, answers: Id -> bool, persists: Id -> bool)
    requires Swept(s, t, picked, answers, persists) && Undisturbed(t, u, Worker) && s.history.Keys <= t.history.Keys
    ensures Swept(s, u, picked, answers, persists)
  {
    hide AttemptShows;
  }

  lemma SendNext(s: State, success: bool, persisted: bool)
    requires Enabled(s, Send(success, persisted))
    ensures var t, (id, d) := Next(s, Send(success, persisted)), s.batch[0];
      && t.batch == s.batch[1..] && t.clock == s.clock && t.channel == s.channel && t.history.Keys == s.history.Keys
      && (forall x :: x in s.history ==> t.history[x].posts == s.history[x].posts + if x == id then 1 else 0)
      && t.rows == if persisted && id in s.rows then s.rows[id := Attempted(d, s.clock, success)] else s.rows
  {}

  /** One more attempt of the sweep. */
  lemma SweptOneMore(s: State, t: State, due: seq<Id>, i: nat, answers: Id -> bool, persists: Id -> bool)
    requires i < |due| && due[i] in s.rows && due[i] !in due[..i] && s.clock <= t.clock
    requires s.history.Keys <= t.history.Keys
    requires Swept(s, t, due[..i], answers, persists) && t.batch != [] && t.batch[0] == (due[i], s.rows[due[i]])
    ensures Swept(s, Next(t, Send(answers(due[i]), persists(due[i]))), due[..i + 1], answers, persists)
  {
    hide Next;
    SendNext(t, answers(due[i]), persists(due[i]));
    AttemptedShows(s.rows[due[i]], t.clock, answers(due[i]));
    hide Attempted, AttemptShows;
    assert due[..i + 1] == due[..i] + [due[i]];
  }

  /** Where the other goroutines stand, time and history. */
  datatype World = World(announcing: set<Id>, batch: seq<(Id, Delivery)>, notified: bool, clock: real,
    history: map<Id, History>)

  class Dispatcher {
    var deliveries: map<Id, Delivery>
    var webhookChan: seq<Id>
    var world: World
    ghost var run: seq<State>
    ghost var actions: seq<Action>

    function Snapshot(): State
      reads this
    {
      State(deliveries, world.announcing, webhookChan, world.batch, world.notified, world.clock, world.history)
    }

    /** The present state is the last one of a run of the machine. */
    ghost predicate Valid()
      reads this
    {
      run != [] && IsRun(run, actions) && Inv(run[0]) && run[|run| - 1] == Snapshot()
    }

    constructor (now: real)
      ensures Valid() && Initial(Snapshot()) && world.clock == now && actions == []
    {
      deliveries, webhookChan, world := map[], [], World({}, [], false, now, map[]);
      new;
      run, actions := [Snapshot()], [];
      InitialInv(Snapshot());
    }

    lemma NowInv()
      requires Valid()
      ensures Inv(Snapshot())
    {
      hide Inv;
      RunKeepsInv(run, actions, |run| - 1);
    }

    ghost method Perform(a: Action)
      requires run != [] && IsRun(run, actions) && Inv(run[0])
      requires Enabled(run[|run| - 1], a) && Snapshot() == Next(run[|run| - 1], a)
      modifies this`run, this`actions
      ensures Valid() && run == old(run) + [Snapshot()] && actions == old(actions) + [a]
    {
      hide Inv, Enabled, Next, IsRun;
      RunAppend(run, actions, a);
      run, actions := run + [Snapshot()], actions + [a];
    }

    /** The other goroutines take those steps of the script that they can take. */
    method Others(me: Actor, script: seq<Action>)
      requires Valid()
      modifies this
      ensures Valid() && old(run) <= run && old(actions) <= actions && Undisturbed(old(Snapshot()), Snapshot(), me)
    {
      hide Inv, IsRun, Enabled, Next, Mine;
      ghost var start := Snapshot();
      for i := 0 to |script|
        invariant Valid() && old(run) <= run && old(actions) <= actions && Undisturbed(start, Snapshot(), me)
      {
        var s := Snapshot();
        if Enabled(s, script[i]) && !Mine(me, script[i]) {
          NowInv();
          StepDisturbsNone(s, script[i], me);
          var t := Next(s, script[i]);
          deliveries, webhookChan, world := t.rows, t.channel,
            World(t.announcing, t.batch, t.notified, t.clock, t.history);
          Perform(script[i]);
          UndisturbedTwice(start, s, Snapshot(), me);
        }
      }
    }

    /** uuid.New: an id that was never used. */
    method NewId() returns (id: Id)
      ensures id !in world.history
    {
      id := 0;
      var rest := world.history.Keys;
      while rest != {}
        invariant rest <= world.history.Keys && forall x :: x in world.history && x !in rest ==> x < id
      {
        var x :| x in rest;
        rest := rest - {x};
        id := if id <= x then x + 1 else id;
      }
    }

    /**
     Persists a delivery, unless the job names no webhook, and offers it to the worker.
     An insert that fails is not announced; a full channel leaves the row to the sweep.
     */
    method SendWebhook(wanted: bool, created: real, inserted: Outcome, script: seq<Action>) returns (id: Id)
      requires Valid()
      modifies this
      ensures Valid() && old(run) <= run && id !in old(world.history)
      ensures !wanted || inserted.Lost? ==> deliveries == old(deliveries) && webhookChan == old(webhookChan)
      ensures wanted && inserted.Applied? ==>
        deliveries == old(deliveries)[id := Delivery(0, None, None, Pending, created)]
          && webhookChan == old(webhookChan)
      ensures wanted && inserted.Ok? ==>
        && Enqueue(id, created, Ok) in actions && id !in world.announcing
        && (id in webhookChan || 100 <= |webhookChan|)
    {
      hide Inv, IsRun;
      id := NewId();
      if !wanted {
        return;
      }
      InsertRow(id, created, inserted);
      if !inserted.Ok? {
        return;
      }
      assert Enqueue(id, created, Ok) in actions;
      ghost var done := actions;
      Others(Sender(id), script);
      assert forall a :: a in done ==> a in actions;
      Offer(id);
    }

    /** m.store.EnqueueWebhook */
    method InsertRow(id: Id, created: real, inserted: Outcome)
      requires Valid() && id !in world.history
      modifies this
      ensures Valid() && old(run) <= run && actions == old(actions) + [Enqueue(id, created, inserted)]
      ensures Snapshot() == Next(old(Snapshot()), Enqueue(id, created, inserted))
    {
      hide Inv, IsRun;
      if inserted.Effective() {
        deliveries := deliveries[id := Delivery(0, None, None, Pending, created)];
      }
      world := world.(announcing := if inserted.Ok? then world.announcing + {id} else world.announcing,
        history := world.history[id := History(0, 0, 0, 0)]);
      Perform(Enqueue(id, created, inserted));
    }

    /** The select that sends without blocking. */
    method Offer(id: Id)
      requires Valid() && id in world.announcing
      modifies this
      ensures Valid() && old(run) <= run && actions == old(actions) + [Announce(id)]
      ensures id !in world.announcing && deliveries == old(deliveries)
      ensures webhookChan == if |old(webhookChan)| < CHANNEL_BUFFER then old(webhookChan) + [id] else old(webhookChan)
    {
      hide Inv, IsRun;
      if |webhookChan| < CHANNEL_BUFFER {
        webhookChan := webhookChan + [id];
      }
      world := world.(announcing := world.announcing - {id});
      Perform(Announce(id));
    }

    /**
     One attempt with the copy the worker holds; `success` is a 2xx answer, `persisted` that the update
     went through.
     */
    method SendOneWebhook(id: Id, copy: Delivery, success: bool, persisted: bool)
      requires Valid() && world.batch != [] && world.batch[0] == (id, copy)
      modifies this
      ensures Valid() && old(run) <= run && Snapshot() == Next(old(Snapshot()), Send(success, persisted))
      ensures forall x :: x != id ==>
        && (x in deliveries <==> x in old(deliveries))
        && (x in deliveries ==> deliveries[x] == old(deliveries)[x])
      ensures !persisted ==> deliveries == old(deliveries)
      ensures id in deliveries <==> id in old(deliveries)
      ensures persisted && id in deliveries ==>
        && deliveries[id].attempts == copy.attempts + 1 && deliveries[id].last == Some(world.clock)
        && (success ==> deliveries[id].status == Success && deliveries[id].next == None)
        && (!success && copy.attempts + 1 == 5 ==> deliveries[id].status == Failed && deliveries[id].next == None)
        && (!success && copy.attempts + 1 < 5 ==>
          && deliveries[id].status == Pending
          && deliveries[id].next == Some(world.clock + Power2(copy.attempts + 1) as real))
      ensures id in old(world.history) ==>
        id in world.history && world.history[id].posts == old(world.history)[id].posts + 1
    {
      hide Inv, IsRun;
      NowInv();
      HeldIsPending(Snapshot());
      ghost var s := Snapshot();
      var now := world.clock;
      var d := copy.(attempts := copy.attempts + 1, last := Some(now));
      if success {
        d := SetWebhookStatus(id, d, Success, None, persisted);
      } else if d.attempts >= MAX_RETRIES {
        d := SetWebhookStatus(id, d, Failed, None, persisted);
      } else {
        var backoff := Power2(d.attempts) as real;
        d := SetWebhookStatus(id, d, Pending, Some(now + backoff), persisted);
      }
      assert d == Attempted(copy, now, success);
      RecordAttempt(s, id, copy, d, success, persisted);
    }

    /** UPDATE of one row; it changes nothing when the statement fails or the row is gone. */
    method SetWebhookStatus(id: Id, d: Delivery, status: Status, next: Option<real>, persisted: bool)
      returns (row: Delivery)
      modifies this`deliveries
      ensures row == d.(status := status, next := next)
      ensures deliveries == if persisted && id in old(deliveries) then old(deliveries)[id := row] else old(deliveries)
    {
      row := d.(status := status, next := next);
      if persisted && id in deliveries {
        deliveries := deliveries[id := row];
      }
    }

    /** The books of the machine, after the row. */
    method RecordAttempt(ghost s: State, id: Id, copy: Delivery, d: Delivery, success: bool, persisted: bool)
      requires run != [] && IsRun(run, actions) && Inv(run[0]) && run[|run| - 1] == s
      requires s.batch != [] && s.batch[0] == (id, copy) && d == Attempted(copy, s.clock, success)
      requires Snapshot() == s.(rows := if persisted && id in s.rows then s.rows[id := d] else s.rows)
      modifies this
      ensures Valid() && old(run) <= run && Snapshot() == Next(s, Send(success, persisted))
    {
      hide Inv, IsRun;
      if id in world.history {
        var h := Sent(world.history[id], copy, d, world.clock, persisted && id in deliveries);
        world := world.(history := world.history[id := h]);
      }
      world := world.(batch := world.batch[1..]);
      Perform(Send(success, persisted));
    }

    /**
     The notify path: one attempt, whatever `next_attempt` says, if the row can be read
     and is still pending; no other row is touched.
     */
    method AttemptWebhook(read: bool, success: bool, persisted: bool, script: seq<Action>) returns (id: Id, sent: bool)
      requires Valid() && world.batch == [] && webhookChan != []
      modifies this
      ensures Valid() && world.batch == [] && old(run) <= run && id == old(webhookChan)[0]
      ensures sent <==> read && id in old(deliveries) && old(deliveries)[id].status == Pending
      ensures Swept(old(Snapshot()), Snapshot(), if sent then [id] else [], _ => success, _ => persisted)
    {
      hide Inv, IsRun, Swept;
      ghost var start := Snapshot();
      id := webhookChan[0];
      webhookChan := webhookChan[1..];
      sent := read && id in deliveries && deliveries[id].status == Pending;
      world := world.(notified := true, batch := if sent then [(id, deliveries[id])] else []);
      Perform(Take(read));
      NothingSwept(start, Snapshot(), _ => success, _ => persisted);
      if sent {
        SendNextOf(start, [id], 0, _ => success, _ => persisted, script);
        assert [id][..1] == [id];
      }
    }

    /** The attempt for the i-th delivery of the batch, once the others have had their turn. */
    method SendNextOf(ghost start: State, due: seq<Id>, i: nat, answers: Id -> bool, persists: Id -> bool,
        script: seq<Action>)
      requires Valid() && i < |due| && due[i] in start.rows && due[i] !in due[..i] && world.batch != []
      requires world.batch[0] == (due[i], start.rows[due[i]])
      requires start.clock <= world.clock && start.history.Keys <= world.history.Keys
      requires Swept(start, Snapshot(), due[..i], answers, persists)
      modifies this
      ensures Valid() && old(run) <= run && world.batch == old(world.batch)[1..]
      ensures start.clock <= world.clock && start.history.Keys <= world.history.Keys && old(webhookChan) <= webhookChan
      ensures Swept(start, Snapshot(), due[..i + 1], answers, persists)
    {
      hide Inv, IsRun, Swept, Next, RowsOnlyGo;
      ghost var s := Snapshot();
      Others(Worker, script);
      SweptLater(start, s, Snapshot(), due[..i], answers, persists);
      s := Snapshot();
      var (id, copy) := world.batch[0];
      SendOneWebhook(id, copy, answers(id), persists(id));
      SendNext(s, answers(id), persists(id));
      SweptOneMore(start, s, due, i, answers, persists);
    }

    /**
     The sweep: one attempt for each of the oldest due deliveries, each with the row as
     it was read; none at all if the query fails.
     */
    method ProcessPendingWebhooks(read: bool, answers: Id -> bool, persists: Id -> bool, others: nat -> seq<Action>)
      returns (due: seq<Id>)
      requires Valid() && world.batch == []
      modifies this
      ensures Valid() && world.batch == [] && old(run) <= run && old(webhookChan) <= webhookChan
      ensures if read then Picks(old(deliveries), old(world.clock), due)
        else due == [] && Snapshot() == old(Snapshot())
      ensures Swept(old(Snapshot()), Snapshot(), due, answers, persists)
    {
      hide Inv, IsRun, Swept;
      ghost var start := Snapshot();
      if !read {
        due := [];
        NothingSwept(start, start, answers, persists);
        return;
      }
      due := GetPendingWebhooks(deliveries, world.clock);
      world := world.(batch := Copies(deliveries, due), notified := false);
      Perform(Sweep(due));
      NothingSwept(start, Snapshot(), answers, persists);
      SendAll(start, due, answers, persists, others);
    }

    method SendAll(ghost start: State, due: seq<Id>, answers: Id -> bool, persists: Id -> bool,
        others: nat -> seq<Action>)
      requires Valid() && (forall i :: 0 <= i < |due| ==> due[i] in start.rows && due[i] !in due[..i])
      requires world.batch == Copies(start.rows, due) && start.clock <= world.clock
      requires start.history.Keys <= world.history.Keys
      requires Swept(start, Snapshot(), [], answers, persists)
      modifies this
      ensures Valid() && world.batch == [] && old(run) <= run && old(webhookChan) <= webhookChan
      ensures Swept(start, Snapshot(), due, answers, persists)
    {
      hide Inv, IsRun, Swept;
      ghost var copies := Copies(start.rows, due);
      assert copies[0..] == copies;
      for i := 0 to |due|
        invariant Valid() && old(run) <= run && old(webhookChan) <= webhookChan
        invariant world.batch == copies[i..] && start.clock <= world.clock && start.history.Keys <= world.history.Keys
        invariant Swept(start, Snapshot(), due[..i], answers, persists)
      {
        SendNextOf(start, due, i, answers, persists, others(i));
        assert copies[i..][1..] == copies[i + 1..];
      }
      assert due[..|due|] == due;
    }
  }

  lemma HeldIsPending(s: State)
    requires Inv(s) && s.batch != []
    ensures s.batch[0].1.status == Pending && (s.batch[0].0 in s.rows ==> s.batch[0].1.attempts < 5)
  {
    assert InBatch(s, s.batch[0].0, s.batch[0].1);
  }

  lemma NothingSwept(s: State, t: State, answers: Id -> bool, persists: Id -> bool)
    requires t.rows == s.rows && t.history == s.history
    ensures Swept(s, t, [], answers, persists)
  {}
}
