/**
 Runs of webhook delivery that attain the starvation bound, whatever the number k of
 older deliveries: they fail five times each, in groups of ten, and the youngest one,
 due all the while, is passed over by five sweeps for every full group.
 */
module Starvation {
  import opened Wrappers
  import opened Sets
  import opened Webhooks

  function Group(g: nat): (ids: seq<Id>)
    ensures |ids| == 10 && forall i :: 0 <= i < 10 ==> ids[i] == 10 * g + i
  {
    seq(10, (i: nat) => 10 * g + i)
  }

  /** The moment of round r, when every pending delivery is due. Rounds 5g to 5g + 4 are those of group g. */
  function Moment(r: nat): real {
    100.0 * (r + 1) as real
  }

  /** Delivery `id` after n failed rounds of its group. */
  function After(id: Id, n: nat): Delivery {
    if n == 0 then Delivery(0, None, None, Pending, id as real)
    else Attempted(After(id, n - 1), Moment(5 * (id / 10) + n - 1), false)
  }

  /** How many rounds delivery `id` had before round r. */
  function Had(id: Id, r: nat): nat {
    var first := 5 * (id / 10);
    if r <= first then 0 else if r < first + 5 then r - first else 5
  }

  function Entry(id: Id, r: nat, c: nat): Delivery {
    After(id, Had(id, r) + if 10 * (r / 5) <= id < 10 * (r / 5) + c then 1 else 0)
  }

  /** The k + 1 deliveries in round r, when the first c of its group have been sent. */
  function Rows(k: nat, r: nat, c: nat): map<Id, Delivery> {
    map id: nat | id <= k :: Entry(id, r, c)
  }

  lemma {:induction false} AfterRounds(id: Id, n: nat)
    requires n <= 5
    ensures var d := After(id, n);
      && d.attempts == n && d.created == id as real
      && (n < 5 ==> d.status == Pending && Due(d, Moment(5 * (id / 10) + n))) && (n == 5 ==> d.status == Failed)
  {
    Powers();
    if 0 < n {
      AfterRounds(id, n - 1);
    }
  }

  lemma DueSinceStart(id: Id, r: nat)
    ensures Due(After(id, 0), Moment(r))
  {}

  /** In round r the groups before its own are done, and all others are due. */
  lemma EntryInRound(id: Id, r: nat)
    ensures var d := Entry(id, r, 0);
      && d.created == id as real
      && if id / 10 < r / 5 then d.status == Failed else Due(d, Moment(r))
  {
    hide After, Moment, Due;
    AfterRounds(id, Had(id, r));
    DueSinceStart(id, r);
  }

  /** The oldest group that is still pending is picked. */
  lemma GroupIsPicked(k: nat, r: nat)
    requires r < 5 * (k / 10)
    ensures Picks(Rows(k, r, 0), Moment(r), Group(r / 5)) && Due(Rows(k, r, 0)[k], Moment(r))
  {
    hide Entry, Moment;
    forall id: nat | id <= k
      ensures Rows(k, r, 0)[id].created == id as real
      ensures Due(Rows(k, r, 0)[id], Moment(r)) <==> r / 5 <= id / 10
    {
      EntryInRound(id, r);
    }
    forall id: nat | r / 5 <= id / 10
      ensures id in Group(r / 5) || 10 * (r / 5) + 9 < id
    {
      if id / 10 == r / 5 {
        assert Group(r / 5)[id % 10] == id;
      }
    }
  }

  ghost predicate Rests(s: State, k: nat, r: nat) {
    s.rows == Rows(k, r, 0) && s.batch == [] && s.clock == Moment(r)
  }

  ghost predicate Sending(s: State, k: nat, r: nat, c: nat) {
    && r < 5 * (k / 10) && c <= 10
    && s.rows == Rows(k, r, c) && s.batch == Copies(Rows(k, r, 0), Group(r / 5))[c..] && s.clock == Moment(r)
  }

  lemma Extend(run: seq<State>, actions: seq<Action>, a: Action) returns (run': seq<State>, actions': seq<Action>)
    requires IsRun(run, actions) && Enabled(run[|run| - 1], a)
    ensures IsRun(run', actions') && run' == run + [Next(run[|run| - 1], a)] && actions' == actions + [a]
  {
    RunAppend(run, actions, a);
    run', actions' := run + [Next(run[|run| - 1], a)], actions + [a];
  }

  lemma SweepStep(s: State, k: nat, r: nat)
    requires r < 5 * (k / 10) && Rests(s, k, r)
    ensures var a := Sweep(Group(r / 5)); Enabled(s, a) && Sending(Next(s, a), k, r, 0) && PassesOver(s, a, k)
  {
    hide Entry, Moment, Picks, Due;
    GroupIsPicked(k, r);
  }

  lemma SendStep(s: State, k: nat, r: nat, c: nat)
    requires c < 10 && Sending(s, k, r, c)
    ensures Enabled(s, Send(false, true)) && Sending(Next(s, Send(false, true)), k, r, c + 1)
  {
    hide Moment, Entry, Rows, Attempted, Sent, Picks;
    NextInBatch(k, r, c);
    RowsStep(k, r, c);
  }

  lemma NextInBatch(k: nat, r: nat, c: nat)
    requires c < 10 && r < 5 * (k / 10)
    ensures var batch, id := Copies(Rows(k, r, 0), Group(r / 5)), 10 * (r / 5) + c;
      id <= k && batch[c..] != [] && batch[c..][0] == (id, Entry(id, r, 0)) && batch[c..][1..] == batch[c + 1..]
  {}

  lemma RowsStep(k: nat, r: nat, c: nat)
    requires c < 10 && r < 5 * (k / 10)
    ensures var id := 10 * (r / 5) + c;
      id in Rows(k, r, c) && Rows(k, r, c + 1) == Rows(k, r, c)[id := Attempted(Entry(id, r, 0), Moment(r), false)]
  {
    hide Entry, Attempted, Moment;
    forall x: nat | x <= k
      ensures Entry(x, r, c + 1) ==
        if x == 10 * (r / 5) + c then Attempted(Entry(x, r, 0), Moment(r), false) else Entry(x, r, c)
    {
      EntryStep(x, r, c);
    }
  }

  lemma EntryStep(id: Id, r: nat, c: nat)
    requires c < 10
    ensures Entry(id, r, c + 1) ==
      if id == 10 * (r / 5) + c then Attempted(Entry(id, r, 0), Moment(r), false) else Entry(id, r, c)
  {
    hide Attempted, Moment;
  }

  lemma EntryRests(id: Id, r: nat)
    ensures Entry(id, r, 10) == Entry(id, r + 1, 0)
  {
    hide After;
  }

  lemma RestStep(s: State, k: nat, r: nat)
    requires Sending(s, k, r, 10)
    ensures var a := Action.Tick(Moment(r + 1)); Enabled(s, a) && Rests(Next(s, a), k, r + 1)
  {
    hide Entry;
    forall id: nat | id <= k
      ensures Entry(id, r, 10) == Entry(id, r + 1, 0)
    {
      EntryRests(id, r);
    }
    assert Rows(k, r, 10) == Rows(k, r + 1, 0);
  }

  /** What is counted over a run depends on its part so far. */
  lemma {:induction false} PassesOfPrefix(run: seq<State>, actions: seq<Action>,
      run': seq<State>, actions': seq<Action>, k: nat, m: nat)
    requires m <= |actions| && m <= |run| && run <= run' && actions <= actions'
    ensures Passes(run', actions', k, m) == Passes(run, actions, k, m)
  {
    if 0 < m {
      PassesOfPrefix(run, actions, run', actions', k, m - 1);
    }
  }

  lemma {:induction false} NoneLate(actions: seq<Action>, created: real, m: nat)
    requires m <= |actions| && forall i :: 0 <= i < |actions| ==> !actions[i].Enqueue?
    ensures LateArrivals(actions, created, m) == 0
  {
    if 0 < m {
      NoneLate(actions, created, m - 1);
    }
  }

  /** The run goes on without losing an update or a new delivery, and delivery k is passed over p times so far. */
  ghost predicate Passing(run: seq<State>, actions: seq<Action>, k: nat, p: nat) {
    && IsRun(run, actions) && AllWork(actions) && (forall i :: 0 <= i < |actions| ==> !actions[i].Enqueue?)
    && Passes(run, actions, k, |actions|) == p
  }

  lemma OneMore(run: seq<State>, actions: seq<Action>, k: nat, p: nat, a: Action)
    returns (run': seq<State>, actions': seq<Action>)
    requires Passing(run, actions, k, p) && Enabled(run[|run| - 1], a) && Works(a) && !a.Enqueue?
    ensures Passing(run', actions', k, p + if PassesOver(run[|run| - 1], a, k) then 1 else 0) && run <= run'
    ensures run' != []
    ensures run'[|run'| - 1] == Next(run[|run| - 1], a)
  {
    hide Enabled, Next, PassesOver;
    run', actions' := Extend(run, actions, a);
    PassesOfPrefix(run, actions, run', actions', k, |actions|);
  }

  lemma {:induction false} SendAll(run: seq<State>, actions: seq<Action>, k: nat, p: nat, r: nat, c: nat)
    returns (run': seq<State>, actions': seq<Action>)
    requires Passing(run, actions, k, p) && run != [] && Sending(run[|run| - 1], k, r, c) && c <= 10
    ensures Passing(run', actions', k, p) && run <= run' && run' != [] && Sending(run'[|run'| - 1], k, r, 10)
    decreases 10 - c
  {
    hide Passing, Sending, Enabled, Next;
    run', actions' := run, actions;
    if c < 10 {
      SendStep(run[|run| - 1], k, r, c);
      run', actions' := OneMore(run, actions, k, p, Send(false, true));
      run', actions' := SendAll(run', actions', k, p, r, c + 1);
    }
  }

  /** One round: a sweep that passes delivery k over, ten failing posts, and time. */
  lemma Round(run: seq<State>, actions: seq<Action>, k: nat, r: nat) returns (run': seq<State>, actions': seq<Action>)
    requires Passing(run, actions, k, r) && r < 5 * (k / 10) && run != [] && Rests(run[|run| - 1], k, r)
    ensures Passing(run', actions', k, r + 1) && run <= run' && run' != [] && Rests(run'[|run'| - 1], k, r + 1)
  {
    hide Passing, Rests, Sending, Enabled, Next;
    SweepStep(run[|run| - 1], k, r);
    run', actions' := OneMore(run, actions, k, r, Sweep(Group(r / 5)));
    run', actions' := SendAll(run', actions', k, r + 1, r, 0);
    RestStep(run'[|run'| - 1], k, r);
    run', actions' := OneMore(run', actions', k, r + 1, Action.Tick(Moment(r + 1)));
  }

  lemma {:induction false} Rounds(start: State, k: nat, r: nat) returns (run: seq<State>, actions: seq<Action>)
    requires Rests(start, k, 0) && r <= 5 * (k / 10)
    ensures Passing(run, actions, k, r) && run != [] && run[0] == start && Rests(run[|run| - 1], k, r)
  {
    if r == 0 {
      run, actions := [start], [];
    } else {
      hide Passing, Rests;
      var before, done := Rounds(start, k, r - 1);
      run, actions := Round(before, done, k, r - 1);
    }
  }

  // ----- the start -----

  ghost predicate Filled(s: State, n: nat) {
    && s.rows == (map id: nat | id < n :: After(id, 0)) && (forall id: nat :: id in s.history <==> id < n)
    && s.batch == [] && s.clock == 0.0
  }

  lemma {:induction false} Fill(n: nat) returns (run: seq<State>, actions: seq<Action>)
    ensures IsRun(run, actions) && run != [] && Initial(run[0]) && Filled(run[|run| - 1], n)
  {
    if n == 0 {
      run, actions := [State(map[], {}, [], [], false, 0.0, map[])], [];
    } else {
      var before, done := Fill(n - 1);
      var s := before[|before| - 1];
      FillStep(s, n - 1);
      run, actions := Extend(before, done, Enqueue(n - 1, (n - 1) as real, Ok));
    }
  }

  lemma FillStep(s: State, n: nat)
    requires Filled(s, n)
    ensures Enabled(s, Enqueue(n, n as real, Ok)) && Filled(Next(s, Enqueue(n, n as real, Ok)), n + 1)
  {}

  lemma FilledRests(s: State, k: nat)
    requires Filled(s, k + 1)
    ensures var a := Action.Tick(Moment(0)); Enabled(s, a) && Rests(Next(s, a), k, 0)
  {}

  lemma OlderAreAll(k: nat)
    ensures k in Rows(k, 0, 0) && |OlderPending(Rows(k, 0, 0), k)| == k
  {
    hide FirstIds, Entry;
    forall id: nat | id <= k
      ensures Rows(k, 0, 0)[id].created == id as real && Rows(k, 0, 0)[id].status == Pending
    {
      EntryInRound(id, 0);
    }
    assert OlderPending(Rows(k, 0, 0), k) == FirstIds(k);
  }

  /**
   For every k: with k older deliveries pending and none arriving, five sweeps for every
   full ten of them do pass the youngest over. That is the bound when k is a multiple
   of ten, and never more than four less.
   */
  lemma BoundIsAttained(k: nat)
    returns (before: seq<State>, done: seq<Action>, run: seq<State>, actions: seq<Action>)
    ensures run != [] && IsRun(before, done) && before != [] && Initial(before[0]) && before[|before| - 1] == run[0]
    ensures IsRun(run, actions) && Inv(run[0]) && AllWork(actions) && k in run[0].rows
    ensures |OlderPending(run[0].rows, k)| == k && LateArrivals(actions, run[0].rows[k].created, |actions|) == 0
    ensures var p := Passes(run, actions, k, |actions|);
      p == 5 * (k / 10) && 5 * k / 10 - 4 <= p && (k % 10 == 0 ==> p == 5 * k / 10)
  {
    before, done := Fill(k + 1);
    FilledRests(before[|before| - 1], k);
    before, done := Extend(before, done, Action.Tick(Moment(0)));
    var start := before[|before| - 1];
    InitialInv(before[0]);
    RunKeepsInv(before, done, |before| - 1);
    run, actions := Rounds(start, k, 5 * (k / 10));
    NoneLate(actions, run[0].rows[k].created, |actions|);
    OlderAreAll(k);
  }
}
