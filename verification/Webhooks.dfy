/**
 Webhook delivery (internal/job/manager.go, internal/store/store.go): a persisted
 retry queue drained by one worker along two paths, a notify channel and a
 periodic sweep. Job workers, deletions and crashes interleave with it; every
 statement on the store and every channel operation is one step.
 */
module Webhooks {
  import opened Wrappers
  import opened Selection
  import opened Sets

  const MAX_RETRIES := 5
  const BATCH_SIZE := 10
  const CHANNEL_BUFFER := 100

  type Id = nat

  datatype Status = Pending | Success | Failed

  datatype Delivery = Delivery(attempts: nat, last: Option<real>, next: Option<real>, status: Status, created: real)

  function Power2(n: nat): nat {
    if n == 0 then 1 else 2 * Power2(n - 1)
  }

  /** The state of a delivery after one more attempt at `now`. */
  function Attempted(d: Delivery, now: real, success: bool): Delivery {
    var n := d.attempts + 1;
    if success then d.(attempts := n, last := Some(now), next := None, status := Success)
    else if n >= MAX_RETRIES then d.(attempts := n, last := Some(now), next := None, status := Failed)
    else d.(attempts := n, last := Some(now), next := Some(now + Power2(n) as real))
  }

  /**
   One attempt at `now`, in the terms of the sender: a 2xx answer ends the delivery,
   so does the fifth failure, and any other failure sets the next attempt 2 to the
   attempts seconds later.
   */
  ghost predicate AttemptShows(d: Delivery, after: Delivery, now: real, success: bool) {
    && after.attempts == d.attempts + 1 && after.last == Some(now) && after.created == d.created
    && (success ==> after.status == Success && after.next == None)
    && (!success && 5 <= after.attempts ==> after.status == Failed && after.next == None)
    && (!success && after.attempts < 5 ==>
      after.status == d.status && after.next == Some(now + Power2(after.attempts) as real))
  }

  lemma AttemptedShows(d: Delivery, now: real, success: bool)
    ensures AttemptShows(d, Attempted(d, now, success), now, success)
  {}

  predicate Due(d: Delivery, now: real) {
    d.status == Pending && (d.next.None? || d.next.value <= now)
  }

  /** Sent before the time that was set for the next attempt. */
  predicate Early(d: Delivery, now: real) {
    d.next.Some? && now < d.next.value
  }

  /** What happened to one delivery: posts made, updates of the row that got lost, early posts, delays set. */
  datatype History = History(posts: nat, lost: nat, early: nat, delay: nat)

  datatype State = State(
    rows: map<Id, Delivery>,  // the table
    announcing: set<Id>,  // inserted, not yet offered to the channel
    channel: seq<Id>,
    batch: seq<(Id, Delivery)>,  // read by the worker, still to be sent
    notified: bool,  // whether the batch came over the channel
    clock: real,
    history: map<Id, History>)  // one entry for every id ever used

  datatype Action =
    | Enqueue(id: Id, created: real, outcome: Outcome)  // a job worker inserts the row
    | Announce(id: Id)  // and offers it to the channel
    | Sweep(picked: seq<Id>)
    | Take(read: bool)  // the worker receives from the channel and re-reads the row
    | Send(success: bool, persisted: bool)
    | Delete(id: Id)  // a job is deleted or purged
    | Tick(now: real)
    | Crash

  /** The deliveries that are due, and when they were created. */
  function DueTimes(rows: map<Id, Delivery>, now: real): map<Id, real> {
    map id | id in rows && Due(rows[id], now) :: rows[id].created
  }

  /** GetPendingWebhooks: the oldest due deliveries, at most a batch of them. */
  predicate Picks(rows: map<Id, Delivery>, now: real, picked: seq<Id>) {
    Earliest(DueTimes(rows, now), BATCH_SIZE, picked)
  }

  /** To be sent, and not before its time. */
  ghost predicate Ready(d: Delivery, now: real) {
    d.status == Pending && (d.next == None || d.next.value <= now)
  }

  /** The query in the terms of the table. */
  lemma PicksInWords(rows: map<Id, Delivery>, now: real, picked: seq<Id>)
    ensures Picks(rows, now, picked) <==> (
      && |picked| <= 10
      && (forall i :: 0 <= i < |picked| ==> picked[i] in rows && Ready(rows[picked[i]], now))
      && (forall i, j :: 0 <= i < j < |picked| ==>
        picked[i] != picked[j] && rows[picked[i]].created <= rows[picked[j]].created)
      && (forall y :: y in rows && y !in picked && Ready(rows[y], now) ==>
        |picked| == 10 && forall i :: 0 <= i < |picked| ==> rows[picked[i]].created <= rows[y].created))
  {}

  function Copies(rows: map<Id, Delivery>, picked: seq<Id>): (batch: seq<(Id, Delivery)>)
    requires forall i :: 0 <= i < |picked| ==> picked[i] in rows
    ensures |batch| == |picked| && forall i :: 0 <= i < |picked| ==> batch[i] == (picked[i], rows[picked[i]])
  {
    seq(|picked|, i requires 0 <= i < |picked| => (picked[i], rows[picked[i]]))
  }

  predicate Enabled(s: State, a: Action) {
    match a
    case Enqueue(id, created, outcome) => id !in s.history
    case Announce(id) => id in s.announcing
    case Sweep(picked) => s.batch == [] && Picks(s.rows, s.clock, picked)
    case Take(_) => s.batch == [] && s.channel != []
    case Send(_, _) => s.batch != []
    case Delete(_) => true
    case Tick(now) => s.clock <= now
    case Crash => true
  }

  function Next(s: State, a: Action): State
    requires Enabled(s, a)
  {
    match a
    case Enqueue(id, created, outcome) =>
      s.(rows := if outcome.Effective() then s.rows[id := Delivery(0, None, None, Pending, created)] else s.rows,
        announcing := if outcome.Ok? then s.announcing + {id} else s.announcing,
        history := s.history[id := History(0, 0, 0, 0)])
    case Announce(id) =>
      s.(announcing := s.announcing - {id},
        channel := if |s.channel| < CHANNEL_BUFFER then s.channel + [id] else s.channel)
    case Sweep(picked) =>
      s.(batch := Copies(s.rows, picked), notified := false)
    case Take(read) =>
      var id := s.channel[0];
      s.(channel := s.channel[1..], notified := true,
        batch := if read && id in s.rows && s.rows[id].status == Pending then [(id, s.rows[id])] else [])
    case Send(success, persisted) =>
      var (id, d) := s.batch[0];
      var written, d' := persisted && id in s.rows, Attempted(d, s.clock, success);
      s.(batch := s.batch[1..],
        rows := if written then s.rows[id := d'] else s.rows,
        history := if id in s.history then s.history[id := Sent(s.history[id], d, d', s.clock, written)] else s.history)
    case Delete(id) => s.(rows := s.rows - {id})
    case Tick(now) => s.(clock := now)
    case Crash => s.(announcing := {}, channel := [], batch := [])
  }

  function Sent(h: History, d: Delivery, d': Delivery, now: real, written: bool): History {
    History(h.posts + 1, h.lost + (if written then 0 else 1), h.early + (if Early(d, now) then 1 else 0),
      h.delay + (if written && d'.status == Pending then Power2(d'.attempts) else 0))
  }

  // ----- what every reachable state satisfies -----

  /** A delivery row is always one of these. */
  ghost predicate Sound(d: Delivery) {
    && d.attempts <= MAX_RETRIES
    && (d.status == Pending ==> d.attempts < MAX_RETRIES)
    && (d.status == Failed ==> d.attempts == MAX_RETRIES)
    && (d.status == Success ==> 0 < d.attempts)
    && (d.attempts == 0 <==> d.last.None?)
    && (d.next.Some? <==> d.status == Pending && 0 < d.attempts)
    && (d.next.Some? ==> d.last.Some? && d.next.value == d.last.value + Power2(d.attempts) as real)
  }

  /** The history of a row: posts are attempts plus lost updates; the delays set so far are 2 + 4 + ... */
  ghost predicate Accounted(d: Delivery, h: History) {
    && h.posts == d.attempts + h.lost
    && (d.status == Pending ==> h.delay == Power2(d.attempts + 1) - 2)
    && h.delay <= 30
  }

  /** Ways in which the notify path can still reach a delivery. */
  function Notices(s: State, id: Id): nat {
    (if id in s.announcing then 1 else 0)
    + multiset(s.channel)[id]
    + (if s.notified && s.batch != [] && s.batch[0].0 == id then 1 else 0)
  }

  ghost predicate Inv(s: State) {
    && s.rows.Keys <= s.history.Keys
    && s.announcing <= s.history.Keys
    && (forall i :: 0 <= i < |s.channel| ==> s.channel[i] in s.history)
    && (forall id :: id in s.rows ==> Sound(s.rows[id]) && Accounted(s.rows[id], s.history[id]))
    && (forall i :: 0 <= i < |s.batch| ==> InBatch(s, s.batch[i].0, s.batch[i].1))
    && (forall i, j :: 0 <= i < j < |s.batch| ==> s.batch[i].0 != s.batch[j].0)
    && (s.notified ==> |s.batch| <= 1)
    && (forall id :: id in s.history ==> s.history[id].early + Notices(s, id) <= 1)
  }

  /** A copy the worker holds is the row itself, unless the row has been deleted. */
  ghost predicate InBatch(s: State, id: Id, d: Delivery) {
    && id in s.history
    && d.status == Pending
    && (id in s.rows ==> s.rows[id] == d)
    && (!s.notified ==> Due(d, s.clock))
  }

  ghost predicate Initial(s: State) {
    s.rows == map[] && s.announcing == {} && s.channel == [] && s.batch == [] && s.history == map[]
  }

  lemma InitialInv(s: State)
    requires Initial(s)
    ensures Inv(s)
  {}

  lemma Powers()
    ensures Power2(0) == 1 && Power2(1) == 2 && Power2(2) == 4 && Power2(3) == 8 && Power2(4) == 16 && Power2(5) == 32
  {}

  /** One attempt keeps a row sound and its history in balance. */
  lemma AttemptIsSound(d: Delivery, h: History, now: real, success: bool)
    requires Sound(d) && d.status == Pending && Accounted(d, h)
    ensures var d' := Attempted(d, now, success);
      Sound(d') && Accounted(d', Sent(h, d, d', now, true))
    ensures Accounted(d, Sent(h, d, Attempted(d, now, success), now, false))
  {
    Powers();
  }

  lemma SendKeepsInv(s: State, a: Action)
    requires Inv(s) && Enabled(s, a) && a.Send?
    ensures Inv(Next(s, a))
  {
    hide Picks;
    var t := Next(s, a);
    var (id, d) := s.batch[0];
    assert InBatch(s, id, d);
    if id in s.rows {
      AttemptIsSound(d, s.history[id], s.clock, a.success);
    }
    forall i | 0 <= i < |t.batch|
      ensures InBatch(t, t.batch[i].0, t.batch[i].1)
    {
      assert t.batch[i] == s.batch[i + 1];
      assert InBatch(s, s.batch[i + 1].0, s.batch[i + 1].1);
    }
    forall i, j | 0 <= i < j < |t.batch|
      ensures t.batch[i].0 != t.batch[j].0
    {
      assert t.batch[i] == s.batch[i + 1] && t.batch[j] == s.batch[j + 1];
    }
    forall x | x in t.history
      ensures t.history[x].early + Notices(t, x) <= 1
    {
      assert s.history[x].early + Notices(s, x) <= 1;
    }
  }

  lemma TakeKeepsInv(s: State, a: Action)
    requires Inv(s) && Enabled(s, a) && a.Take?
    ensures Inv(Next(s, a))
  {
    var t, id := Next(s, a), s.channel[0];
    assert s.channel == [id] + t.channel;
    assert multiset(s.channel) == multiset{id} + multiset(t.channel);
    forall x | x in t.history
      ensures t.history[x].early + Notices(t, x) <= 1
    {
      assert s.history[x].early + Notices(s, x) <= 1;
    }
    assert forall i :: 0 <= i < |t.channel| ==> t.channel[i] == s.channel[i + 1];
  }

  lemma EnqueueKeepsInv(s: State, a: Action)
    requires Inv(s) && Enabled(s, a) && a.Enqueue?
    ensures Inv(Next(s, a))
  {
    var t := Next(s, a);
    Powers();
    forall i | 0 <= i < |t.batch|
      ensures InBatch(t, t.batch[i].0, t.batch[i].1)
    {
      assert InBatch(s, s.batch[i].0, s.batch[i].1);
    }
    assert a.id in multiset(s.channel) <==> a.id in s.channel;
    forall x | x in t.history
      ensures t.history[x].early + Notices(t, x) <= 1
    {
      if x != a.id {
        assert s.history[x].early + Notices(s, x) <= 1;
      } else if s.batch != [] {
        assert InBatch(s, s.batch[0].0, s.batch[0].1);
      }
    }
  }

  lemma SweepKeepsInv(s: State, a: Action)
    requires Inv(s) && Enabled(s, a) && a.Sweep?
    ensures Inv(Next(s, a))
  {
    hide Sound, Accounted;
    var t := Next(s, a);
    forall x | x in t.history
      ensures t.history[x].early + Notices(t, x) <= 1
    {
      assert s.history[x].early + Notices(s, x) <= 1;
    }
  }

  lemma AnnounceKeepsInv(s: State, a: Action)
    requires Inv(s) && Enabled(s, a) && a.Announce?
    ensures Inv(Next(s, a))
  {
    hide Sound, Accounted, Due;
    var t := Next(s, a);
    SameBatchStays(s, t);
    assert multiset(s.channel + [a.id]) == multiset(s.channel) + multiset{a.id};
    forall x | x in t.history
      ensures t.history[x].early + Notices(t, x) <= 1
    {
      assert s.history[x].early + Notices(s, x) <= 1;
    }
  }

  /**
   Neither a deletion, which the worker's copies do not notice, nor time, which only makes more due,
   changes a copy.
   */
  lemma SameBatchStays(s: State, t: State)
    requires Inv(s) && t.batch == s.batch && t.notified == s.notified && t.history == s.history && s.clock <= t.clock
    requires forall id :: id in t.rows ==> id in s.rows && t.rows[id] == s.rows[id]
    ensures forall i :: 0 <= i < |t.batch| ==> InBatch(t, t.batch[i].0, t.batch[i].1)
  {
    hide Sound, Accounted, Due, Notices;
    forall i | 0 <= i < |t.batch|
      ensures InBatch(t, t.batch[i].0, t.batch[i].1)
    {
      assert InBatch(s, s.batch[i].0, s.batch[i].1);
      StillDue(s.batch[i].1, s.clock, t.clock);
    }
  }

  lemma OtherStepsKeepInv(s: State, a: Action)
    requires Inv(s) && Enabled(s, a)
    requires a.Delete? || a.Tick? || a.Crash?
    ensures Inv(Next(s, a))
  {
    hide Sound, Accounted, Due, InBatch;
    var t := Next(s, a);
    if !a.Crash? {
      SameBatchStays(s, t);
    }
    forall x | x in t.history
      ensures t.history[x].early + Notices(t, x) <= 1
    {
      assert s.history[x].early + Notices(s, x) <= 1;
    }
  }

  lemma StillDue(d: Delivery, now: real, later: real)
    requires now <= later
    ensures Due(d, now) ==> Due(d, later)
  {}

  /** Every step of every goroutine keeps the invariant. */
  lemma StepKeepsInv(s: State, a: Action)
    requires Inv(s) && Enabled(s, a)
    ensures Inv(Next(s, a))
  {
    match a
    case Enqueue(_, _, _) => EnqueueKeepsInv(s, a);
    case Take(_) => TakeKeepsInv(s, a);
    case Send(_, _) => SendKeepsInv(s, a);
    case Sweep(_) => SweepKeepsInv(s, a);
    case Announce(_) => AnnounceKeepsInv(s, a);
    case _ => OtherStepsKeepInv(s, a);
  }

  /** What any step does to one row: only a deletion removes it, and only a persisted attempt changes it. */
  lemma StepOnRow(s: State, a: Action, id: Id)
    requires Inv(s) && Enabled(s, a)
    ensures var t := Next(s, a);
      && (id in s.rows ==> (id !in t.rows <==> a == Delete(id)))
      && (id !in s.rows ==> (id in t.rows <==> a.Enqueue? && a.id == id && !a.outcome.Lost?))
      && (id !in s.rows && id in t.rows ==> t.rows[id] == Delivery(0, None, None, Pending, a.created))
      && (id in s.rows && id in t.rows ==>
        if a.Send? && a.persisted && s.batch[0].0 == id then AttemptShows(s.rows[id], t.rows[id], s.clock, a.success)
        else t.rows[id] == s.rows[id])
  {
    hide Notices, Sound, Accounted;
    if a.Send? {
      assert InBatch(s, s.batch[0].0, s.batch[0].1);
    }
  }

  // ----- runs -----

  ghost predicate IsRun(run: seq<State>, actions: seq<Action>) {
    && |run| == |actions| + 1
    && forall i :: 0 <= i < |actions| ==> Steps(run, actions, i)
  }

  ghost predicate Steps(run: seq<State>, actions: seq<Action>, i: nat)
    requires i < |actions| && i + 1 < |run|
  {
    Enabled(run[i], actions[i]) && run[i + 1] == Next(run[i], actions[i])
  }

  lemma RunAppend(run: seq<State>, actions: seq<Action>, a: Action)
    requires IsRun(run, actions) && Enabled(run[|run| - 1], a)
    ensures IsRun(run + [Next(run[|run| - 1], a)], actions + [a])
  {
    var run', actions' := run + [Next(run[|run| - 1], a)], actions + [a];
    forall i: nat | i < |actions'|
      ensures Steps(run', actions', i)
    {
      if i < |actions| {
        assert Steps(run, actions, i);
      }
    }
  }

  /** Every state of every run is sound. */
  lemma {:induction false} RunKeepsInv(run: seq<State>, actions: seq<Action>, i: nat)
    requires IsRun(run, actions) && Inv(run[0]) && i < |run|
    ensures Inv(run[i])
  {
    if 0 < i {
      RunKeepsInv(run, actions, i - 1);
      assert Steps(run, actions, i - 1);
      StepKeepsInv(run[i - 1], actions[i - 1]);
    }
  }

  /** A 2xx answer that is persisted is the last word: the row says SUCCESS, and nothing is posted after it. */
  lemma SuccessIsLast(run: seq<State>, actions: seq<Action>, i: nat, j: nat, id: Id)
    requires IsRun(run, actions) && Inv(run[0]) && i < j < |run|
    requires actions[i] == Send(true, true) && run[i].batch != [] && run[i].batch[0].0 == id && id in run[i].rows
    ensures id in run[j].rows ==> run[j].rows[id].status == Success && run[j].rows[id].next == None
    ensures id in run[i].history && id in run[j].history
    ensures run[j].history[id].posts == run[i].history[id].posts + 1
    ensures j < |actions| && actions[j].Send? ==> run[j].batch != [] && run[j].batch[0].0 != id
  {
    assert Steps(run, actions, i);
    RunKeepsInv(run, actions, i);
    TerminalIsFinal(run, actions, i + 1, j, id);
    if j < |actions| {
      assert Steps(run, actions, j);
    }
  }

  /** A post made before the time that was set for it. */
  ghost predicate PostsEarly(s: State, a: Action, id: Id) {
    && a.Send? && s.batch != [] && s.batch[0].0 == id
    && s.batch[0].1.next.Some? && s.clock < s.batch[0].1.next.value
  }

  ghost function EarlyPosts(run: seq<State>, actions: seq<Action>, id: Id, m: nat): nat
    requires m <= |actions| && m <= |run|
  {
    if m == 0 then 0
    else
      EarlyPosts(run, actions, id, m - 1) +
      if PostsEarly(run[m - 1], actions[m - 1], id) then 1 else 0
  }

  lemma {:induction false} EarlyPostsOnRecord(run: seq<State>, actions: seq<Action>, id: Id, m: nat)
    requires IsRun(run, actions) && Initial(run[0]) && m <= |actions|
    ensures if id in run[m].history then EarlyPosts(run, actions, id, m) == run[m].history[id].early
      else EarlyPosts(run, actions, id, m) == 0
  {
    if 0 < m {
      EarlyPostsOnRecord(run, actions, id, m - 1);
      InitialInv(run[0]);
      RunKeepsInv(run, actions, m - 1);
      assert Steps(run, actions, m - 1);
      EarlyStep(run[m - 1], actions[m - 1], id);
    }
  }

  lemma EarlyStep(s: State, a: Action, id: Id)
    requires Inv(s) && Enabled(s, a)
    ensures var t := Next(s, a);
      && (id in t.history ==>
        var before := if id in s.history then s.history[id].early else 0;
        t.history[id].early == before + if PostsEarly(s, a, id) then 1 else 0)
      && (id !in t.history ==> id !in s.history && !PostsEarly(s, a, id))
      && (PostsEarly(s, a, id) ==> id in s.history)
  {
    if a.Send? {
      assert InBatch(s, s.batch[0].0, s.batch[0].1);
    }
  }

  /** However sweeps and notices meet, a delivery is posted before its time at most once in its life. */
  lemma EarlyOnce(run: seq<State>, actions: seq<Action>, id: Id)
    requires IsRun(run, actions) && Initial(run[0])
    ensures EarlyPosts(run, actions, id, |actions|) <= 1
  {
    EarlyPostsOnRecord(run, actions, id, |actions|);
    InitialInv(run[0]);
    RunKeepsInv(run, actions, |actions|);
  }

  /** What the invariant says about one delivery, in the terms of its sender. */
  lemma DeliveryBounds(s: State, id: Id)
    requires Inv(s) && id in s.rows
    ensures var d, h := s.rows[id], s.history[id];
      && h.posts <= d.attempts + h.lost && d.attempts <= 5
      && (d.status == Pending ==> d.attempts < 5) && (d.status == Failed ==> d.attempts == 5)
      && (d.status == Pending && 0 < d.attempts ==> d.next == Some(d.last.value + Power2(d.attempts) as real))
      && h.delay <= 30 && h.early <= 1
  {}

  /** A persisted SUCCESS or FAILED is final: the row stays as it is and no further post is made. */
  lemma {:induction false} TerminalIsFinal(run: seq<State>, actions: seq<Action>, i: nat, j: nat, id: Id)
    requires IsRun(run, actions) && Inv(run[0]) && i <= j < |run|
    requires id in run[i].history && id in run[i].rows && run[i].rows[id].status != Pending
    ensures id in run[j].history && run[j].history[id] == run[i].history[id]
    ensures id in run[j].rows ==> run[j].rows[id] == run[i].rows[id]
    ensures forall k :: 0 <= k < |run[j].batch| ==> run[j].batch[k].0 != id
    decreases j - i
  {
    RunKeepsInv(run, actions, i);
    if i < j {
      TerminalIsFinal(run, actions, i, j - 1, id);
      RunKeepsInv(run, actions, j - 1);
      assert Steps(run, actions, j - 1);
      TerminalStep(run[j - 1], actions[j - 1], id);
    } else {
      forall k | 0 <= k < |run[i].batch|
        ensures run[i].batch[k].0 != id
      {
        assert InBatch(run[i], run[i].batch[k].0, run[i].batch[k].1);
      }
    }
  }

  /** No step touches a delivery that is neither pending nor in the worker's hands. */
  lemma TerminalStep(s: State, a: Action, id: Id)
    requires Inv(s) && Enabled(s, a) && id in s.history
    requires id in s.rows ==> s.rows[id].status != Pending
    requires forall k :: 0 <= k < |s.batch| ==> s.batch[k].0 != id
    ensures var t := Next(s, a);
      && id in t.history && t.history[id] == s.history[id]
      && (id in t.rows ==> id in s.rows && t.rows[id] == s.rows[id])
      && forall k :: 0 <= k < |t.batch| ==> t.batch[k].0 != id
  {
    if a.Send? {
      assert s.batch[0].0 != id;
    }
  }

  // ----- how long a delivery can wait -----

  /** Attempts a delivery still has before it. */
  function Remaining(rows: map<Id, Delivery>, id: Id): nat {
    if id in rows && rows[id].status == Pending && rows[id].attempts < MAX_RETRIES then MAX_RETRIES - rows[id].attempts
    else 0
  }

  ghost predicate Holds(s: State, id: Id) {
    exists i :: 0 <= i < |s.batch| && s.batch[i].0 == id
  }

  /** Everything that would be served before delivery `d` of a sweep: older, or just as old. */
  ghost predicate Ahead(s: State, id: Id, d: Id, created: real) {
    id != d && id in s.rows && s.rows[id].created <= created
  }

  /** Attempts that a delivery ahead of `d` can still take from a sweep: one in the worker's hands counts as taken. */
  ghost function Claim(s: State, id: Id, d: Id, created: real): nat {
    if !Ahead(s, id, d, created) then 0
    else if Holds(s, id) && 0 < Remaining(s.rows, id) then Remaining(s.rows, id) - 1
    else Remaining(s.rows, id)
  }

  /** The claims of all ids below `n`. */
  ghost function Claims(s: State, n: nat, d: Id, created: real): nat {
    if n == 0 then 0 else Claims(s, n - 1, d, created) + Claim(s, n - 1, d, created)
  }

  /** How many ids below `n` are ahead of `d` and pending. */
  ghost function PendingAhead(s: State, n: nat, d: Id, created: real): nat {
    if n == 0 then 0
    else
      PendingAhead(s, n - 1, d, created) +
      if Ahead(s, n - 1, d, created) && s.rows[n - 1].status == Pending then 1 else 0
  }

  lemma {:induction false} ClaimsAtMostFive(s: State, n: nat, d: Id, created: real)
    ensures Claims(s, n, d, created) <= 5 * PendingAhead(s, n, d, created)
  {
    if 0 < n {
      ClaimsAtMostFive(s, n - 1, d, created);
    }
  }

  /** A sweep that could have taken `d` and did not. */
  ghost predicate PassesOver(s: State, a: Action, d: Id) {
    a.Sweep? && d in s.rows && Due(s.rows[d], s.clock) && d !in a.picked
  }

  ghost function Passes(run: seq<State>, actions: seq<Action>, d: Id, n: nat): nat
    requires n <= |actions| && n <= |run|
  {
    if n == 0 then 0 else Passes(run, actions, d, n - 1) + if PassesOver(run[n - 1], actions[n - 1], d) then 1 else 0
  }

  /** Deliveries enqueued during the run that are not younger than `created`. */
  ghost function LateArrivals(actions: seq<Action>, created: real, n: nat): nat
    requires n <= |actions|
  {
    if n == 0 then 0
    else
      LateArrivals(actions, created, n - 1) +
      if actions[n - 1].Enqueue? && actions[n - 1].created <= created then 1 else 0
  }

  /** No update of a row gets lost and the process does not die. */
  ghost predicate Works(a: Action) {
    !a.Crash? && (a.Send? ==> a.persisted)
  }

  /** No claim grows, except that an arrival brings five. */
  lemma ClaimStep(s: State, a: Action, id: Id, d: Id, created: real)
    requires Inv(s) && Enabled(s, a) && Works(a)
    ensures Claim(Next(s, a), id, d, created) <=
      if a.Enqueue? && a.id == id && a.created <= created then 5 else Claim(s, id, d, created)
  {
    hide Sound, Accounted, Notices, Picks, Sent, Early, Due;
    if a.Send? {
      ClaimSent(s, a, id, d, created);
    } else if Holds(s, id) {
      assert Next(s, a).batch == s.batch;
      assert Holds(Next(s, a), id);
    }
  }

  /** The attempt that is made was not part of a claim any more. */
  lemma ClaimSent(s: State, a: Action, id: Id, d: Id, created: real)
    requires Inv(s) && Enabled(s, a) && a.Send? && a.persisted
    ensures Claim(Next(s, a), id, d, created) <= Claim(s, id, d, created)
  {
    hide Sound, Accounted, Notices, Sent, Early, Due;
    var (x, copy) := s.batch[0];
    assert InBatch(s, x, copy);
    if id == x {
      assert Holds(s, x);
    } else if Holds(s, id) {
      var i :| 0 <= i < |s.batch| && s.batch[i].0 == id;
      assert Next(s, a).batch[i - 1].0 == id;
    }
  }

  /** A sweep that passes over `d` takes one attempt from each delivery it picks. */
  lemma ClaimPicked(s: State, a: Action, id: Id, d: Id)
    requires Inv(s) && Enabled(s, a) && PassesOver(s, a, d)
    ensures Claim(Next(s, a), id, d, s.rows[d].created)
      + (if id in a.picked then 1 else 0) <= Claim(s, id, d, s.rows[d].created)
  {
    if id in a.picked {
      var i :| 0 <= i < |a.picked| && a.picked[i] == id;
      assert Sound(s.rows[id]);
      assert Next(s, a).batch[i].0 == id;
    }
  }

  /** How many ids below `n` are picked. */
  ghost function CountPicked(picked: seq<Id>, n: nat): nat {
    if n == 0 then 0 else CountPicked(picked, n - 1) + if n - 1 in picked then 1 else 0
  }

  lemma {:induction false} CountPickedAll(picked: seq<Id>, n: nat)
    requires forall i, j :: 0 <= i < j < |picked| ==> picked[i] != picked[j]
    requires forall i :: 0 <= i < |picked| ==> picked[i] < n
    ensures CountPicked(picked, n) == |picked|
    decreases n
  {
    if |picked| == 0 {
      CountPickedNone(n);
    } else if n - 1 in picked {
      var i :| 0 <= i < |picked| && picked[i] == n - 1;
      var rest := picked[..i] + picked[i + 1..];
      CountPickedAll(rest, n - 1);
      CountPickedSame(picked, rest, n - 1);
    } else {
      assert 0 < n by {
        assert picked[0] < n;
      }
      CountPickedAll(picked, n - 1);
    }
  }

  lemma {:induction false} CountPickedNone(n: nat)
    ensures CountPicked([], n) == 0
  {
    if 0 < n {
      CountPickedNone(n - 1);
    }
  }

  lemma {:induction false} CountPickedSame(a: seq<Id>, b: seq<Id>, n: nat)
    requires forall x :: x < n ==> (x in a <==> x in b)
    ensures CountPicked(a, n) == CountPicked(b, n)
  {
    if 0 < n {
      CountPickedSame(a, b, n - 1);
    }
  }

  lemma {:induction false} ClaimsStep(s: State, a: Action, n: nat, d: Id, created: real)
    requires Inv(s) && Enabled(s, a) && Works(a)
    ensures Claims(Next(s, a), n, d, created)
      <= Claims(s, n, d, created) + if a.Enqueue? && a.id < n && a.created <= created then 5 else 0
  {
    hide Claim, Inv, Enabled, Next, Works;
    if 0 < n {
      ClaimsStep(s, a, n - 1, d, created);
      ClaimStep(s, a, n - 1, d, created);
    }
  }

  lemma {:induction false} ClaimsPicked(s: State, a: Action, n: nat, d: Id)
    requires Inv(s) && Enabled(s, a) && PassesOver(s, a, d)
    ensures Claims(Next(s, a), n, d, s.rows[d].created) + CountPicked(a.picked, n) <= Claims(s, n, d, s.rows[d].created)
  {
    if 0 < n {
      ClaimsPicked(s, a, n - 1, d);
      ClaimPicked(s, a, n - 1, d);
    }
  }

  /** A row keeps its creation time for as long as it lives, and no deleted row comes back. */
  ghost predicate Created(s: State, d: Id, created: real) {
    d in s.history && (d in s.rows ==> s.rows[d].created == created)
  }

  lemma CreatedStep(s: State, a: Action, d: Id, created: real)
    requires Inv(s) && Enabled(s, a) && Created(s, d, created)
    ensures Created(Next(s, a), d, created)
  {
    if a.Send? {
      assert InBatch(s, s.batch[0].0, s.batch[0].1);
    }
  }

  ghost predicate AllWork(actions: seq<Action>) {
    forall i :: 0 <= i < |actions| ==> Works(actions[i])
  }

  ghost predicate IdsBelow(run: seq<State>, n: nat) {
    forall i, id :: 0 <= i < |run| && id in run[i].history ==> id < n
  }

  /**
   The sweeps that pass over `d` are paid for by attempts of deliveries ahead of it:
   ten each, out of five for every such delivery.
   */
  lemma {:induction false} StarvationBudget(run: seq<State>, actions: seq<Action>, d: Id, created: real, n: nat, m: nat)
    requires IsRun(run, actions) && Inv(run[0]) && AllWork(actions) && IdsBelow(run, n) && m <= |actions|
    requires Created(run[0], d, created)
    ensures Created(run[m], d, created)
    ensures 10 * Passes(run, actions, d, m) + Claims(run[m], n, d, created)
      <= Claims(run[0], n, d, created) + 5 * LateArrivals(actions, created, m)
  {
    if 0 < m {
      var s, a := run[m - 1], actions[m - 1];
      StarvationBudget(run, actions, d, created, n, m - 1);
      RunKeepsInv(run, actions, m - 1);
      assert Steps(run, actions, m - 1) && Works(a);
      hide Claims, Inv, Next;
      CreatedStep(s, a, d, created);
      if PassesOver(s, a, d) {
        ClaimsPicked(s, a, n, d);
        PickedBelow(run, m - 1, a.picked, n);
        CountPickedAll(a.picked, n);
      } else {
        ClaimsStep(s, a, n, d, created);
      }
    }
  }

  lemma PickedBelow(run: seq<State>, i: nat, picked: seq<Id>, n: nat)
    requires IdsBelow(run, n) && i < |run| && Inv(run[i]) && Picks(run[i].rows, run[i].clock, picked)
    ensures forall k :: 0 <= k < |picked| ==> picked[k] < n
  {
    forall k | 0 <= k < |picked|
      ensures picked[k] < n
    {
      assert picked[k] in run[i].history;
    }
  }

  /** The pending deliveries that are not younger than `d`. */
  function OlderPending(rows: map<Id, Delivery>, d: Id): set<Id>
    requires d in rows
  {
    set id | id in rows && id != d && rows[id].created <= rows[d].created && rows[id].status == Pending
  }

  lemma {:induction false} PendingAheadIsSize(s: State, n: nat, d: Id)
    requires d in s.rows && forall id :: id in s.rows ==> id < n
    ensures PendingAhead(s, n, d, s.rows[d].created) == |OlderPending(s.rows, d)|
  {
    PendingAheadMembers(s, n, d);
    MembersIsSize(OlderPending(s.rows, d), n);
  }

  lemma {:induction false} PendingAheadMembers(s: State, n: nat, d: Id)
    requires d in s.rows
    ensures PendingAhead(s, n, d, s.rows[d].created) == Members(OlderPending(s.rows, d), n)
  {
    if 0 < n {
      PendingAheadMembers(s, n - 1, d);
    }
  }

  /** A bound on the ids of a run. */
  lemma {:induction false} SomeBound(run: seq<State>) returns (n: nat)
    ensures IdsBelow(run, n)
  {
    n := 0;
    if run != [] {
      var last := |run| - 1;
      var m := SomeBound(run[..last]);
      var k := BoundOf(run[last].history.Keys);
      n := if m < k then k else m;
      forall i, id | 0 <= i < |run| && id in run[i].history
        ensures id < n
      {
        if i < last {
          assert run[..last][i] == run[i];
        }
      }
    }
  }

  /**
   With k older deliveries pending now (or still arriving), a due delivery is passed
   over by at most floor(5k / 10) sweeps.
   */
  lemma StarvationBound(run: seq<State>, actions: seq<Action>, d: Id)
    requires IsRun(run, actions) && Inv(run[0]) && AllWork(actions) && d in run[0].rows
    ensures var k := |OlderPending(run[0].rows, d)| + LateArrivals(actions, run[0].rows[d].created, |actions|);
      Passes(run, actions, d, |actions|) <= 5 * k / 10
  {
    var created := run[0].rows[d].created;
    var n := SomeBound(run);
    StarvationBudget(run, actions, d, created, n, |actions|);
    ClaimsAtMostFive(run[0], n, d, created);
    PendingAheadIsSize(run[0], n, d);
  }

  // ----- how many posts a set of deliveries can take -----

  /** Attempts still owed to a delivery; one that was deleted while in the worker's hands is posted once more. */
  ghost function Duty(s: State, id: Id): nat {
    if id in s.rows then Remaining(s.rows, id) else if Holds(s, id) then 1 else 0
  }

  ghost function Duties(s: State, ids: set<Id>, n: nat): nat {
    if n == 0 then 0 else Duties(s, ids, n - 1) + if n - 1 in ids then Duty(s, n - 1) else 0
  }

  ghost function Members(ids: set<Id>, n: nat): nat {
    if n == 0 then 0 else Members(ids, n - 1) + if n - 1 in ids then 1 else 0
  }

  ghost predicate SendsTo(s: State, a: Action, ids: set<Id>) {
    a.Send? && s.batch != [] && s.batch[0].0 in ids
  }

  /** Posts made to deliveries of the set. */
  ghost function Posts(run: seq<State>, actions: seq<Action>, ids: set<Id>, m: nat): nat
    requires m <= |actions| && m <= |run|
  {
    if m == 0 then 0 else Posts(run, actions, ids, m - 1) + if SendsTo(run[m - 1], actions[m - 1], ids) then 1 else 0
  }

  lemma DutyStep(s: State, a: Action, id: Id)
    requires Inv(s) && Enabled(s, a) && Works(a) && id in s.history
    ensures Duty(Next(s, a), id) + (if SendsTo(s, a, {id}) then 1 else 0) <= Duty(s, id)
  {
    hide Accounted, Notices, Sent, Early, Due;
    if a.Send? {
      DutySent(s, a, id);
    } else if Holds(s, id) {
      assert Next(s, a).batch == s.batch;
      var i :| 0 <= i < |s.batch| && s.batch[i].0 == id;
      assert InBatch(s, s.batch[i].0, s.batch[i].1);
      assert id in s.rows ==> Sound(s.rows[id]);
    }
  }

  lemma DutySent(s: State, a: Action, id: Id)
    requires Inv(s) && Enabled(s, a) && a.Send? && a.persisted && id in s.history
    ensures Duty(Next(s, a), id) + (if SendsTo(s, a, {id}) then 1 else 0) <= Duty(s, id)
  {
    hide Accounted, Notices, Sent, Early, Due;
    var t := Next(s, a);
    var (x, copy) := s.batch[0];
    assert InBatch(s, x, copy);
    if id == x {
      assert Holds(s, x);
      assert x in s.rows ==> Sound(s.rows[x]);
      assert forall i :: 0 <= i < |t.batch| ==> t.batch[i] == s.batch[i + 1];
      assert !Holds(t, x);
    } else if Holds(t, id) {
      var i :| 0 <= i < |t.batch| && t.batch[i].0 == id;
      assert s.batch[i + 1].0 == id;
    }
  }

  lemma {:induction false} DutiesStep(s: State, a: Action, ids: set<Id>, n: nat)
    requires Inv(s) && Enabled(s, a) && Works(a) && ids <= s.history.Keys
    ensures Duties(Next(s, a), ids, n) + (if SendsTo(s, a, ids) && s.batch[0].0 < n then 1 else 0) <= Duties(s, ids, n)
  {
    hide Duty, Inv, Enabled, Next, Works;
    if 0 < n {
      DutiesStep(s, a, ids, n - 1);
      if n - 1 in ids {
        DutyStep(s, a, n - 1);
      }
    }
  }

  /** Posts to a set of deliveries are paid for by the attempts its members have left. */
  lemma {:induction false} PostBudget(run: seq<State>, actions: seq<Action>, ids: set<Id>, n: nat, m: nat)
    requires IsRun(run, actions) && Inv(run[0]) && AllWork(actions) && m <= |actions|
    requires ids <= run[0].history.Keys && forall id :: id in ids ==> id < n
    ensures ids <= run[m].history.Keys
    ensures Posts(run, actions, ids, m) + Duties(run[m], ids, n) <= Duties(run[0], ids, n)
  {
    if 0 < m {
      var s, a := run[m - 1], actions[m - 1];
      PostBudget(run, actions, ids, n, m - 1);
      RunKeepsInv(run, actions, m - 1);
      assert Steps(run, actions, m - 1) && Works(a);
      assert s.history.Keys <= run[m].history.Keys;
      hide Duties, Inv, Next;
      DutiesStep(s, a, ids, n);
    }
  }

  lemma {:induction false} DutiesAtMostFive(s: State, ids: set<Id>, n: nat)
    ensures Duties(s, ids, n) <= 5 * Members(ids, n)
    ensures Duties(s, ids, n) == 0 ==> forall id :: id in ids && id < n && id in s.rows ==> Remaining(s.rows, id) == 0
  {
    if 0 < n {
      DutiesAtMostFive(s, ids, n - 1);
    }
  }

  lemma {:induction false} MembersIsSize(ids: set<Id>, n: nat)
    requires forall id :: id in ids ==> id < n
    ensures Members(ids, n) == |ids|
  {
    if n == 0 {
      assert ids == {};
    } else {
      MembersIsSize(ids - {n - 1}, n - 1);
      MembersWithout(ids, n - 1, n - 1);
      if n - 1 in ids {
        SubsetSize({n - 1}, ids);
      } else {
        assert ids - {n - 1} == ids;
      }
    }
  }

  lemma {:induction false} MembersWithout(ids: set<Id>, x: Id, n: nat)
    requires n <= x
    ensures Members(ids - {x}, n) == Members(ids, n)
  {
    if 0 < n {
      MembersWithout(ids, x, n - 1);
    }
  }

  /** A set of deliveries takes at most five posts a member, and after that many all of them are terminal or gone. */
  lemma FivePostsEach(run: seq<State>, actions: seq<Action>, ids: set<Id>)
    requires IsRun(run, actions) && Inv(run[0]) && AllWork(actions) && ids <= run[0].history.Keys
    ensures Posts(run, actions, ids, |actions|) <= 5 * |ids|
    ensures Posts(run, actions, ids, |actions|) == 5 * |ids| ==>
      forall id :: id in ids && id in run[|actions|].rows ==> run[|actions|].rows[id].status != Pending
  {
    var n := BoundOf(ids);
    MembersIsSize(ids, n);
    PostBudget(run, actions, ids, n, |actions|);
    DutiesAtMostFive(run[0], ids, n);
    DutiesAtMostFive(run[|actions|], ids, n);
    RunKeepsInv(run, actions, |actions|);
    forall id | id in ids && id in run[|actions|].rows && Posts(run, actions, ids, |actions|) == 5 * |ids|
      ensures run[|actions|].rows[id].status != Pending
    {
      assert Sound(run[|actions|].rows[id]);
    }
  }
}
