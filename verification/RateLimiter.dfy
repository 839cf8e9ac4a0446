/**
 The rate limiter of the public ingest endpoint (internal/api/rum.go).

 The bucket keeps two numbers. What they are for is a statement about every
 window of the past: a call goes through exactly when, in each window that ends
 now, the admitted calls stay within the burst plus what the window refilled.
 */
module RateLimiter {

  /** One call of the limiter: when it was made and whether it was let through. */
  datatype Call = Call(time: real, admitted: bool)

  /** How many of the calls were let through. */
  function Admissions(calls: seq<Call>): nat {
    if calls == [] then 0
    else Admissions(calls[..|calls| - 1]) + if calls[|calls| - 1].admitted then 1 else 0
  }

  ghost predicate InTimeOrder(calls: seq<Call>) {
    forall i, j :: 0 <= i <= j < |calls| ==> calls[i].time <= calls[j].time
  }

  /** What the bucket earns between two moments. */
  function Earned(perSecond: real, from: real, to: real): real {
    perSecond * (to - from)
  }

  /** What the window from call `start` to time `now` has left for further calls. */
  function Spare(calls: seq<Call>, start: nat, now: real, max: real, perSecond: real): real
    requires start < |calls|
  {
    max + Earned(perSecond, calls[start].time, now) - Admissions(calls[start..]) as real
  }

  /**
   The sliding-window rule: one more call at `now` fits into the window that holds it
   alone, and into the window that starts at any earlier call.
   */
  ghost predicate FitsEveryWindow(calls: seq<Call>, now: real, max: real, perSecond: real) {
    && 1.0 <= max
    && forall start: nat :: start < |calls| ==> 1.0 <= Spare(calls, start, now, max, perSecond)
  }

  /** Call `i` was let through exactly when it fitted every window of the calls before it. */
  ghost predicate Decided(calls: seq<Call>, i: nat, max: real, perSecond: real)
    requires i < |calls|
  {
    calls[i].admitted <==> FitsEveryWindow(calls[..i], calls[i].time, max, perSecond)
  }

  ghost predicate SlidingWindowHistory(calls: seq<Call>, max: real, perSecond: real) {
    && InTimeOrder(calls)
    && forall i: nat :: i < |calls| ==> Decided(calls, i, max, perSecond)
  }

  /** `tokens` is what the tightest window has left at `now`; with no window open, the burst. */
  ghost predicate TightestWindow(calls: seq<Call>, tokens: real, now: real, max: real, perSecond: real) {
    && (forall start: nat :: start < |calls| ==> tokens <= Spare(calls, start, now, max, perSecond))
    && tokens <= max
    && (tokens == max || exists start: nat :: start < |calls| && tokens == Spare(calls, start, now, max, perSecond))
  }

  /** What the two numbers of the bucket say about the history so far. */
  ghost predicate Accounts(calls: seq<Call>, tokens: real, lastRefill: real, max: real, perSecond: real) {
    && SlidingWindowHistory(calls, max, perSecond)
    && (forall i :: 0 <= i < |calls| ==> calls[i].time <= lastRefill)
    && TightestWindow(calls, tokens, lastRefill, max, perSecond)
  }

  class TokenBucket {
    var tokens: real
    const max: real
    const perSecond: real
    var lastRefill: real
    ghost var calls: seq<Call>

    ghost predicate Valid()
      reads this
    {
      && 0.0 <= perSecond
      && Accounts(calls, tokens, lastRefill, max, perSecond)
    }

    constructor (perSecond: real, burst: real, now: real)
      requires 0.0 <= perSecond
      ensures Valid()
      ensures calls == [] && max == burst && this.perSecond == perSecond && lastRefill == now
    {
      tokens := burst;
      max := burst;
      this.perSecond := perSecond;
      lastRefill := now;
      calls := [];
    }

    /** The clock is read under the lock, so it never runs backwards between calls. */
    method Allow(now: real) returns (admitted: bool)
      requires Valid() && lastRefill <= now
      modifies this`tokens, this`lastRefill, this`calls
      ensures Valid() && lastRefill == now
      ensures admitted <==> (
        && 1.0 <= max
        && forall j: nat :: j < |old(calls)| ==>
          Admissions(old(calls)[j..]) as real + 1.0 <= max + perSecond * (now - old(calls)[j].time))
      ensures calls == old(calls) + [Call(now, admitted)]
    {
      FitsInNumbers(calls, now, max, perSecond);
      CallKeepsAccounts(calls, tokens, lastRefill, now, max, perSecond);
      tokens := tokens + Earned(perSecond, lastRefill, now);
      if max < tokens {
        tokens := max;
      }
      lastRefill := now;
      admitted := 1.0 <= tokens;
      if admitted {
        tokens := tokens - 1.0;
      }
      calls := calls + [Call(now, admitted)];
    }
  }

  /** The sliding-window rule in numbers. */
  lemma FitsInNumbers(calls: seq<Call>, now: real, max: real, perSecond: real)
    ensures FitsEveryWindow(calls, now, max, perSecond) <==> (
      && 1.0 <= max
      && forall j: nat :: j < |calls| ==>
        Admissions(calls[j..]) as real + 1.0 <= max + perSecond * (now - calls[j].time))
  {
    forall j: nat | j < |calls|
      ensures 1.0 <= Spare(calls, j, now, max, perSecond) <==>
        Admissions(calls[j..]) as real + 1.0 <= max + perSecond * (now - calls[j].time)
    {}
  }

  /** The admissions are the calls that were let through. */
  lemma {:induction false} AdmissionsAreCalls(calls: seq<Call>)
    ensures Admissions(calls) == |set i | 0 <= i < |calls| && calls[i].admitted|
  {
    var through := set i | 0 <= i < |calls| && calls[i].admitted;
    if calls == [] {
      assert through == {};
    } else {
      var n := |calls| - 1;
      var before := set i | 0 <= i < n && calls[..n][i].admitted;
      AdmissionsAreCalls(calls[..n]);
      assert through == before + if calls[n].admitted then {n} else {};
    }
  }

  /** A refill and a decision on one call keep the accounts, and the decision is the sliding-window rule. */
  lemma CallKeepsAccounts(calls: seq<Call>, before: real, last: real, now: real, max: real, perSecond: real)
    requires 0.0 <= perSecond && last <= now
    requires Accounts(calls, before, last, max, perSecond)
    ensures var t := before + Earned(perSecond, last, now);
      var tokens := if max < t then max else t;
      && (1.0 <= tokens <==> FitsEveryWindow(calls, now, max, perSecond))
      && Accounts(calls + [Call(now, 1.0 <= tokens)], tokens - (if 1.0 <= tokens then 1.0 else 0.0), now, max,
        perSecond)
  {
    var t := before + Earned(perSecond, last, now);
    var tokens := if max < t then max else t;
    RefillTracksWindows(calls, before, last, tokens, now, max, perSecond);
    AppendWindows(calls, Call(now, 1.0 <= tokens), tokens, max, perSecond);
    AppendHistory(calls, Call(now, 1.0 <= tokens), max, perSecond);
  }

  lemma EarnedAdds(perSecond: real, a: real, b: real, c: real)
    ensures Earned(perSecond, a, c) == Earned(perSecond, a, b) + Earned(perSecond, b, c)
  {}

  lemma EarnedGrows(perSecond: real, a: real, b: real, c: real)
    requires 0.0 <= perSecond && a <= b <= c
    ensures 0.0 <= Earned(perSecond, a, b) <= Earned(perSecond, a, c)
  {}

  /** Refilling moves the tightest window along with the clock. */
  lemma RefillTracksWindows(calls: seq<Call>, before: real, last: real, tokens: real, now: real, max: real,
      perSecond: real)
    requires 0.0 <= perSecond && last <= now
    requires TightestWindow(calls, before, last, max, perSecond)
    requires var t := before + Earned(perSecond, last, now); tokens == if max < t then max else t
    ensures TightestWindow(calls, tokens, now, max, perSecond)
    ensures 1.0 <= tokens <==> FitsEveryWindow(calls, now, max, perSecond)
  {
    EarnedGrows(perSecond, last, now, now);
    forall start: nat | start < |calls|
      ensures Spare(calls, start, now, max, perSecond)
        == Spare(calls, start, last, max, perSecond) + Earned(perSecond, last, now)
    {
      EarnedAdds(perSecond, calls[start].time, last, now);
    }
  }

  /** A call charges every open window and opens the window of its own. */
  lemma AppendWindows(calls: seq<Call>, c: Call, tokens: real, max: real, perSecond: real)
    requires TightestWindow(calls, tokens, c.time, max, perSecond)
    ensures TightestWindow(calls + [c], tokens - (if c.admitted then 1.0 else 0.0), c.time, max, perSecond)
  {
    var after, cost := calls + [c], if c.admitted then 1.0 else 0.0;
    forall start: nat | start <= |calls|
      ensures Admissions(after[start..]) as real == Admissions(calls[start..]) as real + cost
    {
      var tail := after[start..];
      assert tail[..|tail| - 1] == calls[start..];
    }
    assert calls[|calls|..] == [];
    assert Earned(perSecond, c.time, c.time) == 0.0;
    assert Spare(after, |calls|, c.time, max, perSecond) == max - cost;
    forall start: nat | start < |calls|
      ensures Spare(after, start, c.time, max, perSecond) == Spare(calls, start, c.time, max, perSecond) - cost
    {}
  }

  lemma AppendHistory(calls: seq<Call>, c: Call, max: real, perSecond: real)
    requires SlidingWindowHistory(calls, max, perSecond)
    requires forall i :: 0 <= i < |calls| ==> calls[i].time <= c.time
    requires c.admitted <==> FitsEveryWindow(calls, c.time, max, perSecond)
    ensures SlidingWindowHistory(calls + [c], max, perSecond)
  {
    var after := calls + [c];
    forall i: nat | i <= |calls|
      ensures Decided(after, i, max, perSecond)
    {
      assert after[..i] == calls[..i];
      assert i < |calls| ==> Decided(calls, i, max, perSecond);
      assert calls[..|calls|] == calls;
    }
  }

  lemma {:induction false} AdmissionsSplit(calls: seq<Call>, i: nat, j: nat)
    requires i <= j <= |calls|
    ensures Admissions(calls[i..]) == Admissions(calls[i..j]) + Admissions(calls[j..])
    decreases |calls| - j
  {
    if j == |calls| {
      assert calls[i..j] == calls[i..];
    } else {
      AdmissionsSplit(calls[..|calls| - 1], i, j);
      assert calls[i..][..|calls| - i - 1] == calls[..|calls| - 1][i..];
      assert calls[j..][..|calls| - j - 1] == calls[..|calls| - 1][j..];
      assert calls[..|calls| - 1][i..j] == calls[i..j];
    }
  }

  lemma LastInWindow(calls: seq<Call>, i: nat, k: nat)
    requires i <= k < |calls|
    ensures Admissions(calls[i..k + 1]) == Admissions(calls[i..k]) + if calls[k].admitted then 1 else 0
  {
    var window := calls[i..k + 1];
    assert window[..|window| - 1] == calls[i..k];
  }

  /** An admitted call keeps every window that ends with it within the burst plus the refill. */
  lemma AdmittedWindow(calls: seq<Call>, i: nat, k: nat, max: real, perSecond: real)
    requires SlidingWindowHistory(calls, max, perSecond)
    requires 0.0 <= perSecond
    requires i <= k < |calls| && calls[k].admitted
    ensures Admissions(calls[i..k + 1]) as real <= max + perSecond * (calls[k].time - calls[i].time)
  {
    LastInWindow(calls, i, k);
    assert Decided(calls, k, max, perSecond);
    if i < k {
      assert 1.0 <= Spare(calls[..k], i, calls[k].time, max, perSecond);
      assert calls[..k][i..] == calls[i..k];
    } else {
      assert calls[i..k] == [];
    }
  }

  /** Any window, whatever call it starts and ends at, admits no more than the burst plus its refill. */
  lemma {:induction false} WindowBound(calls: seq<Call>, i: nat, k: nat, max: real, perSecond: real)
    requires SlidingWindowHistory(calls, max, perSecond)
    requires 0.0 <= max && 0.0 <= perSecond
    requires i <= k < |calls|
    ensures Admissions(calls[i..k + 1]) as real <= max + perSecond * (calls[k].time - calls[i].time)
    decreases k - i
  {
    if calls[k].admitted {
      AdmittedWindow(calls, i, k, max, perSecond);
    } else {
      LastInWindow(calls, i, k);
      if i < k {
        WindowBound(calls, i, k - 1, max, perSecond);
        EarnedGrows(perSecond, calls[i].time, calls[k - 1].time, calls[k].time);
      } else {
        assert calls[i..k] == [];
      }
    }
  }

  /** The rule leaves no choice: the call times alone decide which calls go through. */
  lemma {:induction false} TimesDecide(a: seq<Call>, b: seq<Call>, max: real, perSecond: real)
    requires SlidingWindowHistory(a, max, perSecond) && SlidingWindowHistory(b, max, perSecond)
    requires |a| == |b| && forall i :: 0 <= i < |a| ==> a[i].time == b[i].time
    ensures a == b
  {
    if a != [] {
      var n := |a| - 1;
      HistoryPrefix(a, n, max, perSecond);
      HistoryPrefix(b, n, max, perSecond);
      TimesDecide(a[..n], b[..n], max, perSecond);
      assert Decided(a, n, max, perSecond) && Decided(b, n, max, perSecond);
      assert a == a[..n] + [a[n]] && b == b[..n] + [b[n]];
    }
  }

  lemma HistoryPrefix(calls: seq<Call>, n: nat, max: real, perSecond: real)
    requires SlidingWindowHistory(calls, max, perSecond) && n <= |calls|
    ensures SlidingWindowHistory(calls[..n], max, perSecond)
  {
    forall i: nat | i < n
      ensures Decided(calls[..n], i, max, perSecond)
    {
      assert Decided(calls, i, max, perSecond);
      assert calls[..n][..i] == calls[..i];
    }
  }

  /** Some choice of calls to let through that keeps every window within its bound. */
  ghost predicate KeepsEveryWindow(calls: seq<Call>, max: real, perSecond: real) {
    forall i: nat, k: nat :: i <= k < |calls| && calls[k].admitted ==>
      Admissions(calls[i..k + 1]) as real <= max + perSecond * (calls[k].time - calls[i].time)
  }

  /**
   The limiter never turns a call away needlessly: among all choices that keep every
   window within its bound, it is ahead at every moment.
   */
  lemma {:induction false} BucketIsOptimal(calls: seq<Call>, other: seq<Call>, n: nat, max: real, perSecond: real)
    requires SlidingWindowHistory(calls, max, perSecond)
    requires KeepsEveryWindow(other, max, perSecond)
    requires n <= |calls| == |other| && forall i :: 0 <= i < |calls| ==> calls[i].time == other[i].time
    ensures Admissions(other[..n]) <= Admissions(calls[..n])
    decreases n
  {
    hide KeepsEveryWindow, SlidingWindowHistory, Earned;
    if 0 < n {
      var last := n - 1;
      BucketIsOptimal(calls, other, last, max, perSecond);
      LastInWindow(calls, 0, last);
      LastInWindow(other, 0, last);
      assert calls[0..n] == calls[..n] && other[0..n] == other[..n];
      assert calls[0..last] == calls[..last] && other[0..last] == other[..last];
      if other[last].admitted && !calls[last].admitted {
        var start := FullWindow(calls, last, max, perSecond);
        var room := max + Earned(perSecond, calls[start].time, calls[last].time);
        KeptWindow(other, start, last, max, perSecond);
        BucketIsOptimal(calls, other, start, max, perSecond);
        AheadAcrossFullWindow(calls, other, start, last, room);
      }
    } else {
      assert other[..0] == [];
    }
  }

  lemma KeptWindow(calls: seq<Call>, i: nat, k: nat, max: real, perSecond: real)
    requires KeepsEveryWindow(calls, max, perSecond) && i <= k < |calls| && calls[k].admitted
    ensures Admissions(calls[i..k + 1]) as real <= max + Earned(perSecond, calls[i].time, calls[k].time)
  {}

  /** A call that was turned away met a window that had no room for it. */
  lemma FullWindow(calls: seq<Call>, last: nat, max: real, perSecond: real) returns (start: nat)
    requires SlidingWindowHistory(calls, max, perSecond)
    requires last < |calls| && !calls[last].admitted
    ensures start <= last
    ensures max + Earned(perSecond, calls[start].time, calls[last].time) < Admissions(calls[start..last]) as real + 1.0
  {
    var before, now := calls[..last], calls[last].time;
    assert Decided(calls, last, max, perSecond);
    if max < 1.0 {
      start := last;
      assert calls[last..last] == [];
    } else {
      start :| start < |before| && Spare(before, start, now, max, perSecond) < 1.0;
      SpareOf(before, start, now, max, perSecond, calls[start..last]);
    }
  }

  lemma SpareOf(calls: seq<Call>, start: nat, now: real, max: real, perSecond: real, window: seq<Call>)
    requires start < |calls| && window == calls[start..]
    ensures Spare(calls, start, now, max, perSecond)
      == max + Earned(perSecond, calls[start].time, now) - Admissions(window) as real
  {}

  lemma AheadAcrossFullWindow(calls: seq<Call>, other: seq<Call>, start: nat, last: nat, room: real)
    requires start <= last < |calls| == |other|
    requires Admissions(other[start..last + 1]) as real <= room < Admissions(calls[start..last]) as real + 1.0
    requires other[last].admitted
    requires Admissions(other[..start]) <= Admissions(calls[..start])
    ensures Admissions(other[..last]) + 1 <= Admissions(calls[..last])
  {
    LastInWindow(other, start, last);
    AdmissionsOfPrefix(calls, start, last);
    AdmissionsOfPrefix(other, start, last);
  }

  lemma AdmissionsOfPrefix(calls: seq<Call>, start: nat, last: nat)
    requires start <= last <= |calls|
    ensures Admissions(calls[..last]) == Admissions(calls[..start]) + Admissions(calls[start..last])
  {
    var prefix := calls[..last];
    AdmissionsSplit(prefix, 0, start);
    assert prefix[0..] == prefix;
    assert prefix[0..start] == calls[..start];
    assert prefix[start..] == calls[start..last];
  }
}
