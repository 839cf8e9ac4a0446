/**
 Cumulative Layout Shift as the injected page script accumulates it
 (internal/collector/vitals/collector.go): shifts without recent input are
 grouped into sessions, and the score is the worst session's sum.
 */
module LayoutShift {

  const MAX_GAP_MS: real := 1000.0
  const MAX_SPAN_MS: real := 5000.0

  datatype Shift = Shift(startTime: real, value: real, hadRecentInput: bool)

  function Sum(shifts: seq<Shift>): real {
    if shifts == [] then 0.0 else Sum(shifts[..|shifts| - 1]) + shifts[|shifts| - 1].value
  }

  /** The shifts that count. */
  function Kept(entries: seq<Shift>): seq<Shift> {
    if entries == [] then []
    else
      var last := entries[|entries| - 1];
      Kept(entries[..|entries| - 1]) + if last.hadRecentInput then [] else [last]
  }

  /** Whether shift `n` follows its predecessor closely enough. */
  predicate Close(shifts: seq<Shift>, n: nat)
    requires 0 < n < |shifts|
  {
    shifts[n].startTime - shifts[n - 1].startTime <= MAX_GAP_MS
  }

  /**
   Whether shift `n` may join the session that began with shift 0 and runs up to
   `n - 1`. A session value of 0 means no session, so a shift of value 0 opens none
   that another could join.
   */
  predicate Joins(shifts: seq<Shift>, n: nat)
    requires 0 < n < |shifts|
  {
    && shifts[0].value > 0.0
    && Close(shifts, n)
    && shifts[n].startTime - shifts[0].startTime <= MAX_SPAN_MS
  }

  /** How far the session that begins with shift 0 reaches, given that it reaches `n`. */
  function Reach(shifts: seq<Shift>, n: nat): (r: nat)
    requires 0 < n <= |shifts|
    ensures n <= r <= |shifts|
    decreases |shifts| - n
  {
    if n < |shifts| && Joins(shifts, n) then Reach(shifts, n + 1) else n
  }

  /** The greedy partition: the longest session from the front, then the rest. */
  function Sessions(shifts: seq<Shift>): (sessions: seq<seq<Shift>>)
    ensures shifts != [] ==> sessions != [] && sessions[|sessions| - 1] != []
  {
    if shifts == [] then []
    else
      var r := Reach(shifts, 1);
      [shifts[..r]] + Sessions(shifts[r..])
  }

  /** The worst session's sum; 0 when there is none. */
  function Worst(sessions: seq<seq<Shift>>): real {
    if sessions == [] then 0.0
    else
      var rest, last := Worst(sessions[..|sessions| - 1]), Sum(sessions[|sessions| - 1]);
      if last > rest then last else rest
  }

  ghost predicate NonNegative(shifts: seq<Shift>) {
    forall i :: 0 <= i < |shifts| ==> 0.0 <= shifts[i].value
  }

  /** The entries that count have scores that are not negative. */
  ghost predicate Reported(entries: seq<Shift>) {
    forall i :: 0 <= i < |entries| && !entries[i].hadRecentInput ==> 0.0 <= entries[i].value
  }

  /** What the callback's variables hold after the counted shifts `kept`. */
  ghost predicate Summarises(kept: seq<Shift>, value: real, start: real, end: real, cls: real) {
    var sessions := Sessions(kept);
    && cls == Worst(sessions)
    && if kept == [] then value == 0.0
       else
         var open := sessions[|sessions| - 1];
         && 0.0 <= value == Sum(open) && (0.0 < value <==> 0.0 < open[0].value)
         && start == open[0].startTime
         && end == open[|open| - 1].startTime
  }

  class Observer {
    var sessionValue: real
    var sessionStart: real
    var sessionEnd: real
    var cls: real
    ghost var seen: seq<Shift>  // every entry delivered so far, over all callbacks

    ghost predicate Valid()
      reads this
    {
      Summarises(Kept(seen), sessionValue, sessionStart, sessionEnd, cls)
    }

    constructor ()
      ensures Valid() && seen == [] && cls == 0.0
    {
      sessionValue, sessionStart, sessionEnd, cls := 0.0, 0.0, 0.0, 0.0;
      seen := [];
    }

    /** One callback with the entries the browser has buffered since the last one. */
    method OnEntries(entries: seq<Shift>)
      requires Valid() && Reported(entries)
      modifies this
      ensures Valid() && seen == old(seen) + entries
      ensures cls == Worst(Sessions(Kept(seen)))
    {
      hide Sum, Worst, Sessions, Reach, Kept;
      ghost var kept := Kept(seen);
      for i := 0 to |entries|
        invariant seen == old(seen) + entries[..i] && kept == Kept(seen)
        invariant Summarises(kept, sessionValue, sessionStart, sessionEnd, cls)
      {
        var e := entries[i];
        KeptAppend(seen, e);
        seen := seen + [e];
        if e.hadRecentInput {
          continue;
        }
        SummaryStep(kept, e, sessionValue, sessionStart, sessionEnd, cls);
        kept := kept + [e];
        if sessionValue > 0.0 && (e.startTime - sessionEnd > MAX_GAP_MS || e.startTime - sessionStart > MAX_SPAN_MS) {
          sessionValue := 0.0;
        }
        if sessionValue == 0.0 {
          sessionStart := e.startTime;
        }
        sessionValue := sessionValue + e.value;
        sessionEnd := e.startTime;
        if sessionValue > cls {
          cls := sessionValue;
        }
      }
    }
  }

  /** Shift k is within a second of the one before and within five of the first, and the first opened a session. */
  ghost predicate Follows(shifts: seq<Shift>, k: nat)
    requires 0 < k < |shifts|
  {
    && 0.0 < shifts[0].value
    && shifts[k].startTime - shifts[k - 1].startTime <= 1000.0
    && shifts[k].startTime - shifts[0].startTime <= 5000.0
  }

  /** A session reaches as far as its shifts follow, and no further. */
  lemma {:induction false} ReachIsMaximal(shifts: seq<Shift>, n: nat)
    requires 0 < n <= |shifts|
    ensures forall k: nat :: n <= k < Reach(shifts, n) ==> Follows(shifts, k)
    ensures Reach(shifts, n) < |shifts| ==> !Follows(shifts, Reach(shifts, n))
    decreases |shifts| - n
  {
    if n < |shifts| && Joins(shifts, n) {
      ReachIsMaximal(shifts, n + 1);
    }
  }

  /** A shift of value 0 that opens no session changes nothing. */
  lemma ZeroOpensNone(shifts: seq<Shift>)
    requires shifts != [] && shifts[0].value == 0.0
    ensures Sessions(shifts) == [shifts[..1]] + Sessions(shifts[1..])
    ensures Worst(Sessions(shifts)) == Worst(Sessions(shifts[1..]))
  {
    assert shifts[..1] == [shifts[0]];
    SumSingle(shifts[0]);
    WorstCons(shifts[..1], Sessions(shifts[1..]));
  }

  /** Shifts that follow user input make no difference. */
  lemma {:induction false} KeptWithoutInput(before: seq<Shift>, e: Shift, after: seq<Shift>)
    requires e.hadRecentInput
    ensures Kept(before + [e] + after) == Kept(before + after)
    decreases |after|
  {
    if after == [] {
      assert before + [e] + after == before + [e] && before + after == before;
      KeptAppend(before, e);
      assert Kept(before) + [] == Kept(before);
    } else {
      var n := |after| - 1;
      KeptWithoutInput(before, e, after[..n]);
      assert before + [e] + after == before + [e] + after[..n] + [after[n]];
      assert before + after == before + after[..n] + [after[n]];
      KeptAppend(before + [e] + after[..n], after[n]);
      KeptAppend(before + after[..n], after[n]);
    }
  }

  /** All others count. */
  lemma {:induction false} KeptAll(entries: seq<Shift>)
    requires forall i :: 0 <= i < |entries| ==> !entries[i].hadRecentInput
    ensures Kept(entries) == entries
  {
    if entries != [] {
      KeptAll(entries[..|entries| - 1]);
    }
  }

  /** The score is the largest sum of a session, and 0 if there is no larger one. */
  lemma {:induction false} WorstIsLargest(sessions: seq<seq<Shift>>)
    ensures 0.0 <= Worst(sessions) && forall i :: 0 <= i < |sessions| ==> Sum(sessions[i]) <= Worst(sessions)
    ensures Worst(sessions) == 0.0 || exists i :: 0 <= i < |sessions| && Sum(sessions[i]) == Worst(sessions)
  {
    hide Sum;
    if sessions != [] {
      var n := |sessions| - 1;
      WorstIsLargest(sessions[..n]);
      if Worst(sessions[..n]) != 0.0 {
        var i :| 0 <= i < n && Sum(sessions[..n][i]) == Worst(sessions[..n]);
        assert sessions[i] == sessions[..n][i];
      }
      assert forall i :: 0 <= i < n ==> sessions[i] == sessions[..n][i];
    }
  }

  lemma KeptAppend(seen: seq<Shift>, e: Shift)
    ensures Kept(seen + [e]) == Kept(seen) + if e.hadRecentInput then [] else [e]
  {
    assert (seen + [e])[..|seen|] == seen;
  }

  /** One more shift either extends the last session of the greedy partition or opens a new one. */
  lemma {:induction false} SessionsAppend(shifts: seq<Shift>, e: Shift)
    requires shifts != []
    ensures var sessions := Sessions(shifts);
      var open := sessions[|sessions| - 1];
      Sessions(shifts + [e]) ==
        if Joins(open + [e], |open|) then sessions[..|sessions| - 1] + [open + [e]]
        else sessions + [[e]]
    decreases |shifts|
  {
    var longer, r := shifts + [e], Reach(shifts, 1);
    ReachAppend(shifts, e, 1);
    if r < |shifts| {
      assert longer[..r] == shifts[..r];
      assert longer[r..] == shifts[r..] + [e];
      SessionsAppend(shifts[r..], e);
      assert Sessions(shifts) == [shifts[..r]] + Sessions(shifts[r..]);
    } else {
      assert shifts[..r] == shifts && shifts[r..] == [];
      assert Sessions(shifts) == [shifts];
      if Joins(longer, |shifts|) {
        assert longer[..|longer|] == longer && longer[|longer|..] == [];
      } else {
        assert longer[..|shifts|] == shifts && longer[|shifts|..] == [e];
        assert [e][..1] == [e] && [e][1..] == [];
      }
    }
  }

  lemma {:induction false} ReachAppend(shifts: seq<Shift>, e: Shift, n: nat)
    requires 0 < n <= |shifts|
    ensures var r := Reach(shifts, n);
      Reach(shifts + [e], n) ==
        if r < |shifts| then r
        else if Joins(shifts + [e], |shifts|) then |shifts| + 1 else |shifts|
    decreases |shifts| - n
  {
    if n < |shifts| {
      assert Joins(shifts + [e], n) == Joins(shifts, n);
      if Joins(shifts, n) {
        ReachAppend(shifts, e, n + 1);
      }
    }
  }

  /** The loop body keeps the summary when it counts one more shift. */
  lemma SummaryStep(kept: seq<Shift>, e: Shift, value: real, start: real, end: real, cls: real)
    requires Summarises(kept, value, start, end, cls)
    requires 0.0 <= e.value
    ensures var joins := value > 0.0 && !(e.startTime - end > MAX_GAP_MS || e.startTime - start > MAX_SPAN_MS);
      var value' := (if joins then value else 0.0) + e.value;
      Summarises(kept + [e], value', if joins then start else e.startTime, e.startTime,
        if value' > cls then value' else cls)
  {
    SumSingle(e);
    if kept == [] {
      SingleSession(e);
      assert kept + [e] == [e];
    } else {
      var sessions := Sessions(kept);
      var before, open := sessions[..|sessions| - 1], sessions[|sessions| - 1];
      assert sessions == before + [open];
      SessionsAppend(kept, e);
      if Joins(open + [e], |open|) {
        SumAppend(open, e);
        WorstAppend(before, open);
        WorstAppend(before, open + [e]);
      } else {
        WorstAppend(sessions, [e]);
      }
    }
  }

  lemma SumSingle(e: Shift)
    ensures Sum([e]) == e.value
  {
    SumAppend([], e);
    assert [] + [e] == [e];
  }

  lemma SingleSession(e: Shift)
    ensures Sessions([e]) == [[e]] && Worst([[e]]) == if e.value > 0.0 then e.value else 0.0
  {
    assert [e][..1] == [e] && [e][1..] == [];
    SumSingle(e);
    WorstAppend([], [e]);
    assert [] + [[e]] == [[e]];
  }

  lemma SumAppend(shifts: seq<Shift>, e: Shift)
    ensures Sum(shifts + [e]) == Sum(shifts) + e.value
  {
    assert (shifts + [e])[..|shifts|] == shifts;
  }

  lemma WorstAppend(sessions: seq<seq<Shift>>, s: seq<Shift>)
    ensures Worst(sessions + [s]) == if Sum(s) > Worst(sessions) then Sum(s) else Worst(sessions)
  {
    assert (sessions + [s])[..|sessions|] == sessions;
  }

  // ----- the score against every legal window -----

  ghost predicate InTimeOrder(shifts: seq<Shift>) {
    forall i, j :: 0 <= i <= j < |shifts| ==> shifts[i].startTime <= shifts[j].startTime
  }

  /** A stretch of consecutive shifts that could have been a session: small gaps, short span. */
  ghost predicate LegalWindow(shifts: seq<Shift>, i: nat, j: nat)
    requires i < j <= |shifts|
  {
    && shifts[j - 1].startTime - shifts[i].startTime <= 5000.0
    && forall k: nat :: i < k < j ==> shifts[k].startTime - shifts[k - 1].startTime <= 1000.0
  }

  /** No legal window adds up to more than twice the score. */
  lemma {:induction false} WindowAtMostTwice(shifts: seq<Shift>, i: nat, j: nat)
    requires NonNegative(shifts) && InTimeOrder(shifts)
    requires i < j <= |shifts| && LegalWindow(shifts, i, j)
    ensures Sum(shifts[i..j]) <= 2.0 * Worst(Sessions(shifts))
    decreases |shifts|
  {
    hide Sum, Worst, Sessions, Reach;
    var r := Reach(shifts, 1);
    ScoreOfRest(shifts);
    if r <= i {
      WindowInRest(shifts, r, i, j);
      WindowAtMostTwice(shifts[r..], i - r, j - r);
    } else if j <= r {
      PartOfPrefix(shifts, r, i, j);
    } else {
      WindowOverTwo(shifts, i, j);
    }
  }

  lemma WindowOverTwo(shifts: seq<Shift>, i: nat, j: nat)
    requires NonNegative(shifts) && InTimeOrder(shifts)
    requires shifts != [] && i < Reach(shifts, 1) < j <= |shifts| && LegalWindow(shifts, i, j)
    ensures Sum(shifts[i..j]) <= Sum(shifts[..Reach(shifts, 1)]) + Worst(Sessions(shifts[Reach(shifts, 1)..]))
  {
    hide *;
    var r := Reach(shifts, 1);
    LateWindow(shifts, i, r, j);
    var rest := shifts[r..];
    WindowInRest(shifts, r, r, j);
    ScoreOfRest(shifts);
    WindowFromFront(rest, j - r);
    PartOfPrefix(shifts, r, i, r);
    SumConcat(shifts[i..r], shifts[r..j]);
    assert shifts[i..j] == shifts[i..r] + shifts[r..j];
    assert rest[0..j - r] == rest[..j - r];
  }

  lemma LateWindow(shifts: seq<Shift>, i: nat, r: nat, j: nat)
    requires InTimeOrder(shifts) && i <= r < j <= |shifts| && LegalWindow(shifts, i, j)
    ensures LegalWindow(shifts, r, j)
  {}

  /** A legal window at the front is worth at most the score: what counts of it joins one session. */
  lemma {:induction false} WindowFromFront(shifts: seq<Shift>, j: nat)
    requires NonNegative(shifts) && InTimeOrder(shifts)
    requires 0 < j <= |shifts| && LegalWindow(shifts, 0, j)
    ensures Sum(shifts[..j]) <= Worst(Sessions(shifts))
    decreases |shifts|
  {
    hide *;
    var r := Reach(shifts, 1);
    LegalReach(shifts, j);
    ScoreOfRest(shifts);
    if j <= r {
      PartOfPrefix(shifts, r, 0, j);
      assert shifts[0..j] == shifts[..j];
    } else {
      LateWindow(shifts, 0, 1, j);
      WindowInRest(shifts, 1, 1, j);
      WindowFromFront(shifts[1..], j - 1);
      SumFromSecond(shifts, j);
    }
  }

  lemma SumFromSecond(shifts: seq<Shift>, j: nat)
    requires 0 < j <= |shifts|
    ensures Sum(shifts[..j]) == shifts[0].value + Sum(shifts[1..][..j - 1])
  {
    SumConcat([shifts[0]], shifts[1..][..j - 1]);
    SumSingle(shifts[0]);
    assert shifts[..j] == [shifts[0]] + shifts[1..][..j - 1];
  }

  lemma LegalReach(shifts: seq<Shift>, j: nat)
    requires InTimeOrder(shifts) && 0 < j <= |shifts| && LegalWindow(shifts, 0, j)
    ensures j <= Reach(shifts, 1) || (Reach(shifts, 1) == 1 && shifts[0].value <= 0.0)
  {
    ReachIsMaximal(shifts, 1);
  }

  /** The score is the first session's sum or the score of the rest, whichever is larger. */
  lemma ScoreOfRest(shifts: seq<Shift>)
    requires NonNegative(shifts) && shifts != []
    ensures var r := Reach(shifts, 1);
      && NonNegative(shifts[r..])
      && Sum(shifts[..r]) <= Worst(Sessions(shifts))
      && 0.0 <= Worst(Sessions(shifts[r..])) <= Worst(Sessions(shifts))
      && (Worst(Sessions(shifts)) == Sum(shifts[..r]) || Worst(Sessions(shifts)) == Worst(Sessions(shifts[r..])))
  {
    var r := Reach(shifts, 1);
    WorstCons(shifts[..r], Sessions(shifts[r..]));
  }

  lemma WindowInRest(shifts: seq<Shift>, r: nat, i: nat, j: nat)
    requires InTimeOrder(shifts)
    requires r <= i < j <= |shifts| && LegalWindow(shifts, i, j)
    ensures InTimeOrder(shifts[r..]) && LegalWindow(shifts[r..], i - r, j - r)
    ensures shifts[r..][i - r..j - r] == shifts[i..j]
  {
    forall k: nat | i - r < k < j - r
      ensures Close(shifts[r..], k)
    {
      assert Close(shifts, k + r);
    }
  }

  lemma PartOfPrefix(shifts: seq<Shift>, r: nat, i: nat, j: nat)
    requires NonNegative(shifts) && i <= j <= r <= |shifts|
    ensures Sum(shifts[i..j]) <= Sum(shifts[..r])
  {
    PartOfSession(shifts[..r], i, j);
    assert shifts[..r][i..j] == shifts[i..j];
  }

  // ----- the sessions a window meets -----

  ghost predicate Positive(shifts: seq<Shift>) {
    forall i :: 0 <= i < |shifts| ==> 0.0 < shifts[i].value
  }

  /** Which session of the greedy partition shift `k` is in. */
  function SessionOf(shifts: seq<Shift>, k: nat): (n: nat)
    requires k < |shifts|
    ensures n < |Sessions(shifts)| && shifts[k] in Sessions(shifts)[n]
    decreases |shifts|
  {
    var r := Reach(shifts, 1);
    if k < r then
      assert shifts[..r][k] == shifts[k];
      0
    else
      assert shifts[r..][k - r] == shifts[k];
      1 + SessionOf(shifts[r..], k - r)
  }

  /** A legal window meets at most two sessions, one right after the other. */
  lemma {:induction false} TwoSessionsOnly(shifts: seq<Shift>, i: nat, k: nat, j: nat)
    requires Positive(shifts) && InTimeOrder(shifts)
    requires i <= k < j <= |shifts| && LegalWindow(shifts, i, j)
    ensures SessionOf(shifts, i) <= SessionOf(shifts, k) <= SessionOf(shifts, i) + 1
    decreases |shifts|
  {
    hide Sessions, Reach, LegalWindow, InTimeOrder, Joins, Close, Positive, SessionOf;
    var r := Reach(shifts, 1);
    SessionOfRest(shifts, i);
    SessionOfRest(shifts, k);
    if r <= i {
      PositiveRest(shifts, r);
      WindowInRest(shifts, r, i, j);
      TwoSessionsOnly(shifts[r..], i - r, k - r, j - r);
    } else if r <= k {
      PositiveRest(shifts, r);
      LateWindow(shifts, i, r, j);
      WindowInRest(shifts, r, r, j);
      LegalReach(shifts[r..], j - r);
      SessionOfRest(shifts[r..], k - r);
    }
  }

  lemma SessionOfRest(shifts: seq<Shift>, k: nat)
    requires k < |shifts|
    ensures var r := Reach(shifts, 1);
      SessionOf(shifts, k) == if k < r then 0 else 1 + SessionOf(shifts[r..], k - r)
  {}

  lemma PositiveRest(shifts: seq<Shift>, r: nat)
    requires Positive(shifts) && r <= |shifts|
    ensures Positive(shifts[r..])
  {}

  lemma {:induction false} PartOfSession(session: seq<Shift>, i: nat, j: nat)
    requires NonNegative(session) && i <= j <= |session|
    ensures Sum(session[i..j]) <= Sum(session)
  {
    SumConcat(session[..i], session[i..j]);
    SumConcat(session[..j], session[j..]);
    SumNonNegative(session[..i]);
    SumNonNegative(session[j..]);
    assert session[..j] == session[..i] + session[i..j];
    assert session == session[..j] + session[j..];
  }

  lemma {:induction false} SumNonNegative(shifts: seq<Shift>)
    requires NonNegative(shifts)
    ensures 0.0 <= Sum(shifts)
  {
    if shifts != [] {
      SumNonNegative(shifts[..|shifts| - 1]);
    }
  }

  lemma {:induction false} SumConcat(a: seq<Shift>, b: seq<Shift>)
    ensures Sum(a + b) == Sum(a) + Sum(b)
    decreases |b|
  {
    if b == [] {
      assert a + b == a;
    } else {
      var n := |b| - 1;
      SumConcat(a, b[..n]);
      SumAppend(a + b[..n], b[n]);
      assert a + b == a + b[..n] + [b[n]];
    }
  }

  lemma {:induction false} WorstCons(s: seq<Shift>, rest: seq<seq<Shift>>)
    ensures Worst([s] + rest) >= Worst(rest) >= 0.0
    ensures Worst([s] + rest) >= Sum(s)
    ensures Worst([s] + rest) == Worst(rest) || Worst([s] + rest) == Sum(s)
    decreases |rest|
  {
    if rest == [] {
      assert [s] + rest == [] + [s];
      WorstAppend([], s);
    } else {
      var n := |rest| - 1;
      WorstCons(s, rest[..n]);
      WorstAppend([s] + rest[..n], rest[n]);
      assert [s] + rest == [s] + rest[..n] + [rest[n]];
    }
  }

  /** The score is itself the sum of a legal window, so the best window lies between one and two scores. */
  lemma {:induction false} ScoreIsAWindow(shifts: seq<Shift>) returns (i: nat, j: nat)
    requires NonNegative(shifts) && shifts != []
    ensures i < j <= |shifts| && LegalWindow(shifts, i, j)
    ensures Sum(shifts[i..j]) == Worst(Sessions(shifts))
    decreases |shifts|
  {
    hide LegalWindow, Joins, Close, Sum, Reach;
    var r := Reach(shifts, 1);
    ScoreOfRest(shifts);
    if Worst(Sessions(shifts)) == Sum(shifts[..r]) {
      i, j := 0, r;
      SessionIsLegal(shifts);
      assert shifts[0..r] == shifts[..r];
    } else {
      SumNonNegative(shifts[..r]);
      var rest := shifts[r..];
      assert rest != [];
      var a, b := ScoreIsAWindow(rest);
      WindowOfRest(shifts, r, a, b);
      i, j := a + r, b + r;
    }
  }

  lemma SessionIsLegal(shifts: seq<Shift>)
    requires shifts != []
    ensures LegalWindow(shifts, 0, Reach(shifts, 1))
  {
    var r := Reach(shifts, 1);
    ReachIsMaximal(shifts, 1);
    assert 1 < r ==> Follows(shifts, r - 1);
    forall k: nat | 0 < k < r
      ensures shifts[k].startTime - shifts[k - 1].startTime <= 1000.0
    {
      assert Follows(shifts, k);
    }
  }

  lemma WindowOfRest(shifts: seq<Shift>, r: nat, i: nat, j: nat)
    requires r <= |shifts| && i < j <= |shifts[r..]| && LegalWindow(shifts[r..], i, j)
    ensures LegalWindow(shifts, i + r, j + r)
    ensures shifts[r..][i..j] == shifts[i + r..j + r]
  {
    forall k: nat | i + r < k < j + r
      ensures Close(shifts, k)
    {
      assert Close(shifts[r..], k - r);
    }
  }

  /** Two is the right factor: for every `eps` some page has a window of sum 2 and a score of at most 1 + 5 eps. */
  lemma FactorTwoIsTight(eps: real) returns (shifts: seq<Shift>, i: nat, j: nat)
    requires 0.0 < eps <= 1.0
    ensures NonNegative(shifts) && InTimeOrder(shifts)
    ensures i < j <= |shifts| && LegalWindow(shifts, i, j)
    ensures Sum(shifts[i..j]) == 2.0 && Worst(Sessions(shifts)) == 1.0 + 5.0 * eps
  {
    var head := [Shift(0.0, eps, false), Shift(1000.0, eps, false), Shift(2000.0, eps, false),
      Shift(3000.0, eps, false), Shift(4000.0, eps, false), Shift(5000.0, 1.0, false)];
    var e := Shift(5001.0, 1.0, false);
    hide Sum, Worst, Sessions, Reach;
    shifts, i, j := head + [e], 5, 7;
    SumSix(head);
    FullSession(head, e);
    SumSingle(e);
    SumSingle(head[5]);
    SumAppend([head[5]], e);
    assert shifts[5..7] == [head[5]] + [e];
  }

  /** A session that a further shift cannot join is followed by a session of that shift alone. */
  lemma FullSession(head: seq<Shift>, e: Shift)
    requires head != [] && 0.0 <= e.value <= Sum(head)
    requires forall k: nat :: 0 < k < |head| ==> Follows(head, k)
    requires !Follows(head + [e], |head|)
    ensures Worst(Sessions(head + [e])) == Sum(head)
  {
    var shifts, r := head + [e], Reach(head + [e], 1);
    ReachIsMaximal(shifts, 1);
    forall k: nat | 0 < k < |head|
      ensures Follows(shifts, k)
    {
      assert Follows(head, k);
    }
    assert r == |head|;
    assert shifts[..r] == head && shifts[r..] == [e];
    SingleSession(e);
    assert Sessions(shifts) == [head] + [[e]];
    WorstAppend([head], [e]);
    WorstAppend([], head);
    assert [head] == [] + [head];
    SumSingle(e);
  }

  lemma SumSix(s: seq<Shift>)
    requires |s| == 6
    ensures Sum(s) == s[0].value + s[1].value + s[2].value + s[3].value + s[4].value + s[5].value
  {
    SumAppend(s[..5], s[5]);
    SumAppend(s[..4], s[4]);
    SumAppend(s[..3], s[3]);
    SumAppend(s[..2], s[2]);
    SumAppend(s[..1], s[1]);
    SumAppend([], s[0]);
    assert s == s[..5] + [s[5]] && s[..5] == s[..4] + [s[4]] && s[..4] == s[..3] + [s[3]];
    assert s[..3] == s[..2] + [s[2]] && s[..2] == s[..1] + [s[1]] && s[..1] == [] + [s[0]];
  }
}
