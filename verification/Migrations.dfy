/**
 The schema migration runner (internal/store/migrations/migrations.go). Each
 migration and its version row are committed in one transaction; a run can end
 early at any point, by an error or because the process dies.
 */
module Migrations {

  datatype Migration = Migration(version: int, sql: string)

  /** The database: the rows of the version table, and the statements its schema was built by. */
  datatype Content = Content(versions: seq<int>, schema: seq<string>)

  const EMPTY := Content([], [])

  /** How the transaction of one migration ends. */
  datatype Outcome =
    | Commits
    | RollsBack  // an error, or the process dies before the commit
    | CommitsThenStops  // the commit is durable but the run gets no further

  /** COALESCE(MAX(version), 0). */
  function Current(versions: seq<int>): int {
    if versions == [] then 0
    else
      var n := |versions| - 1;
      if n == 0 || versions[n] >= Current(versions[..n]) then versions[n] else Current(versions[..n])
  }

  function With(c: Content, m: Migration): Content {
    Content(c.versions + [m.version], c.schema + [m.sql])
  }

  /** The migrations of the list from the i-th on, against a version read at the start of the run. */
  function RunFrom(c: Content, current: int, list: seq<Migration>, i: nat, outcome: nat -> Outcome)
    : (r: (Content, bool))
    requires i <= |list|
    decreases |list| - i
  {
    if i == |list| then (c, true)
    else if list[i].version <= current then RunFrom(c, current, list, i + 1, outcome)
    else if outcome(i) == RollsBack || list[i].version in c.versions then (c, false)
    else if outcome(i) == CommitsThenStops then (With(c, list[i]), false)
    else RunFrom(With(c, list[i]), current, list, i + 1, outcome)
  }

  /** One run of the whole list; `starts` says whether the version table could be set up and read. */
  function RunOf(c: Content, list: seq<Migration>, starts: bool, outcome: nat -> Outcome): (Content, bool) {
    if starts then RunFrom(c, Current(c.versions), list, 0, outcome) else (c, false)
  }

  // ----- what a run does, in words -----

  /** The current version is the highest one on record, and 0 when there is none. */
  lemma {:induction false} CurrentIsHighest(versions: seq<int>)
    ensures versions == [] ==> Current(versions) == 0
    ensures versions != [] ==> Current(versions) in versions
    ensures forall i :: 0 <= i < |versions| ==> versions[i] <= Current(versions)
  {
    if versions != [] {
      CurrentIsHighest(versions[..|versions| - 1]);
    }
  }

  /** The entries above a version, in list order. */
  ghost function EntriesAbove(list: seq<Migration>, current: int): seq<Migration> {
    if list == [] then []
    else
      var n := |list| - 1;
      EntriesAbove(list[..n], current) + if current < list[n].version then [list[n]] else []
  }

  /** The database after these migrations on top of what it was. */
  ghost function Applied(c: Content, ms: seq<Migration>): Content {
    Content(c.versions + seq(|ms|, i requires 0 <= i < |ms| => ms[i].version),
      c.schema + seq(|ms|, i requires 0 <= i < |ms| => ms[i].sql))
  }

  /** The database when a run has dealt with the first n entries. */
  ghost function Before(c: Content, current: int, list: seq<Migration>, n: nat): Content
    requires n <= |list|
  {
    Applied(c, EntriesAbove(list[..n], current))
  }

  /** Entry i does not stop a run: it is not above the version, or new and its transaction commits. */
  ghost predicate Proceeds(c: Content, current: int, list: seq<Migration>, i: nat, outcome: nat -> Outcome)
    requires i < |list|
  {
    current < list[i].version ==> outcome(i) == Commits && list[i].version !in Before(c, current, list, i).versions
  }

  /** A run stops with the first entry at which it cannot proceed, whose commit may have been durable. */
  ghost predicate EndsWith(c: Content, current: int, list: seq<Migration>, outcome: nat -> Outcome, end: Content,
      ok: bool)
  {
    && (ok <==> forall i: nat :: i < |list| ==> Proceeds(c, current, list, i, outcome))
    && (ok ==> end == Before(c, current, list, |list|))
    && (!ok ==> exists n: nat :: n < |list| && StopsAt(c, current, list, n, outcome, end))
  }

  ghost predicate StopsAt(c: Content, current: int, list: seq<Migration>, n: nat, outcome: nat -> Outcome, end: Content)
    requires n < |list|
  {
    && (forall i: nat :: i < n ==> Proceeds(c, current, list, i, outcome))
    && !Proceeds(c, current, list, n, outcome)
    && var durable := outcome(n) == CommitsThenStops && list[n].version !in Before(c, current, list, n).versions;
      end == Before(c, current, list, if durable then n + 1 else n)
  }

  lemma BeforeStep(c: Content, current: int, list: seq<Migration>, i: nat)
    requires i < |list|
    ensures Before(c, current, list, i + 1) ==
      if current < list[i].version then With(Before(c, current, list, i), list[i]) else Before(c, current, list, i)
  {
    assert list[..i + 1][..i] == list[..i];
    var ms := EntriesAbove(list[..i], current);
    assert ms + [] == ms;
  }

  lemma {:induction false} RunFromInWords(c: Content, current: int, list: seq<Migration>, i: nat,
      outcome: nat -> Outcome)
    requires i <= |list| && forall j: nat :: j < i ==> Proceeds(c, current, list, j, outcome)
    ensures var r := RunFrom(Before(c, current, list, i), current, list, i, outcome);
      EndsWith(c, current, list, outcome, r.0, r.1)
    decreases |list| - i
  {
    hide Before;
    var r := RunFrom(Before(c, current, list, i), current, list, i, outcome);
    if i < |list| {
      BeforeStep(c, current, list, i);
      if Proceeds(c, current, list, i, outcome) {
        RunFromInWords(c, current, list, i + 1, outcome);
        assert r == RunFrom(Before(c, current, list, i + 1), current, list, i + 1, outcome);
      } else {
        assert !r.1;
        assert StopsAt(c, current, list, i, outcome, r.0);
      }
    }
  }

  lemma RunInWords(c: Content, list: seq<Migration>, starts: bool, outcome: nat -> Outcome)
    ensures var r := RunOf(c, list, starts, outcome);
      if starts then EndsWith(c, Current(c.versions), list, outcome, r.0, r.1) else r == (c, false)
  {
    if starts {
      RunFromInWords(c, Current(c.versions), list, 0, outcome);
      assert Before(c, Current(c.versions), list, 0) == c;
    }
  }

  class Database {
    var versions: seq<int>
    var schema: seq<string>

    function View(): Content
      reads this
    {
      Content(versions, schema)
    }

    /** Applies what is pending; true when it got to the end of the list. */
    method Run(list: seq<Migration>, starts: bool, outcome: nat -> Outcome) returns (ok: bool)
      modifies this
      ensures (View(), ok) == RunOf(old(View()), list, starts, outcome)
      ensures if starts then EndsWith(old(View()), Current(old(versions)), list, outcome, View(), ok)
        else View() == old(View()) && !ok
    {
      hide EndsWith;
      RunInWords(View(), list, starts, outcome);
      if !starts {
        return false;
      }
      var currentVersion := Current(versions);
      for i := 0 to |list|
        invariant RunFrom(View(), currentVersion, list, i, outcome) == RunOf(old(View()), list, starts, outcome)
      {
        var m := list[i];
        if m.version > currentVersion {
          if outcome(i) == RollsBack || m.version in versions {
            return false;
          }
          schema, versions := schema + [m.sql], versions + [m.version];
          if outcome(i) == CommitsThenStops {
            return false;
          }
        }
      }
      return true;
    }
  }

  // ----- crash equivalence -----

  /** The migrations that a run from an empty database can ever apply. */
  function Positive(list: seq<Migration>): seq<Migration> {
    if list == [] then []
    else
      var n := |list| - 1;
      Positive(list[..n]) + if 0 < list[n].version then [list[n]] else []
  }

  ghost predicate Ascending(ms: seq<Migration>) {
    forall i, j :: 0 <= i < j < |ms| ==> ms[i].version < ms[j].version
  }

  /** The database in which exactly `ms` were applied, in this order. */
  function Built(ms: seq<Migration>): (c: Content)
    ensures |c.versions| == |c.schema| == |ms|
  {
    if ms == [] then EMPTY else With(Built(ms[..|ms| - 1]), ms[|ms| - 1])
  }

  const NO_FAULT: nat -> Outcome := _ => Commits

  /** What a single run that nothing interrupts leaves behind, starting from an empty database. */
  function Uninterrupted(list: seq<Migration>): (Content, bool) {
    RunOf(EMPTY, list, true, NO_FAULT)
  }

  /** One attempt to migrate: the list the binary of the day carries and how the run goes. */
  datatype Attempt = Attempt(list: seq<Migration>, starts: bool, outcome: nat -> Outcome)

  function After(c: Content, attempts: seq<Attempt>): Content {
    if attempts == [] then c
    else
      var n := |attempts| - 1;
      RunOf(After(c, attempts[..n]), attempts[n].list, attempts[n].starts, attempts[n].outcome).0
  }

  /** Every attempt carries a prefix of the final list: lists only ever grow at the end. */
  ghost predicate OnlyGrow(attempts: seq<Attempt>, final: seq<Migration>) {
    forall i :: 0 <= i < |attempts| ==> attempts[i].list <= final
  }

  lemma {:induction false} PositiveOfPrefix(list: seq<Migration>, i: nat)
    requires i <= |list|
    ensures Positive(list[..i]) <= Positive(list)
  {
    if i < |list| {
      PositiveOfPrefix(list[..|list| - 1], i);
      assert list[..|list| - 1][..i] == list[..i];
    } else {
      assert list[..i] == list;
    }
  }

  lemma PositiveStep(list: seq<Migration>, i: nat)
    requires i < |list|
    ensures Positive(list[..i + 1]) == Positive(list[..i]) + if 0 < list[i].version then [list[i]] else []
  {
    assert list[..i + 1][..i] == list[..i];
  }

  lemma BuiltStep(ms: seq<Migration>, k: nat)
    requires k < |ms|
    ensures Built(ms[..k + 1]) == With(Built(ms[..k]), ms[k])
  {
    assert ms[..k + 1][..k] == ms[..k];
  }

  lemma {:induction false} PositiveVersion(list: seq<Migration>, j: nat)
    requires j < |Positive(list)|
    ensures 0 < Positive(list)[j].version
  {
    if j < |Positive(list[..|list| - 1])| {
      PositiveVersion(list[..|list| - 1], j);
    }
  }

  lemma {:induction false} BuiltAt(ms: seq<Migration>, j: nat)
    requires j < |ms|
    ensures Built(ms).versions[j] == ms[j].version && Built(ms).schema[j] == ms[j].sql
  {
    if j < |ms| - 1 {
      BuiltAt(ms[..|ms| - 1], j);
    }
  }

  lemma AscendingAt(p: seq<Migration>, i: nat, j: nat)
    requires Ascending(p) && i <= j < |p|
    ensures p[i].version <= p[j].version && (i < j ==> p[i].version < p[j].version)
  {}

  /** The current version of an ascending history is its last one. */
  lemma {:induction false} CurrentOfBuilt(p: seq<Migration>, k: nat)
    requires Ascending(p) && k <= |p|
    ensures Current(Built(p[..k]).versions) == if k == 0 then 0 else p[k - 1].version
    decreases k
  {
    if 0 < k {
      CurrentOfBuilt(p, k - 1);
      CurrentStep(p, k);
    }
  }

  lemma CurrentStep(p: seq<Migration>, k: nat)
    requires Ascending(p) && 0 < k <= |p|
    requires Current(Built(p[..k - 1]).versions) == if k == 1 then 0 else p[k - 2].version
    ensures Current(Built(p[..k]).versions) == p[k - 1].version
  {
    hide Built, Ascending;
    BuiltStep(p, k - 1);
    var before, versions := Built(p[..k - 1]).versions, Built(p[..k]).versions;
    assert versions[..k - 1] == before;
    if 1 < k {
      AscendingAt(p, k - 2, k - 1);
    }
  }

  lemma NewVersion(p: seq<Migration>, n: nat)
    requires Ascending(p) && n < |p|
    ensures p[n].version !in Built(p[..n]).versions
  {
    forall j: nat | j < n
      ensures Built(p[..n]).versions[j] < p[n].version
    {
      BuiltAt(p[..n], j);
      AscendingAt(p, j, n);
    }
  }

  /**
   Where a run stands: it started with the first `k` migrations applied, has looked at
   `i` list entries, and the first `a` migrations are applied now.
   */
  ghost predicate Standing(list: seq<Migration>, k: nat, i: nat, a: nat) {
    var p := Positive(list);
    && Ascending(p) && i <= |list| && |Positive(list[..i])| <= a && k <= a <= |p|
    && (a == k || a == |Positive(list[..i])|)
  }

  /** A positive entry is the next migration that the list has in line. */
  lemma NextInLine(list: seq<Migration>, i: nat)
    requires i < |list|
    ensures var p, n := Positive(list), |Positive(list[..i])|;
      && (0 < list[i].version ==> n < |p| && p[n] == list[i])
      && |Positive(list[..i + 1])| == n + (if 0 < list[i].version then 1 else 0)
  {
    PositiveStep(list, i);
    PositiveOfPrefix(list, i + 1);
  }

  /** The next entry was applied before, or it is the next migration in line and new to the database. */
  lemma NextEntry(list: seq<Migration>, k: nat, i: nat, a: nat)
    requires i < |list| && Standing(list, k, i, a)
    ensures var p, m := Positive(list), list[i];
      if m.version <= Current(Built(p[..k]).versions) then Standing(list, k, i + 1, a)
      else
        && Standing(list, k, i + 1, a + 1)
        && m.version !in Built(p[..a]).versions
        && Built(p[..a + 1]) == With(Built(p[..a]), m)
  {
    hide Built, Current, Positive, Ascending;
    var p, n := Positive(list), |Positive(list[..i])|;
    NextInLine(list, i);
    CurrentOfBuilt(p, k);
    if 0 < k {
      PositiveVersion(list, k - 1);
    }
    if 0 < list[i].version {
      if n < k {
        AscendingAt(p, n, k - 1);
      } else {
        if 0 < k {
          AscendingAt(p, k - 1, n);
        }
        NewVersion(p, n);
        BuiltStep(p, n);
      }
    }
  }

  /** A run of a list that `final` extends moves along: it leaves a longer prefix applied. */
  lemma {:induction false} RunAdvances(list: seq<Migration>, final: seq<Migration>, k: nat, i: nat, a: nat,
      outcome: nat -> Outcome)
    returns (reached: nat)
    requires list <= final && i <= |list| && Standing(final, k, i, a)
    ensures a <= reached <= |Positive(final)|
    ensures var p := Positive(final);
      var r := RunFrom(Built(p[..a]), Current(Built(p[..k]).versions), list, i, outcome);
      && r.0 == Built(p[..reached])
      && (r.1 ==> |Positive(list)| <= reached)
      && (outcome == NO_FAULT ==> r.1)
    decreases |list| - i
  {
    StandingBounds(list, final, k, i, a);
    hide *;
    var p := Positive(final);
    var c, current := Built(p[..a]), Current(Built(p[..k]).versions);
    RunStep(c, current, list, i, outcome);
    reached := a;
    if i < |list| {
      NextEntry(final, k, i, a);
      if list[i].version <= current {
        reached := RunAdvances(list, final, k, i + 1, a, outcome);
      } else if outcome(i) != RollsBack {
        StandingBounds(list, final, k, i + 1, a + 1);
        reached := a + 1;
        if outcome(i) == Commits {
          reached := RunAdvances(list, final, k, i + 1, a + 1, outcome);
        }
      }
    }
  }

  lemma RunStep(c: Content, current: int, list: seq<Migration>, i: nat, outcome: nat -> Outcome)
    requires i <= |list|
    ensures RunFrom(c, current, list, i, outcome) ==
      if i == |list| then (c, true)
      else if list[i].version <= current then RunFrom(c, current, list, i + 1, outcome)
      else if outcome(i) == RollsBack || list[i].version in c.versions then (c, false)
      else if outcome(i) == CommitsThenStops then (With(c, list[i]), false)
      else RunFrom(With(c, list[i]), current, list, i + 1, outcome)
    ensures NO_FAULT(i) == Commits
  {}

  lemma StandingBounds(list: seq<Migration>, final: seq<Migration>, k: nat, i: nat, a: nat)
    requires list <= final && i <= |list| && Standing(final, k, i, a)
    ensures k <= a <= |Positive(final)| && (i == |list| ==> |Positive(list)| <= a)
  {
    assert i == |list| ==> final[..i] == list;
  }

  /** One run of a list that `final` extends, from a database with the first `k` migrations applied. */
  lemma RunFromPrefix(list: seq<Migration>, final: seq<Migration>, k: nat, starts: bool, outcome: nat -> Outcome)
    returns (reached: nat)
    requires list <= final && Ascending(Positive(final)) && k <= |Positive(final)|
    ensures k <= reached <= |Positive(final)|
    ensures var p := Positive(final);
      var r := RunOf(Built(p[..k]), list, starts, outcome);
      && r.0 == Built(p[..reached])
      && (r.1 ==> |Positive(list)| <= reached)
      && (starts && outcome == NO_FAULT ==> r.1)
  {
    reached := k;
    if starts {
      assert final[..0] == [];
      reached := RunAdvances(list, final, k, 0, k, outcome);
    }
  }

  /** Interrupted runs, whatever their number, leave a prefix of the list applied, each migration once and in order. */
  lemma {:induction false} InterruptedRuns(attempts: seq<Attempt>, final: seq<Migration>) returns (reached: nat)
    requires OnlyGrow(attempts, final) && Ascending(Positive(final))
    ensures reached <= |Positive(final)|
    ensures After(EMPTY, attempts) == Built(Positive(final)[..reached])
  {
    reached := 0;
    if attempts != [] {
      var last := attempts[|attempts| - 1];
      var k := InterruptedRuns(attempts[..|attempts| - 1], final);
      reached := RunFromPrefix(last.list, final, k, last.starts, last.outcome);
    }
  }

  /** The schema of a single run that nothing interrupts: every positive migration, once, in list order. */
  lemma UninterruptedBuildsAll(list: seq<Migration>)
    requires Ascending(Positive(list))
    ensures Uninterrupted(list) == (Built(Positive(list)), true)
  {
    var p := Positive(list);
    assert p[..0] == [] && p[..|p|] == p;
    var reached := RunFromPrefix(list, list, 0, true, NO_FAULT);
  }

  /** Every interruption can be repaired: one later run that succeeds gives what an uninterrupted one gives. */
  ghost predicate CrashSafe(list: seq<Migration>) {
    && Uninterrupted(list).1
    && forall attempts :: OnlyGrow(attempts, list) ==> Repaired(list, attempts)
  }

  ghost predicate Repaired(list: seq<Migration>, attempts: seq<Attempt>) {
    RunOf(After(EMPTY, attempts), list, true, NO_FAULT) == Uninterrupted(list)
  }

  // ----- why descending versions are not safe -----

  /** How many entries a run that reads version `current` would apply. */
  function CountAbove(list: seq<Migration>, current: int): nat {
    if list == [] then 0
    else
      var n := |list| - 1;
      CountAbove(list[..n], current) + if current < list[n].version then 1 else 0
  }

  lemma CountStep(list: seq<Migration>, i: nat, current: int)
    requires i < |list|
    ensures CountAbove(list[..i + 1], current) == CountAbove(list[..i], current)
      + if current < list[i].version then 1 else 0
  {
    assert list[..i + 1][..i] == list[..i];
  }

  /** Positions of an entry and a later positive one that does not exceed it. */
  lemma {:induction false} Descent(list: seq<Migration>) returns (x: nat, y: nat)
    requires !Ascending(Positive(list))
    ensures x < y < |list| && 0 < list[y].version <= list[x].version
  {
    var n := |list| - 1;
    var p := Positive(list[..n]);
    if !Ascending(p) {
      x, y := Descent(list[..n]);
    } else {
      var i :| 0 <= i < |p| && p[i].version >= list[n].version;
      x := Position(list[..n], i);
      y := n;
    }
  }

  lemma {:induction false} Position(list: seq<Migration>, i: nat) returns (x: nat)
    requires i < |Positive(list)|
    ensures x < |list| && list[x] == Positive(list)[i]
  {
    var n := |list| - 1;
    if i < |Positive(list[..n])| {
      x := Position(list[..n], i);
    } else {
      x := n;
    }
  }

  /**
   A successful run of the list is also one of its prefix `[..m]`; both add one migration per entry
   above the version read.
   */
  lemma {:induction false} RunCounts(c: Content, current: int, list: seq<Migration>, i: nat, m: nat)
    requires i <= m <= |list| && RunFrom(c, current, list, i, NO_FAULT).1
    ensures var r := RunFrom(c, current, list[..m], i, NO_FAULT);
      && r.1
      && |r.0.schema| + CountAbove(list[..i], current) == |c.schema| + CountAbove(list[..m], current)
      && (forall v :: v in c.versions ==> v in r.0.versions)
      && (forall j :: i <= j < m && current < list[j].version ==> list[j].version in r.0.versions)
    decreases m - i
  {
    if i < m {
      CountStep(list, i, current);
      RunCounts(if list[i].version <= current then c else With(c, list[i]), current, list, i + 1, m);
    }
  }

  lemma {:induction false} CurrentIsMax(versions: seq<int>, v: int)
    requires v in versions
    ensures v <= Current(versions)
  {
    var n := |versions| - 1;
    if v != versions[n] {
      CurrentIsMax(versions[..n], v);
    }
  }

  /** Entries that an earlier run of `[..m]` covered do not run again, and entry `y` never runs. */
  lemma {:induction false} RerunCounts(list: seq<Migration>, m: nat, y: nat, current: int, n: nat)
    requires m <= n <= |list| && m <= y < |list| && 0 <= current && 0 < list[y].version <= current
    requires forall j :: 0 <= j < m ==> list[j].version <= current
    ensures CountAbove(list[..n], current) + CountAbove(list[..m], 0)
      + (if y < n then 1 else 0)
      <= CountAbove(list[..n], 0)
    decreases n
  {
    hide CountAbove;
    if n == m {
      NoneAbove(list[..m], current);
    } else {
      RerunCounts(list, m, y, current, n - 1);
      CountStep(list, n - 1, current);
      CountStep(list, n - 1, 0);
    }
  }

  lemma {:induction false} NoneAbove(list: seq<Migration>, current: int)
    requires forall j :: 0 <= j < |list| ==> list[j].version <= current
    ensures CountAbove(list, current) == 0
  {
    if list != [] {
      NoneAbove(list[..|list| - 1], current);
    }
  }

  lemma DescentIsNotSafe(list: seq<Migration>, x: nat, y: nat)
    requires x < y < |list| && 0 < list[y].version <= list[x].version
    ensures !CrashSafe(list)
  {
    if Uninterrupted(list).1 {
      var m := x + 1;
      var attempts := [Attempt(list[..m], true, NO_FAULT)];
      assert attempts[..0] == [] && After(EMPTY, []) == EMPTY && Current([]) == 0;
      var middle := RunFrom(EMPTY, 0, list[..m], 0, NO_FAULT).0;
      assert After(EMPTY, attempts) == middle;
      var current := Current(middle.versions);
      assert list[..|list|] == list && list[..0] == [];
      RunCounts(EMPTY, 0, list, 0, m);
      RunCounts(EMPTY, 0, list, 0, |list|);
      forall j | 0 <= j < m
        ensures list[j].version <= current
      {
        CurrentIsMax(middle.versions, list[x].version);
        if 0 < list[j].version {
          CurrentIsMax(middle.versions, list[j].version);
        }
      }
      RerunCounts(list, m, y, current, |list|);
      if Repaired(list, attempts) {
        RunCounts(middle, current, list, 0, |list|);
      }
      assert OnlyGrow(attempts, list);
    }
  }

  /** A list is crash safe exactly when the versions that can apply at all are strictly ascending. */
  lemma CrashSafeIffAscending(list: seq<Migration>)
    ensures CrashSafe(list) <==> Ascending(Positive(list))
  {
    if Ascending(Positive(list)) {
      UninterruptedBuildsAll(list);
      forall attempts | OnlyGrow(attempts, list)
        ensures Repaired(list, attempts)
      {
        var k := InterruptedRuns(attempts, list);
        var reached := RunFromPrefix(list, list, k, true, NO_FAULT);
        assert Positive(list)[..reached] == Positive(list);
      }
    } else if CrashSafe(list) {
      var x, y := Descent(list);
      DescentIsNotSafe(list, x, y);
    }
  }
}
