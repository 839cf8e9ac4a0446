/**
 The run and tier loop of a job and the status derived from it (processJob and
 deriveStatus in internal/job/manager.go). A tier is an attempt that succeeds
 or returns an error.
 */
module JobOutcome {
  import opened Wrappers
  import opened Ordering

  datatype Status = Completed | Partial | Failed

  /** The error column: an error of a tier, or the summary of a partial job. */
  datatype Message =
    | Plain(error: string)
    | PartialSummary(clean: int, total: int, failingTiers: seq<string>, last: Option<string>)

  /** The tiers in the order in which a run attempts them. */
  const TIERS := ["network", "browser", "vitals", "lighthouse"]

  predicate HasTier(tiers: seq<string>, name: string) {
    if tiers == [] then name == "network" else "all" in tiers || name in tiers
  }

  function Selected(tiers: seq<string>, names: seq<string>): (s: seq<string>)
    ensures forall t :: t in s <==> t in names && HasTier(tiers, t)
  {
    if names == [] then []
    else Selected(tiers, names[..|names| - 1]) + if HasTier(tiers, names[|names| - 1]) then [names[|names| - 1]] else []
  }

  /** The tiers a job attempts in each of its runs. */
  function Attempted(tiers: seq<string>): seq<string> {
    Selected(tiers, TIERS)
  }

  ghost function Only(tiers: seq<string>, name: string): seq<string> {
    if HasTier(tiers, name) then [name] else []
  }

  lemma AttemptedInOrder(tiers: seq<string>)
    ensures Attempted(tiers) ==
      Only(tiers, "network") + Only(tiers, "browser") + Only(tiers, "vitals") + Only(tiers, "lighthouse")
  {
    assert Selected(tiers, []) == [];
    hide Selected, Only;
    SelectedAppend(tiers, [], "network");
    SelectedAppend(tiers, ["network"], "browser");
    SelectedAppend(tiers, ["network", "browser"], "vitals");
    SelectedAppend(tiers, ["network", "browser", "vitals"], "lighthouse");
    var one, two := ["network"], ["network", "browser"];
    assert [] + ["network"] == one && one + ["browser"] == two;
    assert two + ["vitals"] == ["network", "browser", "vitals"];
    assert ["network", "browser", "vitals"] + ["lighthouse"] == TIERS;
    assert [] + Only(tiers, "network") == Only(tiers, "network");
  }

  lemma SelectedAppend(tiers: seq<string>, names: seq<string>, name: string)
    ensures Selected(tiers, names + [name]) == Selected(tiers, names) + Only(tiers, name)
  {
    assert (names + [name])[..|names|] == names;
  }

  ghost function IfNamed(tiers: seq<string>, name: string): seq<string> {
    if name in tiers then [name] else []
  }

  /** The tiers of a job: "network" if it names none, all four in their order for "all", else those it names. */
  lemma TiersOfJob(tiers: seq<string>)
    ensures tiers == [] ==> Attempted(tiers) == ["network"]
    ensures "all" in tiers ==> Attempted(tiers) == ["network", "browser", "vitals", "lighthouse"]
    ensures tiers != [] && "all" !in tiers ==>
      Attempted(tiers) ==
      IfNamed(tiers, "network") + IfNamed(tiers, "browser") + IfNamed(tiers, "vitals") + IfNamed(tiers, "lighthouse")
  {
    hide Selected;
    AttemptedInOrder(tiers);
  }

  /** What happens when run `i` attempts a tier: `None` is success. */
  type Attempts = (int, string) -> Option<string>

  ghost predicate Clean(names: seq<string>, attempt: Attempts, i: int) {
    forall t :: t in names ==> attempt(i, t).None?
  }

  ghost predicate AllFail(names: seq<string>, attempt: Attempts, i: int) {
    forall t :: t in names ==> attempt(i, t).Some?
  }

  ghost function CleanRuns(names: seq<string>, attempt: Attempts, runs: nat): (c: nat)
    ensures c <= runs
    ensures c == runs <==> forall i :: 1 <= i <= runs ==> Clean(names, attempt, i)
  {
    if runs == 0 then 0 else CleanRuns(names, attempt, runs - 1) + if Clean(names, attempt, runs) then 1 else 0
  }

  ghost function FailedRuns(names: seq<string>, attempt: Attempts, runs: nat): (c: nat)
    ensures c <= runs
    ensures c == runs <==> forall i :: 1 <= i <= runs ==> AllFail(names, attempt, i)
  {
    if runs == 0 then 0 else FailedRuns(names, attempt, runs - 1) + if AllFail(names, attempt, runs) then 1 else 0
  }

  ghost predicate EverFails(attempt: Attempts, runs: int, t: string) {
    exists i :: 1 <= i <= runs && attempt(i, t).Some?
  }

  /** The results of all attempts in the order they are made, up to tier `n` of run `i`. */
  ghost function Log(names: seq<string>, attempt: Attempts, i: nat, n: nat): seq<Option<string>>
    requires n <= |names|
    decreases i, n
  {
    if i == 0 then []
    else if n == 0 then Log(names, attempt, i - 1, |names|)
    else Log(names, attempt, i, n - 1) + [attempt(i, names[n - 1])]
  }

  /** The last entry that is an error. */
  ghost function LastError(log: seq<Option<string>>): (e: Option<string>)
    ensures e.None? <==> None == e && forall k :: 0 <= k < |log| ==> log[k].None?
    ensures e.Some? ==> exists k :: 0 <= k < |log| && log[k] == e && forall l :: k < l < |log| ==> log[l].None?
  {
    if log == [] then None
    else
      var n := |log| - 1;
      if log[n].Some? then log[n] else LastError(log[..n])
  }

  /** How many attempts of a run fail. */
  ghost function Failing(names: seq<string>, attempt: Attempts, i: int): (c: nat)
    ensures c <= |names|
    ensures c == 0 <==> Clean(names, attempt, i)
    ensures c == |names| <==> AllFail(names, attempt, i)
  {
    if names == [] then 0
    else
      var n := |names| - 1;
      assert forall t :: t in names <==> t in names[..n] || t == names[n];
      Failing(names[..n], attempt, i) + if attempt(i, names[n]).Some? then 1 else 0
  }

  /** The map keys in a deterministic order. */
  method SortedKeys(keys: set<string>) returns (sorted: seq<string>)
    ensures Ascending(sorted, Less)
    ensures forall k :: k in sorted <==> k in keys
  {
    var listed, rest := [], keys;
    while rest != {}
      invariant rest <= keys
      invariant forall k :: k in listed <==> k in keys && k !in rest
      invariant forall i, j :: 0 <= i < j < |listed| ==> listed[i] != listed[j]
    {
      var k :| k in rest;
      rest := rest - {k};
      listed := listed + [k];
    }
    LessIsStrict();
    forall i, j | 0 <= i < j < |listed|
      ensures Less(listed[i], listed[j]) || Less(listed[j], listed[i])
    {
      LessIsTotal(listed[i], listed[j]);
    }
    SortByAscends(listed, Less);
    sorted := SortBy(listed, Less);
    forall k
      ensures k in sorted <==> k in keys
    {
      assert k in sorted <==> k in multiset(sorted);
      assert k in listed <==> k in multiset(listed);
    }
  }

  lemma LessIsStrict()
    ensures Strict(Less)
  {
    forall x, y | Less(x, y)
      ensures !Less(y, x)
    {
      LessIsTotal(x, y);
    }
    forall x, y, z | Less(x, y) && Less(y, z)
      ensures Less(x, z)
    {
      LessIsTransitive(x, y, z);
    }
  }

  method DeriveStatus(total: int, clean: int, failed: int, failedTiers: set<string>, lastErr: Option<string>)
    returns (status: Status, message: Option<Message>)
    ensures status.Failed? <==> 0 < total == failed
    ensures status.Failed? ==> message == if lastErr.Some? then Some(Plain(lastErr.value)) else None
    ensures status.Partial? <==> !(0 < total == failed) && clean < total
    ensures status.Partial? ==>
      && message.Some? && message.value.PartialSummary?
      && message.value == PartialSummary(clean, total, message.value.failingTiers, lastErr)
      && Ascending(message.value.failingTiers, Less)
      && forall t :: t in message.value.failingTiers <==> t in failedTiers
    ensures status.Completed? ==> message == None
  {
    if 0 < total && failed == total {
      if lastErr.Some? {
        return Failed, Some(Plain(lastErr.value));
      }
      return Failed, None;
    } else if clean < total {
      var failing := SortedKeys(failedTiers);
      return Partial, Some(PartialSummary(clean, total, failing, lastErr));
    } else {
      return Completed, None;
    }
  }

  function Made(runs: int): nat {
    if runs < 0 then 0 else runs
  }

  ghost predicate SomeFail(names: seq<string>, attempt: Attempts, runs: nat) {
    exists i :: 1 <= i <= runs && !Clean(names, attempt, i)
  }

  ghost predicate SomeSucceed(names: seq<string>, attempt: Attempts, runs: nat) {
    exists i :: 1 <= i <= runs && !AllFail(names, attempt, i)
  }

  /** What the outcomes of all attempts mean for the job. */
  ghost predicate Means(tiers: seq<string>, runs: int, attempt: Attempts, status: Status, message: Option<Message>) {
    var names := Attempted(tiers);
    var n := Made(runs);
    && (status == Completed <==> !SomeFail(names, attempt, n))
    && (status == Failed <==> SomeFail(names, attempt, n) && !SomeSucceed(names, attempt, n))
    && (status == Partial <==> SomeFail(names, attempt, n) && SomeSucceed(names, attempt, n))
    && (status == Completed ==> message == None)
    && (status == Failed ==> exists e :: message == Some(Plain(e)) && IsLastError(names, n, attempt, e))
    && (status == Partial ==>
      && message.Some? && message.value.PartialSummary?
      && message.value.clean == |set i | 1 <= i <= n && Clean(names, attempt, i)|
      && message.value.total == runs
      && Ascending(message.value.failingTiers, Less)
      && (forall t :: t in message.value.failingTiers <==> t in names && EverFails(attempt, n, t))
      && message.value.last.Some? && IsLastError(names, n, attempt, message.value.last.value))
  }

  /** `e` is the error of attempt m of run i, and every attempt after that one succeeds. */
  ghost predicate FailsLast(names: seq<string>, runs: nat, attempt: Attempts, i: nat, m: nat, e: string) {
    && 1 <= i <= runs && m < |names| && attempt(i, names[m]) == Some(e)
    && forall j, l :: i <= j <= runs && 0 <= l < |names| && (i < j || m < l) ==> attempt(j, names[l]).None?
  }

  ghost predicate IsLastError(names: seq<string>, runs: nat, attempt: Attempts, e: string) {
    exists i: nat, m: nat :: FailsLast(names, runs, attempt, i, m, e)
  }

  /** One run: every selected tier is attempted, whatever happened to the ones before it. */
  method RunTiers(tiers: seq<string>, i: nat, attempt: Attempts, failedBefore: set<string>, lastBefore: Option<string>)
    returns (tiersRun: nat, tiersFailed: nat, failedTiers: set<string>, lastErr: Option<string>)
    requires 1 <= i && lastBefore == LastError(Log(Attempted(tiers), attempt, i - 1, |Attempted(tiers)|))
    ensures var names := Attempted(tiers);
      && tiersRun == |names| && tiersFailed == Failing(names, attempt, i)
      && (forall t :: t in failedTiers <==> t in failedBefore || (t in names && attempt(i, t).Some?))
      && lastErr == LastError(Log(names, attempt, i, |names|))
  {
    hide *;
    tiersRun, tiersFailed, failedTiers, lastErr := 0, 0, failedBefore, lastBefore;
    ghost var done: seq<string> := [];
    TallyStart(tiers, attempt, i, failedBefore, lastBefore);
    for n := 0 to |TIERS|
      invariant SelectedSoFar(tiers, n, done)
      invariant Tally(tiers, done, attempt, i, failedBefore, tiersRun, tiersFailed, failedTiers, lastErr)
    {
      var tier := TIERS[n];
      TallyStep(tiers, n, done, attempt, i, failedBefore, tiersRun, tiersFailed, failedTiers, lastErr);
      if HasTier(tiers, tier) {
        tiersRun := tiersRun + 1;
        done := done + [tier];
        var err := attempt(i, tier);
        if err.Some? {
          tiersFailed := tiersFailed + 1;
          failedTiers := failedTiers + {tier};
          lastErr := err;
        }
      }
    }
    TallyEnd(tiers, done, attempt, i, failedBefore, tiersRun, tiersFailed, failedTiers, lastErr);
  }

  ghost predicate SelectedSoFar(tiers: seq<string>, n: nat, done: seq<string>)
    requires n <= |TIERS|
  {
    done == Selected(tiers, TIERS[..n]) && done <= Attempted(tiers)
  }

  /** What the counters of a run say once the tiers in `done` have been attempted. */
  ghost predicate Tally(tiers: seq<string>, done: seq<string>, attempt: Attempts, i: nat, failedBefore: set<string>,
    tiersRun: nat, tiersFailed: nat, failedTiers: set<string>, lastErr: Option<string>)
  {
    && 1 <= i && |done| <= |Attempted(tiers)|
    && tiersRun == |done| && tiersFailed == Failing(done, attempt, i)
    && (forall t :: t in failedTiers <==> t in failedBefore || (t in done && attempt(i, t).Some?))
    && lastErr == LastError(Log(Attempted(tiers), attempt, i, |done|))
  }

  lemma TallyStart(tiers: seq<string>, attempt: Attempts, i: nat, failedBefore: set<string>, lastBefore: Option<string>)
    requires 1 <= i && lastBefore == LastError(Log(Attempted(tiers), attempt, i - 1, |Attempted(tiers)|))
    ensures SelectedSoFar(tiers, 0, [])
    ensures Tally(tiers, [], attempt, i, failedBefore, 0, 0, failedBefore, lastBefore)
  {
    hide LastError;
    assert TIERS[..0] == [];
  }

  lemma TallyStep(tiers: seq<string>, n: nat, done: seq<string>, attempt: Attempts, i: nat, failedBefore: set<string>,
    tiersRun: nat, tiersFailed: nat, failedTiers: set<string>, lastErr: Option<string>)
    requires n < |TIERS| && SelectedSoFar(tiers, n, done)
    requires Tally(tiers, done, attempt, i, failedBefore, tiersRun, tiersFailed, failedTiers, lastErr)
    ensures var tier := TIERS[n];
      if !HasTier(tiers, tier) then SelectedSoFar(tiers, n + 1, done)
      else
        && SelectedSoFar(tiers, n + 1, done + [tier])
        && if attempt(i, tier).None? then
             Tally(tiers, done + [tier], attempt, i, failedBefore, tiersRun + 1, tiersFailed, failedTiers, lastErr)
           else Tally(tiers, done + [tier], attempt, i, failedBefore, tiersRun + 1, tiersFailed + 1,
             failedTiers + {tier}, attempt(i, tier))
  {
    hide *;
    var tier := TIERS[n];
    SelectedStep(tiers, n, done);
    if HasTier(tiers, tier) {
      TallyOneMore(tiers, tier, done, attempt, i, failedBefore, tiersRun, tiersFailed, failedTiers, lastErr);
    }
  }

  lemma TallyOneMore(tiers: seq<string>, tier: string, done: seq<string>, attempt: Attempts, i: nat,
      failedBefore: set<string>, tiersRun: nat, tiersFailed: nat, failedTiers: set<string>, lastErr: Option<string>)
    requires done + [tier] <= Attempted(tiers)
    requires Tally(tiers, done, attempt, i, failedBefore, tiersRun, tiersFailed, failedTiers, lastErr)
    ensures
      if attempt(i, tier).None? then Tally(tiers, done + [tier], attempt, i, failedBefore, tiersRun + 1, tiersFailed,
        failedTiers, lastErr)
      else Tally(tiers, done + [tier], attempt, i, failedBefore, tiersRun + 1, tiersFailed + 1, failedTiers + {tier},
        attempt(i, tier))
  {
    hide Attempted, Failing, LastError, Log;
    var names := Attempted(tiers);
    assert names[|done|] == (done + [tier])[|done|] == tier;
    FailingStep(done, tier, attempt, i);
    LogStep(names, attempt, i, |done|);
    LastErrorAppend(Log(names, attempt, i, |done|), attempt(i, tier));
  }

  lemma TallyEnd(tiers: seq<string>, done: seq<string>, attempt: Attempts, i: nat, failedBefore: set<string>,
    tiersRun: nat, tiersFailed: nat, failedTiers: set<string>, lastErr: Option<string>)
    requires SelectedSoFar(tiers, |TIERS|, done)
    requires Tally(tiers, done, attempt, i, failedBefore, tiersRun, tiersFailed, failedTiers, lastErr)
    ensures var names := Attempted(tiers);
      && tiersRun == |names| && tiersFailed == Failing(names, attempt, i)
      && (forall t :: t in failedTiers <==> t in failedBefore || (t in names && attempt(i, t).Some?))
      && lastErr == LastError(Log(names, attempt, i, |names|))
  {
    hide Selected, Failing, LastError, Log;
    assert TIERS[..|TIERS|] == TIERS;
  }

  /** What the counters of the job say after `n` runs. */
  ghost predicate Totals(tiers: seq<string>, attempt: Attempts, n: nat, clean: int, failed: int,
    failedTiers: set<string>, lastErr: Option<string>)
  {
    var names := Attempted(tiers);
    && clean == CleanRuns(names, attempt, n)
    && failed == (if names == [] then 0 else FailedRuns(names, attempt, n))
    && (forall t :: t in failedTiers <==> t in names && EverFails(attempt, n, t))
    && lastErr == LastError(Log(names, attempt, n, |names|))
  }

  lemma TotalsStart(tiers: seq<string>, attempt: Attempts)
    ensures Totals(tiers, attempt, 0, 0, 0, {}, None)
  {
    hide Attempted;
  }

  lemma TotalsStep(tiers: seq<string>, attempt: Attempts, i: nat, clean: int, failed: int, failedBefore: set<string>,
    lastBefore: Option<string>, tiersRun: nat, tiersFailed: nat, failedTiers: set<string>, lastErr: Option<string>)
    requires 1 <= i && Totals(tiers, attempt, i - 1, clean, failed, failedBefore, lastBefore)
    requires var names := Attempted(tiers);
      && tiersRun == |names| && tiersFailed == Failing(names, attempt, i)
      && (forall t :: t in failedTiers <==> t in failedBefore || (t in names && attempt(i, t).Some?))
      && lastErr == LastError(Log(names, attempt, i, |names|))
    ensures Totals(tiers, attempt, i,
      if tiersRun == 0 || tiersFailed == 0 then clean + 1 else clean,
      if 0 < tiersFailed == tiersRun then failed + 1 else failed,
      failedTiers, lastErr)
  {
    hide Attempted, LastError, Log, Failing, EverFails;
    forall t
      ensures EverFails(attempt, i, t) <==> EverFails(attempt, i - 1, t) || attempt(i, t).Some?
    {
      EverFailsStep(attempt, i, t);
    }
  }

  method ProcessRuns(tiers: seq<string>, runs: int, attempt: Attempts)
    returns (status: Status, message: Option<Message>)
    ensures Means(tiers, runs, attempt, status, message)
  {
    hide Attempted, Clean, CleanRuns, FailedRuns, Failing, EverFails, LastError, Log, Means;
    var cleanRuns, failedRuns := 0, 0;
    var failedTiers: set<string> := {};
    var lastErr: Option<string> := None;
    var i := 1;
    TotalsStart(tiers, attempt);
    while i <= runs
      invariant 1 <= i && (i <= runs + 1 || i == 1)
      invariant Totals(tiers, attempt, i - 1, cleanRuns, failedRuns, failedTiers, lastErr)
    {
      ghost var failedBefore, lastBefore := failedTiers, lastErr;
      var tiersRun, tiersFailed;
      tiersRun, tiersFailed, failedTiers, lastErr := RunTiers(tiers, i, attempt, failedTiers, lastErr);
      TotalsStep(tiers, attempt, i, cleanRuns, failedRuns, failedBefore, lastBefore, tiersRun, tiersFailed, failedTiers,
        lastErr);
      if tiersRun == 0 || tiersFailed == 0 {
        cleanRuns := cleanRuns + 1;
      } else if tiersFailed == tiersRun {
        failedRuns := failedRuns + 1;
      }
      i := i + 1;
    }
    status, message := DeriveStatus(runs, cleanRuns, failedRuns, failedTiers, lastErr);
    CountsMean(tiers, runs, attempt, cleanRuns, failedRuns, failedTiers, lastErr, status, message);
  }

  lemma EverFailsStep(attempt: Attempts, i: int, t: string)
    requires 1 <= i
    ensures EverFails(attempt, i, t) <==> EverFails(attempt, i - 1, t) || attempt(i, t).Some?
  {}

  lemma LastErrorAppend(log: seq<Option<string>>, e: Option<string>)
    ensures LastError(log + [e]) == if e.Some? then e else LastError(log)
  {
    assert (log + [e])[..|log|] == log;
  }

  /** Every attempt is in the log, and every entry is an attempt. */
  lemma {:induction false} LogIsComplete(names: seq<string>, attempt: Attempts, i: nat, n: nat)
    requires n <= |names|
    ensures forall e :: e in Log(names, attempt, i, n) <==>
      exists j, m {:trigger attempt(j, names[m])} ::
        1 <= j <= i && 0 <= m < (if j == i then n else |names|) && attempt(j, names[m]) == e
    decreases i, n
  {
    if i == 0 {
    } else if n == 0 {
      LogIsComplete(names, attempt, i - 1, |names|);
    } else {
      LogIsComplete(names, attempt, i, n - 1);
    }
  }

  lemma FailureIsLogged(names: seq<string>, attempt: Attempts, runs: nat)
    requires SomeFail(names, attempt, runs)
    ensures LastError(Log(names, attempt, runs, |names|)).Some?
  {
    var log := Log(names, attempt, runs, |names|);
    LogIsComplete(names, attempt, runs, |names|);
    var i :| 1 <= i <= runs && !Clean(names, attempt, i);
    var m :| 0 <= m < |names| && attempt(i, names[m]).Some?;
    assert attempt(i, names[m]) in log;
  }

  /** Of the attempts up to tier n of run i, the m-th of run j is the last that fails, with the error `e`. */
  ghost predicate FailsLastUpTo(names: seq<string>, attempt: Attempts, i: nat, n: nat, j: nat, m: nat,
      e: Option<string>)
    requires n <= |names|
  {
    && 1 <= j <= i && m < (if j == i then n else |names|) && attempt(j, names[m]) == e && e.Some?
    && forall k, l ::
      j <= k <= i && 0 <= l < (if k == i then n else |names|) && (j < k || m < l) ==> attempt(k, names[l]).None?
  }

  lemma {:induction false} LastErrorAt(names: seq<string>, attempt: Attempts, i: nat, n: nat) returns (j: nat, m: nat)
    requires n <= |names|
    ensures var e := LastError(Log(names, attempt, i, n)); e.Some? ==> FailsLastUpTo(names, attempt, i, n, j, m, e)
    decreases i, n
  {
    hide LastError, FailsLastUpTo;
    j, m := 0, 0;
    if i == 0 {
      NothingLogged();
    } else if n == 0 {
      j, m := LastErrorAt(names, attempt, i - 1, |names|);
      EndOfRun(names, attempt, i, j, m);
    } else {
      LastErrorAppend(Log(names, attempt, i, n - 1), attempt(i, names[n - 1]));
      if attempt(i, names[n - 1]).Some? {
        j, m := i, n - 1;
        LastIsLast(names, attempt, i, n);
      } else {
        j, m := LastErrorAt(names, attempt, i, n - 1);
        OneMoreSucceeds(names, attempt, i, n, j, m);
      }
    }
  }

  lemma NothingLogged()
    ensures LastError([]).None?
  {}

  lemma EndOfRun(names: seq<string>, attempt: Attempts, i: nat, j: nat, m: nat)
    requires 1 <= i
    ensures forall e :: FailsLastUpTo(names, attempt, i - 1, |names|, j, m, e) ==>
      FailsLastUpTo(names, attempt, i, 0, j, m, e)
  {}

  lemma LastIsLast(names: seq<string>, attempt: Attempts, i: nat, n: nat)
    requires 1 <= i && 0 < n <= |names| && attempt(i, names[n - 1]).Some?
    ensures FailsLastUpTo(names, attempt, i, n, i, n - 1, attempt(i, names[n - 1]))
  {}

  lemma OneMoreSucceeds(names: seq<string>, attempt: Attempts, i: nat, n: nat, j: nat, m: nat)
    requires 0 < n <= |names| && attempt(i, names[n - 1]).None?
    ensures forall e :: FailsLastUpTo(names, attempt, i, n - 1, j, m, e) ==>
      FailsLastUpTo(names, attempt, i, n, j, m, e)
  {}

  lemma LoggedIsLast(names: seq<string>, attempt: Attempts, runs: nat, e: string)
    requires LastError(Log(names, attempt, runs, |names|)) == Some(e)
    ensures IsLastError(names, runs, attempt, e)
  {
    var i, m := LastErrorAt(names, attempt, runs, |names|);
    assert FailsLast(names, runs, attempt, i, m, e);
  }

  lemma {:induction false} CleanRunsAreRuns(names: seq<string>, attempt: Attempts, n: nat)
    ensures CleanRuns(names, attempt, n) == |set i | 1 <= i <= n && Clean(names, attempt, i)|
  {
    hide Clean;
    var clean := set i | 1 <= i <= n && Clean(names, attempt, i);
    if n == 0 {
      assert clean == {};
    } else {
      CleanRunsAreRuns(names, attempt, n - 1);
      var before := set i | 1 <= i <= n - 1 && Clean(names, attempt, i);
      assert clean == before + if Clean(names, attempt, n) then {n} else {};
    }
  }

  lemma LogStep(names: seq<string>, attempt: Attempts, i: nat, n: nat)
    requires 1 <= i && n <= |names|
    ensures Log(names, attempt, i, 0) == Log(names, attempt, i - 1, |names|)
    ensures n < |names| ==> Log(names, attempt, i, n + 1) == Log(names, attempt, i, n) + [attempt(i, names[n])]
  {}

  lemma CountsMean(tiers: seq<string>, runs: int, attempt: Attempts, clean: int, failed: int,
    failedTiers: set<string>, lastErr: Option<string>, status: Status, message: Option<Message>)
    requires Totals(tiers, attempt, Made(runs), clean, failed, failedTiers, lastErr)
    requires status.Failed? <==> 0 < runs == failed
    requires status.Failed? ==> message == if lastErr.Some? then Some(Plain(lastErr.value)) else None
    requires status.Partial? <==> !(0 < runs == failed) && clean < runs
    requires status.Partial? ==>
      && message.Some? && message.value.PartialSummary?
      && message.value == PartialSummary(clean, runs, message.value.failingTiers, lastErr)
      && Ascending(message.value.failingTiers, Less)
      && forall t :: t in message.value.failingTiers <==> t in failedTiers
    requires status.Completed? ==> message == None
    ensures Means(tiers, runs, attempt, status, message)
  {
    hide Selected, HasTier, Attempted, Log, LastError, CleanRuns, FailedRuns, IsLastError;
    var names, n := Attempted(tiers), Made(runs);
    CleanRunsAreRuns(names, attempt, n);
    if SomeFail(names, attempt, n) {
      FailureIsLogged(names, attempt, n);
      assert names != [];
      LoggedIsLast(names, attempt, n, lastErr.value);
    }
    if names != [] {
      assert names[0] in names && (AllFail(names, attempt, 1) ==> !Clean(names, attempt, 1));
    }
    assert clean == n <==> !SomeFail(names, attempt, n);
    assert names != [] ==> (failed == n <==> !SomeSucceed(names, attempt, n));
  }

  lemma SelectedPrefix(tiers: seq<string>, names: seq<string>, n: nat)
    requires n <= |names|
    ensures Selected(tiers, names[..n]) <= Selected(tiers, names)
  {
    if n < |names| {
      SelectedPrefix(tiers, names[..|names| - 1], n);
      assert names[..|names| - 1][..n] == names[..n];
    } else {
      assert names[..n] == names;
    }
  }

  lemma SelectedStep(tiers: seq<string>, n: nat, done: seq<string>)
    requires n < |TIERS| && SelectedSoFar(tiers, n, done)
    ensures if HasTier(tiers, TIERS[n])
      then done + [TIERS[n]] <= Attempted(tiers) && SelectedSoFar(tiers, n + 1, done + [TIERS[n]])
      else SelectedSoFar(tiers, n + 1, done)
  {
    hide HasTier;
    SelectedPrefix(tiers, TIERS, n + 1);
    assert TIERS[..n + 1][..n] == TIERS[..n];
  }

  lemma FailingStep(names: seq<string>, t: string, attempt: Attempts, i: int)
    ensures Failing(names + [t], attempt, i) == Failing(names, attempt, i) + if attempt(i, t).Some? then 1 else 0
  {
    assert (names + [t])[..|names|] == names;
  }
}
