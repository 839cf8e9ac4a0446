/**
 Performance budgets (internal/budget/budget.go): thresholds on metrics, judged
 on the median of the runs.
 */
module Budget {
  import opened Wrappers
  import opened Ordering
  import Stats

  const LEVEL_WARN := "warn"
  const LEVEL_ERROR := "error"
  const MAX := "max"
  const MIN := "min"

  type Metrics = map<string, real>

  datatype Assertion = Assertion(max: Option<real>, min: Option<real>, level: string)
  datatype Status = Pass | Warn | Fail
  datatype AssertionResult = AssertionResult(
    metric: string, level: string, op: string, threshold: real, actual: Option<real>, status: Status)
  datatype Evaluation = Evaluation(status: Status, assertions: seq<AssertionResult>)

  // ----- aggregation -----

  /** The values of one metric, in the order of the runs that collected it. */
  function Column(runs: seq<Metrics>, key: string): (column: seq<real>)
    ensures |column| <= |runs|
  {
    if runs == [] then []
    else
      var last := runs[|runs| - 1];
      Column(runs[..|runs| - 1], key) + if key in last then [last[key]] else []
  }

  /** A run that did not collect the metric makes no difference to its column. */
  lemma {:induction false} ColumnSkips(runs: seq<Metrics>, n: nat, key: string)
    requires n < |runs| && key !in runs[n]
    ensures Column(runs, key) == Column(runs[..n] + runs[n + 1..], key)
    decreases |runs|
  {
    var last := |runs| - 1;
    var rest := runs[..n] + runs[n + 1..];
    if n == last {
      assert rest == runs[..last];
      assert Column(rest, key) + [] == Column(rest, key);
    } else {
      ColumnSkips(runs[..last], n, key);
      assert rest[|rest| - 1] == runs[last];
      assert rest[..|rest| - 1] == runs[..last][..n] + runs[..last][n + 1..];
    }
  }

  /** If every run collected the metric, the column has its value in each of them. */
  lemma {:induction false} ColumnOfAll(runs: seq<Metrics>, key: string)
    requires forall i :: 0 <= i < |runs| ==> key in runs[i]
    ensures |Column(runs, key)| == |runs|
    ensures forall i :: 0 <= i < |runs| ==> Column(runs, key)[i] == runs[i][key]
  {
    if runs != [] {
      ColumnOfAll(runs[..|runs| - 1], key);
    }
  }

  /** What the map holds for a key; nothing when the key is absent. */
  function Entry(byKey: map<string, seq<real>>, key: string): seq<real> {
    if key in byKey then byKey[key] else []
  }

  /** The columns of all metrics that some run collected, and of no others. */
  ghost predicate AreColumns(runs: seq<Metrics>, byKey: map<string, seq<real>>) {
    && (forall key :: Entry(byKey, key) == Column(runs, key))
    && (forall key :: key in byKey ==> byKey[key] != [])
  }

  /** Gathers the columns run by run; a run's keys come in no particular order. */
  method Collect(runs: seq<Metrics>) returns (byKey: map<string, seq<real>>)
    ensures AreColumns(runs, byKey)
  {
    byKey := map[];
    for i := 0 to |runs|
      invariant AreColumns(runs[..i], byKey)
    {
      assert runs[..i + 1][..i] == runs[..i];
      var run, keys := runs[i], runs[i].Keys;
      while keys != {}
        invariant keys <= run.Keys
        invariant forall key :: Entry(byKey, key) == if key in keys then Column(runs[..i], key)
          else Column(runs[..i + 1], key)
        invariant forall key :: key in byKey ==> byKey[key] != []
      {
        var key :| key in keys;
        keys := keys - {key};
        byKey := byKey[key := Entry(byKey, key) + [run[key]]];
      }
    }
    assert runs[..|runs|] == runs;
  }

  /** The median of every collected metric. */
  ghost predicate AreMedians(runs: seq<Metrics>, medians: Metrics) {
    forall key ::
      if Column(runs, key) == [] then key !in medians
      else key in medians && medians[key] == Stats.MedianOf(Column(runs, key))
  }

  method Aggregate(runs: seq<Metrics>) returns (agg: Metrics)
    ensures AreMedians(runs, agg)
  {
    var byKey := Collect(runs);
    agg := map[];
    var keys := byKey.Keys;
    while keys != {}
      invariant keys <= byKey.Keys
      invariant agg.Keys == byKey.Keys - keys
      invariant forall key :: key in agg ==> agg[key] == Stats.MedianOf(byKey[key])
    {
      var key :| key in keys;
      keys := keys - {key};
      var median := Stats.Median(byKey[key]);
      agg := agg[key := median];
    }
    forall key
      ensures if Column(runs, key) == [] then key !in agg
        else key in agg && agg[key] == Stats.MedianOf(Column(runs, key))
    {
      assert Entry(byKey, key) == Column(runs, key);
    }
  }

  // ----- evaluation -----

  function TripStatus(level: string): Status {
    if level == LEVEL_WARN then Warn else Fail
  }

  predicate Violates(op: string, threshold: real, actual: real) {
    (op == MAX && actual > threshold) || (op == MIN && actual < threshold)
  }

  /** On the wrong side of a bound. */
  ghost predicate Beyond(op: string, threshold: real, actual: real) {
    (op == "max" && threshold < actual) || (op == "min" && actual < threshold)
  }

  /** One line of the verdict: a bound that the budget sets, judged on what was measured. */
  ghost predicate Judged(assertions: map<string, Assertion>, metrics: Metrics, r: AssertionResult) {
    && r.metric in assertions
    && var a := assertions[r.metric];
    && ((r.op == "max" && a.max == Some(r.threshold)) || (r.op == "min" && a.min == Some(r.threshold)))
    && r.level == (if a.level == "" then "error" else a.level)
    && r.actual == (if r.metric in metrics then Some(metrics[r.metric]) else None)
    && r.status ==
      if r.actual.Some? && !Beyond(r.op, r.threshold, r.actual.value) then Pass
      else if r.level == "warn" then Warn
      else Fail
  }

  /** The budget sets a bound on the metric, and the metric is missing or beyond it. */
  ghost predicate Broken(a: Assertion, metrics: Metrics, key: string) {
    || (a.max.Some? && (key in metrics ==> a.max.value < metrics[key]))
    || (a.min.Some? && (key in metrics ==> metrics[key] < a.min.value))
  }

  /** Some bound is broken whose level is `warn`, or is not. */
  ghost predicate SomeBroken(assertions: map<string, Assertion>, metrics: Metrics, warn: bool) {
    exists key ::
      key in assertions && (assertions[key].level == "warn" <==> warn) && Broken(assertions[key], metrics, key)
  }

  predicate Precedes(x: AssertionResult, y: AssertionResult) {
    Less(x.metric, y.metric) || (x.metric == y.metric && Less(x.op, y.op))
  }

  /** The worst line decides. */
  ghost predicate Overall(results: seq<AssertionResult>, status: Status) {
    && (status == Fail <==> exists i :: 0 <= i < |results| && results[i].status == Fail)
    && (status == Pass <==> forall i :: 0 <= i < |results| ==> results[i].status == Pass)
  }

  /** By metric, and the upper bound of a metric before its lower one. */
  ghost predicate LinesInOrder(results: seq<AssertionResult>) {
    forall i, j :: 0 <= i < j < |results| ==>
      || Less(results[i].metric, results[j].metric)
      || (results[i].metric == results[j].metric && results[i].op == "max" && results[j].op == "min")
  }

  lemma LinesAscend(results: seq<AssertionResult>)
    requires forall r :: r in results ==> r.op == "max" || r.op == "min"
    ensures LinesInOrder(results) <==> Ascending(results, Precedes)
  {
    assert Less("max", "min");
    LessIsTotal("max", "min");
    LessIsTotal("max", "max");
    LessIsTotal("min", "min");
    forall i, j | 0 <= i < j < |results|
      ensures Precedes(results[i], results[j]) <==>
        || Less(results[i].metric, results[j].metric)
        || (results[i].metric == results[j].metric && results[i].op == "max" && results[j].op == "min")
    {
      assert results[i] in results && results[j] in results;
    }
  }

  /** The whole verdict, without reference to any order in which it is computed. */
  ghost predicate IsVerdict(assertions: map<string, Assertion>, metrics: Metrics, eval: Evaluation) {
    && LinesInOrder(eval.assertions)
    && (forall r :: r in eval.assertions <==> Judged(assertions, metrics, r))
    && Overall(eval.assertions, eval.status)
  }

  /** No metric and bound is judged twice. */
  ghost predicate NoRepeats(results: seq<AssertionResult>) {
    forall i, j :: 0 <= i < j < |results| ==> results[i].metric != results[j].metric || results[i].op != results[j].op
  }

  method SortResults(results: seq<AssertionResult>) returns (sorted: seq<AssertionResult>)
    requires NoRepeats(results)
    ensures Ascending(sorted, Precedes) && multiset(sorted) == multiset(results)
  {
    PrecedesIsStrict();
    forall i, j | 0 <= i < j < |results|
      ensures Precedes(results[i], results[j]) || Precedes(results[j], results[i])
    {
      LessIsTotal(results[i].metric, results[j].metric);
      LessIsTotal(results[i].op, results[j].op);
    }
    SortByAscends(results, Precedes);
    sorted := SortBy(results, Precedes);
  }

  method Evaluate(assertions: map<string, Assertion>, metrics: Metrics) returns (eval: Evaluation)
    ensures IsVerdict(assertions, metrics, eval)
    ensures eval.status == Fail <==> SomeBroken(assertions, metrics, false)
    ensures eval.status == Warn <==> SomeBroken(assertions, metrics, true) && !SomeBroken(assertions, metrics, false)
  {
    hide Overall, LinesInOrder, SomeBroken;
    var results: seq<AssertionResult>, status := [], Pass;
    OverallEmpty();
    var keys := assertions.Keys;
    while keys != {}
      invariant keys <= assertions.Keys
      invariant forall r :: r in results <==> Judged(assertions, metrics, r) && r.metric !in keys
      invariant NoRepeats(results) && Overall(results, status)
    {
      var key :| key in keys;
      keys := keys - {key};
      var a := assertions[key];
      var level := a.level;
      if level == "" {
        level := LEVEL_ERROR;
      }
      var bounds := [(MAX, a.max), (MIN, a.min)];
      ghost var before := results;
      for i := 0 to |bounds|
        invariant forall r :: r in results <==>
          r in before ||
            (Judged(assertions, metrics, r) && r.metric == key && ((r.op == MAX && 0 < i) || (r.op == MIN && 1 < i)))
        invariant NoRepeats(results) && Overall(results, status)
      {
        var (op, threshold) := bounds[i];
        if threshold.None? {
          continue;
        }
        var actual := if key in metrics then Some(metrics[key]) else None;
        var tripped := actual.None? || Violates(op, threshold.value, actual.value);
        var ar := AssertionResult(key, level, op, threshold.value, actual, if tripped then TripStatus(level) else Pass);
        ghost var shorter := results;
        results := results + [ar];
        assert forall r :: r in results <==> r in shorter || r == ar;
        OverallAppend(shorter, status, ar);
        if ar.status == Fail {
          status := Fail;
        } else if ar.status == Warn && status == Pass {
          status := Warn;
        }
      }
    }
    var sorted := SortResults(results);
    OverallPermuted(results, sorted, status);
    eval := Evaluation(status, sorted);
    LinesAscend(sorted);
    StatusInWords(assertions, metrics, eval);
  }

  /** The status of a verdict, said of the budget and the metrics alone. */
  lemma StatusInWords(assertions: map<string, Assertion>, metrics: Metrics, eval: Evaluation)
    requires IsVerdict(assertions, metrics, eval)
    ensures eval.status == Fail <==> SomeBroken(assertions, metrics, false)
    ensures eval.status == Warn <==> SomeBroken(assertions, metrics, true) && !SomeBroken(assertions, metrics, false)
  {
    hide LinesInOrder;
    forall warn: bool
      ensures SomeBroken(assertions, metrics, warn) <==>
        exists i :: 0 <= i < |eval.assertions| && eval.assertions[i].status == if warn then Warn else Fail
    {
      if i :| 0 <= i < |eval.assertions| && eval.assertions[i].status == if warn then Warn else Fail {
        assert Judged(assertions, metrics, eval.assertions[i]);
        assert Broken(assertions[eval.assertions[i].metric], metrics, eval.assertions[i].metric);
      }
      if SomeBroken(assertions, metrics, warn) {
        var key :|
          key in assertions && (assertions[key].level == "warn" <==> warn) && Broken(assertions[key], metrics, key);
        var r := BrokenLine(assertions, metrics, key);
        assert r in eval.assertions;
      }
    }
  }

  /** A broken bound has a line that says so. */
  lemma BrokenLine(assertions: map<string, Assertion>, metrics: Metrics, key: string) returns (r: AssertionResult)
    requires key in assertions && Broken(assertions[key], metrics, key)
    ensures Judged(assertions, metrics, r) && r.status == if assertions[key].level == "warn" then Warn else Fail
  {
    var a := assertions[key];
    var level, status := if a.level == "" then "error" else a.level, if a.level == "warn" then Warn else Fail;
    var actual := if key in metrics then Some(metrics[key]) else None;
    if a.max.Some? && (key in metrics ==> a.max.value < metrics[key]) {
      r := AssertionResult(key, level, "max", a.max.value, actual, status);
    } else {
      r := AssertionResult(key, level, "min", a.min.value, actual, status);
    }
  }

  lemma PrecedesIsStrict()
    ensures Strict(Precedes)
  {
    forall x, y | Precedes(x, y)
      ensures !Precedes(y, x)
    {
      LessIsTotal(x.metric, y.metric);
      LessIsTotal(x.op, y.op);
    }
    forall x, y, z | Precedes(x, y) && Precedes(y, z)
      ensures Precedes(x, z)
    {
      if Less(x.metric, y.metric) && Less(y.metric, z.metric) {
        LessIsTransitive(x.metric, y.metric, z.metric);
      } else if x.metric == y.metric == z.metric {
        LessIsTransitive(x.op, y.op, z.op);
      }
    }
  }

  lemma OverallEmpty()
    ensures Overall([], Pass)
  {}

  lemma OverallAppend(results: seq<AssertionResult>, status: Status, ar: AssertionResult)
    requires Overall(results, status)
    ensures Overall(results + [ar],
      if ar.status == Fail then Fail else if ar.status == Warn && status == Pass then Warn else status)
  {
    var longer := results + [ar];
    assert longer[|results|] == ar;
    assert forall i :: 0 <= i < |results| ==> longer[i] == results[i];
  }

  lemma OverallPermuted(results: seq<AssertionResult>, sorted: seq<AssertionResult>, status: Status)
    requires multiset(results) == multiset(sorted) && Overall(results, status)
    ensures Overall(sorted, status)
    ensures forall r :: r in sorted <==> r in results
  {
    forall r
      ensures r in sorted <==> r in results
    {
      assert r in sorted <==> r in multiset(sorted);
      assert r in results <==> r in multiset(results);
    }
    assert forall i :: 0 <= i < |results| ==> results[i] in sorted;
    assert forall i :: 0 <= i < |sorted| ==> sorted[i] in results;
  }

  /** Whatever order the budget is walked in, the verdict is the same, line by line. */
  lemma VerdictIsUnique(assertions: map<string, Assertion>, metrics: Metrics, e1: Evaluation, e2: Evaluation)
    requires IsVerdict(assertions, metrics, e1) && IsVerdict(assertions, metrics, e2)
    ensures e1 == e2
  {
    PrecedesIsStrict();
    LinesAscend(e1.assertions);
    LinesAscend(e2.assertions);
    AscendingIsUnique(e1.assertions, e2.assertions, Precedes);
  }

  /** Losing a metric never makes a verdict better. */
  lemma MissingMetricNeverHelps(assertions: map<string, Assertion>, metrics: Metrics, key: string, e1: Evaluation,
      e2: Evaluation)
    requires IsVerdict(assertions, metrics, e1) && IsVerdict(assertions, metrics - {key}, e2)
    ensures e1.status == Fail ==> e2.status == Fail
    ensures e1.status == Warn ==> e2.status != Pass
  {
    StatusInWords(assertions, metrics, e1);
    StatusInWords(assertions, metrics - {key}, e2);
    assert forall x :: x in assertions && Broken(assertions[x], metrics, x) ==>
      Broken(assertions[x], metrics - {key}, x);
  }

  // ----- the majority of the runs decides -----

  ghost function Against(op: string, threshold: real): real -> bool {
    v => Beyond(op, threshold, v)
  }

  /** A bound that more than half of the collecting runs meet is passed. */
  lemma MajorityPasses(runs: seq<Metrics>, medians: Metrics, assertions: map<string, Assertion>, eval: Evaluation,
      r: AssertionResult)
    requires AreMedians(runs, medians) && IsVerdict(assertions, medians, eval) && r in eval.assertions
    requires var column := Column(runs, r.metric);
      2 * Stats.Count(column, Against(r.op, r.threshold)) < |column|
    ensures r.status == Pass
  {
    var column := Column(runs, r.metric);
    assert Judged(assertions, medians, r);
    if r.op == "max" {
      Complement(column, r.threshold);
      Stats.MedianMeets(column, Stats.AtMost(r.threshold));
    } else {
      BelowIsAgainst(column, r.threshold);
      Stats.MedianFails(column, Stats.Below(r.threshold));
    }
  }

  /** A bound that more than half of the collecting runs violate trips at its level. */
  lemma MajorityTrips(runs: seq<Metrics>, medians: Metrics, assertions: map<string, Assertion>, eval: Evaluation,
      r: AssertionResult)
    requires AreMedians(runs, medians) && IsVerdict(assertions, medians, eval) && r in eval.assertions
    requires var column := Column(runs, r.metric);
      2 * Stats.Count(column, Against(r.op, r.threshold)) > |column|
    ensures r.status == if r.level == "warn" then Warn else Fail
  {
    var column := Column(runs, r.metric);
    assert Judged(assertions, medians, r);
    if r.op == "max" {
      Complement(column, r.threshold);
      Stats.MedianFails(column, Stats.AtMost(r.threshold));
    } else {
      BelowIsAgainst(column, r.threshold);
      Stats.MedianMeets(column, Stats.Below(r.threshold));
    }
  }

  lemma {:induction false} Complement(column: seq<real>, threshold: real)
    ensures Stats.Count(column, Against("max", threshold)) + Stats.Count(column, Stats.AtMost(threshold)) == |column|
  {
    if column != [] {
      Complement(column[..|column| - 1], threshold);
    }
  }

  lemma {:induction false} BelowIsAgainst(column: seq<real>, threshold: real)
    ensures Stats.Count(column, Against("min", threshold)) == Stats.Count(column, Stats.Below(threshold))
  {
    if column != [] {
      BelowIsAgainst(column[..|column| - 1], threshold);
    }
  }

  /** Whether run `i` says of a bound what `violated` says. */
  ghost predicate Says(runs: seq<Metrics>, i: nat, r: AssertionResult, violated: bool)
    requires i < |runs|
  {
    r.metric in runs[i] && Beyond(r.op, r.threshold, runs[i][r.metric]) == violated
  }

  /** One run, whatever it measured, cannot flip a line on which all the others, two or more, agree. */
  lemma OneNoisyRunCannotFlip(
    runs: seq<Metrics>, noisy: nat, violated: bool,
    medians: Metrics, assertions: map<string, Assertion>, eval: Evaluation, r: AssertionResult)
    requires 3 <= |runs| && noisy < |runs|
    requires forall i: nat :: i < |runs| && i != noisy ==> Says(runs, i, r, violated)
    requires AreMedians(runs, medians) && IsVerdict(assertions, medians, eval) && r in eval.assertions
    ensures r.status == if !violated then Pass else if r.level == "warn" then Warn else Fail
  {
    AgreeingRuns(runs, noisy, violated, r);
    if violated {
      MajorityTrips(runs, medians, assertions, eval, r);
    } else {
      MajorityPasses(runs, medians, assertions, eval, r);
    }
  }

  lemma {:induction false} AgreeingRuns(runs: seq<Metrics>, noisy: nat, violated: bool, r: AssertionResult)
    requires forall i: nat :: i < |runs| && i != noisy ==> Says(runs, i, r, violated)
    ensures var column, agreeing := Column(runs, r.metric), |runs| - if noisy < |runs| then 1 else 0;
      var against := Stats.Count(column, Against(r.op, r.threshold));
      agreeing <= if violated then against else |column| - against
  {
    if runs != [] {
      hide Says, Stats.Count, Against, Beyond;
      var n := |runs| - 1;
      var shorter, column := runs[..n], Column(runs[..n], r.metric);
      forall i: nat | i < |shorter| && i != noisy
        ensures Says(shorter, i, r, violated)
      {
        SaysOfPrefix(runs, n, i, r, violated);
      }
      AgreeingRuns(shorter, noisy, violated, r);
      if r.metric in runs[n] {
        Stats.CountAppend(column, runs[n][r.metric], Against(r.op, r.threshold));
      } else {
        assert column + [] == column;
      }
      if n != noisy {
        LastSays(runs, r, violated);
      }
    }
  }

  lemma SaysOfPrefix(runs: seq<Metrics>, n: nat, i: nat, r: AssertionResult, violated: bool)
    requires i < n <= |runs| && Says(runs, i, r, violated)
    ensures Says(runs[..n], i, r, violated)
  {}

  lemma LastSays(runs: seq<Metrics>, r: AssertionResult, violated: bool)
    requires runs != [] && Says(runs, |runs| - 1, r, violated)
    ensures r.metric in runs[|runs| - 1]
    ensures Against(r.op, r.threshold)(runs[|runs| - 1][r.metric]) == violated
  {}

  /** A budget whose every bound is met by most of the collecting runs passes as a whole. */
  lemma MajorityVerdict(runs: seq<Metrics>, medians: Metrics, assertions: map<string, Assertion>, eval: Evaluation)
    requires AreMedians(runs, medians) && IsVerdict(assertions, medians, eval)
    requires forall r :: Judged(assertions, medians, r) ==>
      2 * Stats.Count(Column(runs, r.metric), Against(r.op, r.threshold)) < |Column(runs, r.metric)|
    ensures eval.status == Pass
  {
    forall i | 0 <= i < |eval.assertions|
      ensures eval.assertions[i].status == Pass
    {
      MajorityPasses(runs, medians, assertions, eval, eval.assertions[i]);
    }
  }
}
