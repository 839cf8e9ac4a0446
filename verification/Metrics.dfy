/**
 The metrics registry (internal/metrics/metrics.go): families of series whose
 numbers are updated in place. What they are for is a statement about the log of
 everything recorded so far.
 */
module Metrics {
  import Labels
  import Stats

  datatype Kind = Counter | Gauge | Histogram

  datatype Op = Add(v: real) | Set(v: real) | Observation(v: real)

  /** One call that recorded something, with its labels as rendered. */
  datatype Event = Event(name: string, labels: string, op: Op)

  const DEFAULT_BUCKETS: seq<real> := [1.0, 5.0, 10.0, 30.0, 60.0, 120.0, 300.0, 600.0]

  // ----- what the log says -----

  /** Everything recorded for one series. */
  function Restrict(log: seq<Event>, name: string, labels: string): seq<Op> {
    if log == [] then []
    else
      var n := |log| - 1;
      Restrict(log[..n], name, labels) + if log[n].name == name && log[n].labels == labels then [log[n].op] else []
  }

  /** The last setting plus everything added since. */
  function ValueOf(ops: seq<Op>): real {
    if ops == [] then 0.0
    else
      var n := |ops| - 1;
      match ops[n]
      case Add(v) => ValueOf(ops[..n]) + v
      case Set(v) => v
      case Observation(_) => ValueOf(ops[..n])
  }

  function Observed(ops: seq<Op>): seq<real> {
    if ops == [] then []
    else
      var n := |ops| - 1;
      Observed(ops[..n]) + if ops[n].Observation? then [ops[n].v] else []
  }

  /** A name is what it was last set or observed as; until then a counter. */
  function KindOf(log: seq<Event>, name: string): Kind {
    if log == [] then Counter
    else
      var n := |log| - 1;
      if log[n].name == name && log[n].op.Set? then Gauge
      else if log[n].name == name && log[n].op.Observation? then Histogram
      else KindOf(log[..n], name)
  }

  /** Counters of a histogram over `buckets` that has seen `values`. */
  ghost predicate Tallies(values: seq<real>, buckets: seq<real>, counts: seq<nat>) {
    && |counts| == |buckets|
    && forall i :: 0 <= i < |buckets| ==> counts[i] == Stats.Count(values, Stats.AtMost(buckets[i]))
  }

  /** One time series: its rendered labels and its numbers. */
  datatype Series = Series(labels: string, value: real, buckets: seq<real>, counts: seq<nat>, sum: real, count: nat)

  function NewSeries(labels: string): Series {
    Series(labels, 0.0, [], [], 0.0, 0)
  }

  /** The numbers of a series are the aggregates of what was recorded for it. */
  ghost predicate Records(s: Series, ops: seq<Op>) {
    var values := Observed(ops);
    && s.value == ValueOf(ops)
    && s.sum == Stats.Sum(values)
    && s.count == |values|
    && s.buckets == (if values == [] then [] else DEFAULT_BUCKETS)
    && Tallies(values, s.buckets, s.counts)
  }

  /** All series of one name; `order` is when the name was first used. */
  datatype Family = Family(name: string, order: nat, kind: Kind, help: string, series: map<string, Series>)

  /** The series registered for a name and labels; an empty one when there is none. */
  function SeriesOf(families: map<string, Family>, name: string, labels: string): Series {
    if name in families && labels in families[name].series then families[name].series[labels] else NewSeries(labels)
  }

  function FamilyKind(families: map<string, Family>, name: string): Kind {
    if name in families then families[name].kind else Counter
  }

  /** Every series aggregates exactly its part of the log, and every name is of the kind its events gave it. */
  ghost predicate Aggregates(families: map<string, Family>, log: seq<Event>) {
    && (forall n, l :: Records(SeriesOf(families, n, l), Restrict(log, n, l)))
    && (forall n :: FamilyKind(families, n) == KindOf(log, n))
  }

  /** No other series changes, and no other name becomes something else. */
  ghost predicate OthersStay(before: map<string, Family>, after: map<string, Family>, name: string, labels: string) {
    && (forall n, l :: n != name || l != labels ==> SeriesOf(after, n, l) == SeriesOf(before, n, l))
    && (forall n :: n != name ==> FamilyKind(after, n) == FamilyKind(before, n))
  }

  ghost predicate SameHistogram(s: Series, t: Series) {
    t.buckets == s.buckets && t.counts == s.counts && t.sum == s.sum && t.count == s.count
  }

  /**
   One more value: it is added to the sum and counted, in total and in every bucket whose bound it does
   not exceed.
   */
  ghost predicate CountsIn(s: Series, t: Series, v: real) {
    && t.value == s.value && t.sum == s.sum + v && t.count == s.count + 1
    && t.buckets == [1.0, 5.0, 10.0, 30.0, 60.0, 120.0, 300.0, 600.0] && |t.counts| == 8
    && (s.buckets == [] || |s.counts| == 8)
    && forall i :: 0 <= i < 8 ==>
      t.counts[i] == (if s.buckets == [] then 0 else s.counts[i]) + if v <= t.buckets[i] then 1 else 0
  }

  /** Names and labels are filed under themselves, and no two families share an order number. */
  ghost predicate Filed(families: map<string, Family>, nextOrd: nat) {
    && (forall n :: n in families ==> families[n].name == n && families[n].order < nextOrd)
    && (forall n, m :: n in families && m in families && n != m ==> families[n].order != families[m].order)
    && (forall n, l :: SeriesOf(families, n, l).labels == l)
  }

  class Registry {
    var families: map<string, Family>
    var nextOrd: nat
    ghost var log: seq<Event>

    ghost predicate Valid()
      reads this
    {
      Filed(families, nextOrd) && Aggregates(families, log)
    }

    constructor ()
      ensures Valid() && log == [] && families == map[]
    {
      families, nextOrd, log := map[], 0, [];
    }

    /** The family of a name, registered with the next order number when it is new. */
    method GetFamily(name: string, kind: Kind) returns (f: Family)
      requires Filed(families, nextOrd)
      modifies this`families, this`nextOrd
      ensures Filed(families, nextOrd)
      ensures families == old(families)[name := f] && f.name == name
      ensures forall n, l :: SeriesOf(families, n, l) == SeriesOf(old(families), n, l)
      ensures forall n :: n != name ==> FamilyKind(families, n) == FamilyKind(old(families), n)
      ensures f.kind == if name in old(families) then FamilyKind(old(families), name) else kind
    {
      if name in families {
        f := families[name];
        assert families[name := f] == families;
        return;
      }
      f := Family(name, nextOrd, kind, "", map[]);
      NewFamily(families, nextOrd, f);
      families, nextOrd := families[name := f], nextOrd + 1;
    }

    /** Stores the new state of a series and, with it, what the name counts as from now on. */
    method Store(f: Family, s: Series, kind: Kind, ghost op: Op)
      requires Filed(families, nextOrd) && f.name in families && families[f.name] == f
      requires forall n, l :: Records(SeriesOf(families, n, l), Restrict(log, n, l))
      requires forall n :: n != f.name ==> FamilyKind(families, n) == KindOf(log, n)
      requires Records(s, Restrict(log, f.name, s.labels) + [op])
      requires kind ==
        match op { case Add(_) => KindOf(log, f.name) case Set(_) => Gauge case Observation(_) => Histogram }
      modifies this`families, this`log
      ensures Valid() && log == old(log) + [Event(f.name, s.labels, op)]
      ensures SeriesOf(families, f.name, s.labels) == s && FamilyKind(families, f.name) == kind
      ensures OthersStay(old(families), families, f.name, s.labels)
    {
      hide Records, Restrict, KindOf, SeriesOf, FamilyKind;
      StoreChangesOne(families, f, s, kind);
      families := families[f.name := f.(kind := kind, series := f.series[s.labels := s])];
      assert OthersStay(old(families), families, f.name, s.labels);
      LogAppend(log, Event(f.name, s.labels, op));
      log := log + [Event(f.name, s.labels, op)];
    }

    /** Adds to a counter; a negative amount is ignored. */
    method CounterAdd(name: string, v: real, labels: seq<string>)
      requires Valid()
      modifies this
      ensures Valid()
      ensures log == old(log) + if v < 0.0 then []
        else [Event(name, Labels.Rendered(Labels.SortedPairs(labels)), Add(v))]
      ensures v < 0.0 ==> families == old(families)
      ensures 0.0 <= v ==>
        var l := Labels.Rendered(Labels.SortedPairs(labels));
        && OthersStay(old(families), families, name, l)
        && SeriesOf(families, name, l).value == SeriesOf(old(families), name, l).value + v
        && SameHistogram(SeriesOf(old(families), name, l), SeriesOf(families, name, l))
        && FamilyKind(families, name) == FamilyKind(old(families), name)
    {
      hide Records, Restrict, KindOf, Labels.Rendered, Labels.SortedPairs;
      if v < 0.0 {
        return;
      }
      var rendered := Labels.RenderLabels(labels);
      var f := GetFamily(name, Counter);
      var s := SeriesOf(families, name, rendered);
      AddRecords(s, v, Restrict(log, name, rendered));
      Store(f, s.(value := s.value + v), f.kind, Add(v));
    }

    method GaugeSet(name: string, v: real, labels: seq<string>)
      requires Valid()
      modifies this
      ensures Valid()
      ensures log == old(log) + [Event(name, Labels.Rendered(Labels.SortedPairs(labels)), Set(v))]
      ensures
        var l := Labels.Rendered(Labels.SortedPairs(labels));
        && OthersStay(old(families), families, name, l)
        && SeriesOf(families, name, l).value == v
        && SameHistogram(SeriesOf(old(families), name, l), SeriesOf(families, name, l))
        && FamilyKind(families, name) == Gauge
    {
      hide Records, Restrict, KindOf, Labels.Rendered, Labels.SortedPairs;
      var rendered := Labels.RenderLabels(labels);
      var f := GetFamily(name, Gauge);
      var s := SeriesOf(families, name, rendered);
      SetRecords(s, v, Restrict(log, name, rendered));
      Store(f, s.(value := v), Gauge, Set(v));
    }

    /** Records a value into the fixed-bucket histogram of the series. */
    method Observe(name: string, v: real, labels: seq<string>)
      requires Valid()
      modifies this
      ensures Valid()
      ensures log == old(log) + [Event(name, Labels.Rendered(Labels.SortedPairs(labels)), Observation(v))]
      ensures
        var l := Labels.Rendered(Labels.SortedPairs(labels));
        && OthersStay(old(families), families, name, l)
        && CountsIn(SeriesOf(old(families), name, l), SeriesOf(families, name, l), v)
        && FamilyKind(families, name) == Histogram
    {
      hide Records, Restrict, KindOf, Labels.Rendered, Labels.SortedPairs;
      var rendered := Labels.RenderLabels(labels);
      var f := GetFamily(name, Histogram);
      var s := SeriesOf(families, name, rendered);
      s := ObserveInto(s, v, Restrict(log, name, rendered));
      Store(f, s, Histogram, Observation(v));
    }

    /** Sets the descriptive text of a name; records nothing. */
    method Help(name: string, text: string)
      requires Valid()
      modifies this`families, this`nextOrd
      ensures Valid()
      ensures name in families && families[name].help == text
      ensures forall n :: n in old(families) && n != name ==> n in families && families[n] == old(families)[n]
    {
      hide Records, Restrict, KindOf, SeriesOf, Filed;
      KindOfNew(families, name);
      var f := GetFamily(name, Counter);
      HelpChangesNoSeries(families, nextOrd, f, text);
      families := families[name := f.(help := text)];
    }
  }

  lemma KindOfNew(families: map<string, Family>, name: string)
    ensures name !in families ==> FamilyKind(families, name) == Counter
  {}

  lemma NewFamily(families: map<string, Family>, nextOrd: nat, f: Family)
    requires Filed(families, nextOrd) && f.name !in families && f.series == map[] && f.order == nextOrd
    ensures var after := families[f.name := f];
      && Filed(after, nextOrd + 1)
      && (forall n, l :: SeriesOf(after, n, l) == SeriesOf(families, n, l))
      && (forall n :: n != f.name ==> FamilyKind(after, n) == FamilyKind(families, n))
  {
    var after := families[f.name := f];
    assert forall n, l :: SeriesOf(after, n, l) == SeriesOf(families, n, l);
  }

  lemma HelpChangesNoSeries(families: map<string, Family>, nextOrd: nat, f: Family, text: string)
    requires Filed(families, nextOrd) && f.name in families && families[f.name] == f
    ensures var after := families[f.name := f.(help := text)];
      && Filed(after, nextOrd)
      && (forall n, l :: SeriesOf(after, n, l) == SeriesOf(families, n, l))
      && (forall n :: FamilyKind(after, n) == FamilyKind(families, n))
  {
    var after := families[f.name := f.(help := text)];
    assert forall n, l :: SeriesOf(after, n, l) == SeriesOf(families, n, l);
  }

  /** Storing a series changes that series alone. */
  lemma StoreChangesOne(families: map<string, Family>, f: Family, s: Series, kind: Kind)
    requires f.name in families && families[f.name] == f
    ensures var after := families[f.name := f.(kind := kind, series := f.series[s.labels := s])];
      && (forall n, l :: n != f.name || l != s.labels ==> SeriesOf(after, n, l) == SeriesOf(families, n, l))
      && SeriesOf(after, f.name, s.labels) == s
      && (forall n :: n != f.name ==> FamilyKind(after, n) == FamilyKind(families, n))
      && FamilyKind(after, f.name) == kind
  {}

  /** Counts `v` into every bucket whose bound it does not exceed. */
  method ObserveInto(s: Series, v: real, ghost ops: seq<Op>) returns (t: Series)
    requires Records(s, ops)
    ensures Records(t, ops + [Observation(v)]) && t.labels == s.labels
    ensures CountsIn(s, t, v)
  {
    hide ValueOf, Observed, Stats.Count, Stats.Sum;
    ghost var values := Observed(ops);
    RecordsAppend(ops, Observation(v));
    var buckets, counts := s.buckets, s.counts;
    if buckets == [] {
      buckets := DEFAULT_BUCKETS;
      counts := seq(|DEFAULT_BUCKETS|, _ => 0);
      NothingCounted(buckets);
    }
    assert Tallies(values, buckets, counts);
    for i := 0 to |buckets|
      invariant |counts| == |buckets|
      invariant forall j :: 0 <= j < i ==> counts[j] == Stats.Count(values + [v], Stats.AtMost(buckets[j]))
      invariant forall j :: i <= j < |buckets| ==> counts[j] == Stats.Count(values, Stats.AtMost(buckets[j]))
    {
      Stats.CountAppend(values, v, Stats.AtMost(buckets[i]));
      if v <= buckets[i] {
        counts := counts[i := counts[i] + 1];
      }
    }
    Stats.SumAppend(values, v);
    t := s.(buckets := buckets, counts := counts, sum := s.sum + v, count := s.count + 1);
    OneMoreCounted(s, t, values, v);
  }

  lemma OneMoreCounted(s: Series, t: Series, values: seq<real>, v: real)
    requires Tallies(values, s.buckets, s.counts) && s.buckets == if values == [] then [] else DEFAULT_BUCKETS
    requires Tallies(values + [v], t.buckets, t.counts) && t.buckets == DEFAULT_BUCKETS
    requires t.value == s.value && t.sum == s.sum + v && t.count == s.count + 1
    ensures CountsIn(s, t, v)
  {
    hide Stats.Count;
    NothingCounted(DEFAULT_BUCKETS);
    forall i | 0 <= i < 8
      ensures t.counts[i] == (if s.buckets == [] then 0 else s.counts[i]) + if v <= t.buckets[i] then 1 else 0
    {
      Stats.CountAppend(values, v, Stats.AtMost(t.buckets[i]));
    }
  }

  lemma AddRecords(s: Series, v: real, ops: seq<Op>)
    requires Records(s, ops)
    ensures Records(s.(value := s.value + v), ops + [Add(v)])
  {
    RecordsAppend(ops, Add(v));
  }

  lemma SetRecords(s: Series, v: real, ops: seq<Op>)
    requires Records(s, ops)
    ensures Records(s.(value := v), ops + [Set(v)])
  {
    RecordsAppend(ops, Set(v));
  }

  lemma RecordsAppend(ops: seq<Op>, op: Op)
    ensures Observed(ops + [op]) == if op.Observation? then Observed(ops) + [op.v] else Observed(ops)
    ensures ValueOf(ops + [op]) ==
      match op
      case Add(v) => ValueOf(ops) + v
      case Set(v) => v
      case Observation(_) => ValueOf(ops)
  {
    assert (ops + [op])[..|ops|] == ops;
    assert Observed(ops) + [] == Observed(ops);
  }

  lemma NothingCounted(buckets: seq<real>)
    ensures forall i :: 0 <= i < |buckets| ==> Stats.Count([], Stats.AtMost(buckets[i])) == 0
  {}

  /** One more event extends the record of its own series and of no other. */
  lemma LogAppend(log: seq<Event>, e: Event)
    ensures forall n, l :: n == e.name && l == e.labels ==> Restrict(log + [e], n, l) == Restrict(log, n, l) + [e.op]
    ensures forall n, l :: n != e.name || l != e.labels ==> Restrict(log + [e], n, l) == Restrict(log, n, l)
    ensures forall n :: n != e.name || e.op.Add? ==> KindOf(log + [e], n) == KindOf(log, n)
    ensures !e.op.Add? ==> KindOf(log + [e], e.name) == if e.op.Set? then Gauge else Histogram
  {
    assert (log + [e])[..|log|] == log;
  }

  // ----- a histogram in the text format -----

  datatype Sample = Sample(name: string, labels: string, value: real)

  /** The lines of one histogram series; `format` writes a bound. */
  method WriteHistogram(name: string, s: Series, format: real -> string, ghost values: seq<real>)
    returns (lines: seq<Sample>)
    requires Tallies(values, s.buckets, s.counts) && s.count == |values| && s.sum == Stats.Sum(values)
    ensures |lines| == |s.buckets| + 3
    ensures forall i :: 0 <= i < |s.buckets| ==>
      && lines[i].name == name + "_bucket" && lines[i].labels == Labels.OpenLabels(s.labels, format(s.buckets[i]))
      && lines[i].value == Stats.Count(values, Stats.AtMost(s.buckets[i])) as real
    ensures lines[|s.buckets|] == Sample(name + "_bucket", Labels.OpenLabels(s.labels, "+Inf"), |values| as real)
    ensures lines[|s.buckets| + 1] == Sample(name + "_sum", s.labels, Stats.Sum(values))
    ensures lines[|s.buckets| + 2] == Sample(name + "_count", s.labels, |values| as real)
  {
    hide Stats.Count, Stats.Sum, Labels.OpenLabels;
    lines := [];
    for i := 0 to |s.buckets|
      invariant |lines| == i
      invariant forall j :: 0 <= j < i ==>
        lines[j] == Sample(name + "_bucket", Labels.OpenLabels(s.labels, format(s.buckets[j])), s.counts[j] as real)
    {
      lines := lines + [Sample(name + "_bucket", Labels.OpenLabels(s.labels, format(s.buckets[i])),
        s.counts[i] as real)];
    }
    lines := lines + [Sample(name + "_bucket", Labels.OpenLabels(s.labels, "+Inf"), s.count as real)];
    lines := lines + [Sample(name + "_sum", s.labels, s.sum)];
    lines := lines + [Sample(name + "_count", s.labels, s.count as real)];
  }

  /** Bucket counts never decrease with the bound and never exceed the total. */
  lemma BucketsNondecreasing(values: seq<real>, buckets: seq<real>, counts: seq<nat>, i: nat, j: nat)
    requires Tallies(values, buckets, counts) && Stats.NonDecreasing(buckets) && i <= j < |buckets|
    ensures counts[i] <= counts[j] <= |values|
  {
    CountGrows(values, buckets[i], buckets[j]);
  }

  /** After any log of operations, the buckets of every histogram are cumulative and at most its count. */
  lemma HistogramsCumulative(families: map<string, Family>, log: seq<Event>, name: string, labels: string, i: nat,
      j: nat)
    requires Aggregates(families, log)
    requires i <= j < |SeriesOf(families, name, labels).buckets|
    ensures var s := SeriesOf(families, name, labels);
      |s.counts| == |s.buckets| && s.counts[i] <= s.counts[j] <= s.count
  {
    var s, ops := SeriesOf(families, name, labels), Restrict(log, name, labels);
    assert Records(s, ops);
    DefaultBucketsAscend();
    BucketsNondecreasing(Observed(ops), s.buckets, s.counts, i, j);
  }

  lemma {:induction false} CountGrows(values: seq<real>, x: real, y: real)
    requires x <= y
    ensures Stats.Count(values, Stats.AtMost(x)) <= Stats.Count(values, Stats.AtMost(y))
  {
    if values != [] {
      CountGrows(values[..|values| - 1], x, y);
    }
  }

  lemma DefaultBucketsAscend()
    ensures Stats.NonDecreasing(DEFAULT_BUCKETS)
  {}
}
