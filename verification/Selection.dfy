/**
 The two polling queries of the store: rows that satisfy a condition, ORDER BY a
 time column ASC LIMIT n (internal/store/store.go, internal/store/schedules.go).
 */
module Selection {
  import opened Ordering

  /** The earliest entries in the order of their times, at most `limit`; ties may fall either way. */
  predicate Earliest(times: map<nat, real>, limit: nat, picked: seq<nat>) {
    && |picked| <= limit
    && (forall i, j :: 0 <= i < j < |picked| ==> picked[i] != picked[j])
    && (forall i :: 0 <= i < |picked| ==> picked[i] in times)
    && (forall i, j :: 0 <= i < j < |picked| ==> times[picked[i]] <= times[picked[j]])
    && (forall y | y in times :: y !in picked ==>
      |picked| == limit && forall i :: 0 <= i < |picked| ==> times[picked[i]] <= times[y])
  }

  predicate Sooner(x: (real, nat), y: (real, nat)) {
    x.0 < y.0 || (x.0 == y.0 && x.1 < y.1)
  }

  lemma SoonerIsStrict()
    ensures Strict(Sooner)
  {}

  /** Every entry once, with its time. */
  ghost predicate Lists(entries: seq<(real, nat)>, times: map<nat, real>) {
    forall x :: x in entries <==> x.1 in times && x.0 == times[x.1]
  }

  method Entries(times: map<nat, real>) returns (entries: seq<(real, nat)>)
    ensures Lists(entries, times)
    ensures forall i, j :: 0 <= i < j < |entries| ==> entries[i].1 != entries[j].1
  {
    entries := [];
    var keys := times.Keys;
    while keys != {}
      invariant keys <= times.Keys
      invariant forall x :: x in entries <==> x.1 in times && x.1 !in keys && x.0 == times[x.1]
      invariant forall i, j :: 0 <= i < j < |entries| ==> entries[i].1 != entries[j].1
    {
      var key :| key in keys;
      keys := keys - {key};
      assert forall i :: 0 <= i < |entries| ==> entries[i] in entries;
      entries := entries + [(times[key], key)];
    }
  }

  lemma SortingLists(entries: seq<(real, nat)>, times: map<nat, real>)
    requires Lists(entries, times)
    requires forall i, j :: 0 <= i < j < |entries| ==> entries[i].1 != entries[j].1
    ensures var sorted := SortBy(entries, Sooner); Ascending(sorted, Sooner) && Lists(sorted, times)
  {
    SoonerIsStrict();
    SortByAscends(entries, Sooner);
    var sorted := SortBy(entries, Sooner);
    forall x
      ensures x in sorted <==> x in entries
    {
      assert x in sorted <==> x in multiset(sorted);
      assert x in entries <==> x in multiset(entries);
    }
  }

  method Select(times: map<nat, real>, limit: nat) returns (picked: seq<nat>)
    ensures Earliest(times, limit, picked)
  {
    hide Earliest, Lists, SortBy, Ascending, Sooner;
    var entries := Entries(times);
    SortingLists(entries, times);
    var sorted := SortBy(entries, Sooner);
    var n := if |sorted| < limit then |sorted| else limit;
    picked := seq(n, i requires 0 <= i < n <= |sorted| => sorted[i].1);
    FirstAreEarliest(times, limit, sorted, picked);
  }

  lemma FirstAreEarliest(times: map<nat, real>, limit: nat, sorted: seq<(real, nat)>, picked: seq<nat>)
    requires Ascending(sorted, Sooner) && |picked| == if |sorted| < limit then |sorted| else limit
    requires forall i :: 0 <= i < |picked| ==> picked[i] == sorted[i].1
    requires Lists(sorted, times)
    ensures Earliest(times, limit, picked)
  {
    forall i | 0 <= i < |sorted|
      ensures sorted[i].1 in times && sorted[i].0 == times[sorted[i].1]
    {
      assert sorted[i] in sorted;
    }
    forall i, j | 0 <= i < j < |picked|
      ensures picked[i] != picked[j] && times[picked[i]] <= times[picked[j]]
    {
      assert Sooner(sorted[i], sorted[j]);
    }
    assert forall k :: 0 <= k < |picked| ==> sorted[k].1 in picked;
    forall y | y in times && y !in picked
      ensures |picked| == limit && forall i :: 0 <= i < |picked| ==> times[picked[i]] <= times[y]
    {
      assert (times[y], y) in sorted;
      var j :| 0 <= j < |sorted| && sorted[j] == (times[y], y);
      assert |picked| <= j;
      forall i | 0 <= i < |picked|
        ensures times[picked[i]] <= times[y]
      {
        assert Sooner(sorted[i], sorted[j]);
      }
    }
  }
}
