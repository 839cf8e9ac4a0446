/**
 Descriptive statistics (internal/stats/stats.go): percentiles by linear
 interpolation between closest ranks, and the mean.
 */
module Stats {
  import Ordering

  ghost predicate NonDecreasing(s: seq<real>) {
    forall i, j :: 0 <= i <= j < |s| ==> s[i] <= s[j]
  }

  predicate Smaller(x: real, y: real) {
    x < y
  }

  /** Puts `x` behind the elements that do not exceed it. */
  function Insert(s: seq<real>, x: real): (r: seq<real>)
    ensures |r| == |s| + 1
  {
    Ordering.Insert(s, x, Smaller)
  }

  function Sorted(s: seq<real>): (r: seq<real>)
    ensures |r| == |s|
  {
    Ordering.SortBy(s, Smaller)
  }

  lemma InsertUnfold(s: seq<real>, x: real)
    ensures Insert([], x) == [x]
    ensures s != [] ==> var n := |s| - 1; Insert(s, x) == if x < s[n] then Insert(s[..n], x) + [s[n]] else s + [x]
  {}

  lemma SortedUnfold(s: seq<real>)
    ensures Sorted([]) == []
    ensures s != [] ==> var n := |s| - 1; Sorted(s) == Insert(Sorted(s[..n]), s[n])
  {}

  /** How many of the values satisfy `p`. */
  function Count(s: seq<real>, p: real -> bool): (c: nat)
    ensures c <= |s|
  {
    if s == [] then 0
    else Count(s[..|s| - 1], p) + if p(s[|s| - 1]) then 1 else 0
  }

  function AtMost(x: real): real -> bool {
    v => v <= x
  }

  function Below(x: real): real -> bool {
    v => v < x
  }

  /** A condition that smaller values meet whenever larger ones do. */
  ghost predicate DownClosed(p: real -> bool) {
    forall u, v :: u <= v && p(v) ==> p(u)
  }

  // ----- sorting in place -----

  /** Moves `a[n]` down into the sorted part before it. */
  method SiftDown(a: array<real>, n: nat)
    requires n < a.Length
    modifies a
    ensures a[..n + 1] == Insert(old(a[..n]), old(a[n]))
    ensures a[n + 1..] == old(a[n + 1..])
  {
    hide Insert;
    ghost var s := a[..];
    var x, i := a[n], n;
    while 0 < i && x < a[i - 1]
      invariant i <= n
      invariant forall k :: 0 <= k < i || n < k < a.Length ==> a[k] == s[k]
      invariant forall k :: i < k <= n ==> a[k] == s[k - 1]
      invariant forall k :: i <= k < n ==> x < s[k]
    {
      a[i] := a[i - 1];
      i := i - 1;
    }
    a[i] := x;
    InsertAt(s[..n], i, x);
    assert s[..n][..i] == s[..i] && s[..n][i..] == s[i..n];
    assert a[..n + 1] == s[..i] + [x] + s[i..n];
    assert s[..n] == old(a[..n]) && s[n + 1..] == old(a[n + 1..]);
  }

  /** Inserting behind the last element that is not larger. */
  lemma {:induction false} InsertAt(s: seq<real>, i: nat, x: real)
    requires i <= |s|
    requires forall k :: i <= k < |s| ==> x < s[k]
    requires 0 < i ==> s[i - 1] <= x
    ensures Insert(s, x) == s[..i] + [x] + s[i..]
  {
    hide Insert;
    InsertUnfold(s, x);
    if i < |s| {
      var n := |s| - 1;
      InsertAt(s[..n], i, x);
      assert s[..n][..i] == s[..i];
      assert s[i..] == s[..n][i..] + [s[n]];
    } else {
      assert s[..i] == s && s[i..] == [];
    }
  }

  method SortInPlace(a: array<real>)
    modifies a
    ensures a[..] == Sorted(old(a[..]))
  {
    hide Insert, Sorted;
    SortedUnfold([]);
    assert a[..0] == [];
    for n := 0 to a.Length
      invariant a[..n] == Sorted(old(a[..n]))
      invariant a[n..] == old(a[n..])
    {
      assert a[n] == a[n..][0] && old(a[n]) == old(a[n..])[0];
      assert old(a[..n + 1])[..n] == old(a[..n]);
      SortedUnfold(old(a[..n + 1]));
      SiftDown(a, n);
      assert a[n + 1..] == old(a[n..])[1..];
    }
    assert a[..] == a[..a.Length] && old(a[..]) == old(a[..a.Length]);
  }

  // ----- what sorting means -----

  lemma {:induction false} InsertCount(s: seq<real>, v: real, p: real -> bool)
    ensures Count(Insert(s, v), p) == Count(s, p) + if p(v) then 1 else 0
  {
    hide Insert;
    InsertUnfold(s, v);
    if s == [] {
      assert [v][..0] == [];
    } else {
      var n := |s| - 1;
      if v < s[n] {
        InsertCount(s[..n], v, p);
        assert (Insert(s[..n], v) + [s[n]])[..n + 1] == Insert(s[..n], v);
      } else {
        assert (s + [v])[..n + 1] == s;
      }
    }
  }

  lemma {:induction false} InsertSorted(s: seq<real>, v: real)
    requires NonDecreasing(s)
    ensures NonDecreasing(Insert(s, v))
  {
    hide Insert;
    InsertUnfold(s, v);
    if s != [] {
      var n := |s| - 1;
      if v < s[n] {
        InsertSorted(s[..n], v);
        InsertInRange(s[..n], v, if s[0] < v then s[0] else v, s[n]);
      }
    }
  }

  lemma {:induction false} SortedIsSorted(s: seq<real>)
    ensures NonDecreasing(Sorted(s))
  {
    hide Insert, Sorted;
    SortedUnfold(s);
    if s != [] {
      var n := |s| - 1;
      SortedIsSorted(s[..n]);
      InsertSorted(Sorted(s[..n]), s[n]);
    }
  }

  lemma {:induction false} SortedCount(s: seq<real>, p: real -> bool)
    ensures Count(Sorted(s), p) == Count(s, p)
  {
    hide Insert, Sorted;
    SortedUnfold(s);
    if s != [] {
      var n := |s| - 1;
      SortedCount(s[..n], p);
      InsertCount(Sorted(s[..n]), s[n], p);
    }
  }

  lemma {:induction false} RankOfSorted(s: seq<real>, k: nat, p: real -> bool)
    requires NonDecreasing(s) && DownClosed(p) && k < |s|
    ensures p(s[k]) <==> k < Count(s, p)
    decreases |s|
  {
    var n := |s| - 1;
    assert forall i :: 0 <= i < n ==> s[..n][i] == s[i];
    if k < n {
      RankOfSorted(s[..n], k, p);
    }
    if p(s[n]) {
      AllCount(s[..n], p);
    }
  }

  lemma {:induction false} AllCount(s: seq<real>, p: real -> bool)
    requires forall i :: 0 <= i < |s| ==> p(s[i])
    ensures Count(s, p) == |s|
  {
    if s != [] {
      AllCount(s[..|s| - 1], p);
    }
  }

  /** The k-th smallest value meets a down-closed condition exactly when more than `k` of the values do. */
  lemma OrderStatistic(s: seq<real>, k: nat, p: real -> bool)
    requires k < |s| && DownClosed(p)
    ensures p(Sorted(s)[k]) <==> k < Count(s, p)
  {
    SortedIsSorted(s);
    SortedCount(s, p);
    RankOfSorted(Sorted(s), k, p);
  }

  /** Sorting depends on the counts alone, so on no order of the values. */
  lemma SortedByCounts(s: seq<real>, t: seq<real>)
    requires |s| == |t| && forall x :: Count(s, AtMost(x)) == Count(t, AtMost(x))
    ensures Sorted(s) == Sorted(t)
  {
    forall k: nat | k < |s|
      ensures Sorted(s)[k] == Sorted(t)[k]
    {
      var x, y := Sorted(s)[k], Sorted(t)[k];
      OrderStatistic(s, k, AtMost(y));
      OrderStatistic(t, k, AtMost(y));
      OrderStatistic(s, k, AtMost(x));
      OrderStatistic(t, k, AtMost(x));
    }
  }

  lemma {:induction false} CountConcat(s: seq<real>, t: seq<real>, p: real -> bool)
    ensures Count(s + t, p) == Count(s, p) + Count(t, p)
    decreases |t|
  {
    if t == [] {
      assert s + t == s;
    } else {
      var n := |t| - 1;
      CountConcat(s, t[..n], p);
      assert (s + t)[..|s| + n] == s + t[..n];
    }
  }

  function Without(s: seq<real>, j: nat): (r: seq<real>)
    requires j < |s|
    ensures |r| == |s| - 1
  {
    s[..j] + s[j + 1..]
  }

  lemma WithoutMultiset(s: seq<real>, j: nat)
    requires j < |s|
    ensures multiset(Without(s, j)) == multiset(s) - multiset{s[j]}
  {
    assert s == s[..j] + [s[j]] + s[j + 1..];
  }

  lemma WithoutCount(s: seq<real>, j: nat, p: real -> bool)
    requires j < |s|
    ensures Count(s, p) == Count(Without(s, j), p) + if p(s[j]) then 1 else 0
  {
    hide *;
    var head, tail := s[..j], s[j + 1..];
    CountConcat(head, tail, p);
    CountConcat(head + [s[j]], tail, p);
    CountAppend(head, s[j], p);
    assert s == head + [s[j]] + tail;
    WithoutIs(s, j);
  }

  lemma WithoutIs(s: seq<real>, j: nat)
    requires j < |s|
    ensures Without(s, j) == s[..j] + s[j + 1..]
  {}

  lemma CountAppend(s: seq<real>, v: real, p: real -> bool)
    ensures Count(s + [v], p) == Count(s, p) + if p(v) then 1 else 0
  {
    assert (s + [v])[..|s|] == s;
  }

  lemma {:induction false} CountPermuted(s: seq<real>, t: seq<real>, p: real -> bool)
    requires multiset(s) == multiset(t)
    ensures Count(s, p) == Count(t, p)
    decreases |s|
  {
    hide Count, Without;
    assert |s| == |multiset(s)| == |multiset(t)| == |t|;
    if s == [] {
      assert t == [];
    } else {
      assert s[0] in multiset(t);
      var j :| 0 <= j < |t| && t[j] == s[0];
      WithoutMultiset(s, 0);
      WithoutMultiset(t, j);
      CountPermuted(Without(s, 0), Without(t, j), p);
      WithoutCount(s, 0, p);
      WithoutCount(t, j, p);
    }
  }

  // ----- percentiles -----

  /** The point a fraction `f` of the way from `a` to `b`. */
  function Interpolated(a: real, b: real, f: real): real {
    a + f * (b - a)
  }

  /** The value at a fractional rank of a sorted sample. */
  function AtRank(sorted: seq<real>, rank: real): real
    requires sorted != [] && 0.0 <= rank <= (|sorted| - 1) as real
  {
    var lo := rank.Floor;
    var frac := rank - lo as real;
    if lo + 1 >= |sorted| then sorted[lo]
    else Interpolated(sorted[lo], sorted[lo + 1], frac)
  }

  /** The rank that percentile `p` asks for; 0 and 100 are the two ends. */
  function Rank(n: nat, p: real): (rank: real)
    requires 0 < n
    ensures 0.0 <= rank <= (n - 1) as real
  {
    if p <= 0.0 then 0.0
    else if p >= 100.0 then (n - 1) as real
    else
      ScaleInRange(p / 100.0, (n - 1) as real);
      p / 100.0 * (n - 1) as real
  }

  lemma ScaleInRange(f: real, x: real)
    requires 0.0 <= f <= 1.0 && 0.0 <= x
    ensures 0.0 <= f * x <= x
  {}

  function PercentileOf(values: seq<real>, p: real): real {
    if values == [] then 0.0 else AtRank(Sorted(values), Rank(|values|, p))
  }

  function MedianOf(values: seq<real>): real {
    PercentileOf(values, 50.0)
  }

  method Percentile(values: seq<real>, p: real) returns (r: real)
    ensures r == PercentileOf(values, p)
  {
    hide Sorted;
    if |values| == 0 {
      return 0.0;
    }
    var sorted := new real[|values|](i requires 0 <= i < |values| => values[i]);
    assert sorted[..] == values;
    SortInPlace(sorted);
    assert sorted[..] == Sorted(values);
    if p <= 0.0 {
      return sorted[0];
    }
    if p >= 100.0 {
      return sorted[sorted.Length - 1];
    }
    var rank := p / 100.0 * (sorted.Length - 1) as real;
    assert rank == Rank(|values|, p);
    var lo := rank.Floor;
    var frac := rank - lo as real;
    if lo + 1 >= sorted.Length {
      return sorted[lo];
    }
    return Interpolated(sorted[lo], sorted[lo + 1], frac);
  }

  method Median(values: seq<real>) returns (r: real)
    ensures r == MedianOf(values)
  {
    r := Percentile(values, 50.0);
  }

  lemma InterpolatedBetween(a: real, b: real, f: real)
    requires a <= b && 0.0 <= f <= 1.0
    ensures a <= Interpolated(a, b, f) <= b
  {
    var d := b - a;
    ScaleInRange(f, d);
    assert Interpolated(a, b, f) == a + f * d;
  }

  lemma InterpolatedGrowsInFraction(a: real, b: real, f: real, g: real)
    requires a <= b && f <= g
    ensures Interpolated(a, b, f) <= Interpolated(a, b, g)
  {
    ScaleMonotone(f, g, b - a);
  }

  lemma InterpolatedGrowsInEnds(a: real, b: real, c: real, d: real, f: real)
    requires a <= c && b <= d && 0.0 <= f <= 1.0
    ensures Interpolated(a, b, f) <= Interpolated(c, d, f)
  {
    var first := InterpolatedBetweenSteps(a, c, b, f);
    var second := InterpolatedBetweenSteps(b, d, c, 1.0 - f);
    Mirrored(b, c, f);
    Mirrored(d, c, f);
  }

  /** Moving the near end moves the point by the rest of the way. */
  lemma InterpolatedBetweenSteps(a: real, c: real, b: real, f: real) returns (moved: real)
    requires a <= c && 0.0 <= f <= 1.0
    ensures moved == Interpolated(c, b, f) - Interpolated(a, b, f) && 0.0 <= moved
  {
    var g, d := 1.0 - f, c - a;
    moved := g * d;
    ScaleMonotone(0.0, g, d);
    assert f * (b - c) == f * (b - a) - f * d;
  }

  lemma Mirrored(a: real, b: real, f: real)
    ensures Interpolated(a, b, 1.0 - f) == Interpolated(b, a, f)
  {
    var d := b - a;
    assert (1.0 - f) * d == d - f * d;
    assert f * (a - b) == -(f * d);
  }

  /** The value at a rank lies between its two neighbours in the sorted sample. */
  lemma AtRankBetween(s: seq<real>, rank: real)
    requires s != [] && NonDecreasing(s) && 0.0 <= rank <= (|s| - 1) as real
    ensures s[rank.Floor] <= AtRank(s, rank)
    ensures AtRank(s, rank) <= if rank.Floor + 1 < |s| then s[rank.Floor + 1] else s[rank.Floor]
  {
    var lo := rank.Floor;
    if lo + 1 < |s| {
      InterpolatedBetween(s[lo], s[lo + 1], rank - lo as real);
    }
  }

  /** A percentile lies within every range that holds all the values. */
  lemma PercentileInRange(values: seq<real>, p: real, lo: real, hi: real)
    requires values != [] && forall i :: 0 <= i < |values| ==> lo <= values[i] <= hi
    ensures lo <= PercentileOf(values, p) <= hi
  {
    hide AtRank, Rank, Sorted;
    var s, rank := Sorted(values), Rank(|values|, p);
    SortedIsSorted(values);
    SortedInRange(values, lo, hi);
    AtRankBetween(s, rank);
  }

  lemma {:induction false} SortedInRange(s: seq<real>, lo: real, hi: real)
    requires forall i :: 0 <= i < |s| ==> lo <= s[i] <= hi
    ensures forall i :: 0 <= i < |s| ==> lo <= Sorted(s)[i] <= hi
  {
    hide Insert, Sorted;
    SortedUnfold(s);
    if s != [] {
      SortedInRange(s[..|s| - 1], lo, hi);
      InsertInRange(Sorted(s[..|s| - 1]), s[|s| - 1], lo, hi);
    }
  }

  lemma {:induction false} InsertInRange(s: seq<real>, v: real, lo: real, hi: real)
    requires lo <= v <= hi && forall i :: 0 <= i < |s| ==> lo <= s[i] <= hi
    ensures forall i :: 0 <= i <= |s| ==> lo <= Insert(s, v)[i] <= hi
  {
    hide Insert;
    InsertUnfold(s, v);
    if s != [] {
      InsertInRange(s[..|s| - 1], v, lo, hi);
    }
  }

  lemma PercentileOfPermutation(s: seq<real>, t: seq<real>, p: real)
    requires multiset(s) == multiset(t)
    ensures PercentileOf(s, p) == PercentileOf(t, p)
  {
    assert |s| == |multiset(s)| == |multiset(t)| == |t|;
    forall x
      ensures Count(s, AtMost(x)) == Count(t, AtMost(x))
    {
      CountPermuted(s, t, AtMost(x));
    }
    SortedByCounts(s, t);
  }

  /** A higher percentile is never a smaller value, also across the cells of the interpolation. */
  lemma PercentileMonotoneInP(values: seq<real>, p: real, q: real)
    requires p <= q
    ensures PercentileOf(values, p) <= PercentileOf(values, q)
  {
    if values != [] {
      hide AtRank, Sorted;
      SortedIsSorted(values);
      RankMonotone(|values|, p, q);
      AtRankMonotone(Sorted(values), Rank(|values|, p), Rank(|values|, q));
    }
  }

  lemma RankMonotone(n: nat, p: real, q: real)
    requires 0 < n && p <= q
    ensures Rank(n, p) <= Rank(n, q)
  {
    if 0.0 < p && q < 100.0 {
      ScaleMonotone(p / 100.0, q / 100.0, (n - 1) as real);
      RankIsScaled(n, p);
      RankIsScaled(n, q);
      hide Rank;
    }
  }

  function Scaled(f: real, x: real): real {
    f * x
  }

  lemma RankIsScaled(n: nat, p: real)
    requires 0 < n && 0.0 < p < 100.0
    ensures Rank(n, p) == Scaled(p / 100.0, (n - 1) as real)
  {}

  lemma ScaleMonotone(f: real, g: real, x: real)
    requires f <= g && 0.0 <= x
    ensures f * x <= g * x
    ensures Scaled(f, x) <= Scaled(g, x)
  {}

  lemma AtRankMonotone(s: seq<real>, r1: real, r2: real)
    requires s != [] && NonDecreasing(s) && 0.0 <= r1 <= r2 <= (|s| - 1) as real
    ensures AtRank(s, r1) <= AtRank(s, r2)
  {
    var lo1, lo2 := r1.Floor, r2.Floor;
    if lo1 == lo2 {
      if lo1 + 1 < |s| {
        InterpolatedGrowsInFraction(s[lo1], s[lo1 + 1], r1 - lo1 as real, r2 - lo2 as real);
      }
    } else {
      hide AtRank;
      AtRankBetween(s, r1);
      AtRankBetween(s, r2);
      assert s[lo1 + 1] <= s[lo2];
    }
  }

  /** Raising any of the samples never lowers a percentile. */
  lemma PercentileMonotoneInSamples(s: seq<real>, t: seq<real>, p: real)
    requires |s| == |t| && forall i :: 0 <= i < |s| ==> s[i] <= t[i]
    ensures PercentileOf(s, p) <= PercentileOf(t, p)
  {
    if s != [] {
      SortedMonotone(s, t);
      SortedIsSorted(s);
      SortedIsSorted(t);
      AtRankMonotoneInSamples(Sorted(s), Sorted(t), Rank(|s|, p));
    }
  }

  lemma SortedMonotone(s: seq<real>, t: seq<real>)
    requires |s| == |t| && forall i :: 0 <= i < |s| ==> s[i] <= t[i]
    ensures forall k :: 0 <= k < |s| ==> Sorted(s)[k] <= Sorted(t)[k]
  {
    forall k: nat | k < |s|
      ensures Sorted(s)[k] <= Sorted(t)[k]
    {
      var x := Sorted(t)[k];
      CountAntitone(s, t, AtMost(x));
      OrderStatistic(s, k, AtMost(x));
      OrderStatistic(t, k, AtMost(x));
    }
  }

  lemma {:induction false} CountAntitone(s: seq<real>, t: seq<real>, p: real -> bool)
    requires DownClosed(p)
    requires |s| == |t| && forall i :: 0 <= i < |s| ==> s[i] <= t[i]
    ensures Count(t, p) <= Count(s, p)
  {
    if s != [] {
      CountAntitone(s[..|s| - 1], t[..|t| - 1], p);
    }
  }

  lemma AtRankMonotoneInSamples(s: seq<real>, t: seq<real>, rank: real)
    requires s != [] && |s| == |t| && 0.0 <= rank <= (|s| - 1) as real
    requires forall k :: 0 <= k < |s| ==> s[k] <= t[k]
    ensures AtRank(s, rank) <= AtRank(t, rank)
  {
    var lo := rank.Floor;
    if lo + 1 < |s| {
      InterpolatedGrowsInEnds(s[lo], s[lo + 1], t[lo], t[lo + 1], rank - lo as real);
    }
  }

  // ----- which value a percentile is -----

  /** The positions of the values that satisfy `p`. */
  ghost function Positions(s: seq<real>, p: real -> bool): set<int> {
    set i | 0 <= i < |s| && p(s[i])
  }

  lemma PositionsAppend(s: seq<real>, v: real, p: real -> bool)
    ensures Positions(s + [v], p) == Positions(s, p) + if p(v) then {|s|} else {}
    ensures |s| !in Positions(s, p)
  {}

  /** Counting is counting positions. */
  lemma {:induction false} CountIsSize(s: seq<real>, p: real -> bool)
    ensures Count(s, p) == |Positions(s, p)|
  {
    if s == [] {
      assert Positions(s, p) == {};
    } else {
      var n := |s| - 1;
      CountIsSize(s[..n], p);
      hide Positions;
      PositionsAppend(s[..n], s[n], p);
      assert s == s[..n] + [s[n]];
    }
  }

  /** The empty sample has percentile 0, and beyond the ends every percentile is that of the end. */
  lemma PercentileAtEnds(values: seq<real>, p: real)
    ensures values == [] ==> PercentileOf(values, p) == 0.0
    ensures p <= 0.0 ==> PercentileOf(values, p) == PercentileOf(values, 0.0)
    ensures 100.0 <= p ==> PercentileOf(values, p) == PercentileOf(values, 100.0)
  {}

  lemma RankInNumbers(n: nat, p: real)
    requires 0 < n && 0.0 <= p <= 100.0
    ensures Rank(n, p) * 100.0 == p * (n - 1) as real
  {
    if 0.0 < p < 100.0 {
      var f, x := p / 100.0, (n - 1) as real;
      assert f * x * 100.0 == f * 100.0 * x;
    }
  }

  /** Where percentile `p` falls on the k-th smallest of the values, it is that value. */
  lemma PercentileAtValue(values: seq<real>, p: real, k: nat)
    requires k < |values| && 0.0 <= p <= 100.0 && p * (|values| - 1) as real == 100.0 * k as real
    ensures var r := PercentileOf(values, p);
      && r in values
      && |set i | 0 <= i < |values| && values[i] < r| <= k < |set i | 0 <= i < |values| && values[i] <= r|
  {
    hide Rank, AtRank, Sorted, Count;
    var r := Sorted(values)[k];
    RankInNumbers(|values|, p);
    AtWholeRank(Sorted(values), k);
    assert Rank(|values|, p) == k as real;
    assert PercentileOf(values, p) == AtRank(Sorted(values), k as real);
    OrderStatistic(values, k, AtMost(r));
    OrderStatistic(values, k, Below(r));
    SizesAre(values, r);
    var below, atMost := set i | 0 <= i < |values| && values[i] < r, set i | 0 <= i < |values| && values[i] <= r;
    assert r !in values ==> below == atMost;
  }

  lemma SizesAre(values: seq<real>, r: real)
    ensures |set i | 0 <= i < |values| && values[i] < r| == Count(values, Below(r))
    ensures |set i | 0 <= i < |values| && values[i] <= r| == Count(values, AtMost(r))
  {
    hide Count;
    CountIsSize(values, AtMost(r));
    CountIsSize(values, Below(r));
    assert (set i | 0 <= i < |values| && values[i] < r) == Positions(values, Below(r));
    assert (set i | 0 <= i < |values| && values[i] <= r) == Positions(values, AtMost(r));
  }

  /** In the cell above the k-th value of a sorted sample, both its ends included. */
  lemma AtRankInCell(s: seq<real>, k: nat, rank: real)
    requires k + 1 < |s| && k as real <= rank <= (k + 1) as real
    ensures AtRank(s, rank) == s[k] + (rank - k as real) * (s[k + 1] - s[k])
  {
    if rank == (k + 1) as real {
      AtWholeRank(s, k + 1);
    } else {
      assert rank.Floor == k;
    }
  }

  /** Between two neighbouring values a percentile moves in proportion. */
  lemma PercentileAffineInCell(values: seq<real>, k: nat, p: real, q: real, r: real)
    requires k + 1 < |values| && 0.0 <= p <= q <= r <= 100.0
    requires 100.0 * k as real <= p * (|values| - 1) as real && r * (|values| - 1) as real <= 100.0 * (k + 1) as real
    ensures (PercentileOf(values, q) - PercentileOf(values, p)) * (r - p)
      == (PercentileOf(values, r) - PercentileOf(values, p)) * (q - p)
  {
    hide Rank, AtRank, Sorted, Interpolated;
    var s, n := Sorted(values), |values|;
    var c := (n - 1) as real;
    ScaleMonotone(p, q, c);
    ScaleMonotone(q, r, c);
    PercentileInCell(values, k, p);
    PercentileInCell(values, k, q);
    PercentileInCell(values, k, r);
    Proportional(s[k], c, s[k + 1] - s[k], k as real, p, q, r, Rank(n, p), Rank(n, q), Rank(n, r));
  }

  lemma PercentileInCell(values: seq<real>, k: nat, p: real)
    requires k + 1 < |values| && 0.0 <= p <= 100.0
    requires 100.0 * k as real <= p * (|values| - 1) as real <= 100.0 * (k + 1) as real
    ensures var s, rank := Sorted(values), Rank(|values|, p);
      && rank * 100.0 == p * (|values| - 1) as real
      && PercentileOf(values, p) == s[k] + (rank - k as real) * (s[k + 1] - s[k])
  {
    hide Rank, AtRank, Sorted, Interpolated;
    RankInNumbers(|values|, p);
    AtRankInCell(Sorted(values), k, Rank(|values|, p));
  }

  lemma Proportional(a: real, c: real, d: real, k: real, p: real, q: real, r: real, rp: real, rq: real, rr: real)
    requires rp * 100.0 == p * c && rq * 100.0 == q * c && rr * 100.0 == r * c
    ensures var (x, y, z) := (a + (rp - k) * d, a + (rq - k) * d, a + (rr - k) * d);
      (y - x) * (r - p) == (z - x) * (q - p)
  {
    Slope(c, d, k, rp, rq, p, q);
    Slope(c, d, k, rp, rr, p, r);
    var e, u, v := c * d / 100.0, q - p, r - p;
    assert e * u * v == e * v * u;
  }

  lemma Slope(c: real, d: real, k: real, rp: real, rq: real, p: real, q: real)
    requires rp * 100.0 == p * c && rq * 100.0 == q * c
    ensures (rq - k) * d - (rp - k) * d == c * d / 100.0 * (q - p)
  {
    var x, u := rq - rp, q - p;
    assert (rq - k) * d - (rp - k) * d == x * d;
    assert x * 100.0 == u * c;
    assert x * d * 100.0 == x * 100.0 * d;
    assert u * c * d == c * d * u;
  }

  // ----- the median is a majority vote -----

  /** A down-closed condition that most of the samples meet is met by the median. */
  lemma MedianMeets(values: seq<real>, p: real -> bool)
    requires DownClosed(p) && 2 * Count(values, p) > |values|
    ensures p(MedianOf(values))
  {
    hide AtRank, Rank, Sorted, Count;
    var s, n := Sorted(values), |values|;
    MedianRank(n);
    SortedIsSorted(values);
    OrderStatistic(values, n / 2, p);
    if n % 2 == 1 {
      AtWholeRank(s, n / 2);
    } else {
      AtRankBetween(s, Rank(n, 50.0));
    }
  }

  /** A down-closed condition that most of the samples fail is failed by the median. */
  lemma MedianFails(values: seq<real>, p: real -> bool)
    requires DownClosed(p) && 2 * Count(values, p) < |values|
    ensures !p(MedianOf(values))
  {
    hide AtRank, Rank, Sorted, Count;
    var s, rank := Sorted(values), Rank(|values|, 50.0);
    MedianRank(|values|);
    SortedIsSorted(values);
    AtRankBetween(s, rank);
    OrderStatistic(values, rank.Floor, p);
  }

  lemma AtWholeRank(s: seq<real>, k: nat)
    requires k < |s|
    ensures AtRank(s, k as real) == s[k]
  {}

  lemma MedianRank(n: nat)
    requires 0 < n
    ensures Rank(n, 50.0).Floor == (n - 1) / 2
    ensures n % 2 == 1 ==> Rank(n, 50.0) == (n / 2) as real
  {
    assert Rank(n, 50.0) == 0.5 * (n - 1) as real;
    assert (n - 1) as real == 2.0 * ((n - 1) / 2) as real + ((n - 1) % 2) as real;
  }

  // ----- the mean -----

  function Sum(values: seq<real>): real {
    if values == [] then 0.0 else Sum(values[..|values| - 1]) + values[|values| - 1]
  }

  lemma SumAppend(values: seq<real>, v: real)
    ensures Sum(values + [v]) == Sum(values) + v
  {
    assert (values + [v])[..|values|] == values;
  }

  method Mean(values: seq<real>) returns (r: real)
    ensures values == [] ==> r == 0.0
    ensures values != [] ==> r * |values| as real == Sum(values)
  {
    if |values| == 0 {
      return 0.0;
    }
    var sum := 0.0;
    for i := 0 to |values|
      invariant sum == Sum(values[..i])
    {
      assert values[..i + 1][..i] == values[..i];
      sum := sum + values[i];
    }
    assert values[..|values|] == values;
    return sum / |values| as real;
  }

  /** The one number the mean can be lies within every range that holds all the values. */
  lemma MeanInRange(values: seq<real>, mean: real, lo: real, hi: real)
    requires values != [] && forall i :: 0 <= i < |values| ==> lo <= values[i] <= hi
    requires mean * |values| as real == Sum(values)
    ensures lo <= mean <= hi
  {
    SumInRange(values, lo, hi);
    var n := |values| as real;
    if mean < lo {
      ScaleLess(n, mean, lo);
    } else if hi < mean {
      ScaleLess(n, hi, mean);
    }
  }

  lemma ScaleLess(n: real, x: real, y: real)
    requires 0.0 < n && x < y
    ensures x * n < y * n
  {}

  lemma {:induction false} SumInRange(values: seq<real>, lo: real, hi: real)
    requires forall i :: 0 <= i < |values| ==> lo <= values[i] <= hi
    ensures lo * |values| as real <= Sum(values) <= hi * |values| as real
  {
    if values != [] {
      var n := |values| - 1;
      SumInRange(values[..n], lo, hi);
      assert lo * (n + 1) as real == lo * n as real + lo;
      assert hi * (n + 1) as real == hi * n as real + hi;
    }
  }
}
