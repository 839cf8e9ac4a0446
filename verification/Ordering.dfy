/** Orders and sequences sorted by them, as the program uses them for keys. */
module Ordering {

  /** Lexicographic order of strings; by characters it is the byte order of their UTF-8 form. */
  predicate Less(a: string, b: string) {
    if b == "" then false
    else if a == "" then true
    else a[0] < b[0] || (a[0] == b[0] && Less(a[1..], b[1..]))
  }

  /** One string comes before another if it is a proper prefix, or smaller where they first differ. */
  lemma {:induction false} LessInWords(a: string, b: string)
    ensures Less(a, b) <==>
      a < b || exists n: nat :: n < |a| && n < |b| && a[..n] == b[..n] && a[n] < b[n]
  {
    if a != "" && b != "" {
      if a[0] == b[0] {
        LessInWords(a[1..], b[1..]);
        LessBehindHead(a, b);
      } else if a[0] < b[0] {
        assert a[..0] == b[..0];
      } else {
        forall n: nat | 0 < n < |a| && n < |b|
          ensures a[..n] != b[..n]
        {
          assert a[..n][0] != b[..n][0];
        }
      }
    }
  }

  lemma LessBehindHead(a: string, b: string)
    requires a != "" && b != "" && a[0] == b[0]
    ensures a[1..] < b[1..] <==> a < b
    ensures (exists n: nat :: n < |a[1..]| && n < |b[1..]| && a[1..][..n] == b[1..][..n] && a[1..][n] < b[1..][n])
      <==> exists n: nat :: n < |a| && n < |b| && a[..n] == b[..n] && a[n] < b[n]
  {
    assert a == [a[0]] + a[1..] && b == [b[0]] + b[1..];
    if n: nat :| n < |a[1..]| && n < |b[1..]| && a[1..][..n] == b[1..][..n] && a[1..][n] < b[1..][n] {
      assert a[..n + 1] == [a[0]] + a[1..][..n] && b[..n + 1] == [b[0]] + b[1..][..n];
      assert a[n + 1] < b[n + 1];
    }
    if n: nat :| n < |a| && n < |b| && a[..n] == b[..n] && a[n] < b[n] {
      assert 0 < n;
      assert a[1..][..n - 1] == a[..n][1..] && b[1..][..n - 1] == b[..n][1..];
      assert a[1..][n - 1] < b[1..][n - 1];
    }
  }

  lemma {:induction false} LessIsTotal(a: string, b: string)
    ensures Less(a, b) || a == b || Less(b, a)
    ensures Less(a, b) ==> !Less(b, a) && a != b
  {
    if a != "" && b != "" && a[0] == b[0] {
      LessIsTotal(a[1..], b[1..]);
      assert a == [a[0]] + a[1..] && b == [b[0]] + b[1..];
    }
  }

  lemma {:induction false} LessIsTransitive(a: string, b: string, c: string)
    requires Less(a, b) && Less(b, c)
    ensures Less(a, c)
  {
    if a != "" && a[0] == b[0] == c[0] {
      LessIsTransitive(a[1..], b[1..], c[1..]);
    }
  }

  /** A strict order: no two elements precede each other. */
  ghost predicate Strict<T(!new)>(before: (T, T) -> bool) {
    && (forall x, y :: before(x, y) ==> !before(y, x))
    && (forall x, y, z :: before(x, y) && before(y, z) ==> before(x, z))
  }

  ghost predicate Ascending<T(!new)>(s: seq<T>, before: (T, T) -> bool) {
    forall i, j :: 0 <= i < j < |s| ==> before(s[i], s[j])
  }

  /** Any two elements of the collection that differ are in order one way or the other. */
  ghost predicate Comparable<T(!new)>(s: seq<T>, before: (T, T) -> bool) {
    forall i, j :: 0 <= i < j < |s| ==> before(s[i], s[j]) || before(s[j], s[i])
  }

  function Insert<T>(s: seq<T>, x: T, before: (T, T) -> bool): (r: seq<T>)
    ensures multiset(r) == multiset(s) + multiset{x}
    ensures |r| == |s| + 1
  {
    if s == [] then [x]
    else
      var n := |s| - 1;
      assert s == s[..n] + [s[n]];
      if before(x, s[n]) then Insert(s[..n], x, before) + [s[n]] else s + [x]
  }

  /** Insertion sort; stands for the library sort the program calls. */
  function SortBy<T>(s: seq<T>, before: (T, T) -> bool): (r: seq<T>)
    ensures multiset(r) == multiset(s)
    ensures |r| == |s|
  {
    if s == [] then []
    else
      var n := |s| - 1;
      assert s == s[..n] + [s[n]];
      var r := Insert(SortBy(s[..n], before), s[n], before);
      assert |r| == |multiset(r)|;
      r
  }

  lemma {:induction false} InsertAscends<T(!new)>(s: seq<T>, x: T, before: (T, T) -> bool)
    requires Strict(before) && Ascending(s, before)
    requires forall i :: 0 <= i < |s| ==> before(s[i], x) || before(x, s[i])
    ensures Ascending(Insert(s, x, before), before)
  {
    if s != [] {
      var n := |s| - 1;
      if before(x, s[n]) {
        InsertAscends(s[..n], x, before);
        var r := Insert(s[..n], x, before);
        forall i | 0 <= i < |r|
          ensures before(r[i], s[n])
        {
          assert r[i] in multiset(r);
          assert r[i] == x || r[i] in s[..n];
        }
      }
    }
  }

  /** Sorting comparable elements puts them in ascending order. */
  lemma {:induction false} SortByAscends<T(!new)>(s: seq<T>, before: (T, T) -> bool)
    requires Strict(before) && Comparable(s, before)
    ensures Ascending(SortBy(s, before), before)
  {
    if s != [] {
      var n := |s| - 1;
      SortByAscends(s[..n], before);
      var r := SortBy(s[..n], before);
      forall i | 0 <= i < |r|
        ensures before(r[i], s[n]) || before(s[n], r[i])
      {
        assert r[i] in multiset(r);
        assert r[i] in s[..n];
      }
      InsertAscends(r, s[n], before);
    }
  }

  /** Ascending sequences with the same elements are the same sequence. */
  lemma {:induction false} AscendingIsUnique<T(!new)>(s: seq<T>, t: seq<T>, before: (T, T) -> bool)
    requires Strict(before) && Ascending(s, before) && Ascending(t, before)
    requires forall x :: x in s <==> x in t
    ensures s == t
    decreases |s|
  {
    if s == [] {
      forall x
        ensures x !in multiset(t)
      {
        assert x in multiset(t) <==> x in t;
      }
      assert |t| == |multiset(t)|;
    } else {
      assert s[0] in t && t[0] in s;
      assert s[0] == t[0];
      forall x
        ensures x in s[1..] <==> x in t[1..]
      {
        assert x in s <==> x == s[0] || x in s[1..];
        assert x in t <==> x == t[0] || x in t[1..];
        assert s[0] !in s[1..] && t[0] !in t[1..];
      }
      AscendingIsUnique(s[1..], t[1..], before);
      assert s == [s[0]] + s[1..] && t == [t[0]] + t[1..];
    }
  }
}
