/**
 Label sets in the Prometheus text exposition format 0.0.4, as
 internal/metrics/metrics.go renders them, and a reader for that format.
 */
module Labels {
  import opened Wrappers
  import opened Ordering

  datatype Pair = Pair(key: string, value: string)

  // ----- rendering -----

  predicate ByKey(p: Pair, q: Pair) {
    Less(p.key, q.key)
  }

  /** The flat argument list as pairs; a missing last value is filled in. */
  function PairsOf(labels: seq<string>): (pairs: seq<Pair>)
    ensures |pairs| == (|labels| + 1) / 2
  {
    if |labels| == 0 then []
    else if |labels| == 1 then [Pair(labels[0], "INVALID")]
    else [Pair(labels[0], labels[1])] + PairsOf(labels[2..])
  }

  /** Arguments 2i and 2i + 1 are pair i; a key at the end without a value gets "INVALID". */
  lemma {:induction false} PairsInWords(labels: seq<string>, i: nat)
    requires i < |PairsOf(labels)|
    ensures 2 * i < |labels| && PairsOf(labels)[i].key == labels[2 * i]
    ensures PairsOf(labels)[i].value == if 2 * i + 1 < |labels| then labels[2 * i + 1] else "INVALID"
  {
    if 0 < i {
      PairsInWords(labels[2..], i - 1);
    }
  }

  function EscapeChar(c: char): string {
    if c == '\\' then ['\\', '\\']
    else if c == '"' then ['\\', '"']
    else if c == '\n' then ['\\', 'n']
    else [c]
  }

  function Escape(v: string): string {
    if v == "" then "" else EscapeChar(v[0]) + Escape(v[1..])
  }

  function Item(p: Pair): string {
    p.key + ['=', '"'] + Escape(p.value) + ['"']
  }

  /** The items with commas between them; `first` says that no item comes before. */
  function Items(pairs: seq<Pair>, first: bool): string {
    if pairs == [] then "" else (if first then "" else [',']) + Item(pairs[0]) + Items(pairs[1..], false)
  }

  function Rendered(pairs: seq<Pair>): string {
    if pairs == [] then "" else ['{'] + Items(pairs, true) + ['}']
  }

  function SortedPairs(labels: seq<string>): seq<Pair> {
    SortBy(PairsOf(labels), ByKey)
  }

  method RenderLabels(labels: seq<string>) returns (s: string)
    ensures s == Rendered(SortedPairs(labels))
  {
    if |labels| == 0 {
      return "";
    }
    var all := labels;
    if |labels| % 2 != 0 {
      all := labels + ["INVALID"];
    }
    PairsOfPadded(labels);
    var pairs := CollectPairs(all);
    pairs := SortBy(pairs, ByKey);
    s := WritePairs(pairs);
  }

  method CollectPairs(labels: seq<string>) returns (pairs: seq<Pair>)
    requires |labels| % 2 == 0
    ensures pairs == PairsOf(labels)
  {
    assert PairsOf([]) == [];
    hide *;
    pairs := [];
    var i := 0;
    assert labels[..0] == [];
    while i < |labels|
      invariant i % 2 == 0 && i <= |labels|
      invariant pairs == PairsOf(labels[..i])
    {
      PairsOfStep(labels, i);
      pairs := pairs + [Pair(labels[i], labels[i + 1])];
      i := i + 2;
    }
    assert labels[..i] == labels;
  }

  lemma {:induction false} PairsOfStep(all: seq<string>, i: nat)
    requires i % 2 == 0 && i + 1 < |all|
    ensures PairsOf(all[..i + 2]) == PairsOf(all[..i]) + [Pair(all[i], all[i + 1])]
    decreases |all|
  {
    if i == 0 {
      assert all[..2][2..] == [] && all[..0] == [];
    } else {
      PairsOfStep(all[2..], i - 2);
      assert all[..i + 2][2..] == all[2..][..i] && all[..i][2..] == all[2..][..i - 2];
    }
  }

  method WritePairs(pairs: seq<Pair>) returns (s: string)
    requires pairs != []
    ensures s == Rendered(pairs)
  {
    WrittenAll(pairs);
    hide Items, Item;
    var b := ['{'];
    for n := 0 to |pairs|
      invariant b == Written(pairs, n)
    {
      if n > 0 {
        b := b + [','];
      }
      b := b + Item(pairs[n]);
    }
    s := b + ['}'];
  }

  /** The text after the first `n` pairs have been written. */
  function Written(pairs: seq<Pair>, n: nat): string
    requires n <= |pairs|
  {
    if n == 0 then ['{']
    else if n == 1 then ['{'] + Item(pairs[0])
    else Written(pairs, n - 1) + [','] + Item(pairs[n - 1])
  }

  lemma {:induction false} WrittenSoFar(pairs: seq<Pair>, n: nat)
    requires n <= |pairs|
    ensures Written(pairs, n) + Items(pairs[n..], n == 0) == ['{'] + Items(pairs, true)
  {
    hide *;
    if n == 0 {
      WrittenNothing(pairs);
    } else {
      WrittenSoFar(pairs, n - 1);
      WrittenStep(pairs, n - 1);
      ItemsStep(pairs, n - 1);
      Glue(Written(pairs, n - 1), if n == 1 then "" else [','], Item(pairs[n - 1]), Items(pairs[n..], false),
        Items(pairs[n - 1..], n == 1), Written(pairs, n), ['{'] + Items(pairs, true));
    }
  }

  lemma Glue(a: string, b: string, c: string, d: string, bcd: string, abc: string, whole: string)
    requires bcd == b + c + d && abc == a + b + c && a + bcd == whole
    ensures abc + d == whole
  {}

  lemma WrittenNothing(pairs: seq<Pair>)
    ensures Written(pairs, 0) + Items(pairs[0..], true) == ['{'] + Items(pairs, true)
  {
    assert pairs[0..] == pairs;
  }

  lemma WrittenStep(pairs: seq<Pair>, n: nat)
    requires n < |pairs|
    ensures Written(pairs, n + 1) == Written(pairs, n) + (if n == 0 then "" else [',']) + Item(pairs[n])
  {}

  lemma WrittenAll(pairs: seq<Pair>)
    requires pairs != []
    ensures Written(pairs, |pairs|) + ['}'] == Rendered(pairs)
  {
    hide Items, Written;
    WrittenSoFar(pairs, |pairs|);
    assert pairs[|pairs|..] == [];
    ItemsUnfold([], false);
    var w := Written(pairs, |pairs|);
    assert w + "" == w;
  }

  lemma ItemsStep(pairs: seq<Pair>, n: nat)
    requires n < |pairs|
    ensures Items(pairs[n..], n == 0) == (if n == 0 then "" else [',']) + Item(pairs[n]) + Items(pairs[n + 1..], false)
  {
    assert pairs[n..][1..] == pairs[n + 1..];
  }

  lemma Reassociate(a: string, b: string, c: string, d: string)
    ensures a + (b + c + d) == a + b + c + d
    ensures b == "" ==> a + b == a && b + c + d == c + d
    ensures a + (c + d) == a + c + d
  {}

  lemma {:induction false} PairsOfPadded(labels: seq<string>)
    ensures PairsOf(if |labels| % 2 == 0 then labels else labels + ["INVALID"]) == PairsOf(labels)
  {
    if |labels| == 1 {
      assert (labels + ["INVALID"])[2..] == [];
    } else if |labels| > 1 {
      PairsOfPadded(labels[2..]);
      assert (labels + ["INVALID"])[2..] == labels[2..] + ["INVALID"];
    }
  }

  // ----- reading back -----

  predicate IsNameChar(c: char) {
    'a' <= c <= 'z' || 'A' <= c <= 'Z' || '0' <= c <= '9' || c == '_'
  }

  ghost predicate IsName(key: string) {
    forall i :: 0 <= i < |key| ==> IsNameChar(key[i])
  }

  ghost predicate AllNames(pairs: seq<Pair>) {
    forall i :: 0 <= i < |pairs| ==> IsName(pairs[i].key)
  }

  /** Splits off the longest run of name characters. */
  function ReadName(s: string): (r: (string, string))
    ensures |r.1| <= |s|
  {
    if s != "" && IsNameChar(s[0]) then
      var (name, rest) := ReadName(s[1..]);
      ([s[0]] + name, rest)
    else ("", s)
  }

  /** Reads an escaped value up to its closing quote. */
  function ReadValue(s: string): (r: Option<(string, string)>)
    ensures r.Some? ==> |r.value.1| < |s|
  {
    if s == "" then None
    else if s[0] == '"' then Some(("", s[1..]))
    else if s[0] == '\\' then
      if |s| == 1 then None
      else
        var c := if s[1] == 'n' then '\n' else s[1];
        if s[1] != 'n' && s[1] != '\\' && s[1] != '"' then None
        else
          var r := ReadValue(s[2..]);
          if r.None? then None else Some(([c] + r.value.0, r.value.1))
    else
      var r := ReadValue(s[1..]);
      if r.None? then None else Some(([s[0]] + r.value.0, r.value.1))
  }

  /** Reads `name="value"` items up to the closing brace. */
  function ReadItems(s: string): Option<seq<Pair>>
    decreases |s|
  {
    var (name, rest) := ReadName(s);
    if |rest| < 2 || rest[0] != '=' || rest[1] != '"' then None
    else
      var v := ReadValue(rest[2..]);
      if v.None? || v.value.1 == "" then None
      else
        var p, tail := Pair(name, v.value.0), v.value.1;
        if tail == ['}'] then Some([p])
        else if tail[0] != ',' then None
        else
          var more := ReadItems(tail[1..]);
          if more.None? then None else Some([p] + more.value)
  }

  function ReadLabels(s: string): Option<seq<Pair>> {
    if s == "" then Some([])
    else if s[0] != '{' then None
    else ReadItems(s[1..])
  }

  lemma {:induction false} NameRoundTrip(key: string, rest: string)
    requires IsName(key) && rest != "" && !IsNameChar(rest[0])
    ensures ReadName(key + rest) == (key, rest)
  {
    if key == "" {
      assert key + rest == rest;
    } else {
      NameRoundTrip(key[1..], rest);
      assert (key + rest)[1..] == key[1..] + rest;
      assert [key[0]] + key[1..] == key;
    }
  }

  lemma {:induction false} ValueRoundTrip(v: string, rest: string)
    ensures ReadValue(Escape(v) + ['"'] + rest) == Some((v, rest))
  {
    var tail := ['"'] + rest;
    if v == "" {
      assert Escape(v) + ['"'] + rest == tail && tail[1..] == rest;
    } else {
      ValueRoundTrip(v[1..], rest);
      var e, s := EscapeChar(v[0]), Escape(v) + ['"'] + rest;
      var after := Escape(v[1..]) + ['"'] + rest;
      assert s == e + after;
      assert s[|e|..] == after;
      assert [v[0]] + v[1..] == v;
    }
  }

  /** Reading what starts with a rendered item gives that item and goes on behind it. */
  lemma ItemRoundTrip(p: Pair, tail: string)
    requires IsName(p.key) && tail != ""
    ensures ReadItems(Item(p) + tail) ==
      if tail == ['}'] then Some([p])
      else if tail[0] != ',' || ReadItems(tail[1..]).None? then None
      else Some([p] + ReadItems(tail[1..]).value)
  {
    hide Escape, ReadName, ReadValue;
    var quoted := ['=', '"'] + Escape(p.value) + ['"'] + tail;
    NameRoundTrip(p.key, quoted);
    ValueRoundTrip(p.value, tail);
    assert quoted[2..] == Escape(p.value) + ['"'] + tail;
    assert Item(p) + tail == p.key + quoted;
  }

  lemma {:induction false} ItemsRoundTrip(pairs: seq<Pair>)
    requires pairs != [] && AllNames(pairs)
    ensures ReadItems(Items(pairs, true) + ['}']) == Some(pairs)
    decreases |pairs|
  {
    var p, more := pairs[0], pairs[1..];
    assert IsName(p.key) && AllNames(more);
    hide *;
    var tail := Items(more, false) + ['}'];
    ItemsCons(pairs);
    assert Items(pairs, true) + ['}'] == Item(p) + tail;
    ItemRoundTrip(p, tail);
    if more == [] {
      assert tail == ['}'] && pairs == [p];
    } else {
      ItemsRoundTrip(more);
      ItemsCons(more);
      assert tail == [','] + (Items(more, true) + ['}']);
      assert tail[1..] == Items(more, true) + ['}'];
      assert pairs == [p] + more;
    }
  }

  lemma ItemsCons(pairs: seq<Pair>)
    requires pairs != []
    ensures Items(pairs, true) == Item(pairs[0]) + Items(pairs[1..], false)
    ensures Items(pairs, false) == [','] + Items(pairs, true)
    ensures Items([], false) == ""
  {
    ItemsUnfold(pairs, true);
    ItemsUnfold(pairs, false);
    hide *;
    Reassociate([','], "", Item(pairs[0]), Items(pairs[1..], false));
  }

  lemma ItemsUnfold(pairs: seq<Pair>, first: bool)
    ensures pairs != [] ==>
      Items(pairs, first) == (if first then "" else [',']) + Item(pairs[0]) + Items(pairs[1..], false)
    ensures pairs == [] ==> Items(pairs, first) == ""
    ensures Items([], false) == ""
  {}

  lemma RenderedRoundTrip(pairs: seq<Pair>)
    requires AllNames(pairs)
    ensures ReadLabels(Rendered(pairs)) == Some(pairs)
  {
    if pairs != [] {
      hide Items, ReadItems;
      ItemsRoundTrip(pairs);
      assert Rendered(pairs)[1..] == Items(pairs, true) + ['}'];
    }
  }

  // ----- what the rendering of an argument list says -----

  ghost predicate Names(labels: seq<string>) {
    AllNames(PairsOf(labels))
  }

  ghost predicate DistinctKeys(pairs: seq<Pair>) {
    forall i, j :: 0 <= i < j < |pairs| ==> pairs[i].key != pairs[j].key
  }

  lemma ByKeyIsStrict()
    ensures Strict(ByKey)
  {
    forall x, y | ByKey(x, y)
      ensures !ByKey(y, x)
    {
      LessIsTotal(x.key, y.key);
    }
    forall x, y, z | ByKey(x, y) && ByKey(y, z)
      ensures ByKey(x, z)
    {
      LessIsTransitive(x.key, y.key, z.key);
    }
  }

  lemma SortedPairsAscend(labels: seq<string>)
    requires DistinctKeys(PairsOf(labels))
    ensures Ascending(SortedPairs(labels), ByKey)
    ensures multiset(SortedPairs(labels)) == multiset(PairsOf(labels))
  {
    var pairs := PairsOf(labels);
    ByKeyIsStrict();
    forall i, j | 0 <= i < j < |pairs|
      ensures ByKey(pairs[i], pairs[j]) || ByKey(pairs[j], pairs[i])
    {
      LessIsTotal(pairs[i].key, pairs[j].key);
    }
    SortByAscends(pairs, ByKey);
  }

  /** Reading a rendered label set gives back exactly the given pairs, values unescaped, in key order. */
  lemma LabelsRoundTrip(labels: seq<string>)
    requires Names(labels) && DistinctKeys(PairsOf(labels))
    ensures var read := ReadLabels(Rendered(SortedPairs(labels)));
      && read.Some? && multiset(read.value) == multiset(PairsOf(labels))
      && forall i, j :: 0 <= i < j < |read.value| ==> Less(read.value[i].key, read.value[j].key)
  {
    SortedPairsAscend(labels);
    SortedNames(labels);
    RenderedRoundTrip(SortedPairs(labels));
  }

  lemma SortedNames(labels: seq<string>)
    requires Names(labels)
    ensures AllNames(SortedPairs(labels))
  {
    var sorted, pairs := SortedPairs(labels), PairsOf(labels);
    forall i | 0 <= i < |sorted|
      ensures IsName(sorted[i].key)
    {
      assert sorted[i] in multiset(sorted);
      assert sorted[i] in pairs;
    }
  }

  /** The order of the arguments does not matter. */
  lemma OrderDoesNotMatter(a: seq<string>, b: seq<string>)
    requires DistinctKeys(PairsOf(a)) && DistinctKeys(PairsOf(b))
    requires multiset(PairsOf(a)) == multiset(PairsOf(b))
    ensures Rendered(SortedPairs(a)) == Rendered(SortedPairs(b))
  {
    SortedPairsAscend(a);
    SortedPairsAscend(b);
    ByKeyIsStrict();
    var s, t := SortedPairs(a), SortedPairs(b);
    forall x
      ensures x in s <==> x in t
    {
      assert x in s <==> x in multiset(s);
      assert x in t <==> x in multiset(t);
    }
    AscendingIsUnique(s, t, ByKey);
  }

  /** Different label sets never render the same, so they name different series. */
  lemma RenderingIsInjective(a: seq<string>, b: seq<string>)
    requires Names(a) && Names(b)
    requires Rendered(SortedPairs(a)) == Rendered(SortedPairs(b))
    ensures multiset(PairsOf(a)) == multiset(PairsOf(b))
  {
    SortedNames(a);
    SortedNames(b);
    RenderedRoundTrip(SortedPairs(a));
    RenderedRoundTrip(SortedPairs(b));
    assert SortedPairs(a) == SortedPairs(b);
  }

  // ----- the bucket label of a histogram -----

  /** Splices the `le` label into an already rendered label set. */
  function OpenLabels(labels: string, le: string): string {
    if labels == "" then ['{'] + Item(Pair("le", le)) + ['}']
    else labels[..|labels| - 1] + [','] + Item(Pair("le", le)) + ['}']
  }

  lemma {:induction false} ItemsAppend(pairs: seq<Pair>, p: Pair, first: bool)
    requires pairs != [] || !first
    ensures Items(pairs + [p], first) == Items(pairs, first) + [','] + Item(p)
    decreases |pairs|
  {
    hide *;
    var longer := pairs + [p];
    ItemsUnfold(longer, first);
    ItemsUnfold(pairs, first);
    if pairs == [] {
      assert longer[1..] == [] && longer[0] == p;
    } else {
      ItemsAppend(pairs[1..], p, false);
      assert longer[1..] == pairs[1..] + [p];
    }
  }

  /** Splicing the text is the same as rendering the pairs with `le` behind them. */
  lemma OpenLabelsAppends(pairs: seq<Pair>, le: string)
    ensures OpenLabels(Rendered(pairs), le) == Rendered(pairs + [Pair("le", le)])
  {
    hide Items, Item;
    var p := Pair("le", le);
    if pairs == [] {
      assert [] + [p] == [p] && [p][1..] == [];
      ItemsCons([p]);
      assert Items([p], true) == Item(p);
    } else {
      ItemsAppend(pairs, p, true);
      Splice(Items(pairs, true), Item(p));
    }
  }

  lemma Splice(body: string, item: string)
    ensures var s := ['{'] + body + ['}'];
      s[..|s| - 1] + [','] + item + ['}'] == ['{'] + (body + [','] + item) + ['}']
  {
    var s := ['{'] + body + ['}'];
    assert s[..|s| - 1] == ['{'] + body;
  }

  lemma NamesAppend(pairs: seq<Pair>, p: Pair)
    requires AllNames(pairs) && p.key == "le"
    ensures AllNames(pairs + [p])
  {
    assert IsName("le");
    assert IsName(p.key);
  }

  /** A bucket line can be read back: the labels of the series, then the bound. */
  lemma BucketLabelsRoundTrip(labels: seq<string>, le: string)
    requires Names(labels)
    ensures ReadLabels(OpenLabels(Rendered(SortedPairs(labels)), le)) == Some(SortedPairs(labels) + [Pair("le", le)])
  {
    SortedNames(labels);
    NamesAppend(SortedPairs(labels), Pair("le", le));
    hide *;
    OpenLabelsAppends(SortedPairs(labels), le);
    RenderedRoundTrip(SortedPairs(labels) + [Pair("le", le)]);
  }
}
