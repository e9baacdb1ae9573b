/**
 * The collection idioms the Python code relies on: `sorted(xs, key = ...)`
 * (a stable sort), turning a set into a list, and the
 * "dict of lists filled in one pass" grouping, whose key order is first
 * occurrence (dict insertion order).
 */
module Collections {
  import opened Text

  /** A comparison that orders every pair and chains: what `sorted` needs of `<=` on its keys. */
  ghost predicate TotalPreorder<K(!new)>(le: (K, K) -> bool) {
    (forall a, b :: le(a, b) || le(b, a))
    && (forall a, b, c :: le(a, b) && le(b, c) ==> le(a, c))
  }

  ghost predicate SortedBy<T, K>(s: seq<T>, key: T -> K, le: (K, K) -> bool) {
    forall i, j :: 0 <= i < j < |s| ==> le(key(s[i]), key(s[j]))
  }

  /** `<=` on integer keys. */
  predicate IntLe(a: int, b: int) {
    a <= b
  }

  lemma IntLeTotal()
    ensures TotalPreorder(IntLe)
  {
  }

  /** A bound on every key survives any reordering. */
  lemma LowerBoundByMultiset<T, K>(t: seq<T>, r: seq<T>, key: T -> K, le: (K, K) -> bool, b: K)
    requires forall i | 0 <= i < |t| :: le(b, key(t[i]))
    requires multiset(r) == multiset(t)
    ensures forall i | 0 <= i < |r| :: le(b, key(r[i]))
  {
    forall i | 0 <= i < |r| ensures le(b, key(r[i])) {
      assert r[i] in multiset(t);
      var j :| 0 <= j < |t| && t[j] == r[i];
    }
  }

  /** Python's string `<=` is a total preorder, so strings can be sorted. */
  lemma LexLeTotal()
    ensures TotalPreorder(LexLe)
  {
    forall x, y ensures LexLe(x, y) || LexLe(y, x) {
      LexTrichotomy(x, y);
    }
    forall x, y, z | LexLe(x, y) && LexLe(y, z) ensures LexLe(x, z) {
      if LexLess(x, y) && LexLess(y, z) {
        LexTransitive(x, y, z);
      }
    }
  }

  /** Puts `x` before the first element whose key is not below its own, so equal keys keep their order. */
  function Insert<T, K(!new)>(x: T, s: seq<T>, key: T -> K, le: (K, K) -> bool): (r: seq<T>)
    requires TotalPreorder(le) && SortedBy(s, key, le)
    ensures SortedBy(r, key, le) && multiset(r) == multiset(s) + multiset{x}
  {
    if s == [] then [x]
    else if le(key(x), key(s[0])) then [x] + s
    else
      var tail := s[1..];
      var rest := Insert(x, tail, key, le);
      assert multiset(rest) == multiset(tail + [x]);
      LowerBoundByMultiset(tail + [x], rest, key, le, key(s[0]));
      assert s == [s[0]] + tail;
      [s[0]] + rest
  }

  /** `sorted(s, key = key)`: a reordering of `s` whose keys never decrease. */
  function SortBy<T, K(!new)>(s: seq<T>, key: T -> K, le: (K, K) -> bool): (r: seq<T>)
    requires TotalPreorder(le)
    ensures SortedBy(r, key, le) && multiset(r) == multiset(s)
  {
    if s == [] then []
    else
      assert s == [s[0]] + s[1..];
      Insert(s[0], SortBy(s[1..], key, le), key, le)
  }

  /** `r` lists the members of `s`, each exactly once. */
  ghost predicate Enumerates<T>(r: seq<T>, s: set<T>) {
    (forall i :: 0 <= i < |r| ==> r[i] in s)
    && (forall x | x in s :: x in r)
    && (forall i, j :: 0 <= i < j < |r| ==> r[i] != r[j])
  }

  lemma RepeatCounts<T>(r: seq<T>, i: int, j: int)
    requires 0 <= i < j < |r|
    ensures r[i] == r[j] ==> multiset(r)[r[i]] >= 2
  {
    assert r == r[..i] + [r[i]] + r[i + 1..j] + [r[j]] + r[j + 1..];
  }

  /** Any reordering of a list that enumerates a set enumerates it too. */
  lemma EnumeratesByMultiset<T>(r: seq<T>, s: set<T>)
    requires multiset(r) == multiset(s)
    ensures Enumerates(r, s)
  {
    forall i | 0 <= i < |r| ensures r[i] in s {
      assert r[i] in multiset(r);
    }
    forall x | x in s ensures x in r {
      assert x in multiset(s);
    }
    forall i, j | 0 <= i < j < |r| ensures r[i] != r[j] {
      RepeatCounts(r, i, j);
      assert multiset(s)[r[i]] <= 1;
    }
  }

  /** Dropping the last element of an enumeration enumerates the set without it. */
  lemma EnumeratesFront<T>(r: seq<T>, s: set<T>)
    requires Enumerates(r, s) && r != []
    ensures Enumerates(r[..|r| - 1], s - {r[|r| - 1]})
  {
    var n := |r| - 1;
    var front := r[..n];
    forall y | y in s - {r[n]} ensures y in front {
      var i :| 0 <= i < |r| && r[i] == y;
      assert front[i] == y;
    }
  }

  /** A list that enumerates a set holds each member exactly once. */
  lemma {:induction false} EnumeratesMultiset<T>(r: seq<T>, s: set<T>)
    requires Enumerates(r, s)
    ensures multiset(r) == multiset(s)
    decreases |r|
  {
    if r == [] {
      assert s == {};
    } else {
      var n := |r| - 1;
      EnumeratesFront(r, s);
      EnumeratesMultiset(r[..n], s - {r[n]});
      assert r == r[..n] + [r[n]];
      assert s == (s - {r[n]}) + {r[n]};
    }
  }

  /** `list(s)`: the members of a set in some order. */
  method SetToSeq<T>(s: set<T>) returns (r: seq<T>)
    ensures multiset(r) == multiset(s) && Enumerates(r, s)
  {
    r := [];
    var rest := s;
    while rest != {}
      invariant rest <= s
      invariant multiset(r) == multiset(s - rest)
      decreases rest
    {
      var x :| x in rest;
      assert s - (rest - {x}) == (s - rest) + {x};
      r := r + [x];
      rest := rest - {x};
    }
    assert s - rest == s;
    EnumeratesByMultiset(r, s);
  }

  /** A reordering of a list without repeats has no repeats. */
  lemma DistinctByMultiset<T>(r: seq<T>, s: seq<T>)
    requires multiset(r) == multiset(s)
    requires forall i, j | 0 <= i < j < |s| :: s[i] != s[j]
    ensures forall i, j | 0 <= i < j < |r| :: r[i] != r[j]
  {
    var members := set x | x in s;
    EnumeratesMultiset(s, members);
    EnumeratesByMultiset(r, members);
  }

  /** `[x for x in s if key(x) == k]`. */
  function Filter<T, K(==)>(s: seq<T>, key: T -> K, k: K): seq<T> {
    if s == [] then []
    else Filter(s[..|s| - 1], key, k) + (if key(s[|s| - 1]) == k then [s[|s| - 1]] else [])
  }

  /** The kept elements are elements of `s` with key `k`, and there are no more of them than of `s`. */
  lemma {:induction false} FilterSpec<T, K>(s: seq<T>, key: T -> K, k: K)
    ensures |Filter(s, key, k)| <= |s|
    ensures forall i | 0 <= i < |Filter(s, key, k)| :: Filter(s, key, k)[i] in s && key(Filter(s, key, k)[i]) == k
    decreases |s|
  {
    if s != [] {
      var p := s[..|s| - 1];
      FilterSpec(p, key, k);
      forall i | 0 <= i < |Filter(p, key, k)| ensures Filter(p, key, k)[i] in s {
        var j :| 0 <= j < |p| && p[j] == Filter(p, key, k)[i];
        assert s[j] == p[j];
      }
    }
  }

  /** Two keys that pick out the same elements of `s` filter it the same way. */
  lemma {:induction false} FilterSameClass<T, K, L>(s: seq<T>, key1: T -> K, k1: K, key2: T -> L, k2: L)
    requires forall i | 0 <= i < |s| :: key1(s[i]) == k1 <==> key2(s[i]) == k2
    ensures Filter(s, key1, k1) == Filter(s, key2, k2)
    decreases |s|
  {
    if s != [] {
      FilterSameClass(s[..|s| - 1], key1, k1, key2, k2);
    }
  }

  /** A list without repeats has as many members as elements. */
  lemma {:induction false} DistinctCount<T>(s: seq<T>)
    requires forall i, j | 0 <= i < j < |s| :: s[i] != s[j]
    ensures |set x | x in s| == |s|
    decreases |s|
  {
    if s != [] {
      var p := s[..|s| - 1];
      var x := s[|s| - 1];
      DistinctCount(p);
      assert (set y | y in s) == (set y | y in p) + {x};
      assert x !in (set y | y in p);
    }
  }

  /** The distinct keys of `s`, in the order they first occur. */
  function FirstOccurrences<T, K(==)>(s: seq<T>, key: T -> K): seq<K> {
    if s == [] then []
    else
      var p := FirstOccurrences(s[..|s| - 1], key);
      var k := key(s[|s| - 1]);
      if k in p then p else p + [k]
  }

  /** Each key of `s` is listed, exactly once, and nothing else is. */
  lemma {:induction false} FirstOccurrencesSpec<T, K>(s: seq<T>, key: T -> K)
    ensures var r := FirstOccurrences(s, key);
            (forall i, j | 0 <= i < j < |r| :: r[i] != r[j])
            && (forall i | 0 <= i < |s| :: key(s[i]) in r)
            && (forall j | 0 <= j < |r| :: exists i | 0 <= i < |s| :: key(s[i]) == r[j])
    decreases |s|
  {
    if s != [] {
      var p := s[..|s| - 1];
      FirstOccurrencesSpec(p, key);
      var r := FirstOccurrences(s, key);
      var q := FirstOccurrences(p, key);
      forall i | 0 <= i < |s| ensures key(s[i]) in r {
        if i < |p| {
          assert s[i] == p[i];
        }
      }
      forall j | 0 <= j < |r| ensures exists i | 0 <= i < |s| :: key(s[i]) == r[j] {
        if j < |q| {
          var i :| 0 <= i < |p| && key(p[i]) == q[j];
          assert s[i] == p[i];
        } else {
          assert key(s[|s| - 1]) == r[j];
        }
      }
    }
  }

  /** One more element of `s` taken: the prefix grows by exactly that element. */
  lemma PrefixSnoc<T>(s: seq<T>, i: nat)
    requires i < |s|
    ensures s[..i + 1] == s[..i] + [s[i]] && s[..i + 1][..i] == s[..i]
  {
  }

  lemma FilterSnoc<T, K>(s: seq<T>, x: T, key: T -> K, k: K)
    ensures Filter(s + [x], key, k) == Filter(s, key, k) + (if key(x) == k then [x] else [])
  {
    assert (s + [x])[..|s|] == s;
  }

  lemma FirstOccurrencesSnoc<T, K>(s: seq<T>, x: T, key: T -> K)
    ensures FirstOccurrences(s + [x], key)
            == FirstOccurrences(s, key) + (if key(x) in FirstOccurrences(s, key) then [] else [key(x)])
  {
    assert (s + [x])[..|s|] == s;
  }

  /** `keys` and `groups` are what the one-pass grouping holds after reading `s`. */
  ghost predicate Grouped<T, K>(s: seq<T>, key: T -> K, keys: seq<K>, groups: map<K, seq<T>>) {
    keys == FirstOccurrences(s, key)
    && (forall k | k in groups :: k in keys)
    && (forall k | k in keys :: k in groups)
    && (forall k | k in groups :: groups[k] == Filter(s, key, k))
  }

  /** One more element whose key already has a list: it is appended there. */
  lemma GroupedSnocKnown<T, K>(s: seq<T>, x: T, key: T -> K, keys: seq<K>, groups: map<K, seq<T>>)
    requires Grouped(s, key, keys, groups) && key(x) in groups
    ensures Grouped(s + [x], key, keys, groups[key(x) := groups[key(x)] + [x]])
  {
    var after := groups[key(x) := groups[key(x)] + [x]];
    assert keys == FirstOccurrences(s + [x], key) by {
      FirstOccurrencesSnoc(s, x, key);
    }
    forall k | k in after ensures after[k] == Filter(s + [x], key, k) {
      FilterSnoc(s, x, key, k);
    }
  }

  /** One more element with a key not seen before: the key is appended and its list holds just that element. */
  lemma GroupedSnocNew<T, K>(s: seq<T>, x: T, key: T -> K, keys: seq<K>, groups: map<K, seq<T>>)
    requires Grouped(s, key, keys, groups) && key(x) !in groups
    ensures Grouped(s + [x], key, keys + [key(x)], groups[key(x) := [x]])
  {
    var k := key(x);
    var after := groups[k := [x]];
    assert keys + [k] == FirstOccurrences(s + [x], key) by {
      FirstOccurrencesSnoc(s, x, key);
    }
    assert Filter(s, key, k) == [] by {
      FirstOccurrencesSpec(s, key);
      assert forall i :: 0 <= i < |s| ==> key(s[i]) != k;
      FilterOfAbsentKey(s, key, k);
    }
    forall k' | k' in after ensures after[k'] == Filter(s + [x], key, k') {
      FilterSnoc(s, x, key, k');
    }
  }

  /**
   * The one-pass grouping `if k not in groups: groups[k] = []` / `groups[k].append(x)`:
   * the keys in first-occurrence order, and for each key the elements with that key in input order.
   */
  method GroupInOrder<T, K(==)>(s: seq<T>, key: T -> K) returns (keys: seq<K>, groups: map<K, seq<T>>)
    ensures Grouped(s, key, keys, groups)
  {
    keys := [];
    groups := map[];
    for i := 0 to |s|
      invariant Grouped(s[..i], key, keys, groups)
    {
      var k := key(s[i]);
      assert s[..i + 1] == s[..i] + [s[i]];
      if k in groups {
        GroupedSnocKnown(s[..i], s[i], key, keys, groups);
        groups := groups[k := groups[k] + [s[i]]];
      } else {
        // a new key opens a list holding the element
        GroupedSnocNew(s[..i], s[i], key, keys, groups);
        groups := groups[k := [s[i]]];
        keys := keys + [k];
      }
    }
    assert s[..|s|] == s;
  }

  /** Total size of the groups of the listed keys. */
  function GroupSizes<T, K(==)>(ks: seq<K>, s: seq<T>, key: T -> K): nat {
    if ks == [] then 0 else |Filter(s, key, ks[0])| + GroupSizes(ks[1..], s, key)
  }

  lemma {:induction false} GroupSizesStep<T, K>(ks: seq<K>, s: seq<T>, x: T, key: T -> K)
    requires forall i, j :: 0 <= i < j < |ks| ==> ks[i] != ks[j]
    ensures GroupSizes(ks, s + [x], key) == GroupSizes(ks, s, key) + (if key(x) in ks then 1 else 0)
    decreases |ks|
  {
    if ks != [] {
      assert (s + [x])[..|s + [x]| - 1] == s;
      GroupSizesStep(ks[1..], s, x, key);
      if key(x) == ks[0] {
        assert key(x) !in ks[1..];
      }
    }
  }

  lemma {:induction false} GroupSizesAppendKey<T, K>(ks: seq<K>, k: K, s: seq<T>, key: T -> K)
    ensures GroupSizes(ks + [k], s, key) == GroupSizes(ks, s, key) + |Filter(s, key, k)|
    decreases |ks|
  {
    if ks == [] {
      assert [k][1..] == [];
    } else {
      assert (ks + [k])[1..] == ks[1..] + [k];
      GroupSizesAppendKey(ks[1..], k, s, key);
    }
  }

  lemma {:induction false} FilterOfAbsentKey<T, K>(s: seq<T>, key: T -> K, k: K)
    requires forall i :: 0 <= i < |s| ==> key(s[i]) != k
    ensures Filter(s, key, k) == []
    decreases |s|
  {
    if s != [] {
      FilterOfAbsentKey(s[..|s| - 1], key, k);
    }
  }

  /** Every element is in the group of its own key. */
  lemma {:induction false} FilterOwnKey<T, K>(s: seq<T>, key: T -> K)
    ensures forall i | 0 <= i < |s| :: s[i] in Filter(s, key, key(s[i]))
    decreases |s|
  {
    if s != [] {
      var p := s[..|s| - 1];
      FilterOwnKey(p, key);
      forall i | 0 <= i < |s| ensures s[i] in Filter(s, key, key(s[i])) {
        if i < |p| {
          assert s[i] == p[i];
        }
      }
    }
  }

  /**
   * The grouping is a partition: every element lands in the group of its own key,
   * and the group sizes add up to the input's length, so nothing is counted twice.
   */
  lemma {:induction false} GroupsPartition<T, K>(s: seq<T>, key: T -> K)
    ensures forall i | 0 <= i < |s| :: s[i] in Filter(s, key, key(s[i]))
    ensures GroupSizes(FirstOccurrences(s, key), s, key) == |s|
    decreases |s|
  {
    FilterOwnKey(s, key);
    if s != [] {
      var p := s[..|s| - 1];
      var x := s[|s| - 1];
      assert s == p + [x];
      GroupsPartition(p, key);
      var ks := FirstOccurrences(p, key);
      FirstOccurrencesSpec(p, key);
      GroupSizesStep(ks, p, x, key);
      if key(x) !in ks {
        GroupSizesAppendKey(ks, key(x), s, key);
        assert forall i | 0 <= i < |p| :: key(p[i]) != key(x);
        FilterOfAbsentKey(p, key, key(x));
      }
    }
  }

  /** How many elements of `s` satisfy `p` (a counter bumped in a loop). */
  function Count<T>(s: seq<T>, p: T -> bool): (n: nat)
    ensures n <= |s|
  {
    if s == [] then 0 else Count(s[..|s| - 1], p) + (if p(s[|s| - 1]) then 1 else 0)
  }

  /** Counting a prefix one element longer. */
  lemma CountStep<T>(s: seq<T>, i: nat, p: T -> bool)
    requires i < |s|
    ensures Count(s[..i + 1], p) == Count(s[..i], p) + (if p(s[i]) then 1 else 0)
  {
    assert s[..i + 1][..i] == s[..i];
  }

  /** What a test counts and what its negation counts make up the whole sequence. */
  lemma {:induction false} CountComplement<T>(s: seq<T>, p: T -> bool, q: T -> bool)
    requires forall x :: q(x) == !p(x)
    ensures Count(s, p) + Count(s, q) == |s|
    decreases |s|
  {
    if s != [] {
      CountComplement(s[..|s| - 1], p, q);
    }
  }

  lemma {:induction false} CountConcat<T>(a: seq<T>, b: seq<T>, p: T -> bool)
    ensures Count(a + b, p) == Count(a, p) + Count(b, p)
    decreases |b|
  {
    if b != [] {
      var c := b[..|b| - 1];
      assert (a + b)[..|a + b| - 1] == a + c;
      assert (a + b)[|a + b| - 1] == b[|b| - 1];
      CountConcat(a, c, p);
    } else {
      assert a + b == a;
    }
  }

  /** A count does not depend on the order of the elements. */
  lemma {:induction false} CountPermutation<T>(s: seq<T>, t: seq<T>, p: T -> bool)
    requires multiset(s) == multiset(t)
    ensures Count(s, p) == Count(t, p)
    decreases |s|
  {
    if s != [] {
      var x := s[|s| - 1];
      var rest := s[..|s| - 1];
      assert s == rest + [x];
      assert x in multiset(t);
      var i :| 0 <= i < |t| && t[i] == x;
      var others := t[..i] + t[i + 1..];
      assert t == t[..i] + [x] + t[i + 1..];
      assert multiset(others) == multiset(t) - multiset{x};
      CountPermutation(rest, others, p);
      CountConcat(rest, [x], p);
      CountConcat(t[..i] + [x], t[i + 1..], p);
      CountConcat(t[..i], [x], p);
      CountConcat(t[..i], t[i + 1..], p);
    }
  }

  /** A piece of a piece of a sequence is a piece of the sequence. */
  lemma SliceOfSlice<T>(s: seq<T>, p: nat, q: nat, a: nat, b: nat)
    requires p <= q <= |s| && a <= b <= q - p
    ensures s[p..q][a..b] == s[p + a..p + b]
  {
    var u, v := s[p..q][a..b], s[p + a..p + b];
    assert |u| == |v|;
    forall k | 0 <= k < |u| ensures u[k] == v[k] {
      assert u[k] == s[p..q][a + k] == s[p + a + k];
    }
  }
}
