/**
 * The Kotlin collection operations the view models chain together
 * (`filter`, `sumOf`, the key order of `groupBy`, `sortedByDescending`),
 * as functions on sequences, with the facts about them the aggregations need.
 */
module Collections {

  import opened Wrappers

  /** The elements of `s` that satisfy `p`, in their order in `s` (`filter`). */
  function Filter<T>(s: seq<T>, p: T -> bool): (r: seq<T>)
    ensures |r| <= |s|
    ensures forall i :: 0 <= i < |r| ==> r[i] in s && p(r[i])
  {
    if s == [] then [] else (if p(s[0]) then [s[0]] else []) + Filter(s[1..], p)
  }

  /** The position of the first element of `s` that satisfies `p`, if any (`indexOfFirst`). */
  function FindIndex<T>(s: seq<T>, p: T -> bool): (r: Option<nat>)
    ensures r.None? ==> forall i :: 0 <= i < |s| ==> !p(s[i])
    ensures r.Some? ==> r.value < |s| && p(s[r.value]) && forall i :: 0 <= i < r.value ==> !p(s[i])
  {
    if s == [] then None
    else if p(s[0]) then Some(0)
    else match FindIndex(s[1..], p)
      case None => None
      case Some(i) => Some(i + 1)
  }

  /** The first element of `s` that satisfies `p`, if any (`find`). */
  function Find<T>(s: seq<T>, p: T -> bool): (r: Option<T>)
    ensures r.None? <==> forall i :: 0 <= i < |s| ==> !p(s[i])
    ensures r.Some? ==> exists i :: 0 <= i < |s| && s[i] == r.value && p(s[i]) && forall j :: 0 <= j < i ==> !p(s[j])
  {
    match FindIndex(s, p)
    case None => None
    case Some(i) => Some(s[i])
  }

  /** `filter` on a list with a first element. */
  lemma FilterCons<T>(x: T, s: seq<T>, p: T -> bool)
    ensures Filter([x] + s, p) == (if p(x) then [x] else []) + Filter(s, p)
  {
    assert ([x] + s)[1..] == s;
  }

  /** An element of a list occurs in any permutation of it. */
  lemma PermutedElement<T>(a: seq<T>, b: seq<T>, k: nat)
    requires multiset(a) == multiset(b) && k < |a|
    ensures exists j :: 0 <= j < |b| && b[j] == a[k]
  {
    assert a[k] in multiset(b);
  }

  /** `filter` drops no element that satisfies the predicate. */
  lemma {:induction false} FilterKeeps<T>(s: seq<T>, p: T -> bool)
    ensures forall i :: 0 <= i < |s| && p(s[i]) ==> s[i] in Filter(s, p)
  {
    if s != [] {
      FilterKeeps(s[1..], p);
      assert forall i :: 1 <= i < |s| ==> s[i] == s[1..][i - 1];
    }
  }

  function Not<T>(p: T -> bool): T -> bool
  {
    x => !p(x)
  }

  /** The sum of `w` over `s` (`sumOf`). */
  function SumOf<T>(s: seq<T>, w: T -> real): real
  {
    if s == [] then 0.0 else w(s[0]) + SumOf(s[1..], w)
  }

  predicate Distinct<K(==)>(s: seq<K>)
  {
    forall i, j :: 0 <= i < j < |s| ==> s[i] != s[j]
  }

  /**
   * The keys of `s` under `key`, each once, in the order of their first
   * occurrence: the key order of the map `groupBy` builds.
   */
  function DistinctKeys<T, K(==)>(s: seq<T>, key: T -> K): (r: seq<K>)
    ensures Distinct(r)
    ensures forall j :: 0 <= j < |s| ==> key(s[j]) in r
  {
    if s == [] then []
    else
      var r0 := DistinctKeys(s[..|s| - 1], key);
      var k := key(s[|s| - 1]);
      assert s == s[..|s| - 1] + [s[|s| - 1]];
      if k in r0 then r0 else r0 + [k]
  }
  /** Every key `DistinctKeys` lists is the key of some element. */
  lemma {:induction false} DistinctKeysOrigin<T, K>(s: seq<T>, key: T -> K)
    ensures forall i :: 0 <= i < |DistinctKeys(s, key)| ==>
      exists j :: 0 <= j < |s| && key(s[j]) == DistinctKeys(s, key)[i]
  {
    if s != [] {
      var init := s[..|s| - 1];
      var r0 := DistinctKeys(init, key);
      DistinctKeysOrigin(init, key);
      forall i | 0 <= i < |DistinctKeys(s, key)|
        ensures exists j :: 0 <= j < |s| && key(s[j]) == DistinctKeys(s, key)[i]
      {
        if i < |r0| {
          var j :| 0 <= j < |init| && key(init[j]) == r0[i];
          assert s[j] == init[j];
        } else {
          assert key(s[|s| - 1]) == DistinctKeys(s, key)[i];
        }
      }
    } else {
      assert DistinctKeys(s, key) == [];
    }
  }


  /**
   * The keys come in the order of their first occurrence: wherever a later
   * key occurs in `s`, an earlier key has already occurred before it.
   */
  predicate FirstSeenOrder<T, K(==)>(s: seq<T>, key: T -> K, r: seq<K>)
  {
    forall i, j, q :: 0 <= i < j < |r| && 0 <= q < |s| && key(s[q]) == r[j] ==>
      exists p :: 0 <= p < q && key(s[p]) == r[i]
  }

  lemma {:induction false} DistinctKeysFirstSeen<T, K>(s: seq<T>, key: T -> K)
    ensures FirstSeenOrder(s, key, DistinctKeys(s, key))
  {
    var r := DistinctKeys(s, key);
    forall i, j, q | 0 <= i < j < |r| && 0 <= q < |s| && key(s[q]) == r[j]
      ensures exists p :: 0 <= p < q && key(s[p]) == r[i]
    {
      FirstSeenAt(s, key, i, j, q);
    }
  }

  /** One instance of `FirstSeenOrder`, by induction on the list. */
  lemma {:induction false} FirstSeenAt<T, K>(s: seq<T>, key: T -> K, i: nat, j: nat, q: nat)
    requires i < j < |DistinctKeys(s, key)| && q < |s| && key(s[q]) == DistinctKeys(s, key)[j]
    ensures exists p :: 0 <= p < q && key(s[p]) == DistinctKeys(s, key)[i]
  {
    var init, last := s[..|s| - 1], |s| - 1;
    var r0, r := DistinctKeys(init, key), DistinctKeys(s, key);
    assert r[..|r0|] == r0;
    DistinctKeysOrigin(init, key);
    if j < |r0| {
      assert r[i] == r0[i] && r[j] == r0[j];
      var q' := q;
      if q == last {
        q' :| 0 <= q' < |init| && key(init[q']) == r0[j];
      }
      assert init[q'] == s[q'];
      FirstSeenAt(init, key, i, j, q');
      var p :| 0 <= p < q' && key(init[p]) == r0[i];
      assert s[p] == init[p];
    } else {
      assert r[i] == r0[i];
      var p :| 0 <= p < |init| && key(init[p]) == r0[i];
      assert s[p] == init[p];
    }
  }

  /** The selector of one group of `groupBy(key)`. */
  function HasKey<T, K(==)>(key: T -> K, k: K): T -> bool
  {
    x => key(x) == k
  }

  /** The sum of `w` over each group of `s` whose key is in `ks`, added up over `ks`. */
  function SumOverGroups<T, K(==)>(s: seq<T>, ks: seq<K>, key: T -> K, w: T -> real): real
  {
    if ks == [] then 0.0
    else SumOf(Filter(s, HasKey(key, ks[0])), w) + SumOverGroups(s, ks[1..], key, w)
  }

  lemma {:induction false} FilterConcat<T>(a: seq<T>, b: seq<T>, p: T -> bool)
    ensures Filter(a + b, p) == Filter(a, p) + Filter(b, p)
  {
    if a == [] {
      assert a + b == b;
    } else {
      assert (a + b)[1..] == a[1..] + b;
      FilterConcat(a[1..], b, p);
    }
  }

  lemma {:induction false} SumOfConcat<T>(a: seq<T>, b: seq<T>, w: T -> real)
    ensures SumOf(a + b, w) == SumOf(a, w) + SumOf(b, w)
  {
    if a == [] {
      assert a + b == b;
    } else {
      assert (a + b)[1..] == a[1..] + b;
      SumOfConcat(a[1..], b, w);
    }
  }

  /** Filtering by `p` and by its negation splits `s` into two parts that together hold all of it. */
  lemma {:induction false} FilterSplits<T>(s: seq<T>, p: T -> bool)
    ensures multiset(Filter(s, p)) + multiset(Filter(s, Not(p))) == multiset(s)
  {
    if s != [] {
      FilterSplits(s[1..], p);
      var yes := if p(s[0]) then [s[0]] else [];
      var no := if Not(p)(s[0]) then [s[0]] else [];
      assert Filter(s, p) == yes + Filter(s[1..], p);
      assert Filter(s, Not(p)) == no + Filter(s[1..], Not(p));
      assert multiset(yes) + multiset(no) == multiset([s[0]]);
      assert s == [s[0]] + s[1..];
    }
  }

  /** The sums over the two parts of that split add up to the sum over `s`. */
  lemma {:induction false} SumOfSplits<T>(s: seq<T>, p: T -> bool, w: T -> real)
    ensures SumOf(Filter(s, p), w) + SumOf(Filter(s, Not(p)), w) == SumOf(s, w)
  {
    if s != [] {
      SumOfSplits(s[1..], p, w);
      var head := if p(s[0]) then [s[0]] else [];
      var rest := Filter(s[1..], p);
      SumOfConcat(head, rest, w);
      SumOfConcat(if Not(p)(s[0]) then [s[0]] else [], Filter(s[1..], Not(p)), w);
    }
  }

  /** Two selectors that agree on the elements of `s` select the same elements. */
  lemma {:induction false} FilterAgree<T>(s: seq<T>, p: T -> bool, q: T -> bool)
    requires forall x :: x in s ==> p(x) == q(x)
    ensures Filter(s, p) == Filter(s, q)
  {
    if s != [] {
      FilterAgree(s[1..], p, q);
    }
  }

  /** A selector every element satisfies selects all of `s`. */
  lemma {:induction false} FilterKeepsAll<T>(s: seq<T>, p: T -> bool)
    requires forall x :: x in s ==> p(x)
    ensures Filter(s, p) == s
  {
    if s != [] {
      FilterKeepsAll(s[1..], p);
    }
  }

  /** Adding `x` in front of `s` adds `w(x)` to the group of `key(x)`, if that key is listed once in `ks`. */
  lemma {:induction false} SumOverGroupsCons<T, K>(x: T, s: seq<T>, ks: seq<K>, key: T -> K, w: T -> real)
    requires Distinct(ks)
    ensures SumOverGroups([x] + s, ks, key, w)
         == SumOverGroups(s, ks, key, w) + (if key(x) in ks then w(x) else 0.0)
  {
    if ks != [] {
      assert ([x] + s)[0] == x && ([x] + s)[1..] == s;
      var head := if HasKey(key, ks[0])(x) then [x] else [];
      SumOfConcat(head, Filter(s, HasKey(key, ks[0])), w);
      assert Distinct(ks[1..]);
      SumOverGroupsCons(x, s, ks[1..], key, w);
      assert key(x) in ks <==> key(x) == ks[0] || key(x) in ks[1..];
      assert key(x) == ks[0] ==> key(x) !in ks[1..];
    }
  }

  /**
   * Grouping by a key and adding up the group sums gives the sum over the
   * whole sequence, whenever every key of `s` is listed exactly once.
   */
  lemma {:induction false} SumOverGroupsCovers<T, K>(s: seq<T>, ks: seq<K>, key: T -> K, w: T -> real)
    requires Distinct(ks)
    requires forall x :: x in s ==> key(x) in ks
    ensures SumOverGroups(s, ks, key, w) == SumOf(s, w)
  {
    if s == [] {
      SumOverGroupsEmpty(ks, key, w);
    } else {
      assert s == [s[0]] + s[1..];
      SumOverGroupsCons(s[0], s[1..], ks, key, w);
      SumOverGroupsCovers(s[1..], ks, key, w);
    }
  }

  lemma {:induction false} SumOverGroupsEmpty<T, K>(ks: seq<K>, key: T -> K, w: T -> real)
    ensures SumOverGroups([], ks, key, w) == 0.0
  {
    if ks != [] {
      SumOverGroupsEmpty(ks[1..], key, w);
    }
  }

  /** The group sums over the keys `groupBy` finds add up to the total. */
  lemma GroupSumsAddUp<T, K>(s: seq<T>, key: T -> K, w: T -> real)
    ensures SumOverGroups(s, DistinctKeys(s, key), key, w) == SumOf(s, w)
  {
    SumOverGroupsCovers(s, DistinctKeys(s, key), key, w);
  }

  /** `x` placed before the first element of `s` that weighs no more than it. */
  function InsertDesc<T>(x: T, s: seq<T>, w: T -> real): seq<T>
  {
    if s == [] || w(s[0]) <= w(x) then [x] + s else [s[0]] + InsertDesc(x, s[1..], w)
  }

  /**
   * `sortedByDescending(w)`: heaviest first, and stable: elements of equal
   * weight keep their order in `s`.
   */
  function SortDesc<T>(s: seq<T>, w: T -> real): seq<T>
  {
    if s == [] then [] else InsertDesc(s[0], SortDesc(s[1..], w), w)
  }

  predicate SortedDesc<T>(s: seq<T>, w: T -> real)
  {
    forall i, j :: 0 <= i < j < |s| ==> w(s[j]) <= w(s[i])
  }

  /** No two elements of `s` share a key. */
  predicate DistinctBy<T, K(==)>(s: seq<T>, key: T -> K)
  {
    forall i, j :: 0 <= i < j < |s| ==> key(s[i]) != key(s[j])
  }

  /** The selector of the elements of weight `v`. */
  function WeighsExactly<T>(w: T -> real, v: real): T -> bool
  {
    x => w(x) == v
  }

  lemma {:induction false} InsertDescPermutes<T>(x: T, s: seq<T>, w: T -> real)
    ensures multiset(InsertDesc(x, s, w)) == multiset{x} + multiset(s)
  {
    if !(s == [] || w(s[0]) <= w(x)) {
      InsertDescPermutes(x, s[1..], w);
      assert s == [s[0]] + s[1..];
    }
  }

  lemma {:induction false} InsertDescSorted<T>(x: T, s: seq<T>, w: T -> real)
    requires SortedDesc(s, w)
    ensures SortedDesc(InsertDesc(x, s, w), w)
  {
    if !(s == [] || w(s[0]) <= w(x)) {
      InsertDescSorted(x, s[1..], w);
      InsertDescPermutes(x, s[1..], w);
      var r := InsertDesc(x, s[1..], w);
      forall k | 0 <= k < |r| ensures w(r[k]) <= w(s[0]) {
        assert r[k] in multiset(r);
        assert r[k] == x || r[k] in s[1..];
      }
    }
  }

  lemma {:induction false} InsertDescStable<T>(x: T, s: seq<T>, w: T -> real, v: real)
    ensures Filter(InsertDesc(x, s, w), WeighsExactly(w, v))
         == (if w(x) == v then [x] else []) + Filter(s, WeighsExactly(w, v))
  {
    var p := WeighsExactly(w, v);
    if s == [] || w(s[0]) <= w(x) {
      FilterCons(x, s, p);
    } else {
      InsertDescStable(x, s[1..], w, v);
      FilterCons(s[0], InsertDesc(x, s[1..], w), p);
      FilterCons(s[0], s[1..], p);
      assert s == [s[0]] + s[1..];
    }
  }

  lemma {:induction false} InsertDescSum<T>(x: T, s: seq<T>, w: T -> real, u: T -> real)
    ensures SumOf(InsertDesc(x, s, w), u) == u(x) + SumOf(s, u)
  {
    if s == [] || w(s[0]) <= w(x) {
      assert ([x] + s)[1..] == s;
    } else {
      InsertDescSum(x, s[1..], w, u);
      assert ([s[0]] + InsertDesc(x, s[1..], w))[1..] == InsertDesc(x, s[1..], w);
    }
  }

  lemma {:induction false} InsertDescDistinct<T, K>(x: T, s: seq<T>, w: T -> real, key: T -> K)
    requires DistinctBy(s, key)
    requires forall i :: 0 <= i < |s| ==> key(s[i]) != key(x)
    ensures DistinctBy(InsertDesc(x, s, w), key)
  {
    if !(s == [] || w(s[0]) <= w(x)) {
      InsertDescDistinct(x, s[1..], w, key);
      InsertDescPermutes(x, s[1..], w);
      var r := InsertDesc(x, s[1..], w);
      forall k | 0 <= k < |r| ensures key(r[k]) != key(s[0]) {
        assert r[k] in multiset(r);
        assert r[k] == x || r[k] in s[1..];
      }
    }
  }

  /** The sort rearranges `s`: it neither adds, drops nor duplicates an element. */
  lemma {:induction false} SortDescPermutes<T>(s: seq<T>, w: T -> real)
    ensures multiset(SortDesc(s, w)) == multiset(s)
  {
    if s != [] {
      SortDescPermutes(s[1..], w);
      InsertDescPermutes(s[0], SortDesc(s[1..], w), w);
      assert s == [s[0]] + s[1..];
    }
  }

  /** The sort puts the heaviest first. */
  lemma {:induction false} SortDescSorted<T>(s: seq<T>, w: T -> real)
    ensures SortedDesc(SortDesc(s, w), w)
  {
    if s != [] {
      SortDescSorted(s[1..], w);
      InsertDescSorted(s[0], SortDesc(s[1..], w), w);
    }
  }

  /** The sort is stable: the elements of any one weight appear in the order they had in `s`. */
  lemma {:induction false} SortDescStable<T>(s: seq<T>, w: T -> real, v: real)
    ensures Filter(SortDesc(s, w), WeighsExactly(w, v)) == Filter(s, WeighsExactly(w, v))
  {
    if s != [] {
      SortDescStable(s[1..], w, v);
      InsertDescStable(s[0], SortDesc(s[1..], w), w, v);
    }
  }

  /** Sums are unchanged by the sort. */
  lemma {:induction false} SortDescSum<T>(s: seq<T>, w: T -> real, u: T -> real)
    ensures SumOf(SortDesc(s, w), u) == SumOf(s, u)
  {
    if s != [] {
      SortDescSum(s[1..], w, u);
      InsertDescSum(s[0], SortDesc(s[1..], w), w, u);
    }
  }

  /** Elements with pairwise distinct keys keep them distinct after the sort. */
  lemma {:induction false} SortDescDistinct<T, K>(s: seq<T>, w: T -> real, key: T -> K)
    requires DistinctBy(s, key)
    ensures DistinctBy(SortDesc(s, w), key)
  {
    if s != [] {
      assert DistinctBy(s[1..], key);
      SortDescDistinct(s[1..], w, key);
      SortDescPermutes(s[1..], w);
      var r := SortDesc(s[1..], w);
      forall k | 0 <= k < |r| ensures key(r[k]) != key(s[0]) {
        assert r[k] in multiset(r);
        assert r[k] in s[1..];
      }
      InsertDescDistinct(s[0], r, w, key);
    }
  }

  /** `x` placed before the first element of `s` that does not come before it. */
  function InsertBy<T>(x: T, s: seq<T>, before: (T, T) -> bool): seq<T>
  {
    if s == [] || !before(s[0], x) then [x] + s else [s[0]] + InsertBy(x, s[1..], before)
  }

  /** Insertion sort by the strict order `before` (the key order of a sorted map). */
  function SortBy<T>(s: seq<T>, before: (T, T) -> bool): seq<T>
  {
    if s == [] then [] else InsertBy(s[0], SortBy(s[1..], before), before)
  }

  predicate SortedBy<T>(s: seq<T>, before: (T, T) -> bool)
  {
    forall i, j :: 0 <= i < j < |s| ==> before(s[i], s[j])
  }

  /** On the elements of `u`, `before` is total and transitive. */
  ghost predicate TotalOrderOn<T>(u: seq<T>, before: (T, T) -> bool)
  {
    && (forall a, b :: a in u && b in u && a != b ==> before(a, b) || before(b, a))
    && (forall a, b, c :: a in u && b in u && c in u && before(a, b) && before(b, c) ==> before(a, c))
  }

  lemma {:induction false} InsertByPermutes<T>(x: T, s: seq<T>, before: (T, T) -> bool)
    ensures multiset(InsertBy(x, s, before)) == multiset{x} + multiset(s)
  {
    if !(s == [] || !before(s[0], x)) {
      InsertByPermutes(x, s[1..], before);
      assert s == [s[0]] + s[1..];
    }
  }

  lemma {:induction false} InsertBySorted<T>(x: T, s: seq<T>, before: (T, T) -> bool, u: seq<T>)
    requires TotalOrderOn(u, before)
    requires x in u && forall i :: 0 <= i < |s| ==> s[i] in u
    requires SortedBy(s, before) && x !in s
    ensures SortedBy(InsertBy(x, s, before), before)
  {
    if s == [] {
    } else if !before(s[0], x) {
      assert s[0] in u && x != s[0];
      forall j | 1 <= j < |s| ensures before(x, s[j]) {
        assert s[j] in u;
      }
    } else {
      InsertBySorted(x, s[1..], before, u);
      InsertByPermutes(x, s[1..], before);
      var r := InsertBy(x, s[1..], before);
      forall j | 0 <= j < |r| ensures before(s[0], r[j]) {
        assert r[j] in multiset(r);
        assert r[j] == x || r[j] in s[1..];
      }
    }
  }

  lemma {:induction false} SortByPermutes<T>(s: seq<T>, before: (T, T) -> bool)
    ensures multiset(SortBy(s, before)) == multiset(s)
  {
    if s != [] {
      SortByPermutes(s[1..], before);
      InsertByPermutes(s[0], SortBy(s[1..], before), before);
      assert s == [s[0]] + s[1..];
    }
  }

  /** Distinct elements on which `before` is a total order come out sorted by it. */
  lemma {:induction false} SortBySorted<T>(s: seq<T>, before: (T, T) -> bool, u: seq<T>)
    requires TotalOrderOn(u, before)
    requires Distinct(s) && forall i :: 0 <= i < |s| ==> s[i] in u
    ensures SortedBy(SortBy(s, before), before)
  {
    if s != [] {
      assert Distinct(s[1..]);
      SortBySorted(s[1..], before, u);
      SortByPermutes(s[1..], before);
      var r := SortBy(s[1..], before);
      assert s[0] !in multiset(s[1..]);
      forall i | 0 <= i < |r| ensures r[i] in u {
        assert r[i] in multiset(s[1..]);
      }
      InsertBySorted(s[0], r, before, u);
    }
  }

  lemma {:induction false} InsertByDistinct<T>(x: T, s: seq<T>, before: (T, T) -> bool)
    requires Distinct(s) && x !in s
    ensures Distinct(InsertBy(x, s, before))
  {
    if !(s == [] || !before(s[0], x)) {
      assert Distinct(s[1..]);
      InsertByDistinct(x, s[1..], before);
      InsertByPermutes(x, s[1..], before);
      var r := InsertBy(x, s[1..], before);
      forall k | 0 <= k < |r| ensures r[k] != s[0] {
        assert r[k] in multiset(r);
        assert r[k] == x || r[k] in s[1..];
      }
    }
  }

  lemma {:induction false} SortByDistinct<T>(s: seq<T>, before: (T, T) -> bool)
    requires Distinct(s)
    ensures Distinct(SortBy(s, before))
  {
    if s != [] {
      assert Distinct(s[1..]);
      SortByDistinct(s[1..], before);
      SortByPermutes(s[1..], before);
      assert s[0] !in multiset(s[1..]);
      InsertByDistinct(s[0], SortBy(s[1..], before), before);
    }
  }

  /** The group of each key of `ks` under `key`, in the order of `ks`. */
  function GroupsOf<T, K(==)>(s: seq<T>, ks: seq<K>, key: T -> K): (r: seq<(K, seq<T>)>)
    ensures |r| == |ks|
  {
    if ks == [] then [] else [(ks[0], Filter(s, HasKey(key, ks[0])))] + GroupsOf(s, ks[1..], key)
  }

  /** The `g`-th group is the `g`-th key with its elements, in their order in `s`. */
  lemma {:induction false} GroupsOfAt<T, K>(s: seq<T>, ks: seq<K>, key: T -> K, g: nat)
    requires g < |ks|
    ensures GroupsOf(s, ks, key)[g] == (ks[g], Filter(s, HasKey(key, ks[g])))
  {
    if g > 0 {
      GroupsOfAt(s, ks[1..], key, g - 1);
    }
  }

  /** `groupBy(key).toSortedMap(comparator)`: the groups, their keys sorted by `before`. */
  function SortedGroups<T, K(==)>(s: seq<T>, key: T -> K, before: (K, K) -> bool): seq<(K, seq<T>)>
  {
    GroupsOf(s, SortBy(DistinctKeys(s, key), before), key)
  }

  /** The keys of the groups follow `before`, when it is a total order on them. */
  lemma SortedGroupsOrdered<T, K>(s: seq<T>, key: T -> K, before: (K, K) -> bool)
    requires TotalOrderOn(DistinctKeys(s, key), before)
    ensures var r := SortedGroups(s, key, before);
      forall g, h :: 0 <= g < h < |r| ==> before(r[g].0, r[h].0)
  {
    var ks := DistinctKeys(s, key);
    var sorted := SortBy(ks, before);
    SortBySorted(ks, before, ks);
    forall g, h | 0 <= g < h < |sorted| ensures before(SortedGroups(s, key, before)[g].0, SortedGroups(s, key, before)[h].0) {
      GroupsOfAt(s, sorted, key, g);
      GroupsOfAt(s, sorted, key, h);
    }
  }

  /** Each group holds the elements with its key, in their order in `s`, and is not empty. */
  lemma SortedGroupsAt<T, K>(s: seq<T>, key: T -> K, before: (K, K) -> bool, g: nat)
    requires g < |SortedGroups(s, key, before)|
    ensures var r := SortedGroups(s, key, before);
      r[g].1 == Filter(s, HasKey(key, r[g].0)) && r[g].1 != []
  {
    var ks := DistinctKeys(s, key);
    var sorted := SortBy(ks, before);
    SortByPermutes(ks, before);
    GroupsOfAt(s, sorted, key, g);
    DistinctKeysOrigin(s, key);
    assert sorted[g] in multiset(ks);
    var m :| 0 <= m < |ks| && ks[m] == sorted[g];
    var j :| 0 <= j < |s| && key(s[j]) == ks[m];
    FilterKeeps(s, HasKey(key, sorted[g]));
    assert s[j] in SortedGroups(s, key, before)[g].1;
  }

  /** Every element lies in exactly one group, the one of its key. */
  lemma SortedGroupsPartition<T, K>(s: seq<T>, key: T -> K, before: (K, K) -> bool, i: nat)
    requires i < |s|
    ensures var r := SortedGroups(s, key, before);
      exists g :: 0 <= g < |r| && r[g].0 == key(s[i]) && s[i] in r[g].1
        && forall h :: 0 <= h < |r| && s[i] in r[h].1 ==> h == g
  {
    var ks := DistinctKeys(s, key);
    var sorted := SortBy(ks, before);
    var r := SortedGroups(s, key, before);
    SortByPermutes(ks, before);
    SortByDistinct(ks, before);
    var m :| 0 <= m < |ks| && ks[m] == key(s[i]);
    PermutedElement(ks, sorted, m);
    var g :| 0 <= g < |sorted| && sorted[g] == key(s[i]);
    GroupsOfAt(s, sorted, key, g);
    FilterKeeps(s, HasKey(key, sorted[g]));
    assert s[i] in r[g].1;
    forall h | 0 <= h < |r| && s[i] in r[h].1 ensures h == g {
      GroupsOfAt(s, sorted, key, h);
      var k :| 0 <= k < |r[h].1| && r[h].1[k] == s[i];
      assert HasKey(key, sorted[h])(r[h].1[k]);
    }
  }
}
