/**
 * The Kotlin collection operations the view models are built from: `filter`, `count`,
 * the stable `sortedBy`, `groupBy` (an insertion-ordered LinkedHashMap, kept here as a
 * sequence of key/group pairs), `mapValues { it.value.size }` and `minus(element)`.
 */
module Seqs {

  /** `xs.filter(p)`: the elements satisfying `p`, in their original order. */
  function Filter<T>(xs: seq<T>, p: T -> bool): (r: seq<T>)
    ensures |r| <= |xs|
    ensures forall i :: 0 <= i < |r| ==> r[i] in xs && p(r[i])
    ensures forall i :: 0 <= i < |xs| && p(xs[i]) ==> xs[i] in r
  {
    if xs == [] then []
    else if p(xs[0]) then [xs[0]] + Filter(xs[1..], p)
    else Filter(xs[1..], p)
  }

  /** `a` is `b` with some elements left out, the rest in the same order. */
  ghost predicate IsSubsequence<T>(a: seq<T>, b: seq<T>)
    decreases |b|
  {
    if a == [] then true
    else if b == [] then false
    else (a[0] == b[0] && IsSubsequence(a[1..], b[1..])) || IsSubsequence(a, b[1..])
  }

  lemma {:induction false} SubsequenceReflexive<T>(a: seq<T>)
    ensures IsSubsequence(a, a)
    decreases |a|
  {
    if a != [] {
      SubsequenceReflexive(a[1..]);
    }
  }

  lemma {:induction false} SubsequenceTransitive<T>(a: seq<T>, b: seq<T>, c: seq<T>)
    requires IsSubsequence(a, b) && IsSubsequence(b, c)
    ensures IsSubsequence(a, c)
    decreases |c|
  {
    if a != [] {
      assert b != [] && c != [];
      if IsSubsequence(b, c[1..]) {
        SubsequenceTransitive(a, b, c[1..]);
      } else {
        assert b[0] == c[0] && IsSubsequence(b[1..], c[1..]);
        if a[0] == b[0] && IsSubsequence(a[1..], b[1..]) {
          SubsequenceTransitive(a[1..], b[1..], c[1..]);
        } else {
          SubsequenceTransitive(a, b[1..], c[1..]);
        }
      }
    }
  }

  /** Filtering keeps the survivors in input order. */
  lemma {:induction false} FilterIsSubsequence<T>(xs: seq<T>, p: T -> bool)
    ensures IsSubsequence(Filter(xs, p), xs)
  {
    if xs != [] {
      FilterIsSubsequence(xs[1..], p);
      var r := Filter(xs, p);
      if p(xs[0]) {
        assert r[0] == xs[0] && r[1..] == Filter(xs[1..], p);
      }
    }
  }

  /** A filter that every element passes returns its input unchanged. */
  lemma {:induction false} FilterAll<T>(xs: seq<T>, p: T -> bool)
    requires forall i :: 0 <= i < |xs| ==> p(xs[i])
    ensures Filter(xs, p) == xs
  {
    if xs != [] {
      FilterAll(xs[1..], p);
      assert xs == [xs[0]] + xs[1..];
    }
  }

  /** A filter that no element passes returns the empty list. */
  lemma FilterNone<T>(xs: seq<T>, p: T -> bool)
    requires forall i :: 0 <= i < |xs| ==> !p(xs[i])
    ensures Filter(xs, p) == []
  {
  }

  /** Two predicates that agree everywhere filter alike. */
  lemma {:induction false} FilterSame<T>(xs: seq<T>, p: T -> bool, q: T -> bool)
    requires forall x :: p(x) == q(x)
    ensures Filter(xs, p) == Filter(xs, q)
  {
    if xs != [] {
      FilterSame(xs[1..], p, q);
    }
  }

  /** `xs.count(p)`. */
  function Count<T>(xs: seq<T>, p: T -> bool): (n: nat)
    ensures n == |Filter(xs, p)|
  {
    if xs == [] then 0 else (if p(xs[0]) then 1 else 0) + Count(xs[1..], p)
  }

  /** Two predicates that never hold together count at most the whole list between them. */
  lemma {:induction false} CountDisjoint<T>(xs: seq<T>, p: T -> bool, q: T -> bool)
    requires forall i :: 0 <= i < |xs| ==> !(p(xs[i]) && q(xs[i]))
    ensures Count(xs, p) + Count(xs, q) <= |xs|
  {
    if xs != [] {
      CountDisjoint(xs[1..], p, q);
    }
  }

  /** A predicate implied by another counts at least as many elements. */
  lemma {:induction false} CountMonotone<T>(xs: seq<T>, p: T -> bool, q: T -> bool)
    requires forall i :: 0 <= i < |xs| ==> p(xs[i]) ==> q(xs[i])
    ensures Count(xs, p) <= Count(xs, q)
  {
    if xs != [] {
      CountMonotone(xs[1..], p, q);
    }
  }

  /** The elements whose key is `k`, in their original order. */
  function Pick<T, K(==)>(xs: seq<T>, key: T -> K, k: K): (r: seq<T>)
    ensures forall i :: 0 <= i < |r| ==> r[i] in xs && key(r[i]) == k
    ensures forall i :: 0 <= i < |xs| && key(xs[i]) == k ==> xs[i] in r
  {
    if xs == [] then []
    else if key(xs[0]) == k then [xs[0]] + Pick(xs[1..], key, k)
    else Pick(xs[1..], key, k)
  }

  lemma {:induction false} PickAppend<T, K>(a: seq<T>, b: seq<T>, key: T -> K, k: K)
    ensures Pick(a + b, key, k) == Pick(a, key, k) + Pick(b, key, k)
  {
    if a == [] {
      assert a + b == b;
    } else {
      assert (a + b)[0] == a[0] && (a + b)[1..] == a[1..] + b;
      PickAppend(a[1..], b, key, k);
    }
  }

  // ---------------------------------------------------------------------------
  // Stable sorting
  // ---------------------------------------------------------------------------

  /** Places `x` before the first element whose key is not smaller than its own. */
  function Insert<T>(x: T, s: seq<T>, key: T -> int): (r: seq<T>)
    ensures multiset(r) == multiset(s) + multiset{x}
  {
    if s == [] || key(x) <= key(s[0]) then [x] + s
    else
      assert s == [s[0]] + s[1..];
      [s[0]] + Insert(x, s[1..], key)
  }

  /**
   * `xs.sortedBy(key)`: a stable sort by ascending key.  A stable sort has only one
   * possible result, so an insertion sort describes Kotlin's exactly.
   */
  function SortBy<T>(xs: seq<T>, key: T -> int): (r: seq<T>)
    ensures multiset(r) == multiset(xs)
  {
    if xs == [] then []
    else
      assert xs == [xs[0]] + xs[1..];
      Insert(xs[0], SortBy(xs[1..], key), key)
  }

  ghost predicate SortedBy<T>(s: seq<T>, key: T -> int) {
    forall i, j :: 0 <= i < j < |s| ==> key(s[i]) <= key(s[j])
  }

  /** Inserting keeps every key at or above a bound that `x` and `s` respect. */
  lemma {:induction false} InsertBounded<T>(x: T, s: seq<T>, key: T -> int, b: int)
    requires b <= key(x)
    requires forall i :: 0 <= i < |s| ==> b <= key(s[i])
    ensures forall i :: 0 <= i < |Insert(x, s, key)| ==> b <= key(Insert(x, s, key)[i])
  {
    if s != [] && key(x) > key(s[0]) {
      InsertBounded(x, s[1..], key, b);
    }
  }

  lemma {:induction false} InsertSorted<T>(x: T, s: seq<T>, key: T -> int)
    requires SortedBy(s, key)
    ensures SortedBy(Insert(x, s, key), key)
  {
    if s != [] && key(x) > key(s[0]) {
      InsertSorted(x, s[1..], key);
      var tail := Insert(x, s[1..], key);
      InsertBounded(x, s[1..], key, key(s[0]));
      var r := Insert(x, s, key);
      assert r == [s[0]] + tail;
      forall i, j | 0 <= i < j < |r|
        ensures key(r[i]) <= key(r[j])
      {
        assert r[j] == tail[j - 1];
        if i > 0 {
          assert r[i] == tail[i - 1];
        }
      }
    }
  }

  lemma {:induction false} SortBySorted<T>(xs: seq<T>, key: T -> int)
    ensures SortedBy(SortBy(xs, key), key)
  {
    if xs != [] {
      SortBySorted(xs[1..], key);
      InsertSorted(xs[0], SortBy(xs[1..], key), key);
    }
  }

  lemma {:induction false} InsertPick<T>(x: T, s: seq<T>, key: T -> int, k: int)
    ensures Pick(Insert(x, s, key), key, k) == if key(x) == k then [x] + Pick(s, key, k) else Pick(s, key, k)
  {
    var r := Insert(x, s, key);
    if s == [] || key(x) <= key(s[0]) {
      assert r[0] == x && r[1..] == s;
    } else {
      InsertPick(x, s[1..], key, k);
      assert r[0] == s[0] && r[1..] == Insert(x, s[1..], key);
    }
  }

  /** Stability: among elements with equal keys the sort keeps the input order. */
  lemma {:induction false} SortByStable<T>(xs: seq<T>, key: T -> int, k: int)
    ensures Pick(SortBy(xs, key), key, k) == Pick(xs, key, k)
  {
    if xs != [] {
      SortByStable(xs[1..], key, k);
      InsertPick(xs[0], SortBy(xs[1..], key), key, k);
    }
  }

  /** Picking by a negated key for j picks the same elements as the key for -j. */
  lemma {:induction false} PickNegated<T>(xs: seq<T>, neg: T -> int, key: T -> int, j: int)
    requires forall x :: neg(x) == -key(x)
    ensures Pick(xs, neg, j) == Pick(xs, key, -j)
  {
    if xs != [] {
      PickNegated(xs[1..], neg, key, j);
    }
  }

  /**
   * A descending sort, written as the ascending sort on the negated key, is stable on
   * the original key too.
   */
  lemma SortByNegatedStable<T>(xs: seq<T>, neg: T -> int, key: T -> int, j: int)
    requires forall x :: neg(x) == -key(x)
    ensures Pick(SortBy(xs, neg), key, -j) == Pick(xs, key, -j)
  {
    var r := SortBy(xs, neg);
    PickNegated(r, neg, key, j);
    SortByStable(xs, neg, j);
    PickNegated(xs, neg, key, j);
  }

  // ---------------------------------------------------------------------------
  // groupBy and counting per key
  // ---------------------------------------------------------------------------

  /** The keys of `xs`, element by element. */
  function MapKeys<T, K>(xs: seq<T>, key: T -> K): (ks: seq<K>)
    ensures |ks| == |xs|
  {
    seq(|xs|, i requires 0 <= i < |xs| => key(xs[i]))
  }

  /** Each value once, in the order of its first occurrence. */
  function FirstOccurrences<K(==)>(ks: seq<K>): (d: seq<K>)
  {
    if ks == [] then []
    else
      var prefix := FirstOccurrences(ks[..|ks| - 1]);
      if ks[|ks| - 1] in prefix then prefix else prefix + [ks[|ks| - 1]]
  }

  ghost predicate Distinct<K>(ks: seq<K>) {
    forall i, j :: 0 <= i < j < |ks| ==> ks[i] != ks[j]
  }

  lemma {:induction false} FirstOccurrencesCorrect<K>(ks: seq<K>)
    ensures Distinct(FirstOccurrences(ks))
    ensures forall k :: k in FirstOccurrences(ks) <==> k in ks
  {
    if ks != [] {
      var n := |ks| - 1;
      FirstOccurrencesCorrect(ks[..n]);
      assert ks == ks[..n] + [ks[n]];
    }
  }

  /** The keys of a key/value list, in order. */
  function Keys<K, V>(ps: seq<(K, V)>): (ks: seq<K>)
    ensures |ks| == |ps|
  {
    seq(|ps|, i requires 0 <= i < |ps| => ps[i].0)
  }

  /** The groups' contents one after another. */
  function Flatten<K, T>(gs: seq<(K, seq<T>)>): seq<T> {
    if gs == [] then [] else gs[0].1 + Flatten(gs[1..])
  }

  /** Appends `x` to the group of key `k`, opening a new last group if there is none. */
  function AddToGroup<T, K(==)>(gs: seq<(K, seq<T>)>, k: K, x: T): seq<(K, seq<T>)>
  {
    if gs == [] then [(k, [x])]
    else if gs[0].0 == k then [(k, gs[0].1 + [x])] + gs[1..]
    else [gs[0]] + AddToGroup(gs[1..], k, x)
  }

  /** `xs.groupBy(key)`: each element goes, in input order, to the group of its key. */
  function GroupBy<T, K(==)>(xs: seq<T>, key: T -> K): seq<(K, seq<T>)>
  {
    if xs == [] then []
    else
      var n := |xs| - 1;
      AddToGroup(GroupBy(xs[..n], key), key(xs[n]), xs[n])
  }

  lemma {:induction false} AddToGroupShape<T, K>(gs: seq<(K, seq<T>)>, k: K, x: T)
    requires Distinct(Keys(gs))
    ensures k in Keys(gs) ==>
      |AddToGroup(gs, k, x)| == |gs| &&
      forall j :: 0 <= j < |gs| ==>
        AddToGroup(gs, k, x)[j] == (if gs[j].0 == k then (k, gs[j].1 + [x]) else gs[j])
    ensures k !in Keys(gs) ==> AddToGroup(gs, k, x) == gs + [(k, [x])]
  {
    if gs != [] {
      assert Keys(gs[1..]) == Keys(gs)[1..];
      AddToGroupShape(gs[1..], k, x);
      if gs[0].0 == k {
        assert Keys(gs)[0] == k;
        forall j | 1 <= j < |gs|
          ensures gs[j].0 != k
        {
          assert Keys(gs)[j] == gs[j].0;
        }
      } else {
        assert k in Keys(gs) <==> k in Keys(gs[1..]);
      }
    }
  }

  lemma {:induction false} FlattenAddToGroup<T, K>(gs: seq<(K, seq<T>)>, k: K, x: T)
    ensures multiset(Flatten(AddToGroup(gs, k, x))) == multiset(Flatten(gs)) + multiset{x}
  {
    if gs != [] && gs[0].0 != k {
      FlattenAddToGroup(gs[1..], k, x);
    }
  }

  ghost predicate WellGrouped<T, K>(gs: seq<(K, seq<T>)>, xs: seq<T>, key: T -> K) {
    && Keys(gs) == FirstOccurrences(MapKeys(xs, key))
    && (forall i :: 0 <= i < |gs| ==> gs[i].1 == Pick(xs, key, gs[i].0))
    && multiset(Flatten(gs)) == multiset(xs)
  }

  lemma {:induction false} MapKeysSnoc<T, K>(ys: seq<T>, x: T, key: T -> K)
    ensures MapKeys(ys + [x], key) == MapKeys(ys, key) + [key(x)]
  {
  }

  lemma FirstOccurrencesSnoc<K>(ks: seq<K>, k: K)
    ensures FirstOccurrences(ks + [k]) ==
      if k in FirstOccurrences(ks) then FirstOccurrences(ks) else FirstOccurrences(ks) + [k]
  {
    assert (ks + [k])[..|ks|] == ks;
  }

  /** Adding one element to the groups of `ys` gives the groups of `ys + [x]`. */
  lemma AddToKeys<T, K>(gs: seq<(K, seq<T>)>, ys: seq<T>, x: T, key: T -> K)
    requires Keys(gs) == FirstOccurrences(MapKeys(ys, key))
    ensures Keys(AddToGroup(gs, key(x), x)) == FirstOccurrences(MapKeys(ys + [x], key))
  {
    var k := key(x);
    FirstOccurrencesCorrect(MapKeys(ys, key));
    AddToGroupShape(gs, k, x);
    MapKeysSnoc(ys, x, key);
    FirstOccurrencesSnoc(MapKeys(ys, key), k);
    var r := AddToGroup(gs, k, x);
    if k in Keys(gs) {
      forall j | 0 <= j < |gs|
        ensures Keys(r)[j] == Keys(gs)[j]
      {
      }
      assert Keys(r) == Keys(gs);
    } else {
      assert Keys(r) == Keys(gs) + [k];
    }
  }

  lemma PickSnoc<T, K>(ys: seq<T>, x: T, key: T -> K, k: K)
    ensures Pick(ys + [x], key, k) == Pick(ys, key, k) + (if key(x) == k then [x] else [])
  {
    PickAppend(ys, [x], key, k);
  }

  /** No element carries a key that is missing from the key list. */
  lemma {:induction false} PickAbsent<T, K>(ys: seq<T>, key: T -> K, k: K)
    requires k !in MapKeys(ys, key)
    ensures Pick(ys, key, k) == []
  {
    if ys != [] {
      assert MapKeys(ys, key)[0] == key(ys[0]);
      assert MapKeys(ys[1..], key) == MapKeys(ys, key)[1..];
      PickAbsent(ys[1..], key, k);
    }
  }

  lemma AddToGroupPicks<T, K>(gs: seq<(K, seq<T>)>, ys: seq<T>, x: T, key: T -> K)
    requires WellGrouped(gs, ys, key)
    ensures var r := AddToGroup(gs, key(x), x);
      forall i :: 0 <= i < |r| ==> r[i].1 == Pick(ys + [x], key, r[i].0)
  {
    var k := key(x);
    FirstOccurrencesCorrect(MapKeys(ys, key));
    AddToGroupShape(gs, k, x);
    var r := AddToGroup(gs, k, x);
    if k in Keys(gs) {
      forall i | 0 <= i < |r| ensures r[i].1 == Pick(ys + [x], key, r[i].0) {
        assert r[i] == (if gs[i].0 == k then (k, gs[i].1 + [x]) else gs[i]);
        PickSnoc(ys, x, key, gs[i].0);
      }
    } else {
      PickAbsent(ys, key, k);
      forall i | 0 <= i < |r| ensures r[i].1 == Pick(ys + [x], key, r[i].0) {
        if i < |gs| {
          assert r[i] == gs[i];
          assert Keys(gs)[i] == gs[i].0;
          PickSnoc(ys, x, key, gs[i].0);
        } else {
          PickSnoc(ys, x, key, k);
        }
      }
    }
  }

  lemma {:induction false} GroupByWellGrouped<T, K>(xs: seq<T>, key: T -> K)
    ensures WellGrouped(GroupBy(xs, key), xs, key)
  {
    if xs != [] {
      var n := |xs| - 1;
      var ys, x := xs[..n], xs[n];
      assert xs == ys + [x];
      var gs := GroupBy(ys, key);
      GroupByWellGrouped(ys, key);
      AddToKeys(gs, ys, x, key);
      AddToGroupPicks(gs, ys, x, key);
      FlattenAddToGroup(gs, key(x), x);
    }
  }

  /**
   * What `groupBy` promises: the keys are the distinct keys of the input in order of first
   * occurrence, each group holds exactly the elements with its key in input order and is
   * never empty, and together the groups are a permutation of the input.
   */
  lemma GroupByCorrect<T, K>(xs: seq<T>, key: T -> K)
    ensures Keys(GroupBy(xs, key)) == FirstOccurrences(MapKeys(xs, key))
    ensures Distinct(Keys(GroupBy(xs, key)))
    ensures forall k :: k in Keys(GroupBy(xs, key)) <==> k in MapKeys(xs, key)
    ensures forall i :: 0 <= i < |GroupBy(xs, key)| ==>
      GroupBy(xs, key)[i].1 == Pick(xs, key, GroupBy(xs, key)[i].0) && GroupBy(xs, key)[i].1 != []
    ensures multiset(Flatten(GroupBy(xs, key))) == multiset(xs)
  {
    var gs := GroupBy(xs, key);
    GroupByWellGrouped(xs, key);
    FirstOccurrencesCorrect(MapKeys(xs, key));
    forall i | 0 <= i < |gs| ensures gs[i].1 != [] {
      assert Keys(gs)[i] == gs[i].0;
      assert gs[i].0 in MapKeys(xs, key);
      var j :| 0 <= j < |xs| && MapKeys(xs, key)[j] == gs[i].0;
      assert xs[j] in Pick(xs, key, gs[i].0);
    }
  }

  function SumCounts<K>(cs: seq<(K, nat)>): nat {
    if cs == [] then 0 else cs[0].1 + SumCounts(cs[1..])
  }

  /** The entry of each group: its key and its size. */
  function Sizes<T, K>(gs: seq<(K, seq<T>)>): (cs: seq<(K, nat)>)
  {
    seq(|gs|, i requires 0 <= i < |gs| => (gs[i].0, |gs[i].1|))
  }

  lemma {:induction false} SumSizes<T, K>(gs: seq<(K, seq<T>)>)
    ensures SumCounts(Sizes(gs)) == |Flatten(gs)|
  {
    if gs != [] {
      SumSizes(gs[1..]);
      assert Sizes(gs)[1..] == Sizes(gs[1..]);
    }
  }

  /**
   * `xs.groupBy(key).mapValues { it.value.size }`: one entry per distinct key, in order of
   * first occurrence, holding how many elements carry that key.
   */
  function CountBy<T, K(==)>(xs: seq<T>, key: T -> K): seq<(K, nat)>
  {
    Sizes(GroupBy(xs, key))
  }

  /**
   * The counts are exactly the per-key tallies: the keys are the distinct values in order of
   * first occurrence, every count is the number of elements with that key and at least one,
   * and the counts add up to the size of the list.
   */
  lemma CountByCorrect<T, K>(xs: seq<T>, key: T -> K)
    ensures Keys(CountBy(xs, key)) == FirstOccurrences(MapKeys(xs, key))
    ensures Distinct(Keys(CountBy(xs, key)))
    ensures forall k :: k in Keys(CountBy(xs, key)) <==> k in MapKeys(xs, key)
    ensures forall i :: 0 <= i < |CountBy(xs, key)| ==>
      CountBy(xs, key)[i].1 == |Pick(xs, key, CountBy(xs, key)[i].0)| >= 1
    ensures SumCounts(CountBy(xs, key)) == |xs|
  {
    var gs := GroupBy(xs, key);
    var cs := Sizes(gs);
    GroupByCorrect(xs, key);
    assert Keys(cs) == Keys(gs) by {
      forall i | 0 <= i < |gs| ensures Keys(cs)[i] == Keys(gs)[i] { }
    }
    forall i | 0 <= i < |cs|
      ensures cs[i].1 == |Pick(xs, key, cs[i].0)| >= 1
    {
      assert cs[i] == (gs[i].0, |gs[i].1|);
    }
    SumSizes(gs);
    assert |Flatten(gs)| == |xs| by {
      assert |multiset(Flatten(gs))| == |multiset(xs)|;
    }
  }

  // ---------------------------------------------------------------------------
  // minus(element)
  // ---------------------------------------------------------------------------

  /** The position of the first occurrence of `x` in `xs`. */
  function FirstIndex<T(==)>(xs: seq<T>, x: T): (i: nat)
    requires x in xs
    ensures i < |xs| && xs[i] == x && x !in xs[..i]
  {
    if xs[0] == x then 0
    else
      var j := FirstIndex(xs[1..], x);
      assert xs[..j + 1] == [xs[0]] + xs[1..][..j];
      j + 1
  }

  /** `xs - x`: `xs` without the first occurrence of `x`; unchanged when `x` does not occur. */
  function RemoveFirst<T(==)>(xs: seq<T>, x: T): (r: seq<T>)
    ensures x !in xs ==> r == xs
    ensures x in xs ==> r == xs[..FirstIndex(xs, x)] + xs[FirstIndex(xs, x) + 1..]
    ensures multiset(r) == multiset(xs) - multiset{x}
  {
    if x !in xs then xs
    else
      var i := FirstIndex(xs, x);
      assert xs == xs[..i] + [xs[i]] + xs[i + 1..];
      xs[..i] + xs[i + 1..]
  }
}
