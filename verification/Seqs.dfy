/** Sequence, multiset and ordering vocabulary shared by the other modules. */
module Seqs {

  datatype Option<+T> = None | Some(value: T)

  /** The multiset {0, 1, ..., n-1}, each index once. */
  ghost function Indices(n: nat): (m: multiset<nat>)
    ensures forall h: nat :: m[h] == if h < n then 1 else 0
  {
    if n == 0 then multiset{} else Indices(n - 1) + multiset{n - 1}
  }

  lemma IndicesSize(n: nat)
    ensures |Indices(n)| == n
  {
    if n > 0 { IndicesSize(n - 1); }
  }

  function RemoveAt<T>(xs: seq<T>, i: nat): seq<T>
    requires i < |xs|
  {
    xs[..i] + xs[i + 1..]
  }

  lemma RemoveAtMultiset<T>(xs: seq<T>, i: nat)
    requires i < |xs|
    ensures multiset(RemoveAt(xs, i)) == multiset(xs) - multiset{xs[i]}
    ensures multiset(xs) == multiset(RemoveAt(xs, i)) + multiset{xs[i]}
  {
    assert xs[i..] == [xs[i]] + xs[i + 1..];
    assert xs == xs[..i] + xs[i..];
  }

  /** The first occurrence of `x`, as `list.index` finds it; `|xs|` when there is none. */
  function IndexOf<T(==)>(xs: seq<T>, x: T): (i: nat)
    ensures i <= |xs|
    ensures i < |xs| <==> x in xs
    ensures i < |xs| ==> xs[i] == x
    ensures forall k :: 0 <= k < i ==> xs[k] != x
  {
    if xs == [] then 0 else if xs[0] == x then 0 else 1 + IndexOf(xs[1..], x)
  }

  function Reverse<T>(xs: seq<T>): (r: seq<T>)
    ensures |r| == |xs|
    ensures multiset(r) == multiset(xs)
  {
    if xs == [] then [] else
      assert xs == [xs[0]] + xs[1..];
      Reverse(xs[1..]) + [xs[0]]
  }

  /** `x` occurs once in `xs`, so removing it leaves none. */
  ghost predicate NoDup<T(!new)>(xs: seq<T>)
  {
    forall i, j :: 0 <= i < j < |xs| ==> xs[i] != xs[j]
  }

  lemma NoDupFromMultiset<T(!new)>(xs: seq<T>)
    requires forall x :: multiset(xs)[x] <= 1
    ensures NoDup(xs)
  {
    forall i, j | 0 <= i < j < |xs| ensures xs[i] != xs[j] {
      assert xs == xs[..j] + [xs[j]] + xs[j + 1..];
      assert multiset(xs)[xs[j]] >= multiset(xs[..j])[xs[j]] + 1;
      assert xs[..j][i] == xs[i];
    }
  }

  // ---------------------------------------------------------------- stable sorting

  /** A sort key: Python compares the tuples lexicographically. */
  datatype Key = Key(major: int, minor: int)

  predicate Less(a: Key, b: Key)
  {
    a.major < b.major || (a.major == b.major && a.minor < b.minor)
  }

  /** Where `list.sort(key=...)` moves each element: the i-th element of the sorted list
      is the one that stood at index `Rank(keys)[i]`. Elements with equal keys keep their order. */
  function Rank(keys: seq<Key>): (p: seq<nat>)
    ensures |p| == |keys|
    ensures forall i :: 0 <= i < |p| ==> p[i] < |keys|
  {
    if keys == [] then [] else
      var n := |keys| - 1;
      InsertRank(keys, n, Rank(keys[..n]))
  }

  function InsertRank(keys: seq<Key>, x: nat, p: seq<nat>): (q: seq<nat>)
    requires x < |keys|
    requires forall i :: 0 <= i < |p| ==> p[i] < |keys|
    ensures |q| == |p| + 1
    ensures multiset(q) == multiset(p) + multiset{x}
    ensures forall i :: 0 <= i < |q| ==> q[i] < |keys|
  {
    if p == [] || !Less(keys[x], keys[p[|p| - 1]]) then p + [x]
    else
      var n := |p| - 1;
      assert p == p[..n] + [p[n]];
      InsertRank(keys, x, p[..n]) + [p[n]]
  }

  /** Index `i` may stand before index `j`. */
  ghost predicate InOrder(keys: seq<Key>, i: nat, j: nat)
    requires i < |keys| && j < |keys|
  {
    !Less(keys[j], keys[i]) && (keys[i] == keys[j] ==> i < j)
  }

  /** Keys in non-decreasing order, equal keys in the order they stood in. */
  ghost predicate SortedBy(keys: seq<Key>, p: seq<nat>)
    requires forall i :: 0 <= i < |p| ==> p[i] < |keys|
  {
    forall i, j {:trigger p[i], p[j]} :: 0 <= i < j < |p| ==> InOrder(keys, p[i], p[j])
  }

  /** Whatever precedes `z` in the sorted list so far, and the newcomer that goes before it, may precede it. */
  lemma InsertedBefore(keys: seq<Key>, x: nat, p: seq<nat>, y: nat, z: nat)
    requires x < |keys| && z < |keys| && Less(keys[x], keys[z])
    requires forall i :: 0 <= i < |p| ==> p[i] < |keys| && InOrder(keys, p[i], z)
    requires y in InsertRank(keys, x, p)
    ensures y < |keys| && InOrder(keys, y, z)
  {
    assert y in multiset(InsertRank(keys, x, p));
    assert y == x || y in p;
  }

  lemma {:induction false} InsertRankSorted(keys: seq<Key>, x: nat, p: seq<nat>)
    requires x < |keys|
    requires forall i :: 0 <= i < |p| ==> p[i] < x
    requires SortedBy(keys, p)
    ensures SortedBy(keys, InsertRank(keys, x, p))
  {
    if p == [] || !Less(keys[x], keys[p[|p| - 1]]) {
      AppendSorted(keys, x, p);
    } else {
      var n := |p| - 1;
      var z, q := p[n], InsertRank(keys, x, p[..n]);
      PrefixSorted(keys, p, n);
      InsertRankSorted(keys, x, p[..n]);
      forall i | 0 <= i < |q| ensures InOrder(keys, q[i], z) {
        InsertedBefore(keys, x, p[..n], q[i], z);
      }
      LastSorted(keys, q, z);
    }
  }

  lemma PrefixSorted(keys: seq<Key>, p: seq<nat>, n: nat)
    requires (forall i :: 0 <= i < |p| ==> p[i] < |keys|) && SortedBy(keys, p) && n < |p|
    ensures SortedBy(keys, p[..n]) && forall i :: 0 <= i < n ==> InOrder(keys, p[i], p[n])
  {
  }

  lemma LastSorted(keys: seq<Key>, q: seq<nat>, z: nat)
    requires z < |keys| && (forall i :: 0 <= i < |q| ==> q[i] < |keys| && InOrder(keys, q[i], z)) && SortedBy(keys, q)
    ensures SortedBy(keys, q + [z])
  {
  }

  lemma AppendSorted(keys: seq<Key>, x: nat, p: seq<nat>)
    requires x < |keys| && (forall i :: 0 <= i < |p| ==> p[i] < x) && SortedBy(keys, p)
    requires p == [] || !Less(keys[x], keys[p[|p| - 1]])
    ensures SortedBy(keys, p + [x])
  {
    forall i | 0 <= i < |p| ensures InOrder(keys, p[i], x) {
      var n := |p| - 1;
      if i < n { assert !Less(keys[p[n]], keys[p[i]]); }
    }
    LastSorted(keys, p, x);
  }

  /** `Rank` puts the keys in non-decreasing order, and equal keys keep their order. */
  lemma {:induction false} RankSorts(keys: seq<Key>)
    ensures SortedBy(keys, Rank(keys))
  {
    if keys != [] {
      var n := |keys| - 1;
      var p := Rank(keys[..n]);
      RankSorts(keys[..n]);
      assert SortedBy(keys, p);
      InsertRankSorted(keys, n, p);
    }
  }

  /** A list that is already in order stays as it is. */
  lemma {:induction false} RankInPlace(keys: seq<Key>)
    requires forall i, j :: 0 <= i < j < |keys| ==> !Less(keys[j], keys[i])
    ensures forall i :: 0 <= i < |keys| ==> Rank(keys)[i] == i
  {
    if keys != [] {
      var n := |keys| - 1;
      RankInPlace(keys[..n]);
      var p := Rank(keys[..n]);
      assert p == [] || p[|p| - 1] == n - 1;
      assert InsertRank(keys, n, p) == p + [n];
    }
  }

  function Permute<T>(xs: seq<T>, p: seq<nat>): (r: seq<T>)
    requires forall i :: 0 <= i < |p| ==> p[i] < |xs|
    ensures |r| == |p|
    ensures forall i :: 0 <= i < |p| ==> r[i] == xs[p[i]]
  {
    seq(|p|, i requires 0 <= i < |p| => xs[p[i]])
  }

  lemma {:induction false} PermuteInsert<T>(xs: seq<T>, keys: seq<Key>, x: nat, p: seq<nat>)
    requires x < |keys| == |xs|
    requires forall i :: 0 <= i < |p| ==> p[i] < |keys|
    ensures multiset(Permute(xs, InsertRank(keys, x, p))) == multiset(Permute(xs, p)) + multiset{xs[x]}
  {
    if p == [] || !Less(keys[x], keys[p[|p| - 1]]) {
      PermuteLast(xs, p, x);
    } else {
      var n := |p| - 1;
      PermuteInsert(xs, keys, x, p[..n]);
      assert InsertRank(keys, x, p) == InsertRank(keys, x, p[..n]) + [p[n]];
      hide *;
      PermuteBeforeLast(xs, p, InsertRank(keys, x, p[..n]), xs[x]);
    }
  }

  /** What holds of the front of a list holds with the last element put back. */
  lemma PermuteBeforeLast<T>(xs: seq<T>, p: seq<nat>, front: seq<nat>, y: T)
    requires p != [] && (forall i :: 0 <= i < |p| ==> p[i] < |xs|) && forall i :: 0 <= i < |front| ==> front[i] < |xs|
    requires multiset(Permute(xs, front)) == multiset(Permute(xs, p[..|p| - 1])) + multiset{y}
    ensures multiset(Permute(xs, front + [p[|p| - 1]])) == multiset(Permute(xs, p)) + multiset{y}
  {
    var n := |p| - 1;
    assert p == p[..n] + [p[n]];
    PermuteLast(xs, p[..n], p[n]);
    PermuteLast(xs, front, p[n]);
    hide Permute;
  }

  lemma PermuteLast<T>(xs: seq<T>, p: seq<nat>, x: nat)
    requires x < |xs| && forall i :: 0 <= i < |p| ==> p[i] < |xs|
    ensures Permute(xs, p + [x]) == Permute(xs, p) + [xs[x]]
  {
  }

  lemma PermutePrefix<T>(xs: seq<T>, n: nat, p: seq<nat>)
    requires n <= |xs|
    requires forall i :: 0 <= i < |p| ==> p[i] < n
    ensures Permute(xs, p) == Permute(xs[..n], p)
  {
  }

  /** Sorting loses and invents nothing. */
  lemma {:induction false} SortKeepsElements<T>(xs: seq<T>, keys: seq<Key>)
    requires |xs| == |keys|
    ensures multiset(Permute(xs, Rank(keys))) == multiset(xs)
  {
    if xs != [] {
      var n := |xs| - 1;
      SortKeepsElements(xs[..n], keys[..n]);
      assert xs == xs[..n] + [xs[n]];
      PermuteInsert(xs, keys, n, Rank(keys[..n]));
      PermutePrefix(xs, n, Rank(keys[..n]));
    }
  }

  // ---------------------------------------------------------------- dictionaries of sizes

  /** `sum(m.values())`. */
  ghost function Sum<K>(m: map<K, int>): int
    decreases |m|
  {
    if m == map[] then 0 else
      var k :| k in m;
      assert |m - {k}| < |m| by { assert (m - {k}).Keys == m.Keys - {k}; }
      m[k] + Sum(m - {k})
  }

  /** The order in which a dictionary is walked does not change its sum. */
  lemma {:induction false} SumRemove<K>(m: map<K, int>, k: K)
    requires k in m
    ensures Sum(m) == m[k] + Sum(m - {k})
    decreases |m|
  {
    var j :| j in m && Sum(m) == m[j] + Sum(m - {j});
    if j != k {
      assert (m - {j}).Keys == m.Keys - {j};
      assert (m - {k}).Keys == m.Keys - {k};
      SumRemove(m - {j}, k);
      assert m - {j} - {k} == m - {k} - {j};
      SumRemove(m - {k}, j);
    }
  }

  lemma SumAdd<K>(m: map<K, int>, k: K, v: int)
    requires k !in m
    ensures Sum(m[k := v]) == Sum(m) + v
  {
    SumRemove(m[k := v], k);
    assert m[k := v] - {k} == m;
  }
}
