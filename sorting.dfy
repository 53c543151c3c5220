/** Python's stable `list.sort(key=...)` on a real-valued key, as an insertion sort. */
module Sorting {
  import opened Seqs

  predicate SortedBy<T>(s: seq<T>, key: T -> real) {
    forall i, j :: 0 <= i < j < |s| ==> key(s[i]) <= key(s[j])
  }

  /** Insert `x` after every trailing element whose key is not greater than `x`'s. */
  function Insert<T>(sorted: seq<T>, x: T, key: T -> real): seq<T>
    decreases |sorted|
  {
    if sorted == [] then [x]
    else if key(sorted[|sorted| - 1]) > key(x) then
      Insert(sorted[..|sorted| - 1], x, key) + [sorted[|sorted| - 1]]
    else sorted + [x]
  }

  /** The stable sort: each element is inserted in turn into the sorted prefix. */
  function SortBy<T>(s: seq<T>, key: T -> real): seq<T>
    decreases |s|
  {
    if s == [] then [] else Insert(SortBy(s[..|s| - 1], key), s[|s| - 1], key)
  }

  /** Where `Insert` places `x`: after the last element whose key is no greater, before a run of greater ones. */
  function InsertPos<T>(sorted: seq<T>, x: T, key: T -> real): (m: nat)
    ensures m <= |sorted|
    ensures m == 0 || key(sorted[m - 1]) <= key(x)
    ensures forall k :: m <= k < |sorted| ==> key(sorted[k]) > key(x)
    decreases |sorted|
  {
    if sorted == [] then 0
    else if key(sorted[|sorted| - 1]) > key(x) then
      var m := InsertPos(sorted[..|sorted| - 1], x, key);
      assert forall k :: m <= k < |sorted| - 1 ==> sorted[k] == sorted[..|sorted| - 1][k];
      m
    else |sorted|
  }

  /** Any split point with that shape is where `Insert` puts `x`. */
  lemma {:induction false} InsertSplit<T>(sorted: seq<T>, x: T, key: T -> real, j: int)
    requires 0 <= j <= |sorted|
    requires j == 0 || key(sorted[j - 1]) <= key(x)
    requires forall k :: j <= k < |sorted| ==> key(sorted[k]) > key(x)
    ensures Insert(sorted, x, key) == sorted[..j] + [x] + sorted[j..]
    decreases |sorted|
  {
    if sorted == [] {
    } else if j == |sorted| {
      assert sorted[j..] == [];
      assert sorted[..j] == sorted;
    } else {
      var init := sorted[..|sorted| - 1];
      var last := sorted[|sorted| - 1];
      assert key(last) > key(x);
      assert forall k :: j <= k < |init| ==> init[k] == sorted[k];
      assert j == 0 || init[j - 1] == sorted[j - 1];
      assert Insert(sorted, x, key) == Insert(init, x, key) + [last];
      InsertSplit(init, x, key, j);
      assert init[..j] == sorted[..j];
      assert init[j..] + [last] == sorted[j..];
      assert init[..j] + [x] + init[j..] + [last] == sorted[..j] + [x] + (init[j..] + [last]);
    }
  }

  /** Every element before position `m` of a sorted sequence has a key no greater than the one at `m - 1`. */
  lemma {:induction false} PrefixBelow<T>(sorted: seq<T>, x: T, key: T -> real, m: nat)
    requires SortedBy(sorted, key)
    requires 0 < m <= |sorted| && key(sorted[m - 1]) <= key(x)
    ensures forall k :: 0 <= k < m ==> key(sorted[k]) <= key(x)
  {
    forall k | 0 <= k < m ensures key(sorted[k]) <= key(x) {
      assert k == m - 1 || key(sorted[k]) <= key(sorted[m - 1]);
    }
  }

  lemma {:induction false} InsertSorted<T>(sorted: seq<T>, x: T, key: T -> real)
    requires SortedBy(sorted, key)
    ensures SortedBy(Insert(sorted, x, key), key)
  {
    var m := InsertPos(sorted, x, key);
    InsertSplit(sorted, x, key, m);
    if m > 0 {
      PrefixBelow(sorted, x, key, m);
    }
    var r := sorted[..m] + [x] + sorted[m..];
    assert forall k :: 0 <= k < |r| ==> r[k] == if k < m then sorted[k] else if k == m then x else sorted[k - 1];
    forall i, j | 0 <= i < j < |r| ensures key(r[i]) <= key(r[j]) {
      if j < m || i > m {
        assert key(r[i]) <= key(r[j]);
      }
    }
  }

  lemma {:induction false} InsertPermutation<T>(sorted: seq<T>, x: T, key: T -> real)
    ensures multiset(Insert(sorted, x, key)) == multiset(sorted) + multiset{x}
  {
    var m := InsertPos(sorted, x, key);
    InsertSplit(sorted, x, key, m);
    assert sorted == sorted[..m] + sorted[m..];
  }

  /** The sort yields a nondecreasing order of keys and a permutation of its input. */
  lemma {:induction false} SortBySortedPermutation<T>(s: seq<T>, key: T -> real)
    ensures SortedBy(SortBy(s, key), key)
    ensures multiset(SortBy(s, key)) == multiset(s)
    decreases |s|
  {
    if s != [] {
      SortBySortedPermutation(s[..|s| - 1], key);
      InsertSorted(SortBy(s[..|s| - 1], key), s[|s| - 1], key);
      InsertPermutation(SortBy(s[..|s| - 1], key), s[|s| - 1], key);
      assert s == s[..|s| - 1] + [s[|s| - 1]];
    }
  }

  function KeyIs<T>(key: T -> real, d: real): T -> bool {
    (c: T) => key(c) == d
  }

  /** Sorting keeps the same elements. */
  lemma {:induction false} SortByMembers<T>(s: seq<T>, key: T -> real)
    ensures forall x :: x in SortBy(s, key) <==> x in s
  {
    SortBySortedPermutation(s, key);
    forall x ensures x in SortBy(s, key) <==> x in s {
      assert x in SortBy(s, key) <==> x in multiset(SortBy(s, key));
      assert x in s <==> x in multiset(s);
    }
  }

  /** The elements with key `d`, in order. */
  function WithKey<T>(s: seq<T>, key: T -> real, d: real): seq<T> {
    Filter(s, KeyIs(key, d))
  }

  lemma {:induction false} NoneWithKey<T>(s: seq<T>, key: T -> real, d: real)
    requires forall k :: 0 <= k < |s| ==> key(s[k]) > d
    ensures WithKey(s, key, d) == []
    decreases |s|
  {
    if s != [] {
      NoneWithKey(s[..|s| - 1], key, d);
    }
  }

  /** Inserting `x` appends it to the elements with its key and leaves the others' order alone. */
  lemma {:induction false} InsertWithKey<T>(sorted: seq<T>, x: T, key: T -> real, d: real)
    ensures WithKey(Insert(sorted, x, key), key, d) == WithKey(sorted, key, d) + WithKey([x], key, d)
  {
    var p := KeyIs(key, d);
    var m := InsertPos(sorted, x, key);
    InsertSplit(sorted, x, key, m);
    var lo, hi := sorted[..m], sorted[m..];
    FilterAppend(lo + [x], hi, p);
    FilterAppend(lo, [x], p);
    FilterAppend(lo, hi, p);
    assert lo + hi == sorted;
    if key(x) == d {
      NoneWithKey(hi, key, d);
    } else {
      assert Filter([x], p) == [];
    }
  }

  /** The sort is stable: the elements with any one key keep their relative order. */
  lemma {:induction false} SortByStable<T>(s: seq<T>, key: T -> real, d: real)
    ensures WithKey(SortBy(s, key), key, d) == WithKey(s, key, d)
    decreases |s|
  {
    if s != [] {
      var init := s[..|s| - 1];
      var x := s[|s| - 1];
      SortByStable(init, key, d);
      InsertWithKey(SortBy(init, key), x, key, d);
      FilterAppend(init, [x], KeyIs(key, d));
      assert init + [x] == s;
    }
  }

  /** One step of the insertion sort: shift the greater elements of `a[..i]` right and drop `a[i]` into the gap. */
  method InsertInPlace<T>(a: array<T>, i: int, key: T -> real)
    requires 0 <= i < a.Length
    modifies a
    ensures a[..i + 1] == Insert(old(a[..i]), old(a[i]), key)
    ensures a[i + 1..] == old(a[i + 1..])
  {
    ghost var sorted := a[..i];
    var x := a[i];
    var j := i;
    while j > 0 && key(a[j - 1]) > key(x)
      invariant 0 <= j <= i
      invariant forall k :: 0 <= k < j ==> a[k] == sorted[k]
      invariant forall k :: j < k <= i ==> a[k] == sorted[k - 1]
      invariant forall k :: j <= k < i ==> key(sorted[k]) > key(x)
      invariant forall k :: i < k < a.Length ==> a[k] == old(a[k])
    {
      a[j] := a[j - 1];
      j := j - 1;
    }
    a[j] := x;
    InsertSplit(sorted, x, key, j);
    assert a[..i + 1] == sorted[..j] + [x] + sorted[j..];
  }

  /** In-place insertion sort of an array by key; elements with equal keys keep their order. */
  method SortInPlace<T>(a: array<T>, key: T -> real)
    modifies a
    ensures a[..] == SortBy(old(a[..]), key)
  {
    ghost var input := a[..];
    var i := 0;
    while i < a.Length
      invariant 0 <= i <= a.Length
      invariant a[..i] == SortBy(input[..i], key)
      invariant a[i..] == input[i..]
    {
      InsertInPlace(a, i, key);
      assert input[..i + 1][..i] == input[..i];
      assert input[..i + 1][i] == input[i];
      i := i + 1;
    }
    assert input[..a.Length] == input;
  }
}
