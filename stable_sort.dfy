/** `Array.prototype.sort` with a comparator of the form `(a, b) => key(a) - key(b)`. The
    language requires the sort to be stable, and a stable sort by a key has exactly one
    possible result: the one insertion sort produces. */
module StableSort {
  import opened Common

  predicate SortedBy<T>(s: seq<T>, key: T -> int)
  {
    forall i, j :: 0 <= i < j < |s| ==> key(s[i]) <= key(s[j])
  }

  /** Insert `x` after every element whose key is not greater than its own. */
  function InsertByKey<T>(s: seq<T>, x: T, key: T -> int): (r: seq<T>)
    ensures |r| == |s| + 1
  {
    if s == [] || key(s[|s| - 1]) <= key(x) then s + [x]
    else InsertByKey(s[..|s| - 1], x, key) + [s[|s| - 1]]
  }

  /** The stably sorted list: each element in turn inserted into the sorted prefix. */
  function SortByKey<T>(s: seq<T>, key: T -> int): (r: seq<T>)
    ensures |r| == |s|
  {
    if s == [] then [] else InsertByKey(SortByKey(s[..|s| - 1], key), s[|s| - 1], key)
  }

  lemma {:induction false} InsertPermutes<T>(s: seq<T>, x: T, key: T -> int)
    ensures multiset(InsertByKey(s, x, key)) == multiset(s) + multiset{x}
  {
    if s != [] && key(s[|s| - 1]) > key(x) {
      var init := s[..|s| - 1];
      assert s == init + [s[|s| - 1]];
      InsertPermutes(init, x, key);
    }
  }

  /** Sorting loses and duplicates nothing. */
  lemma {:induction false} SortPermutes<T>(s: seq<T>, key: T -> int)
    ensures multiset(SortByKey(s, key)) == multiset(s)
  {
    if s != [] {
      var init := s[..|s| - 1];
      assert s == init + [s[|s| - 1]];
      SortPermutes(init, key);
      InsertPermutes(SortByKey(init, key), s[|s| - 1], key);
    }
  }

  lemma {:induction false} InsertKeepsSorted<T>(s: seq<T>, x: T, key: T -> int)
    requires SortedBy(s, key)
    ensures SortedBy(InsertByKey(s, x, key), key)
  {
    if s == [] || key(s[|s| - 1]) <= key(x) {
      SortedAppend(s, x, key);
    } else {
      var init := s[..|s| - 1];
      var last := s[|s| - 1];
      assert SortedBy(init, key);
      assert forall k :: 0 <= k < |init| ==> key(init[k]) <= key(last) by {
        assert forall k :: 0 <= k < |init| ==> init[k] == s[k];
      }
      InsertKeepsSorted(init, x, key);
      InsertBounded(init, x, key(last), key);
      SortedAppend(InsertByKey(init, x, key), last, key);
    }
  }

  /** Inserting keeps every key under a bound that the list and the new element respect. */
  lemma {:induction false} InsertBounded<T>(s: seq<T>, x: T, bound: int, key: T -> int)
    requires forall k :: 0 <= k < |s| ==> key(s[k]) <= bound
    requires key(x) <= bound
    ensures forall k :: 0 <= k < |s| + 1 ==> key(InsertByKey(s, x, key)[k]) <= bound
  {
    if s != [] && key(s[|s| - 1]) > key(x) {
      var init := s[..|s| - 1];
      assert forall k :: 0 <= k < |init| ==> init[k] == s[k];
      InsertBounded(init, x, bound, key);
    }
  }

  /** A sorted list extended by an element whose key is not below any of its keys. */
  lemma SortedAppend<T>(s: seq<T>, x: T, key: T -> int)
    requires SortedBy(s, key)
    requires forall k :: 0 <= k < |s| ==> key(s[k]) <= key(x)
    ensures SortedBy(s + [x], key)
  {
    var r := s + [x];
    forall i, j | 0 <= i < j < |r| ensures key(r[i]) <= key(r[j]) {
      assert r[i] == s[i];
      if j < |s| { assert r[j] == s[j]; }
    }
  }

  /** The result is sorted by the key; with `SortPermutes`, it is a sorted permutation of the
      input. */
  lemma {:induction false} SortIsSorted<T>(s: seq<T>, key: T -> int)
    ensures SortedBy(SortByKey(s, key), key)
  {
    if s != [] {
      SortIsSorted(s[..|s| - 1], key);
      InsertKeepsSorted(SortByKey(s[..|s| - 1], key), s[|s| - 1], key);
    }
  }

  /** The last element of the sorted list is an element of the input with the greatest key. */
  lemma SortedLastIsMax<T>(s: seq<T>, key: T -> int)
    requires s != []
    ensures SortByKey(s, key)[|s| - 1] in s
    ensures forall x :: x in s ==> key(x) <= key(SortByKey(s, key)[|s| - 1])
  {
    var sorted := SortByKey(s, key);
    SortPermutes(s, key);
    SortIsSorted(s, key);
    assert sorted[|s| - 1] in multiset(s);
    forall x | x in s ensures key(x) <= key(sorted[|s| - 1]) {
      assert x in multiset(sorted);
      var j :| 0 <= j < |sorted| && sorted[j] == x;
      if j < |s| - 1 {
        assert key(sorted[j]) <= key(sorted[|s| - 1]);
      }
    }
  }

  /** Where insertion sort's inner loop stops: after the prefix whose last key is not greater
      than `x`'s, before the suffix whose keys all are. */
  lemma {:induction false} InsertAt<T>(s: seq<T>, j: nat, x: T, key: T -> int)
    requires j <= |s|
    requires j > 0 ==> key(s[j - 1]) <= key(x)
    requires forall k :: j <= k < |s| ==> key(s[k]) > key(x)
    ensures InsertByKey(s, x, key) == s[..j] + [x] + s[j..]
    decreases |s|
  {
    if j < |s| {
      var init := s[..|s| - 1];
      var last := s[|s| - 1];
      assert key(last) > key(x);
      assert InsertByKey(s, x, key) == InsertByKey(init, x, key) + [last];
      assert forall k :: j <= k < |init| ==> init[k] == s[k];
      InsertAt(init, j, x, key);
      assert init[..j] == s[..j];
      assert init[j..] + [last] == s[j..];
      assert InsertByKey(s, x, key) == (init[..j] + [x] + init[j..]) + [last];
    } else {
      assert s[..j] == s;
      assert s[j..] == [];
    }
  }

  /** Sorting the array in place by insertion, moving each element left past the elements
      with a strictly greater key. */
  method SortInPlace<T>(a: array<T>, key: T -> int)
    modifies a
    ensures a[..] == SortByKey(old(a[..]), key)
  {
    ghost var original := a[..];
    for i := 0 to a.Length
      invariant a[..i] == SortByKey(original[..i], key)
      invariant a[i..] == original[i..]
    {
      ghost var prefix := a[..i];
      ghost var rest := a[i + 1..];
      assert a[i] == original[i] && rest == original[i + 1..] by {
        assert a[i..][0] == a[i] && a[i..][1..] == rest;
        assert original[i..][0] == original[i] && original[i..][1..] == original[i + 1..];
      }
      InsertInPlace(a, i, key);
      SortStep(original, i, key);
      assert a[..i + 1] == InsertByKey(prefix, original[i], key);
    }
    assert original[..a.Length] == original;
  }

  /** Sorting one more element of the input is inserting it into the sorted prefix. */
  lemma SortStep<T>(s: seq<T>, i: nat, key: T -> int)
    requires i < |s|
    ensures SortByKey(s[..i + 1], key) == InsertByKey(SortByKey(s[..i], key), s[i], key)
  {
    assert s[..i + 1][..i] == s[..i];
  }

  /** One pass of the outer loop: `a[i]` moved left into the sorted prefix `a[..i]`. */
  method InsertInPlace<T>(a: array<T>, i: nat, key: T -> int)
    requires i < a.Length
    modifies a
    ensures a[..i + 1] == InsertByKey(old(a[..i]), old(a[i]), key)
    ensures a[i + 1..] == old(a[i + 1..])
  {
    ghost var sorted := a[..i];
    var x := a[i];
    var j := i;
    while j > 0 && key(a[j - 1]) > key(x)
      invariant 0 <= j <= i
      invariant forall k :: 0 <= k < j ==> a[k] == sorted[k]
      invariant forall k :: j < k <= i ==> a[k] == sorted[k - 1]
      invariant forall k :: i < k < a.Length ==> a[k] == old(a[k])
      invariant forall k :: j <= k < i ==> key(sorted[k]) > key(x)
    {
      a[j] := a[j - 1];
      j := j - 1;
    }
    a[j] := x;
    PlacedIsInserted(sorted, j, x, a[..i + 1], key);
  }

  /** The array prefix after the inner loop: the sorted prefix with `x` placed at `j`. */
  lemma PlacedIsInserted<T>(sorted: seq<T>, j: nat, x: T, placed: seq<T>, key: T -> int)
    requires j <= |sorted| && |placed| == |sorted| + 1
    requires forall k :: 0 <= k < j ==> placed[k] == sorted[k]
    requires placed[j] == x
    requires forall k :: j < k < |placed| ==> placed[k] == sorted[k - 1]
    requires j > 0 ==> key(sorted[j - 1]) <= key(x)
    requires forall k :: j <= k < |sorted| ==> key(sorted[k]) > key(x)
    ensures placed == InsertByKey(sorted, x, key)
  {
    InsertAt(sorted, j, x, key);
    ghost var inserted := sorted[..j] + [x] + sorted[j..];
    assert forall k :: 0 <= k < |placed| ==> placed[k] == inserted[k];
  }

  /** Whether an element has the key `k`. */
  function KeyIs<T>(key: T -> int, k: int): T -> bool
  {
    (y: T) => key(y) == k
  }

  /** Inserting `x` places it after every element of its own key and keeps the elements of
      each key in their order. */
  lemma {:induction false} InsertStable<T(!new)>(s: seq<T>, x: T, key: T -> int, k: int)
    ensures Filter(InsertByKey(s, x, key), KeyIs(key, k)) == Filter(s, KeyIs(key, k)) + Filter([x], KeyIs(key, k))
  {
    var p := KeyIs(key, k);
    if s == [] || key(s[|s| - 1]) <= key(x) {
      FilterConcat(s, [x], p);
    } else {
      var init := s[..|s| - 1];
      var last := s[|s| - 1];
      assert s == init + [last];
      InsertStable(init, x, key, k);
      FilterConcat(InsertByKey(init, x, key), [last], p);
      FilterConcat(init, [last], p);
      assert [x][1..] == [] && [last][1..] == [];
      assert Filter([x], p) == [] || Filter([last], p) == [];
    }
  }

  /** Stability: the elements of any one key come out of the sort in the order they went in. */
  lemma {:induction false} SortStable<T(!new)>(s: seq<T>, key: T -> int, k: int)
    ensures Filter(SortByKey(s, key), KeyIs(key, k)) == Filter(s, KeyIs(key, k))
  {
    if s != [] {
      var init := s[..|s| - 1];
      var last := s[|s| - 1];
      assert s == init + [last];
      SortStable(init, key, k);
      InsertStable(SortByKey(init, key), last, key, k);
      FilterConcat(init, [last], KeyIs(key, k));
    }
  }
}
