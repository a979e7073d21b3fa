/** Small shared vocabulary: optional values, left folds of sums, filters. */
module Common {

  /** A value that may be absent (JavaScript `null`, `undefined`, or a value of the wrong type). */
  datatype Option<+T> = None | Some(value: T) {
    /** The `??` operator: the value if present, otherwise the default. */
    function GetOr(default: T): T {
      match this
      case Some(v) => v
      case None => default
    }
  }

  /** The sum of `f` over `s`, folded from the left as `reduce((acc, x) => acc + f(x), 0)` does. */
  function SumOf<T>(s: seq<T>, f: T -> real): real
  {
    if s == [] then 0.0 else SumOf(s[..|s| - 1], f) + f(s[|s| - 1])
  }

  /** The elements of `s` that satisfy `p`, in order (`Array.prototype.filter`). */
  function Filter<T(!new)>(s: seq<T>, p: T -> bool): (r: seq<T>)
    ensures |r| <= |s|
    ensures forall x :: x in r <==> x in s && p(x)
  {
    if s == [] then []
    else if p(s[0]) then [s[0]] + Filter(s[1..], p)
    else Filter(s[1..], p)
  }

  /** The elements of `s` that do not satisfy `p`, in order. */
  function FilterOut<T(!new)>(s: seq<T>, p: T -> bool): (r: seq<T>)
    ensures |r| <= |s|
    ensures forall x :: x in r <==> x in s && !p(x)
  {
    if s == [] then []
    else if p(s[0]) then FilterOut(s[1..], p)
    else [s[0]] + FilterOut(s[1..], p)
  }

  /** Nothing passes a filter no element satisfies. */
  lemma {:induction false} FilterNone<T(!new)>(s: seq<T>, p: T -> bool)
    requires forall i :: 0 <= i < |s| ==> !p(s[i])
    ensures Filter(s, p) == []
  {
    if s != [] {
      FilterNone(s[1..], p);
    }
  }

  /** A filter keeps a list whose every element passes it. */
  lemma {:induction false} FilterAll<T(!new)>(s: seq<T>, p: T -> bool)
    requires forall i :: 0 <= i < |s| ==> p(s[i])
    ensures Filter(s, p) == s
  {
    if s != [] {
      FilterAll(s[1..], p);
      assert s == [s[0]] + s[1..];
    }
  }

  /** Filtering a concatenation filters each part. */
  lemma {:induction false} FilterConcat<T(!new)>(a: seq<T>, b: seq<T>, p: T -> bool)
    ensures Filter(a + b, p) == Filter(a, p) + Filter(b, p)
  {
    if a != [] {
      assert (a + b)[0] == a[0] && (a + b)[1..] == a[1..] + b;
      FilterConcat(a[1..], b, p);
    } else {
      assert a + b == b;
    }
  }

  /** Splitting a list by a predicate loses and duplicates nothing. */
  lemma {:induction false} FilterPartition<T(!new)>(s: seq<T>, p: T -> bool)
    ensures multiset(Filter(s, p)) + multiset(FilterOut(s, p)) == multiset(s)
    ensures |Filter(s, p)| + |FilterOut(s, p)| == |s|
  {
    if s != [] {
      FilterPartition(s[1..], p);
      assert s == [s[0]] + s[1..];
    }
  }

  /** A sum over a concatenation is the sum of the two sums. */
  lemma {:induction false} SumOfConcat<T>(a: seq<T>, b: seq<T>, f: T -> real)
    ensures SumOf(a + b, f) == SumOf(a, f) + SumOf(b, f)
  {
    if b != [] {
      assert (a + b)[..|a + b| - 1] == a + b[..|b| - 1];
      SumOfConcat(a, b[..|b| - 1], f);
    } else {
      assert a + b == a;
    }
  }

  /** The sum of `c` lies between `lo` and `hi` times the sum of `q`. */
  predicate SumsBetween<T>(s: seq<T>, q: T -> real, c: T -> real, lo: real, hi: real)
  {
    lo * SumOf(s, q) <= SumOf(s, c) <= hi * SumOf(s, q)
  }

  lemma SumStep<T>(s: seq<T>, q: T -> real, c: T -> real, lo: real, hi: real)
    requires s != []
    requires SumsBetween(s[..|s| - 1], q, c, lo, hi)
    requires lo * q(s[|s| - 1]) <= c(s[|s| - 1]) <= hi * q(s[|s| - 1])
    ensures SumsBetween(s, q, c, lo, hi)
  {
    var a, b := SumOf(s[..|s| - 1], q), q(s[|s| - 1]);
    assert lo * (a + b) == lo * a + lo * b;
    assert hi * (a + b) == hi * a + hi * b;
  }

  /** When every term of one sum lies between `lo` and `hi` times the matching term of
      another, so do the sums. */
  lemma {:induction false} SumBetween<T>(s: seq<T>, q: T -> real, c: T -> real, lo: real, hi: real)
    requires forall i :: 0 <= i < |s| ==> lo * q(s[i]) <= c(s[i]) <= hi * q(s[i])
    ensures SumsBetween(s, q, c, lo, hi)
  {
    if s != [] {
      var init := s[..|s| - 1];
      assert forall i :: 0 <= i < |init| ==> init[i] == s[i];
      SumBetween(init, q, c, lo, hi);
      SumStep(s, q, c, lo, hi);
    }
  }

  /** Under exact arithmetic, a sum does not depend on the order of the list. */
  lemma {:induction false} SumOfPermutation<T>(s: seq<T>, t: seq<T>, f: T -> real)
    requires multiset(s) == multiset(t)
    ensures SumOf(s, f) == SumOf(t, f)
  {
    if s == [] {
      assert |t| == |multiset(t)| == 0;
    } else {
      var x := s[|s| - 1];
      var rest := s[..|s| - 1];
      assert s == rest + [x];
      assert x in multiset(t);
      var j :| 0 <= j < |t| && t[j] == x;
      var t' := t[..j] + t[j + 1..];
      MultisetRemoveAt(t, j);
      assert multiset(rest) + multiset{x} == multiset(t') + multiset{x};
      forall y ensures multiset(rest)[y] == multiset(t')[y] {
        assert (multiset(rest) + multiset{x})[y] == (multiset(t') + multiset{x})[y];
      }
      assert multiset(rest) == multiset(t');
      SumOfPermutation(rest, t', f);
      SumOfRemoveAt(t, j, f);
    }
  }

  lemma MultisetRemoveAt<T>(t: seq<T>, j: nat)
    requires j < |t|
    ensures multiset(t) == multiset(t[..j] + t[j + 1..]) + multiset{t[j]}
  {
    assert t == t[..j] + [t[j]] + t[j + 1..];
  }

  lemma SumOfRemoveAt<T>(t: seq<T>, j: nat, f: T -> real)
    requires j < |t|
    ensures SumOf(t, f) == SumOf(t[..j] + t[j + 1..], f) + f(t[j])
  {
    var upTo := t[..j + 1];
    assert upTo + t[j + 1..] == t;
    SumOfConcat(upTo, t[j + 1..], f);
    assert upTo[..j] == t[..j] && upTo[j] == t[j];
    assert SumOf(upTo, f) == SumOf(t[..j], f) + f(t[j]);
    SumOfConcat(t[..j], t[j + 1..], f);
  }

  /** The sum over the kept elements plus the sum over the dropped ones is the total. */
  lemma {:induction false} SumOfFilterSplit<T(!new)>(s: seq<T>, p: T -> bool, f: T -> real)
    ensures SumOf(Filter(s, p), f) + SumOf(FilterOut(s, p), f) == SumOf(s, f)
  {
    FilterPartition(s, p);
    SumOfPermutation(Filter(s, p) + FilterOut(s, p), s, f);
    SumOfConcat(Filter(s, p), FilterOut(s, p), f);
  }

  /** The sum over one more element of a prefix. */
  lemma SumOfPrefixStep<T>(s: seq<T>, i: nat, f: T -> real)
    requires i < |s|
    ensures SumOf(s[..i + 1], f) == SumOf(s[..i], f) + f(s[i])
  {
    assert s[..i + 1][..i] == s[..i];
  }

  /** A prefix of `s` extended by the next element is the next prefix. */
  lemma PrefixExtend<T>(s: seq<T>, k: nat, r: seq<T>, x: T)
    requires k < |s| && r == s[..k] && x == s[k]
    ensures r + [x] == s[..k + 1]
  {
  }

  /** The prefix as long as the sequence is the sequence. */
  lemma PrefixWhole<T>(s: seq<T>, r: seq<T>)
    requires r == s[..|s|]
    ensures r == s
  {
  }
}
