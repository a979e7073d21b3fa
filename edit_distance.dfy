/** `levenshteinDistance` of src/services/agruparProdutosService.ts: the dynamic-programming
    matrix fill, proved equal to the recursive definition of edit distance, and the
    properties of that distance the similarity test relies on. */
module EditDistance {

  function Cost(x: char, y: char): nat { if x == y then 0 else 1 }

  function Min3(x: nat, y: nat, z: nat): nat
  {
    if x <= y && x <= z then x else if y <= z then y else z
  }

  /** The edit distance (insertions, deletions, substitutions, each of cost one) between the
      prefixes `a[..i]` and `b[..j]`. */
  function Dist(a: string, b: string, i: nat, j: nat): nat
    requires i <= |a| && j <= |b|
    decreases i + j
  {
    if i == 0 then j
    else if j == 0 then i
    else Min3(Dist(a, b, i - 1, j) + 1, Dist(a, b, i, j - 1) + 1,
              Dist(a, b, i - 1, j - 1) + Cost(a[i - 1], b[j - 1]))
  }

  /** The edit distance between two whole strings. */
  function Levenshtein(a: string, b: string): nat
  {
    Dist(a, b, |a|, |b|)
  }

  /** `levenshteinDistance(a, b)`: the two early returns for an empty string, then the
      `(|a| + 1) x (|b| + 1)` matrix, first column and first row, then row by row. */
  method LevenshteinDistance(a: string, b: string) returns (d: nat)
    ensures d == Levenshtein(a, b)
    ensures a == [] ==> d == |b|
    ensures b == [] ==> d == |a|
  {
    if |a| == 0 { return |b|; }
    if |b| == 0 { return |a|; }

    var matrix := new nat[|a| + 1, |b| + 1];

    for i := 0 to |a| + 1
      invariant forall r {:trigger matrix[r, 0]} :: 0 <= r < i ==> matrix[r, 0] == Dist(a, b, r, 0)
    {
      matrix[i, 0] := i;
    }
    for j := 0 to |b| + 1
      invariant forall r {:trigger matrix[r, 0]} :: 0 <= r <= |a| ==> matrix[r, 0] == Dist(a, b, r, 0)
      invariant forall c {:trigger matrix[0, c]} :: 0 <= c < j ==> matrix[0, c] == Dist(a, b, 0, c)
    {
      matrix[0, j] := j;
    }

    var i := 1;
    while i <= |a|
      invariant 1 <= i <= |a| + 1
      invariant forall r {:trigger matrix[r, 0]} :: 0 <= r <= |a| ==> matrix[r, 0] == Dist(a, b, r, 0)
      invariant forall r, c {:trigger matrix[r, c]} :: 0 <= r < i && 0 <= c <= |b| ==> matrix[r, c] == Dist(a, b, r, c)
    {
      FillRow(a, b, matrix, i);
      i := i + 1;
    }
    d := matrix[|a|, |b|];
  }

  /** One pass of the inner loop: row `i` from column 1 on, from the row above and the cell
      to the left. */
  method FillRow(a: string, b: string, matrix: array2<nat>, i: nat)
    requires 1 <= i <= |a| && matrix.Length0 == |a| + 1 && matrix.Length1 == |b| + 1
    requires forall r {:trigger matrix[r, 0]} :: 0 <= r <= |a| ==> matrix[r, 0] == Dist(a, b, r, 0)
    requires forall r, c {:trigger matrix[r, c]} :: 0 <= r < i && 0 <= c <= |b| ==> matrix[r, c] == Dist(a, b, r, c)
    modifies matrix
    ensures forall r {:trigger matrix[r, 0]} :: 0 <= r <= |a| ==> matrix[r, 0] == Dist(a, b, r, 0)
    ensures forall r, c {:trigger matrix[r, c]} :: 0 <= r <= i && 0 <= c <= |b| ==> matrix[r, c] == Dist(a, b, r, c)
  {
    var j := 1;
    while j <= |b|
      invariant 1 <= j <= |b| + 1
      invariant forall r {:trigger matrix[r, 0]} :: 0 <= r <= |a| ==> matrix[r, 0] == Dist(a, b, r, 0)
      invariant forall r, c {:trigger matrix[r, c]} :: 0 <= r < i && 0 <= c <= |b| ==> matrix[r, c] == Dist(a, b, r, c)
      invariant forall c {:trigger matrix[i, c]} :: 0 <= c < j ==> matrix[i, c] == Dist(a, b, i, c)
    {
      var cost := if a[i - 1] == b[j - 1] then 0 else 1;
      var m := Min3(matrix[i - 1, j] + 1, matrix[i, j - 1] + 1, matrix[i - 1, j - 1] + cost);
      CellValue(a, b, i, j, matrix[i - 1, j], matrix[i, j - 1], matrix[i - 1, j - 1]);
      matrix[i, j] := m;
      j := j + 1;
    }
  }

  /** The recurrence for one cell, from the three neighbours already filled. */
  lemma CellValue(a: string, b: string, i: nat, j: nat, up: nat, left: nat, diag: nat)
    requires 0 < i <= |a| && 0 < j <= |b|
    requires up == Dist(a, b, i - 1, j) && left == Dist(a, b, i, j - 1) && diag == Dist(a, b, i - 1, j - 1)
    ensures Min3(up + 1, left + 1, diag + (if a[i - 1] == b[j - 1] then 0 else 1)) == Dist(a, b, i, j)
  {
  }

  /** The distance between the prefixes does not depend on which string comes first. */
  predicate SymmetricAt(a: string, b: string, i: nat, j: nat)
    requires i <= |a| && j <= |b|
  {
    Dist(a, b, i, j) == Dist(b, a, j, i)
  }

  lemma {:induction false} DistSymmetric(a: string, b: string, i: nat, j: nat)
    requires i <= |a| && j <= |b|
    ensures SymmetricAt(a, b, i, j)
    decreases i + j
  {
    if i > 0 && j > 0 {
      DistSymmetric(a, b, i - 1, j);
      DistSymmetric(a, b, i, j - 1);
      DistSymmetric(a, b, i - 1, j - 1);
      SymmetricStep(a, b, i, j);
    }
  }

  /** One step of the induction: the recurrence is the same with the strings swapped, up to
      the order of the first two candidates. */
  lemma SymmetricStep(a: string, b: string, i: nat, j: nat)
    requires 0 < i <= |a| && 0 < j <= |b|
    requires SymmetricAt(a, b, i - 1, j) && SymmetricAt(a, b, i, j - 1) && SymmetricAt(a, b, i - 1, j - 1)
    ensures SymmetricAt(a, b, i, j)
  {
    Min3Swap(Dist(a, b, i - 1, j) + 1, Dist(a, b, i, j - 1) + 1,
             Dist(a, b, i - 1, j - 1) + Cost(a[i - 1], b[j - 1]));
  }

  lemma Min3Swap(x: nat, y: nat, z: nat)
    ensures Min3(x, y, z) == Min3(y, x, z)
  {
  }

  lemma LevenshteinSymmetric(a: string, b: string)
    ensures Levenshtein(a, b) == Levenshtein(b, a)
  {
    DistSymmetric(a, b, |a|, |b|);
  }

  /** The distance never exceeds the longer length: substitute along the shorter string and
      insert the rest. */
  lemma {:induction false} DistUpperBound(a: string, b: string, i: nat, j: nat)
    requires i <= |a| && j <= |b|
    ensures Dist(a, b, i, j) <= if i >= j then i else j
    decreases i + j
  {
    if i > 0 && j > 0 {
      DistUpperBound(a, b, i - 1, j - 1);
      Min3AtMostThird(Dist(a, b, i - 1, j) + 1, Dist(a, b, i, j - 1) + 1,
                      Dist(a, b, i - 1, j - 1) + Cost(a[i - 1], b[j - 1]));
    }
  }

  lemma Min3AtMostThird(x: nat, y: nat, z: nat)
    ensures Min3(x, y, z) <= z
  {
  }

  lemma LevenshteinUpperBound(a: string, b: string)
    ensures Levenshtein(a, b) <= if |a| >= |b| then |a| else |b|
  {
    DistUpperBound(a, b, |a|, |b|);
  }

  /** Distance zero means the two prefixes are the same string, and conversely. */
  lemma {:induction false} DistZero(a: string, b: string, i: nat, j: nat)
    requires i <= |a| && j <= |b|
    ensures Dist(a, b, i, j) == 0 <==> i == j && a[..i] == b[..j]
    decreases i + j
  {
    if i > 0 && j > 0 {
      DistZero(a, b, i - 1, j - 1);
      assert a[..i] == a[..i - 1] + [a[i - 1]];
      assert b[..j] == b[..j - 1] + [b[j - 1]];
      if i == j && a[..i] == b[..j] {
        assert a[..i - 1] == a[..i][..i - 1] && b[..j - 1] == b[..j][..j - 1];
        assert a[i - 1] == a[..i][i - 1] && b[j - 1] == b[..j][j - 1];
      }
    }
  }

  /** `d(a, b) == 0` exactly when `a == b`; in particular `d(a, a) == 0`. */
  lemma LevenshteinZero(a: string, b: string)
    ensures Levenshtein(a, b) == 0 <==> a == b
  {
    DistZero(a, b, |a|, |b|);
    assert a[..|a|] == a && b[..|b|] == b;
  }
}
