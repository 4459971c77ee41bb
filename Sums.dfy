/**
 * Sums over sequences of reals and over the rows and columns of a matrix.
 * Amounts are exact reals; Python's built-in `sum` folds from the left,
 * so `Sum` peels off the last element.
 */
module Sums {

  /** Left-to-right sum of a sequence, as Python's `sum(xs)`; 0 for `[]`. */
  function Sum(s: seq<real>): real
  {
    if |s| == 0 then 0.0 else Sum(s[..|s| - 1]) + s[|s| - 1]
  }

  /** `[0.0] * n` */
  function Zeros(n: nat): (z: seq<real>)
    ensures |z| == n && forall j :: 0 <= j < n ==> z[j] == 0.0
  {
    seq(n, _ => 0.0)
  }

  /** Every row of `m` has `cols` entries and there are `rows` rows. */
  predicate IsMatrix(m: seq<seq<real>>, rows: nat, cols: nat)
  {
    |m| == rows && forall i :: 0 <= i < |m| ==> |m[i]| == cols
  }

  predicate AllNonNegative(s: seq<real>)
  {
    forall k :: 0 <= k < |s| ==> s[k] >= 0.0
  }

  /** Column `j` of a matrix whose rows are all longer than `j`. */
  function Column(m: seq<seq<real>>, j: nat): (c: seq<real>)
    requires forall i :: 0 <= i < |m| ==> j < |m[i]|
    ensures |c| == |m| && forall i :: 0 <= i < |m| ==> c[i] == m[i][j]
  {
    seq(|m|, i requires 0 <= i < |m| => m[i][j])
  }

  /** The sum of each row. */
  function RowSums(m: seq<seq<real>>): (r: seq<real>)
    ensures |r| == |m| && forall i :: 0 <= i < |m| ==> r[i] == Sum(m[i])
  {
    seq(|m|, i requires 0 <= i < |m| => Sum(m[i]))
  }

  /** The sum of each of the `cols` columns. */
  function ColSums(m: seq<seq<real>>, cols: nat): (c: seq<real>)
    requires IsMatrix(m, |m|, cols)
    ensures |c| == cols && forall j :: 0 <= j < cols ==> c[j] == Sum(Column(m, j))
  {
    seq(cols, j requires 0 <= j < cols => Sum(Column(m, j)))
  }

  lemma SumAppend(s: seq<real>, x: real)
    ensures Sum(s + [x]) == Sum(s) + x
  {
    assert (s + [x])[..|s|] == s;
  }

  /** Summing is additive: the sum of pointwise sums is the sum of the sums. */
  lemma {:induction false} SumAdd(a: seq<real>, b: seq<real>, c: seq<real>)
    requires |a| == |b| == |c|
    requires forall k :: 0 <= k < |c| ==> c[k] == a[k] + b[k]
    ensures Sum(c) == Sum(a) + Sum(b)
  {
    if |c| > 0 {
      var n := |c| - 1;
      SumAdd(a[..n], b[..n], c[..n]);
    }
  }

  /** Summing is homogeneous: a common factor comes out of the sum. */
  lemma {:induction false} SumScale(a: seq<real>, c: seq<real>, k: real)
    requires |a| == |c|
    requires forall i :: 0 <= i < |c| ==> c[i] == k * a[i]
    ensures Sum(c) == k * Sum(a)
  {
    if |c| > 0 {
      var n := |c| - 1;
      SumScale(a[..n], c[..n], k);
      assert Sum(c) == k * Sum(a[..n]) + k * a[n];
    }
  }

  lemma {:induction false} SumZeros(n: nat)
    ensures Sum(Zeros(n)) == 0.0
  {
    if n > 0 {
      assert Zeros(n)[..n - 1] == Zeros(n - 1);
      SumZeros(n - 1);
    }
  }

  /** A sum of non-negative terms is at least each of its terms. */
  lemma {:induction false} ElementAtMostSum(s: seq<real>, k: nat)
    requires AllNonNegative(s)
    requires k < |s|
    ensures 0.0 <= s[k] <= Sum(s)
  {
    var n := |s| - 1;
    if k < n {
      ElementAtMostSum(s[..n], k);
    } else {
      SumNonNegative(s[..n]);
    }
  }

  lemma {:induction false} SumNonNegative(s: seq<real>)
    requires AllNonNegative(s)
    ensures Sum(s) >= 0.0
  {
    if |s| > 0 {
      SumNonNegative(s[..|s| - 1]);
    }
  }

  /** One more row adds its total to the sum of the row totals. */
  lemma RowSumsAppend(m: seq<seq<real>>, row: seq<real>)
    ensures Sum(RowSums(m + [row])) == Sum(RowSums(m)) + Sum(row)
  {
    assert RowSums(m + [row]) == RowSums(m) + [Sum(row)];
    SumAppend(RowSums(m), Sum(row));
  }

  /** One more row adds its entries to the column totals. */
  lemma ColSumsAppend(m: seq<seq<real>>, row: seq<real>, cols: nat)
    requires IsMatrix(m, |m|, cols) && |row| == cols
    ensures IsMatrix(m + [row], |m| + 1, cols)
    ensures Sum(ColSums(m + [row], cols)) == Sum(ColSums(m, cols)) + Sum(row)
  {
    var m' := m + [row];
    forall j | 0 <= j < cols
      ensures ColSums(m', cols)[j] == ColSums(m, cols)[j] + row[j]
    {
      assert Column(m', j) == Column(m, j) + [row[j]];
      SumAppend(Column(m, j), row[j]);
    }
    SumAdd(ColSums(m, cols), row, ColSums(m', cols));
  }

  /** Adding up a matrix row by row gives the same total as column by column. */
  lemma {:induction false} RowsThenColumns(m: seq<seq<real>>, cols: nat)
    requires IsMatrix(m, |m|, cols)
    ensures Sum(RowSums(m)) == Sum(ColSums(m, cols))
  {
    if |m| > 0 {
      var n := |m| - 1;
      var front, last := m[..n], m[n];
      assert front + [last] == m;
      RowsThenColumns(front, cols);
      RowSumsAppend(front, last);
      ColSumsAppend(front, last, cols);
      assert Sum(RowSums(m)) == Sum(RowSums(front)) + Sum(last);
      assert Sum(ColSums(m, cols)) == Sum(ColSums(front, cols)) + Sum(last);
    } else {
      // no rows: every column total is an empty sum
      assert ColSums(m, cols) == Zeros(cols);
      SumZeros(cols);
    }
  }
}
