/** Dense vectors over exact reals: the element-wise operations numpy supplies
    to the minimizer and the clusterer, and the facts about sums they rely on. */
module Vectors {

  function Sum(s: seq<real>): real
  {
    if |s| == 0 then 0.0 else s[0] + Sum(s[1..])
  }

  function Zeros(n: nat): seq<real>
  {
    seq(n, i => 0.0)
  }

  function Add(a: seq<real>, b: seq<real>): seq<real>
    requires |a| == |b|
  {
    seq(|a|, i requires 0 <= i < |a| => a[i] + b[i])
  }

  function Sub(a: seq<real>, b: seq<real>): seq<real>
    requires |a| == |b|
  {
    seq(|a|, i requires 0 <= i < |a| => a[i] - b[i])
  }

  function Neg(v: seq<real>): seq<real>
  {
    seq(|v|, i requires 0 <= i < |v| => -v[i])
  }

  function Scale(v: seq<real>, c: real): seq<real>
  {
    seq(|v|, i requires 0 <= i < |v| => v[i] * c)
  }

  /** Element-wise product (numpy's `*` on two arrays of one shape). */
  function Hadamard(a: seq<real>, b: seq<real>): seq<real>
    requires |a| == |b|
  {
    seq(|a|, i requires 0 <= i < |a| => a[i] * b[i])
  }

  predicate Nonneg(v: seq<real>)
  {
    forall i :: 0 <= i < |v| ==> v[i] >= 0.0
  }

  /** Squared Euclidean norm. */
  function SqNorm(v: seq<real>): (r: real)
    ensures r >= 0.0
  {
    if |v| == 0 then 0.0
    else
      SquareNonneg(v[0]);
      v[0] * v[0] + SqNorm(v[1..])
  }

  lemma PositiveProduct(a: real, b: real)
    requires a > 0.0 && b > 0.0
    ensures a * b > 0.0
  {
  }

  lemma SquareNonneg(x: real)
    ensures x * x >= 0.0
  {
    if x > 0.0 {
      PositiveProduct(x, x);
    } else if x < 0.0 {
      PositiveProduct(-x, -x);
    }
  }

  /** Squared distance, `((a - b)**2).sum()`. */
  function SqDist(a: seq<real>, b: seq<real>): real
    requires |a| == |b|
  {
    SqNorm(Sub(a, b))
  }

  /** Sum over axis 0 of a matrix whose rows all have length n. */
  function ColumnSums(rows: seq<seq<real>>, n: nat): (r: seq<real>)
    requires forall K :: 0 <= K < |rows| ==> |rows[K]| == n
    ensures |r| == n
    ensures (forall K :: 0 <= K < |rows| ==> Nonneg(rows[K])) ==> Nonneg(r)
  {
    if |rows| == 0 then Zeros(n) else Add(rows[0], ColumnSums(rows[1..], n))
  }

  lemma {:induction false} SumZeros(n: nat)
    ensures Sum(Zeros(n)) == 0.0
  {
    if n > 0 {
      assert Zeros(n)[1..] == Zeros(n - 1);
      SumZeros(n - 1);
    }
  }

  lemma {:induction false} SumAdd(a: seq<real>, b: seq<real>)
    requires |a| == |b|
    ensures Sum(Add(a, b)) == Sum(a) + Sum(b)
  {
    if |a| > 0 {
      assert Add(a, b)[1..] == Add(a[1..], b[1..]);
      SumAdd(a[1..], b[1..]);
    }
  }

  lemma {:induction false} SumScale(v: seq<real>, c: real)
    ensures Sum(Scale(v, c)) == Sum(v) * c
  {
    if |v| > 0 {
      forall i | 0 <= i < |v| - 1 ensures Scale(v, c)[1..][i] == Scale(v[1..], c)[i] {
        assert Scale(v, c)[1..][i] == Scale(v, c)[i + 1] == v[i + 1] * c;
      }
      assert Scale(v, c)[1..] == Scale(v[1..], c);
      SumScale(v[1..], c);
      assert (v[0] + Sum(v[1..])) * c == v[0] * c + Sum(v[1..]) * c;
    }
  }

  lemma {:induction false} SumNonneg(v: seq<real>)
    requires Nonneg(v)
    ensures Sum(v) >= 0.0
  {
    if |v| > 0 {
      assert forall i :: 0 <= i < |v| - 1 ==> v[1..][i] == v[i + 1];
      assert Nonneg(v[1..]);
      SumNonneg(v[1..]);
    }
  }

  /** Summing the columns of a matrix whose rows each sum to one gives the
      number of rows. */
  lemma {:induction false} ColumnSumsOfDistributions(rows: seq<seq<real>>, n: nat)
    requires forall K :: 0 <= K < |rows| ==> |rows[K]| == n
    requires forall K :: 0 <= K < |rows| ==> Sum(rows[K]) == 1.0
    ensures Sum(ColumnSums(rows, n)) == |rows| as real
  {
    if |rows| == 0 {
      SumZeros(n);
    } else {
      ColumnSumsOfDistributions(rows[1..], n);
      SumAdd(rows[0], ColumnSums(rows[1..], n));
    }
  }
}
