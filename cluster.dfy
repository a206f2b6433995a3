/** The EM-style clusterer of build/lib/naiveb/cluster.py: starting from a
    prior weighting of n categories, it repeatedly turns every sample's
    likelihood vector into a responsibility row and replaces the posterior by
    the column sums of those rows, until the posterior stops moving or an
    iteration budget is spent. */
module Cluster {
  import opened Wrappers
  import opened Vectors

  /** `normalize(x) = x / x.sum()`. The empty vector divides into itself; a
      zero sum of a non-empty vector, which numpy turns into NaN or infinite
      entries, is the error value. */
  function Normalize(x: seq<real>): (r: Result<seq<real>>)
    ensures r.Success? <==> |x| == 0 || Sum(x) != 0.0
    ensures r.Success? ==> |r.value| == |x|
    ensures Sum(x) != 0.0 ==> r.Success? && Sum(r.value) == 1.0
    ensures r.Success? ==> forall i :: 0 <= i < |x| ==> r.value[i] * Sum(x) == x[i]
    ensures r.Success? && Nonneg(x) ==> Nonneg(r.value)
  {
    var total := Sum(x);
    if |x| == 0 then Success([])
    else if total == 0.0 then Failure(DivisionByZero)
    else
      SumScale(x, 1.0 / total);
      NormalizedNonneg(x, total);
      Success(Scale(x, 1.0 / total))
  }

  lemma NormalizedNonneg(x: seq<real>, total: real)
    requires total == Sum(x) && total != 0.0
    ensures Nonneg(x) ==> Nonneg(Scale(x, 1.0 / total))
  {
    if Nonneg(x) {
      SumNonneg(x);
      var c := 1.0 / total;
      var scaled := Scale(x, c);
      forall i | 0 <= i < |scaled| ensures scaled[i] >= 0.0 {
        NonnegProduct(x[i], c);
      }
    }
  }

  lemma NonnegProduct(a: real, b: real)
    requires a >= 0.0 && b >= 0.0
    ensures a * b >= 0.0
  {
    if a > 0.0 && b > 0.0 {
      PositiveProduct(a, b);
    }
  }

  /** Marginal likelihood of one sample, `(conditional(x) * posterior).sum()`. */
  function Likelihood(c: seq<real>, posterior: seq<real>): real
    requires |c| == |posterior|
  {
    Sum(Hadamard(c, posterior))
  }

  /** `conditional(x)` for every sample, in sample order. */
  function Conditionals<S>(conditional: S -> seq<real>, sample: seq<S>): seq<seq<real>>
  {
    seq(|sample|, K requires 0 <= K < |sample| => conditional(sample[K]))
  }

  /** Every likelihood vector has one entry per category. */
  ghost predicate Shaped(conds: seq<seq<real>>, n: nat)
  {
    forall K :: 0 <= K < |conds| ==> |conds[K]| == n
  }

  ghost predicate AllNonneg(conds: seq<seq<real>>)
  {
    forall K :: 0 <= K < |conds| ==> Nonneg(conds[K])
  }

  /** No sample has zero marginal likelihood under the posterior. */
  ghost predicate Defined(conds: seq<seq<real>>, posterior: seq<real>)
    requires Shaped(conds, |posterior|)
  {
    forall K :: 0 <= K < |conds| ==> Likelihood(conds[K], posterior) != 0.0
  }

  /** The responsibility matrix: row K is `conditional(sample[K]) * posterior
      / likelihoods[K]`. A sample of zero likelihood makes the matrix NaN. */
  function Classify(conds: seq<seq<real>>, posterior: seq<real>): (r: Result<seq<seq<real>>>)
    requires Shaped(conds, |posterior|)
    ensures r.Success? <==> Defined(conds, posterior)
    ensures r.Success? ==> |r.value| == |conds|
    ensures r.Success? ==> forall K :: 0 <= K < |conds| ==> Responsibility(conds[K], posterior, r.value[K])
  {
    if |conds| == 0 then Success([])
    else if Likelihood(conds[0], posterior) == 0.0 then Failure(DivisionByZero)
    else
      match Classify(conds[1..], posterior)
      case Failure(e) => Failure(e)
      case Success(rest) => Success([Row(conds[0], posterior)] + rest)
  }

  /** What row K of the matrix is: a distribution (length n, sum one, entries
      non-negative when the inputs are) proportional to the joint weights. */
  ghost predicate Responsibility(c: seq<real>, posterior: seq<real>, row: seq<real>)
    requires |c| == |posterior|
  {
    && |row| == |posterior|
    && Sum(row) == 1.0
    && (forall k :: 0 <= k < |row| ==> row[k] * Likelihood(c, posterior) == c[k] * posterior[k])
    && (Nonneg(c) && Nonneg(posterior) ==> Nonneg(row))
  }

  function Row(c: seq<real>, posterior: seq<real>): (row: seq<real>)
    requires |c| == |posterior| && Likelihood(c, posterior) != 0.0
    ensures Responsibility(c, posterior, row)
  {
    RowIsResponsibility(c, posterior);
    Normalize(Hadamard(c, posterior)).value
  }

  lemma RowIsResponsibility(c: seq<real>, posterior: seq<real>)
    requires |c| == |posterior| && Likelihood(c, posterior) != 0.0
    ensures Normalize(Hadamard(c, posterior)).Success?
    ensures Responsibility(c, posterior, Normalize(Hadamard(c, posterior)).value)
  {
    var row := Normalize(Hadamard(c, posterior)).value;
    RowProportional(c, posterior);
    JointNonneg(c, posterior);
    assert Nonneg(c) && Nonneg(posterior) ==> Nonneg(row);
  }

  lemma RowProportional(c: seq<real>, posterior: seq<real>)
    requires |c| == |posterior| && Likelihood(c, posterior) != 0.0
    ensures Normalize(Hadamard(c, posterior)).Success?
    ensures var row := Normalize(Hadamard(c, posterior)).value;
      forall k :: 0 <= k < |row| ==> row[k] * Likelihood(c, posterior) == c[k] * posterior[k]
  {
    var joint := Hadamard(c, posterior);
    var row := Normalize(joint).value;
    forall k | 0 <= k < |row| ensures row[k] * Likelihood(c, posterior) == c[k] * posterior[k] {
      assert row[k] * Sum(joint) == joint[k];
    }
  }

  lemma JointNonneg(c: seq<real>, posterior: seq<real>)
    requires |c| == |posterior|
    ensures Nonneg(c) && Nonneg(posterior) ==> Nonneg(Hadamard(c, posterior))
  {
    if Nonneg(c) && Nonneg(posterior) {
      var joint := Hadamard(c, posterior);
      forall k | 0 <= k < |joint| ensures joint[k] >= 0.0 {
        NonnegProduct(c[k], posterior[k]);
      }
    }
  }

  /** One pass of the loop body: classify, then `classification.sum(axis=0)`.
      The new posterior has n entries that add up to the number of samples. */
  function EmStep(conds: seq<seq<real>>, posterior: seq<real>, n: nat): (r: Result<seq<real>>)
    requires |posterior| == n && Shaped(conds, n)
    ensures r.Success? <==> Defined(conds, posterior)
    ensures r.Success? ==> |r.value| == n && Sum(r.value) == |conds| as real
    ensures r.Success? && Nonneg(posterior) && AllNonneg(conds) ==> Nonneg(r.value)
  {
    match Classify(conds, posterior)
    case Failure(e) => Failure(e)
    case Success(rows) =>
      ColumnSumsOfDistributions(rows, n);
      Success(ColumnSums(rows, n))
  }

  /** The loop body as a function on posteriors: `EmStep` on vectors of n
      entries. The loop only ever hands it such vectors (`IteratePosterior`),
      so the error value for any other length is never reached. */
  function Pass(conds: seq<seq<real>>, n: nat): seq<real> -> Result<seq<real>>
    requires Shaped(conds, n)
  {
    p => if |p| == n then EmStep(conds, p, n) else Failure(DivisionByZero)
  }

  /** The posterior after k applications of a pass, stopping at the first
      failure. */
  function Iterated(pass: seq<real> -> Result<seq<real>>, prior: seq<real>, k: nat): Result<seq<real>>
    decreases k
  {
    if k == 0 then Success(prior)
    else
      match Iterated(pass, prior, k - 1)
      case Failure(e) => Failure(e)
      case Success(p) => pass(p)
  }

  /** The posterior after k passes of the loop body of `cluster`. */
  function Iterate(conds: seq<seq<real>>, prior: seq<real>, n: nat, k: nat): Result<seq<real>>
    requires Shaped(conds, n)
  {
    Iterated(Pass(conds, n), prior, k)
  }

  /** After k passes the posterior has n entries, they add up to the number
      of samples once a pass has run, and they are non-negative when the
      prior and the likelihoods are. */
  lemma {:induction false} IteratePosterior(conds: seq<seq<real>>, prior: seq<real>, n: nat, k: nat)
    requires |prior| == n && Shaped(conds, n)
    ensures var r := Iterate(conds, prior, n, k);
      && (r.Success? ==> |r.value| == n)
      && (r.Success? && k > 0 ==> Sum(r.value) == |conds| as real)
      && (r.Success? && Nonneg(prior) && AllNonneg(conds) ==> Nonneg(r.value))
  {
    if k > 0 {
      IteratePosterior(conds, prior, n, k - 1);
    }
  }

  /** Pass j (counting from one) succeeded and moved the posterior by a
      squared distance above the threshold, so the loop went on after it. */
  ghost predicate MovedBeyond(pass: seq<real> -> Result<seq<real>>, prior: seq<real>, j: nat, threshold: real)
  {
    && j > 0
    && var before := Iterated(pass, prior, j - 1);
       var after := Iterated(pass, prior, j);
       && before.Success? && after.Success? && |before.value| == |after.value|
       && SqDist(before.value, after.value) > threshold
  }

  /** The loop's stopping level, `tol / (n * sqrt(N))`, with the square root
      supplied as a witness. */
  function Threshold(tol: real, n: nat, sqrtN: real): real
    requires n >= 1 && sqrtN > 0.0
  {
    tol / (n as real * sqrtN)
  }

  /** The loop starts with `gap = tol`, so its body runs at all only when the
      tolerance is positive and there is more than one category or sample. */
  lemma GuardAtStart(tol: real, n: nat, N: nat, sqrtN: real)
    requires n >= 1 && N >= 1
    requires sqrtN > 0.0 && sqrtN * sqrtN == N as real
    ensures tol > Threshold(tol, n, sqrtN) <==> tol > 0.0 && !(n == 1 && N == 1)
  {
    var m := n as real * sqrtN;
    RootAtLeastOne(sqrtN, N as real);
    assert m >= sqrtN by {
      NonnegProduct(n as real - 1.0, sqrtN);
    }
    assert m >= n as real by {
      NonnegProduct(n as real, sqrtN - 1.0);
    }
    assert m > 0.0;
    var t := Threshold(tol, n, sqrtN);
    assert t * m == tol;
    if n == 1 && N == 1 {
      assert sqrtN == 1.0 by {
        if sqrtN > 1.0 {
          PositiveProduct(sqrtN, sqrtN - 1.0);
          assert false;
        }
      }
      assert t == tol;
    } else {
      assert m > 1.0 by {
        if n == 1 {
          assert N > 1;
          if sqrtN == 1.0 { assert false; }
        }
      }
      if tol > 0.0 {
        assert t * m == tol;
        ThresholdBelow(tol, m, t);
      } else {
        ThresholdNotBelow(tol, m, t);
      }
    }
  }

  lemma RootAtLeastOne(root: real, x: real)
    requires root > 0.0 && root * root == x && x >= 1.0
    ensures root >= 1.0
  {
    if root < 1.0 {
      PositiveProduct(root, 1.0 - root);
      assert false;
    }
  }

  lemma ThresholdBelow(tol: real, m: real, t: real)
    requires tol > 0.0 && m > 1.0 && t * m == tol
    ensures tol > t
  {
    if t >= tol {
      PositiveProduct(tol, m - 1.0);
      NonnegProduct(t - tol, m);
      assert false;
    }
  }

  lemma ThresholdNotBelow(tol: real, m: real, t: real)
    requires tol <= 0.0 && m > 1.0 && t * m == tol
    ensures tol <= t
  {
    if t < tol {
      PositiveProduct(tol - t, m);
      NonnegProduct(-tol, m - 1.0);
      assert false;
    }
  }

  /** `cluster(n, N, conditional, sample, prior, tol, maxiter)`. The final gap
      and the number of passes, which the source keeps in locals, are
      returned beside the posterior. */
  method Cluster<S>(n: nat, N: nat, conditional: S -> seq<real>, sample: seq<S>, prior: seq<real>,
                    tol: real, maxiter: int, sqrtN: real)
    returns (r: Result<seq<real>>, gap: real, iterations: nat)
    requires n >= 1 && N >= 1 && |sample| == N && |prior| == n
    requires sqrtN > 0.0 && sqrtN * sqrtN == N as real
    requires forall K :: 0 <= K < N ==> |conditional(sample[K])| == n
    ensures iterations == 0 || iterations <= maxiter
    ensures r == Iterate(Conditionals(conditional, sample), prior, n, iterations)
    ensures maxiter <= 0 ==> iterations == 0 && r == Success(prior)
    ensures tol <= 0.0 || (n == 1 && N == 1) ==> iterations == 0 && r == Success(prior)
    ensures maxiter > 0 && tol > 0.0 && !(n == 1 && N == 1) ==> iterations > 0
    ensures r.Success? ==> |r.value| == n
    ensures r.Success? && iterations > 0 ==> Sum(r.value) == N as real
    ensures r.Success? && iterations > 0 ==>
      var previous := Iterate(Conditionals(conditional, sample), prior, n, iterations - 1);
      previous.Success? && gap == SqDist(previous.value, r.value)
    ensures r.Success? && iterations > 0 ==> gap >= 0.0
    ensures r.Success? && iterations < maxiter ==> gap <= Threshold(tol, n, sqrtN)
    ensures forall j :: 0 < j < iterations ==>
      MovedBeyond(Pass(Conditionals(conditional, sample), n), prior, j, Threshold(tol, n, sqrtN))
    ensures r.Success? && Nonneg(prior) && AllNonneg(Conditionals(conditional, sample)) ==> Nonneg(r.value)
  {
    var conds := Conditionals(conditional, sample);
    assert Shaped(conds, n);
    var pass := Pass(conds, n);
    GuardAtStart(tol, n, N, sqrtN);
    r, gap, iterations := Loop(pass, prior, tol, Threshold(tol, n, sqrtN), maxiter);
    IteratePosterior(conds, prior, n, iterations);
  }

  /** The `while` loop of `cluster`, with `gap` starting at `tol`, the
      stopping level already computed and the loop body (classify, then sum
      over the samples) given as a length-preserving pass. */
  method Loop(pass: seq<real> -> Result<seq<real>>, prior: seq<real>, tol: real, threshold: real, maxiter: int)
    returns (r: Result<seq<real>>, gap: real, iterations: nat)
    requires forall p :: |p| == |prior| && pass(p).Success? ==> |pass(p).value| == |prior|
    ensures iterations == 0 || iterations <= maxiter
    ensures r == Iterated(pass, prior, iterations)
    ensures maxiter <= 0 || tol <= threshold ==> iterations == 0 && r == Success(prior)
    ensures maxiter > 0 && tol > threshold ==> iterations > 0
    ensures r.Failure? ==> iterations > 0 && Iterated(pass, prior, iterations - 1).Success?
    ensures r.Success? ==> |r.value| == |prior|
    ensures r.Success? && iterations > 0 ==>
      var previous := Iterated(pass, prior, iterations - 1);
      previous.Success? && |previous.value| == |r.value| && gap == SqDist(previous.value, r.value)
    ensures r.Success? && iterations < maxiter ==> gap <= threshold
    ensures forall j :: 0 < j < iterations ==> MovedBeyond(pass, prior, j, threshold)
  {
    var posterior := prior;
    gap := tol;
    iterations := 0;
    while gap > threshold && iterations < maxiter
      invariant iterations == 0 || iterations <= maxiter
      invariant Iterated(pass, prior, iterations) == Success(posterior)
      invariant |posterior| == |prior|
      invariant iterations == 0 ==> gap == tol
      invariant iterations > 0 ==> tol > threshold
      invariant forall j :: 0 < j < iterations ==> MovedBeyond(pass, prior, j, threshold)
      invariant iterations > 0 ==>
        var previous := Iterated(pass, prior, iterations - 1);
        previous.Success? && |previous.value| == |posterior| && gap == SqDist(previous.value, posterior)
      decreases maxiter - iterations
    {
      assert iterations > 0 ==> MovedBeyond(pass, prior, iterations, threshold);
      var next := pass(posterior);
      iterations := iterations + 1;
      if next.Failure? {
        return next, gap, iterations;
      }
      gap := SqDist(posterior, next.value);
      posterior := next.value;
    }
    r := Success(posterior);
  }
}
