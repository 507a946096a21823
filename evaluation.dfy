/**
  The energy/gradient evaluator (`curvature_energy`,
  `curvature_energy_gradient`): for an interaction matrix W and an
  activation vector x, the energy E(x) = 1/2 x . (W x) and its gradient W x.

  The evaluator touches W only through the matrix-vector product. For a
  symmetric W with a zero diagonal the energy is the sum over pairs
  i < j of W[i][j] x[i] x[j] (EnergyIsPairSum), and the gradient is the
  exact derivative of the energy along every activation (GradientIsDerivative).
*/
module Evaluation {
  import opened Wrappers

  /** The matrix is not n x n for the n activations given. */
  datatype EvaluationError = ShapeMismatch

  /** w is an n x n matrix. */
  predicate IsSquare(w: seq<seq<real>>, n: nat) {
    |w| == n && forall i :: 0 <= i < n ==> |w[i]| == n
  }

  predicate Symmetric(w: seq<seq<real>>)
    requires IsSquare(w, |w|)
  {
    forall i, j :: 0 <= i < |w| && 0 <= j < |w| ==> w[i][j] == w[j][i]
  }

  predicate ZeroDiagonal(w: seq<seq<real>>)
    requires IsSquare(w, |w|)
  {
    forall i :: 0 <= i < |w| ==> w[i][i] == 0.0
  }

  /** The dot product of the first n entries of r and x. */
  function RowDot(r: seq<real>, x: seq<real>, n: nat): real
    requires n <= |r| && n <= |x|
  {
    if n == 0 then 0.0 else RowDot(r, x, n - 1) + r[n - 1] * x[n - 1]
  }

  /** The product W x. */
  function MatVec(w: seq<seq<real>>, x: seq<real>): (g: seq<real>)
    requires IsSquare(w, |x|)
    ensures |g| == |x|
  {
    seq(|x|, i requires 0 <= i < |x| => RowDot(w[i], x, |x|))
  }

  function CurvatureEnergy(w: seq<seq<real>>, x: seq<real>): (r: Result<real, EvaluationError>)
    ensures r.Err? <==> !IsSquare(w, |x|)
  {
    if !IsSquare(w, |x|) then Err(ShapeMismatch)
    else Ok(0.5 * RowDot(x, MatVec(w, x), |x|))
  }

  function CurvatureEnergyGradient(w: seq<seq<real>>, x: seq<real>): (r: Result<seq<real>, EvaluationError>)
    ensures r.Err? <==> !IsSquare(w, |x|)
    ensures r.Ok? ==> |r.value| == |x|
  {
    if !IsSquare(w, |x|) then Err(ShapeMismatch)
    else Ok(MatVec(w, x))
  }

  // ---------------------------------------------------------------------
  // The energy as a sum over pairs.

  /** Sum over i < m of W[i][j] x[i] x[j]: the part of column j above row m. */
  function Column(w: seq<seq<real>>, x: seq<real>, j: nat, m: nat): real
    requires IsSquare(w, |x|) && j < |x| && m <= |x|
  {
    if m == 0 then 0.0 else Column(w, x, j, m - 1) + w[m - 1][j] * x[m - 1] * x[j]
  }

  /** Sum over i < j < n of W[i][j] x[i] x[j]. */
  function PairSum(w: seq<seq<real>>, x: seq<real>, n: nat): real
    requires IsSquare(w, |x|) && n <= |x|
  {
    if n == 0 then 0.0 else PairSum(w, x, n - 1) + Column(w, x, n - 1, n - 1)
  }

  /** Sum over i < m of x[i] times row i of W restricted to its first n columns. */
  ghost function Corner(w: seq<seq<real>>, x: seq<real>, m: nat, n: nat): real
    requires IsSquare(w, |x|) && m <= |x| && n <= |x|
  {
    if m == 0 then 0.0 else Corner(w, x, m - 1, n) + x[m - 1] * RowDot(w[m - 1], x, n)
  }

  lemma {:induction false} CornerIsForm(w: seq<seq<real>>, x: seq<real>, m: nat)
    requires IsSquare(w, |x|) && m <= |x|
    ensures Corner(w, x, m, |x|) == RowDot(x, MatVec(w, x), m)
  {
    if m > 0 {
      CornerIsForm(w, x, m - 1);
    }
  }

  /** Widening the corner by column n adds that column's part above row m. */
  lemma {:induction false} CornerWiden(w: seq<seq<real>>, x: seq<real>, m: nat, n: nat)
    requires IsSquare(w, |x|) && m <= |x| && n < |x|
    ensures Corner(w, x, m, n + 1) == Corner(w, x, m, n) + Column(w, x, n, m)
  {
    if m > 0 {
      CornerWiden(w, x, m - 1, n);
      var i := m - 1;
      assert x[i] * RowDot(w[i], x, n + 1) == x[i] * RowDot(w[i], x, n) + w[i][n] * x[i] * x[n];
    }
  }

  /** In a symmetric matrix row n, weighted by x[n], equals column n. */
  lemma {:induction false} RowIsColumn(w: seq<seq<real>>, x: seq<real>, n: nat, m: nat)
    requires IsSquare(w, |x|) && Symmetric(w) && m <= n < |x|
    ensures x[n] * RowDot(w[n], x, m) == Column(w, x, n, m)
  {
    if m > 0 {
      RowIsColumn(w, x, n, m - 1);
      var i := m - 1;
      assert w[n][i] == w[i][n];
      assert x[n] * RowDot(w[n], x, m) == x[n] * RowDot(w[n], x, i) + w[i][n] * x[i] * x[n];
    }
  }

  lemma {:induction false} CornerIsTwicePairSum(w: seq<seq<real>>, x: seq<real>, n: nat)
    requires IsSquare(w, |x|) && Symmetric(w) && ZeroDiagonal(w) && n <= |x|
    ensures Corner(w, x, n, n) == 2.0 * PairSum(w, x, n)
  {
    if n > 0 {
      var k := n - 1;
      CornerIsTwicePairSum(w, x, k);
      CornerWiden(w, x, k, k);
      RowIsColumn(w, x, k, k);
      assert w[k][k] == 0.0;
      assert x[k] * RowDot(w[k], x, n) == x[k] * RowDot(w[k], x, k);
    }
  }

  /** For a symmetric W with a zero diagonal, the energy 1/2 x . (W x) is
      the sum over pairs i < j of W[i][j] x[i] x[j]. */
  lemma EnergyIsPairSum(w: seq<seq<real>>, x: seq<real>)
    requires IsSquare(w, |x|) && Symmetric(w) && ZeroDiagonal(w)
    ensures CurvatureEnergy(w, x) == Ok(PairSum(w, x, |x|))
  {
    CornerIsForm(w, x, |x|);
    CornerIsTwicePairSum(w, x, |x|);
  }

  // ---------------------------------------------------------------------
  // The gradient as the derivative of the energy.

  function Add(x: seq<real>, y: seq<real>): (r: seq<real>)
    requires |x| == |y|
    ensures |r| == |x|
  {
    seq(|x|, i requires 0 <= i < |x| => x[i] + y[i])
  }

  /** t times the k-th unit vector of length n. */
  function Basis(n: nat, k: nat, t: real): (r: seq<real>)
    ensures |r| == n
  {
    seq(n, i => if i == k then t else 0.0)
  }

  function Scale(t: real, x: seq<real>): (r: seq<real>)
    ensures |r| == |x|
  {
    seq(|x|, i requires 0 <= i < |x| => t * x[i])
  }

  lemma {:induction false} RowDotCommutes(r: seq<real>, x: seq<real>, n: nat)
    requires n <= |r| && n <= |x|
    ensures RowDot(r, x, n) == RowDot(x, r, n)
  {
    if n > 0 {
      RowDotCommutes(r, x, n - 1);
    }
  }

  lemma {:induction false} RowDotAdd(r: seq<real>, x: seq<real>, y: seq<real>, n: nat)
    requires |x| == |y| && n <= |r| && n <= |x|
    ensures RowDot(r, Add(x, y), n) == RowDot(r, x, n) + RowDot(r, y, n)
  {
    if n > 0 {
      RowDotAdd(r, x, y, n - 1);
      assert r[n - 1] * (x[n - 1] + y[n - 1]) == r[n - 1] * x[n - 1] + r[n - 1] * y[n - 1];
    }
  }

  lemma {:induction false} RowDotScale(r: seq<real>, t: real, x: seq<real>, n: nat)
    requires n <= |r| && n <= |x|
    ensures RowDot(r, Scale(t, x), n) == t * RowDot(r, x, n)
  {
    if n > 0 {
      RowDotScale(r, t, x, n - 1);
      assert r[n - 1] * (t * x[n - 1]) == t * (r[n - 1] * x[n - 1]);
    }
  }

  lemma {:induction false} RowDotBasis(r: seq<real>, len: nat, k: nat, t: real, n: nat)
    requires n <= |r| && n <= len && k < len
    ensures RowDot(r, Basis(len, k, t), n) == if k < n then r[k] * t else 0.0
  {
    if n > 0 {
      RowDotBasis(r, len, k, t, n - 1);
    }
  }

  /** x . (W y) is additive in x. */
  lemma FormAddLeft(w: seq<seq<real>>, x: seq<real>, e: seq<real>, y: seq<real>)
    requires IsSquare(w, |y|) && |x| == |y| && |e| == |y|
    ensures RowDot(Add(x, e), MatVec(w, y), |y|) == RowDot(x, MatVec(w, y), |y|) + RowDot(e, MatVec(w, y), |y|)
  {
    var g := MatVec(w, y);
    RowDotCommutes(Add(x, e), g, |y|);
    RowDotAdd(g, x, e, |y|);
    RowDotCommutes(x, g, |y|);
    RowDotCommutes(e, g, |y|);
  }

  /** W (y + e) = W y + W e. */
  lemma MatVecAdd(w: seq<seq<real>>, y: seq<real>, e: seq<real>)
    requires IsSquare(w, |y|) && |e| == |y|
    ensures MatVec(w, Add(y, e)) == Add(MatVec(w, y), MatVec(w, e))
  {
    var n := |y|;
    var s := Add(y, e);
    forall i | 0 <= i < n
      ensures MatVec(w, s)[i] == MatVec(w, y)[i] + MatVec(w, e)[i]
    {
      RowDotAdd(w[i], y, e, n);
    }
  }

  /** x . (W y) is additive in y. */
  lemma FormAddRight(w: seq<seq<real>>, x: seq<real>, y: seq<real>, e: seq<real>)
    requires IsSquare(w, |y|) && |x| == |y| && |e| == |y|
    ensures RowDot(x, MatVec(w, Add(y, e)), |y|) == RowDot(x, MatVec(w, y), |y|) + RowDot(x, MatVec(w, e), |y|)
  {
    var a := MatVec(w, y);
    var b := MatVec(w, e);
    MatVecAdd(w, y, e);
    RowDotAdd(x, a, b, |y|);
  }

  /** The product of W with t e_k is t times column k, which for a symmetric
      W is t times row k. */
  lemma MatVecBasis(w: seq<seq<real>>, k: nat, t: real)
    requires IsSquare(w, |w|) && Symmetric(w) && k < |w|
    ensures MatVec(w, Basis(|w|, k, t)) == Scale(t, w[k])
  {
    var n := |w|;
    forall i | 0 <= i < n
      ensures MatVec(w, Basis(n, k, t))[i] == Scale(t, w[k])[i]
    {
      RowDotBasis(w[i], n, k, t, n);
      assert w[i][k] == w[k][i];
    }
  }

  /** Moving activation k by t changes the energy by exactly t times the
      k-th gradient entry: for a symmetric W with a zero diagonal the energy
      is linear along each activation, and its slope is the gradient. */
  lemma GradientIsDerivative(w: seq<seq<real>>, x: seq<real>, k: nat, t: real)
    requires IsSquare(w, |x|) && Symmetric(w) && ZeroDiagonal(w) && k < |x|
    ensures CurvatureEnergy(w, Add(x, Basis(|x|, k, t))).value
         == CurvatureEnergy(w, x).value + t * CurvatureEnergyGradient(w, x).value[k]
  {
    var n := |x|;
    var e := Basis(n, k, t);
    var y := Add(x, e);
    var g := MatVec(w, x);
    FormAddLeft(w, x, e, y);
    FormAddRight(w, x, x, e);
    FormAddRight(w, e, x, e);
    MatVecBasis(w, k, t);
    // x . (W t e_k) = t (x . row k) = t g[k]
    RowDotScale(x, t, w[k], n);
    RowDotCommutes(x, w[k], n);
    // t e_k . (W x) = t g[k]
    RowDotCommutes(e, g, n);
    RowDotBasis(g, n, k, t, n);
    // t e_k . (W t e_k) = t t W[k][k] = 0
    RowDotCommutes(e, Scale(t, w[k]), n);
    RowDotBasis(Scale(t, w[k]), n, k, t, n);
    assert w[k][k] == 0.0;
  }
}
