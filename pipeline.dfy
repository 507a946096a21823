/**
  The assembler feeding the evaluator: every matrix the assembler builds is
  square, symmetric and zero on its diagonal, so its energy is the sum of
  the pairwise interactions between active segments and its gradient is
  the derivative of that energy.
*/
module Pipeline {
  import opened Wrappers
  import opened Geometry
  import opened Scoring
  import opened Adjacency
  import opened Assembly
  import opened Evaluation

  /** An assembled matrix meets every shape demand of the evaluator. */
  lemma AssembledIsEvaluable(pos: seq<Point>, segs: seq<Segment>, cfg: Config, sqrt: real -> real)
    requires IsRoot(sqrt) && ChainsNondegenerate(pos, segs)
    ensures var w := CurvatureEnergyMatrix(pos, segs, cfg, sqrt);
      IsSquare(w, |segs|) && Symmetric(w) && ZeroDiagonal(w)
  {
    MatrixEntries(pos, segs, cfg, sqrt);
  }

  /** The energy of activations x over the assembled matrix is the sum, over
      every pair of segments, of x[i] x[j] times their interaction. */
  lemma AssembledEnergyIsPairSum(pos: seq<Point>, segs: seq<Segment>, cfg: Config, sqrt: real -> real,
                                 x: seq<real>)
    requires IsRoot(sqrt) && ChainsNondegenerate(pos, segs)
    requires |x| == |segs|
    ensures var w := CurvatureEnergyMatrix(pos, segs, cfg, sqrt);
      CurvatureEnergy(w, x) == Ok(PairSum(w, x, |x|))
  {
    AssembledIsEvaluable(pos, segs, cfg, sqrt);
    EnergyIsPairSum(CurvatureEnergyMatrix(pos, segs, cfg, sqrt), x);
  }

  /** Moving activation k by t changes the energy of the assembled matrix w
      by exactly t times the k-th gradient entry. */
  lemma AssembledGradientIsDerivative(pos: seq<Point>, segs: seq<Segment>, cfg: Config, sqrt: real -> real,
                                      w: seq<seq<real>>, x: seq<real>, k: nat, t: real)
    requires IsRoot(sqrt) && ChainsNondegenerate(pos, segs)
    requires w == CurvatureEnergyMatrix(pos, segs, cfg, sqrt)
    requires |x| == |segs| && k < |x|
    ensures CurvatureEnergy(w, Add(x, Basis(|x|, k, t))).value
         == CurvatureEnergy(w, x).value + t * CurvatureEnergyGradient(w, x).value[k]
  {
    AssembledIsEvaluable(pos, segs, cfg, sqrt);
    GradientIsDerivative(w, x, k, t);
  }
}
