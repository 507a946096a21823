/**
  The evaluator on the matrix of the energy and gradient tests: hits
  (0,0), (1,0), (2,0), (2,1), (2,-1), (3,0), (3,2) and segment 0 from hit 0
  to hit 1 followed by five segments fanning out of hit 1.
*/
module EvaluationCases {
  import opened Wrappers
  import opened Geometry
  import opened Scoring
  import opened Assembly
  import opened Evaluation
  import opened AssemblyCases

  /** A dot product of six entries, written out. */
  lemma RowDotOfSix(r: seq<real>, x: seq<real>)
    requires |r| == 6 && |x| == 6
    ensures RowDot(r, x, 6) == r[0] * x[0] + r[1] * x[1] + r[2] * x[2] + r[3] * x[3] + r[4] * x[4] + r[5] * x[5]
  {
    assert RowDot(r, x, 1) == r[0] * x[0];
    assert RowDot(r, x, 3) == RowDot(r, x, 1) + r[1] * x[1] + r[2] * x[2];
    assert RowDot(r, x, 5) == RowDot(r, x, 3) + r[3] * x[3] + r[4] * x[4];
  }

  /** Row 0 of the gradient weighs the other activations by the energies
      segment 0 passes them; row j > 0 is its energy times x[0]. */
  lemma StarGradient(w: seq<seq<real>>, x: seq<real>)
    requires w == StarMatrix() && |x| == 6
    ensures CurvatureEnergyGradient(w, x)
         == Ok([-0.5 * x[1] - 0.125 * x[2] - 0.125 * x[3] - 0.25 * x[4] - 0.0625 * x[5],
                -0.5 * x[0], -0.125 * x[0], -0.125 * x[0], -0.25 * x[0], -0.0625 * x[0]])
  {
    var g := [-0.5 * x[1] - 0.125 * x[2] - 0.125 * x[3] - 0.25 * x[4] - 0.0625 * x[5],
              -0.5 * x[0], -0.125 * x[0], -0.125 * x[0], -0.25 * x[0], -0.0625 * x[0]];
    assert IsSquare(w, 6);
    RowDotOfSix(w[0], x);
    RowDotOfSix(w[1], x);
    RowDotOfSix(w[2], x);
    RowDotOfSix(w[3], x);
    RowDotOfSix(w[4], x);
    RowDotOfSix(w[5], x);
    var m := MatVec(w, x);
    assert m[0] == g[0] && m[1] == g[1] && m[2] == g[2] && m[3] == g[3] && m[4] == g[4] && m[5] == g[5];
    assert m == g;
  }

  /** The energy is x[0] times row 0 of the gradient: every interaction
      involves segment 0. */
  lemma StarEnergy(w: seq<seq<real>>, x: seq<real>)
    requires w == StarMatrix() && |x| == 6
    ensures CurvatureEnergy(w, x)
         == Ok(x[0] * (-0.5 * x[1] - 0.125 * x[2] - 0.125 * x[3] - 0.25 * x[4] - 0.0625 * x[5]))
  {
    var g := [-0.5 * x[1] - 0.125 * x[2] - 0.125 * x[3] - 0.25 * x[4] - 0.0625 * x[5],
              -0.5 * x[0], -0.125 * x[0], -0.125 * x[0], -0.25 * x[0], -0.0625 * x[0]];
    assert IsSquare(w, |x|) && MatVec(w, x) == g by {
      StarGradient(w, x);
    }
    assert 0.5 * RowDot(x, g, 6) == x[0] * g[0] by {
      RowDotOfSix(x, g);
      StarForm(x[0], x[1], x[2], x[3], x[4], x[5]);
    }
    assert CurvatureEnergy(w, x) == Ok(0.5 * RowDot(x, g, 6));
    var e := x[0] * (-0.5 * x[1] - 0.125 * x[2] - 0.125 * x[3] - 0.25 * x[4] - 0.0625 * x[5]);
    assert x[0] * g[0] == e;
    assert 0.5 * RowDot(x, g, 6) == e;
    assert CurvatureEnergy(w, x) == Ok(e);
  }

  /** Each term x[j] (w[j][0] x[0]) of the form repeats a term of x[0] (row 0 . x). */
  lemma StarForm(x0: real, x1: real, x2: real, x3: real, x4: real, x5: real)
    ensures 0.5 * (x0 * (-0.5 * x1 - 0.125 * x2 - 0.125 * x3 - 0.25 * x4 - 0.0625 * x5)
                   + x1 * (-0.5 * x0) + x2 * (-0.125 * x0) + x3 * (-0.125 * x0)
                   + x4 * (-0.25 * x0) + x5 * (-0.0625 * x0))
         == x0 * (-0.5 * x1 - 0.125 * x2 - 0.125 * x3 - 0.25 * x4 - 0.0625 * x5)
  {
  }

  /** Two active segments: the energy is the one interaction between them. */
  lemma PairEnergies(w: seq<seq<real>>)
    requires w == StarMatrix()
    ensures CurvatureEnergy(w, [1.0, 1.0, 0.0, 0.0, 0.0, 0.0]) == Ok(-0.5)
    ensures CurvatureEnergy(w, [1.0, 0.0, 1.0, 0.0, 0.0, 0.0]) == Ok(-1.0 / 8.0)
    ensures CurvatureEnergy(w, [1.0, 0.0, 0.0, 1.0, 0.0, 0.0]) == Ok(-1.0 / 8.0)
    ensures CurvatureEnergy(w, [1.0, 0.0, 0.0, 0.0, 1.0, 0.0]) == Ok(-1.0 / 4.0)
    ensures CurvatureEnergy(w, [1.0, 0.0, 0.0, 0.0, 0.0, 1.0]) == Ok(-1.0 / 16.0)
  {
    StarEnergy(w, [1.0, 1.0, 0.0, 0.0, 0.0, 0.0]);
    StarEnergy(w, [1.0, 0.0, 1.0, 0.0, 0.0, 0.0]);
    StarEnergy(w, [1.0, 0.0, 0.0, 1.0, 0.0, 0.0]);
    StarEnergy(w, [1.0, 0.0, 0.0, 0.0, 1.0, 0.0]);
    StarEnergy(w, [1.0, 0.0, 0.0, 0.0, 0.0, 1.0]);
  }

  /** All segments active, fully or at 0.1: the interactions of segment 0 add up. */
  lemma SumEnergies(w: seq<seq<real>>)
    requires w == StarMatrix()
    ensures CurvatureEnergy(w, [1.0, 1.0, 1.0, 1.0, 1.0, 1.0]) == Ok(-17.0 / 16.0)
    ensures CurvatureEnergy(w, [1.0, 0.1, 0.1, 0.1, 0.1, 0.1]) == Ok(-1.7 / 16.0)
  {
    assert CurvatureEnergy(w, [1.0, 1.0, 1.0, 1.0, 1.0, 1.0]) == Ok(-17.0 / 16.0) by {
      StarEnergy(w, [1.0, 1.0, 1.0, 1.0, 1.0, 1.0]);
    }
    assert CurvatureEnergy(w, [1.0, 0.1, 0.1, 0.1, 0.1, 0.1]) == Ok(-1.7 / 16.0) by {
      StarEnergy(w, [1.0, 0.1, 0.1, 0.1, 0.1, 0.1]);
    }
  }

  /** The seven energies of test_curvature_energy, on the matrix the
      assembler builds. */
  lemma EnergyTest(sqrt: real -> real)
    requires IsRoot(sqrt)
    ensures ChainsNondegenerate(TestHits(), StarSegments())
    ensures var w := CurvatureEnergyMatrix(TestHits(), StarSegments(), Default, sqrt);
      CurvatureEnergy(w, [1.0, 1.0, 0.0, 0.0, 0.0, 0.0]) == Ok(-0.5) &&
      CurvatureEnergy(w, [1.0, 0.0, 1.0, 0.0, 0.0, 0.0]) == Ok(-1.0 / 8.0) &&
      CurvatureEnergy(w, [1.0, 0.0, 0.0, 1.0, 0.0, 0.0]) == Ok(-1.0 / 8.0) &&
      CurvatureEnergy(w, [1.0, 0.0, 0.0, 0.0, 1.0, 0.0]) == Ok(-1.0 / 4.0) &&
      CurvatureEnergy(w, [1.0, 0.0, 0.0, 0.0, 0.0, 1.0]) == Ok(-1.0 / 16.0) &&
      CurvatureEnergy(w, [1.0, 1.0, 1.0, 1.0, 1.0, 1.0]) == Ok(-17.0 / 16.0) &&
      CurvatureEnergy(w, [1.0, 0.1, 0.1, 0.1, 0.1, 0.1]) == Ok(-1.7 / 16.0)
  {
    StarTest(sqrt);
    PairEnergies(CurvatureEnergyMatrix(TestHits(), StarSegments(), Default, sqrt));
    SumEnergies(CurvatureEnergyMatrix(TestHits(), StarSegments(), Default, sqrt));
  }

  /** The gradient of test_curvature_energy_gradient, on the matrix the
      assembler builds: activations 1, 1, 0, 0, 0, 0. */
  lemma GradientTest(sqrt: real -> real)
    requires IsRoot(sqrt)
    ensures ChainsNondegenerate(TestHits(), StarSegments())
    ensures CurvatureEnergyGradient(CurvatureEnergyMatrix(TestHits(), StarSegments(), Default, sqrt),
                                    [1.0, 1.0, 0.0, 0.0, 0.0, 0.0])
         == Ok([-0.5, -0.5, -1.0 / 8.0, -1.0 / 8.0, -1.0 / 4.0, -1.0 / 16.0])
  {
    StarTest(sqrt);
    StarGradientOfTest(CurvatureEnergyMatrix(TestHits(), StarSegments(), Default, sqrt));
  }

  lemma StarGradientOfTest(w: seq<seq<real>>)
    requires w == StarMatrix()
    ensures CurvatureEnergyGradient(w, [1.0, 1.0, 0.0, 0.0, 0.0, 0.0])
         == Ok([-0.5, -0.5, -1.0 / 8.0, -1.0 / 8.0, -1.0 / 4.0, -1.0 / 16.0])
  {
    StarGradient(w, [1.0, 1.0, 0.0, 0.0, 0.0, 0.0]);
  }
}
