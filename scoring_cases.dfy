/**
  The scorer on the three chains of the scorer's unit test: hits
  a = (0,0), (0,1), (0,2); b = (1,0), (1,1), (1,2); c = (2,0), (2,0), (3,4).
  The first chain is straight with unit edges; the other two turn by 45
  degrees, so their cosine is 1/r2 with r2 = sqrt(2), and their length
  products are r2 and 2 r2.
*/
module ScoringCases {
  import opened Wrappers
  import opened Geometry
  import opened Scoring

  /** The facts about r2 = sqrt(2) that the cases use. */
  lemma RootOfTwo(sqrt: real -> real)
    requires IsRoot(sqrt)
    ensures sqrt(2.0) > 0.0 && sqrt(2.0) * sqrt(2.0) == 2.0
    ensures (1.0 / sqrt(2.0)) * sqrt(2.0) == 1.0
    ensures 0.0 < 1.0 / sqrt(2.0) < 0.8
  {
    RootPositive(2.0, sqrt);
    InverseOfRootTwo(sqrt(2.0));
  }

  lemma InverseOfRootTwo(r2: real)
    requires r2 > 0.0 && r2 * r2 == 2.0
    ensures (1.0 / r2) * r2 == 1.0
    ensures 0.0 < 1.0 / r2 < 0.8
  {
    var below, above := r2 - 1.25, r2 + 1.25;
    assert below * above == r2 * r2 - 1.5625;
    PositiveFactor(below, above);
    QuotientTimes(1.0, r2);
  }

  /** The bends of the two 45 degree turns: an edge of length 1 followed by
      one of length r2 (dot product 1) or 2 r2 (dot product 2). */
  lemma TurnBends(r2: real)
    requires r2 > 0.0 && r2 * r2 == 2.0
    ensures IsBend(Bend(1.0 / r2, r2), 1.0, 1.0, 2.0)
    ensures IsBend(Bend(1.0 / r2, 2.0 * r2), 2.0, 1.0, 8.0)
  {
    InverseOfRootTwo(r2);
    assert (2.0 * r2) * (2.0 * r2) == 4.0 * (r2 * r2);
    assert (1.0 / r2) * (2.0 * r2) == 2.0 * ((1.0 / r2) * r2);
  }

  lemma PositiveFactor(a: real, b: real)
    requires a * b > 0.0 && b > 0.0
    ensures a > 0.0
  {
  }

  /** The bend of a planar chain (x0, y0) -> (x1, y1) -> (x2, y2), from any
      bend of its edges. */
  lemma PlanarMeasure(x0: real, y0: real, x1: real, y1: real, x2: real, y2: real,
                      sqrt: real -> real, k: real, r: real)
    requires IsRoot(sqrt)
    requires (x0 != x1 || y0 != y1) && (x1 != x2 || y1 != y2)
    requires IsBend(Bend(k, r), (x1 - x0) * (x2 - x1) + (y1 - y0) * (y2 - y1),
                    (x1 - x0) * (x1 - x0) + (y1 - y0) * (y1 - y0), (x2 - x1) * (x2 - x1) + (y2 - y1) * (y2 - y1))
    ensures Measure(Planar(x0, y0), Planar(x1, y1), Planar(x2, y2), sqrt) == Bend(k, r)
  {
    var a, b, c := Planar(x0, y0), Planar(x1, y1), Planar(x2, y2);
    EdgeScalars(a, b, c);
    BendOfUnique(EdgeDot(a, b, c), EdgeNormSq(a, b), EdgeNormSq(b, c), sqrt, Bend(k, r));
  }

  /** The energy of a planar chain, from any bend of its edges. */
  lemma PlanarChainEnergy(x0: real, y0: real, x1: real, y1: real, x2: real, y2: real,
                          cfg: Config, sqrt: real -> real, k: real, r: real)
    requires IsRoot(sqrt)
    requires (x0 != x1 || y0 != y1) && (x1 != x2 || y1 != y2)
    requires IsBend(Bend(k, r), (x1 - x0) * (x2 - x1) + (y1 - y0) * (y2 - y1),
                    (x1 - x0) * (x1 - x0) + (y1 - y0) * (y1 - y0), (x2 - x1) * (x2 - x1) + (y2 - y1) * (y2 - y1))
    ensures r > 0.0
    ensures ChainEnergy(Planar(x0, y0), Planar(x1, y1), Planar(x2, y2), cfg, sqrt) == BendEnergy(Bend(k, r), cfg)
  {
    PlanarMeasure(x0, y0, x1, y1, x2, y2, sqrt, k, r);
  }

  /** (0,0) -> (1,0) -> (2,0): straight, unit edges. */
  lemma FirstChainBend(sqrt: real -> real)
    requires IsRoot(sqrt)
    ensures Measure(Planar(0.0, 0.0), Planar(1.0, 0.0), Planar(2.0, 0.0), sqrt) == Bend(1.0, 1.0)
  {
    PlanarMeasure(0.0, 0.0, 1.0, 0.0, 2.0, 0.0, sqrt, 1.0, 1.0);
  }

  /** (0,1) -> (1,1) -> (2,0): a 45 degree turn, edges of length 1 and r2. */
  lemma SecondChainBend(sqrt: real -> real)
    requires IsRoot(sqrt)
    ensures Measure(Planar(0.0, 1.0), Planar(1.0, 1.0), Planar(2.0, 0.0), sqrt)
         == Bend(1.0 / sqrt(2.0), sqrt(2.0))
  {
    RootOfTwo(sqrt);
    TurnBends(sqrt(2.0));
    PlanarMeasure(0.0, 1.0, 1.0, 1.0, 2.0, 0.0, sqrt, 1.0 / sqrt(2.0), sqrt(2.0));
  }

  /** (0,2) -> (1,2) -> (3,4): a 45 degree turn, edges of length 1 and 2 r2. */
  lemma ThirdChainBend(sqrt: real -> real)
    requires IsRoot(sqrt)
    ensures Measure(Planar(0.0, 2.0), Planar(1.0, 2.0), Planar(3.0, 4.0), sqrt)
         == Bend(1.0 / sqrt(2.0), 2.0 * sqrt(2.0))
  {
    var r2 := sqrt(2.0);
    RootOfTwo(sqrt);
    TurnBends(r2);
    PlanarMeasure(0.0, 2.0, 1.0, 2.0, 3.0, 4.0, sqrt, 1.0 / r2, 2.0 * r2);
  }

  /** The energy of each test chain is the energy of its bend, under any
      parameters. */
  lemma FirstChainEnergy(cfg: Config, sqrt: real -> real)
    requires IsRoot(sqrt)
    ensures ChainEnergy(Planar(0.0, 0.0), Planar(1.0, 0.0), Planar(2.0, 0.0), cfg, sqrt)
         == BendEnergy(Bend(1.0, 1.0), cfg)
  {
    FirstChainBend(sqrt);
  }

  lemma SecondChainEnergy(cfg: Config, sqrt: real -> real)
    requires IsRoot(sqrt)
    ensures sqrt(2.0) > 0.0
    ensures ChainEnergy(Planar(0.0, 1.0), Planar(1.0, 1.0), Planar(2.0, 0.0), cfg, sqrt)
         == BendEnergy(Bend(1.0 / sqrt(2.0), sqrt(2.0)), cfg)
  {
    RootOfTwo(sqrt);
    SecondChainBend(sqrt);
  }

  lemma ThirdChainEnergy(cfg: Config, sqrt: real -> real)
    requires IsRoot(sqrt)
    ensures sqrt(2.0) > 0.0
    ensures ChainEnergy(Planar(0.0, 2.0), Planar(1.0, 2.0), Planar(3.0, 4.0), cfg, sqrt)
         == BendEnergy(Bend(1.0 / sqrt(2.0), 2.0 * sqrt(2.0)), cfg)
  {
    RootOfTwo(sqrt);
    ThirdChainBend(sqrt);
  }

  /** A batch of three chains holds their three energies, in order. */
  lemma PairwiseOfThree(a0: Point, a1: Point, a2: Point, b0: Point, b1: Point, b2: Point,
                        c0: Point, c1: Point, c2: Point, cfg: Config, sqrt: real -> real)
    requires IsRoot(sqrt)
    requires a0 != b0 && b0 != c0 && a1 != b1 && b1 != c1 && a2 != b2 && b2 != c2
    ensures CurvatureEnergyPairwise([a0, a1, a2], [b0, b1, b2], [c0, c1, c2], cfg, sqrt)
         == Ok([ChainEnergy(a0, b0, c0, cfg, sqrt), ChainEnergy(a1, b1, c1, cfg, sqrt),
                ChainEnergy(a2, b2, c2, cfg, sqrt)])
  {
    var a, b, c := [a0, a1, a2], [b0, b1, b2], [c0, c1, c2];
    assert Nondegenerate(a, b, c);
    var r := CurvatureEnergyPairwise(a, b, c, cfg, sqrt).value;
    assert r == [r[0], r[1], r[2]];
  }

  /** An empty batch scores to an empty array, whatever the parameters. */
  lemma PairwiseEmpty(cfg: Config, sqrt: real -> real)
    requires IsRoot(sqrt)
    ensures CurvatureEnergyPairwise([], [], [], cfg, sqrt) == Ok([])
  {
  }

  /** The three chains of the scorer's unit test score as the energies of
      their bends: a straight unit chain and two 45 degree turns. */
  lemma PairwiseOfTestChains(cfg: Config, sqrt: real -> real)
    requires IsRoot(sqrt)
    ensures sqrt(2.0) > 0.0
    ensures CurvatureEnergyPairwise([Planar(0.0, 0.0), Planar(0.0, 1.0), Planar(0.0, 2.0)],
                                    [Planar(1.0, 0.0), Planar(1.0, 1.0), Planar(1.0, 2.0)],
                                    [Planar(2.0, 0.0), Planar(2.0, 0.0), Planar(3.0, 4.0)], cfg, sqrt)
         == Ok([BendEnergy(Bend(1.0, 1.0), cfg), BendEnergy(Bend(1.0 / sqrt(2.0), sqrt(2.0)), cfg),
                BendEnergy(Bend(1.0 / sqrt(2.0), 2.0 * sqrt(2.0)), cfg)])
  {
    FirstChainEnergy(cfg, sqrt);
    SecondChainEnergy(cfg, sqrt);
    ThirdChainEnergy(cfg, sqrt);
    PairwiseOfThree(Planar(0.0, 0.0), Planar(0.0, 1.0), Planar(0.0, 2.0),
                    Planar(1.0, 0.0), Planar(1.0, 1.0), Planar(1.0, 2.0),
                    Planar(2.0, 0.0), Planar(2.0, 0.0), Planar(3.0, 4.0), cfg, sqrt);
  }

  /** The straight chain scores -0.5 under every threshold that admits cosine 1. */
  lemma StraightUnitEnergy(cfg: Config)
    requires cfg.cosineThreshold <= 1.0
    ensures BendEnergy(Bend(1.0, 1.0), cfg) == -0.5
  {
    PowOfOne(cfg.cosinePower);
    PowOfOne(cfg.distanceProdPower);
  }

  /** Default parameters: -0.5, -0.5 (1/r2)^3 / 1 / r2 and -0.5 (1/r2)^3 / 2 / r2. */
  lemma PairwiseDefault(sqrt: real -> real)
    requires IsRoot(sqrt)
    ensures sqrt(2.0) > 0.0
    ensures CurvatureEnergyPairwise([Planar(0.0, 0.0), Planar(0.0, 1.0), Planar(0.0, 2.0)],
                                    [Planar(1.0, 0.0), Planar(1.0, 1.0), Planar(1.0, 2.0)],
                                    [Planar(2.0, 0.0), Planar(2.0, 0.0), Planar(3.0, 4.0)], Default, sqrt)
         == Ok([-0.5, -0.5 * Pow(1.0 / sqrt(2.0), 3) / 1.0 / sqrt(2.0),
                -0.5 * Pow(1.0 / sqrt(2.0), 3) / 2.0 / sqrt(2.0)])
  {
    var r2 := sqrt(2.0);
    PairwiseOfTestChains(Default, sqrt);
    RootOfTwo(sqrt);
    StraightUnitEnergy(Default);
    assert Pow(r2, 1) == r2 && Pow(2.0 * r2, 1) == 2.0 * r2;
    QuotientOfProduct(-0.5 * Pow(1.0 / r2, 3), 2.0, r2);
  }

  /** cosine_power = 1: -0.5, -0.5 (1/r2) / 1 / r2 and -0.5 (1/r2) / 2 / r2. */
  lemma PairwiseLinearCosine(sqrt: real -> real)
    requires IsRoot(sqrt)
    ensures sqrt(2.0) > 0.0
    ensures CurvatureEnergyPairwise([Planar(0.0, 0.0), Planar(0.0, 1.0), Planar(0.0, 2.0)],
                                    [Planar(1.0, 0.0), Planar(1.0, 1.0), Planar(1.0, 2.0)],
                                    [Planar(2.0, 0.0), Planar(2.0, 0.0), Planar(3.0, 4.0)],
                                    Default.(cosinePower := 1), sqrt)
         == Ok([-0.5, -0.5 * Pow(1.0 / sqrt(2.0), 1) / 1.0 / sqrt(2.0),
                -0.5 * Pow(1.0 / sqrt(2.0), 1) / 2.0 / sqrt(2.0)])
  {
    var r2 := sqrt(2.0);
    PairwiseOfTestChains(Default.(cosinePower := 1), sqrt);
    RootOfTwo(sqrt);
    StraightUnitEnergy(Default.(cosinePower := 1));
    assert Pow(r2, 1) == r2 && Pow(2.0 * r2, 1) == 2.0 * r2;
    QuotientOfProduct(-0.5 * Pow(1.0 / r2, 1), 2.0, r2);
  }

  /** cosine_threshold = 0.8 cuts off both 45 degree turns (1/r2 < 0.8). */
  lemma PairwiseThreshold(sqrt: real -> real)
    requires IsRoot(sqrt)
    ensures CurvatureEnergyPairwise([Planar(0.0, 0.0), Planar(0.0, 1.0), Planar(0.0, 2.0)],
                                    [Planar(1.0, 0.0), Planar(1.0, 1.0), Planar(1.0, 2.0)],
                                    [Planar(2.0, 0.0), Planar(2.0, 0.0), Planar(3.0, 4.0)],
                                    Default.(cosineThreshold := 0.8), sqrt)
         == Ok([-0.5, 0.0, 0.0])
  {
    PairwiseOfTestChains(Default.(cosineThreshold := 0.8), sqrt);
    RootOfTwo(sqrt);
    StraightUnitEnergy(Default.(cosineThreshold := 0.8));
  }

  /** distance_prod_power_in_denominator = 0: -0.5, -0.5 (1/r2)^3 and -0.5 (1/r2)^3. */
  lemma PairwiseNoDistance(sqrt: real -> real)
    requires IsRoot(sqrt)
    ensures sqrt(2.0) > 0.0
    ensures CurvatureEnergyPairwise([Planar(0.0, 0.0), Planar(0.0, 1.0), Planar(0.0, 2.0)],
                                    [Planar(1.0, 0.0), Planar(1.0, 1.0), Planar(1.0, 2.0)],
                                    [Planar(2.0, 0.0), Planar(2.0, 0.0), Planar(3.0, 4.0)],
                                    Default.(distanceProdPower := 0), sqrt)
         == Ok([-0.5, -0.5 * Pow(1.0 / sqrt(2.0), 3), -0.5 * Pow(1.0 / sqrt(2.0), 3)])
  {
    PairwiseOfTestChains(Default.(distanceProdPower := 0), sqrt);
    RootOfTwo(sqrt);
    StraightUnitEnergy(Default.(distanceProdPower := 0));
  }

  /** cosine_power = 1 and distance_prod_power_in_denominator = 0: -0.5,
      -0.5 / r2 and -0.5 / r2. */
  lemma PairwiseLinearNoDistance(sqrt: real -> real)
    requires IsRoot(sqrt)
    ensures sqrt(2.0) > 0.0
    ensures CurvatureEnergyPairwise([Planar(0.0, 0.0), Planar(0.0, 1.0), Planar(0.0, 2.0)],
                                    [Planar(1.0, 0.0), Planar(1.0, 1.0), Planar(1.0, 2.0)],
                                    [Planar(2.0, 0.0), Planar(2.0, 0.0), Planar(3.0, 4.0)],
                                    Config(1, -1.0, 0), sqrt)
         == Ok([-0.5, -0.5 * Pow(1.0 / sqrt(2.0), 1), -0.5 * Pow(1.0 / sqrt(2.0), 1)])
  {
    PairwiseOfTestChains(Config(1, -1.0, 0), sqrt);
    RootOfTwo(sqrt);
    StraightUnitEnergy(Config(1, -1.0, 0));
  }

  /** The two turned chains' default energies are rational: -1/8 and -1/16. */
  lemma DefaultTurnEnergies(r2: real)
    requires r2 > 0.0 && r2 * r2 == 2.0
    ensures -0.5 * Pow(1.0 / r2, 3) / 1.0 / r2 == -0.125
    ensures -0.5 * Pow(1.0 / r2, 3) / 2.0 / r2 == -0.0625
  {
    var t := 1.0 / r2;
    InverseOfRootTwo(r2);
    PowCube(t);
    assert t * t == 0.5 by {
      assert (t * r2) * (t * r2) == 1.0;
    }
    assert Pow(t, 3) / r2 == Pow(t, 3) * t;
    assert Pow(t, 3) * t == 0.25;
  }

  lemma QuotientOfProduct(x: real, s: real, t: real)
    requires s != 0.0 && t != 0.0
    ensures x / (s * t) == x / s / t
  {
    var q := x / s;
    assert q * s == x;
    assert (q / t) * t == q;
    assert (q / t) * (s * t) == x;
  }
}
