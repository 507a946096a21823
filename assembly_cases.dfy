/**
  The assembler on the hits of the matrix and energy tests:
  (0,0), (1,0), (2,0), (2,1), (2,-1), (3,0), (3,2).
*/
module AssemblyCases {
  import opened Geometry
  import opened Scoring
  import opened Adjacency
  import opened Assembly
  import opened ScoringCases
  import opened AdjacencyCases

  /** The hit positions shared by the matrix, energy and gradient tests. */
  function TestHits(): seq<Point> {
    [Planar(0.0, 0.0), Planar(1.0, 0.0), Planar(2.0, 0.0), Planar(2.0, 1.0),
     Planar(2.0, -1.0), Planar(3.0, 0.0), Planar(3.0, 2.0)]
  }

  /** The position table holds the test hits. */
  predicate AreTestHits(pos: seq<Point>) {
    |pos| == 7 &&
    pos[0] == Planar(0.0, 0.0) && pos[1] == Planar(1.0, 0.0) && pos[2] == Planar(2.0, 0.0) &&
    pos[3] == Planar(2.0, 1.0) && pos[4] == Planar(2.0, -1.0) && pos[5] == Planar(3.0, 0.0) &&
    pos[6] == Planar(3.0, 2.0)
  }

  /** The first two cases of test_curvature_energy_matrix: with no segments
      the matrix is 0 x 0, with or without hits. */
  lemma NoSegmentCases(sqrt: real -> real)
    requires IsRoot(sqrt)
    ensures ChainsNondegenerate([], []) && ChainsNondegenerate(TestHits(), [])
    ensures CurvatureEnergyMatrix([], [], Default, sqrt) == []
    ensures CurvatureEnergyMatrix(TestHits(), [], Default, sqrt) == []
  {
    NoSegments([], Default, sqrt);
    NoSegments(TestHits(), Default, sqrt);
  }

  /** A straight chain scores -0.5 divided by its length product. */
  lemma StraightDefaultEnergy(lengthProduct: real)
    requires lengthProduct > 0.0
    ensures BendEnergy(Bend(1.0, lengthProduct), Default) * lengthProduct == -0.5
  {
    PowOfOne(3);
    assert Pow(lengthProduct, 1) == lengthProduct;
  }

  /** The two 45 degree turns, with length products r2 and 2 r2, score
      -1/8 and -1/16. */
  lemma TurnDefaultEnergies(sqrt: real -> real)
    requires IsRoot(sqrt)
    ensures sqrt(2.0) > 0.0
    ensures BendEnergy(Bend(1.0 / sqrt(2.0), sqrt(2.0)), Default) == -0.125
    ensures BendEnergy(Bend(1.0 / sqrt(2.0), 2.0 * sqrt(2.0)), Default) == -0.0625
  {
    var r2 := sqrt(2.0);
    RootOfTwo(sqrt);
    assert BendEnergy(Bend(1.0 / r2, r2), Default) == -0.125 by {
      DefaultTurnEnergies(r2);
      assert Pow(r2, 1) == r2;
    }
    assert BendEnergy(Bend(1.0 / r2, 2.0 * r2), Default) == -0.0625 by {
      DefaultTurnEnergies(r2);
      assert Pow(2.0 * r2, 1) == 2.0 * r2;
      QuotientOfProduct(-0.5 * Pow(1.0 / r2, 3), 2.0, r2);
    }
  }

  /** The straight chains of the two test matrices score -1/2 over their
      length products 1 and 2. */
  lemma StraightChainEnergies(sqrt: real -> real)
    requires IsRoot(sqrt)
    ensures ChainEnergy(Planar(0.0, 0.0), Planar(1.0, 0.0), Planar(2.0, 0.0), Default, sqrt) == -0.5
    ensures ChainEnergy(Planar(1.0, 0.0), Planar(2.0, 0.0), Planar(3.0, 0.0), Default, sqrt) == -0.5
    ensures ChainEnergy(Planar(1.0, 0.0), Planar(2.0, 1.0), Planar(3.0, 2.0), Default, sqrt) == -0.25
    ensures ChainEnergy(Planar(0.0, 0.0), Planar(1.0, 0.0), Planar(3.0, 0.0), Default, sqrt) == -0.25
  {
    StraightDefaultEnergy(1.0);
    StraightDefaultEnergy(2.0);
    PlanarChainEnergy(0.0, 0.0, 1.0, 0.0, 2.0, 0.0, Default, sqrt, 1.0, 1.0);
    PlanarChainEnergy(1.0, 0.0, 2.0, 0.0, 3.0, 0.0, Default, sqrt, 1.0, 1.0);
    PlanarChainEnergy(1.0, 0.0, 2.0, 1.0, 3.0, 2.0, Default, sqrt, 1.0, 2.0);
    PlanarChainEnergy(0.0, 0.0, 1.0, 0.0, 3.0, 0.0, Default, sqrt, 1.0, 2.0);
  }

  /** The 45 degree turns of the two test matrices score -1/8 and -1/16. */
  lemma TurnChainEnergies(sqrt: real -> real)
    requires IsRoot(sqrt)
    ensures ChainEnergy(Planar(0.0, 0.0), Planar(1.0, 0.0), Planar(2.0, 1.0), Default, sqrt) == -0.125
    ensures ChainEnergy(Planar(0.0, 0.0), Planar(1.0, 0.0), Planar(2.0, -1.0), Default, sqrt) == -0.125
    ensures ChainEnergy(Planar(0.0, 0.0), Planar(1.0, 0.0), Planar(3.0, 2.0), Default, sqrt) == -0.0625
  {
    var r2 := sqrt(2.0);
    RootOfTwo(sqrt);
    TurnDefaultEnergies(sqrt);
    TurnBends(r2);
    PlanarChainEnergy(0.0, 0.0, 1.0, 0.0, 2.0, 1.0, Default, sqrt, 1.0 / r2, r2);
    PlanarChainEnergy(0.0, 0.0, 1.0, 0.0, 2.0, -1.0, Default, sqrt, 1.0 / r2, r2);
    PlanarChainEnergy(0.0, 0.0, 1.0, 0.0, 3.0, 2.0, Default, sqrt, 1.0 / r2, 2.0 * r2);
  }

  /** The matrix the fan-out segments assemble to, with s = -1/2 (straight,
      unit edges), c = -1/8 (45 degrees) and l = -1/4 (straight diagonal). */
  function FanOutMatrix(): seq<seq<real>> {
    var s, c, l := -0.5, -0.125, -0.25;
    [[0.0, 0.0, 0.0, 0.0, 0.0, 0.0, 0.0, 0.0],
     [0.0, 0.0, 0.0, 0.0, 0.0, 0.0, 0.0, 0.0],
     [0.0, 0.0, 0.0, s, c, c, 0.0, 0.0],
     [0.0, 0.0, s, 0.0, 0.0, 0.0, s, 0.0],
     [0.0, 0.0, c, 0.0, 0.0, 0.0, 0.0, l],
     [0.0, 0.0, c, 0.0, 0.0, 0.0, 0.0, 0.0],
     [0.0, 0.0, 0.0, s, 0.0, 0.0, 0.0, 0.0],
     [0.0, 0.0, 0.0, 0.0, l, 0.0, 0.0, 0.0]]
  }

  /** The energy the fan-out test expects segment i to pass to segment j. */
  function FanOutPattern(i: nat, j: nat): real {
    if (i, j) == (2, 3) || (i, j) == (3, 6) then -0.5
    else if (i, j) == (2, 4) || (i, j) == (2, 5) then -0.125
    else if (i, j) == (4, 7) then -0.25
    else 0.0
  }

  /** Every interaction of the fan-out on the test hits is the expected one. */
  lemma FanOutInteractions(pos: seq<Point>, segs: seq<Segment>, sqrt: real -> real)
    requires IsRoot(sqrt) && AreTestHits(pos) && segs == FanOutSegments()
    ensures ChainsNondegenerate(pos, segs)
    ensures forall i: nat, j: nat | i < 8 && j < 8 ::
      Interaction(pos, segs, Default, sqrt, i, j) == FanOutPattern(i, j)
  {
    FanOutAdjacentSet();
    StraightChainEnergies(sqrt);
    TurnChainEnergies(sqrt);
    assert ChainsNondegenerate(pos, segs);
    assert Interaction(pos, segs, Default, sqrt, 2, 3) == -0.5;
    assert Interaction(pos, segs, Default, sqrt, 2, 4) == -0.125;
    assert Interaction(pos, segs, Default, sqrt, 2, 5) == -0.125;
    assert Interaction(pos, segs, Default, sqrt, 3, 6) == -0.5;
    assert Interaction(pos, segs, Default, sqrt, 4, 7) == -0.25;
  }

  /** The literal matrix holds the expected interactions in both directions. */
  lemma FanOutEntry(i: nat, j: nat)
    requires i < 8 && j < 8
    ensures FanOutMatrix()[i][j] == FanOutPattern(i, j) + FanOutPattern(j, i)
  {
    assert i == 0 || i == 1 || i == 2 || i == 3 || i == 4 || i == 5 || i == 6 || i == 7;
    assert j == 0 || j == 1 || j == 2 || j == 3 || j == 4 || j == 5 || j == 6 || j == 7;
  }

  /** The fan-out assembles to the literal matrix on any table of the test hits. */
  lemma FanOutAssembly(pos: seq<Point>, segs: seq<Segment>, sqrt: real -> real)
    requires IsRoot(sqrt) && AreTestHits(pos) && segs == FanOutSegments()
    ensures ChainsNondegenerate(pos, segs)
    ensures CurvatureEnergyMatrix(pos, segs, Default, sqrt) == FanOutMatrix()
  {
    FanOutInteractions(pos, segs, sqrt);
    var m := FanOutMatrix();
    forall i: nat, j: nat | i < 8 && j < 8
      ensures m[i][j] == Interaction(pos, segs, Default, sqrt, i, j) + Interaction(pos, segs, Default, sqrt, j, i)
    {
      FanOutEntry(i, j);
    }
    MatrixOfInteractions(pos, segs, Default, sqrt, m);
  }

  /** The last case of test_curvature_energy_matrix. */
  lemma FanOutTest(sqrt: real -> real)
    requires IsRoot(sqrt)
    ensures ChainsNondegenerate(TestHits(), FanOutSegments())
    ensures CurvatureEnergyMatrix(TestHits(), FanOutSegments(), Default, sqrt) == FanOutMatrix()
  {
    FanOutAssembly(TestHits(), FanOutSegments(), sqrt);
  }

  /** The segments of the energy and gradient tests: segment 0 runs from
      hit 0 to hit 1, and segments 1 to 5 fan out of hit 1. */
  function StarSegments(): seq<Segment> {
    [Segment(0, 1), Segment(1, 2), Segment(1, 3), Segment(1, 4), Segment(1, 5), Segment(1, 6)]
  }

  /** Segment 0 chains into every other segment, and nothing else chains. */
  lemma StarAdjacency(segs: seq<Segment>)
    requires segs == StarSegments()
    ensures forall i: nat, j: nat | i < 6 && j < 6 :: Adjacent(segs, i, j) <==> i == 0 && j != 0
  {
    forall i: nat, j: nat | i < 6 && j < 6
      ensures Adjacent(segs, i, j) <==> i == 0 && j != 0
    {
      assert i == 0 || i == 1 || i == 2 || i == 3 || i == 4 || i == 5;
      assert j == 0 || j == 1 || j == 2 || j == 3 || j == 4 || j == 5;
    }
  }

  /** The energy segment 0 passes to segment j in the star test. */
  function StarWeight(j: nat): real {
    if j == 1 then -0.5
    else if j == 2 || j == 3 then -0.125
    else if j == 4 then -0.25
    else if j == 5 then -0.0625
    else 0.0
  }

  /** The matrix of the energy and gradient tests: row and column 0 hold the
      energies -1/2, -1/8, -1/8, -1/4 and -1/16, everything else is zero. */
  function StarMatrix(): seq<seq<real>> {
    [[0.0, -0.5, -0.125, -0.125, -0.25, -0.0625],
     [-0.5, 0.0, 0.0, 0.0, 0.0, 0.0],
     [-0.125, 0.0, 0.0, 0.0, 0.0, 0.0],
     [-0.125, 0.0, 0.0, 0.0, 0.0, 0.0],
     [-0.25, 0.0, 0.0, 0.0, 0.0, 0.0],
     [-0.0625, 0.0, 0.0, 0.0, 0.0, 0.0]]
  }

  /** Every interaction of the star on the test hits is the expected one. */
  lemma StarInteractions(pos: seq<Point>, segs: seq<Segment>, sqrt: real -> real)
    requires IsRoot(sqrt) && AreTestHits(pos) && segs == StarSegments()
    ensures ChainsNondegenerate(pos, segs)
    ensures forall i: nat, j: nat | i < 6 && j < 6 ::
      Interaction(pos, segs, Default, sqrt, i, j) == if i == 0 then StarWeight(j) else 0.0
  {
    StarAdjacency(segs);
    StraightChainEnergies(sqrt);
    TurnChainEnergies(sqrt);
    assert ChainsNondegenerate(pos, segs);
    assert Interaction(pos, segs, Default, sqrt, 0, 1) == -0.5;
    assert Interaction(pos, segs, Default, sqrt, 0, 2) == -0.125;
    assert Interaction(pos, segs, Default, sqrt, 0, 3) == -0.125;
    assert Interaction(pos, segs, Default, sqrt, 0, 4) == -0.25;
    assert Interaction(pos, segs, Default, sqrt, 0, 5) == -0.0625;
  }

  /** The literal star matrix holds the expected interactions in both directions. */
  lemma StarEntry(i: nat, j: nat)
    requires i < 6 && j < 6
    ensures StarMatrix()[i][j] == (if i == 0 then StarWeight(j) else 0.0) + (if j == 0 then StarWeight(i) else 0.0)
  {
    assert i == 0 || i == 1 || i == 2 || i == 3 || i == 4 || i == 5;
    assert j == 0 || j == 1 || j == 2 || j == 3 || j == 4 || j == 5;
  }

  /** The star assembles to the literal matrix on any table of the test hits. */
  lemma StarAssembly(pos: seq<Point>, segs: seq<Segment>, sqrt: real -> real)
    requires IsRoot(sqrt) && AreTestHits(pos) && segs == StarSegments()
    ensures ChainsNondegenerate(pos, segs)
    ensures CurvatureEnergyMatrix(pos, segs, Default, sqrt) == StarMatrix()
  {
    StarInteractions(pos, segs, sqrt);
    var m := StarMatrix();
    forall i: nat, j: nat | i < 6 && j < 6
      ensures m[i][j] == Interaction(pos, segs, Default, sqrt, i, j) + Interaction(pos, segs, Default, sqrt, j, i)
    {
      StarEntry(i, j);
    }
    MatrixOfInteractions(pos, segs, Default, sqrt, m);
  }

  /** The matrix the energy and gradient tests evaluate. */
  lemma StarTest(sqrt: real -> real)
    requires IsRoot(sqrt)
    ensures ChainsNondegenerate(TestHits(), StarSegments())
    ensures CurvatureEnergyMatrix(TestHits(), StarSegments(), Default, sqrt) == StarMatrix()
  {
    StarAssembly(TestHits(), StarSegments(), sqrt);
  }
}
