/**
  The interaction matrix assembler (`curvature_energy_matrix`): an
  n_segments x n_segments matrix W whose entry (i, j) holds the curvature
  energy of the chain formed by adjacent segments i and j.

  The assembler works in four steps: find the adjacent pairs, keep
  the chains whose three hits start(i), end(i) = start(j) and end(j) are in
  the position table, score all of them in one batch, and add each energy
  into both W[i][j] and W[j][i], as a coordinate-format sparse matrix does
  when it is added to its transpose. W is kept dense here.
*/
module Assembly {
  import opened Geometry
  import opened Scoring
  import opened Adjacency

  /** Both segments exist and the three hits of the chain i -> j are in the
      position table. */
  predicate ChainInRange(pos: seq<Point>, segs: seq<Segment>, i: nat, j: nat) {
    i < |segs| && j < |segs| &&
    segs[i].start < |pos| && segs[i].end < |pos| && segs[j].end < |pos|
  }

  /** Every chain that can be resolved has two edges of positive length:
      the hits a segment connects sit at distinct positions. */
  predicate ChainsNondegenerate(pos: seq<Point>, segs: seq<Segment>) {
    forall i: nat, j: nat | i < |segs| && j < |segs| ::
      Adjacent(segs, i, j) && ChainInRange(pos, segs, i, j) ==>
        pos[segs[i].start] != pos[segs[i].end] && pos[segs[i].end] != pos[segs[j].end]
  }

  /** The energy segment i passes to segment j: the curvature energy of the
      chain start(i), end(i), end(j) when the two are adjacent and the chain
      can be resolved, and nothing otherwise. */
  function Interaction(pos: seq<Point>, segs: seq<Segment>, cfg: Config, sqrt: real -> real, i: nat, j: nat)
    : (e: real)
    requires IsRoot(sqrt) && ChainsNondegenerate(pos, segs)
    ensures e != 0.0 ==> Adjacent(segs, i, j) && ChainInRange(pos, segs, i, j)
    ensures i == j || i >= |segs| || j >= |segs| ==> e == 0.0
  {
    if Adjacent(segs, i, j) && ChainInRange(pos, segs, i, j) then
      ChainEnergy(pos[segs[i].start], pos[segs[i].end], pos[segs[j].end], cfg, sqrt)
    else 0.0
  }

  predicate AllAdjacent(segs: seq<Segment>, pairs: seq<(nat, nat)>) {
    forall k :: 0 <= k < |pairs| ==> Adjacent(segs, pairs[k].0, pairs[k].1)
  }

  predicate AllInRange(pos: seq<Point>, segs: seq<Segment>, pairs: seq<(nat, nat)>) {
    forall k :: 0 <= k < |pairs| ==> ChainInRange(pos, segs, pairs[k].0, pairs[k].1)
  }

  /** The pairs whose chains can be resolved, in their original order. */
  function Resolvable(pos: seq<Point>, segs: seq<Segment>, pairs: seq<(nat, nat)>): (r: seq<(nat, nat)>)
    ensures forall p :: p in r <==> p in pairs && ChainInRange(pos, segs, p.0, p.1)
    ensures AllInRange(pos, segs, r)
    ensures AllAdjacent(segs, pairs) ==> AllAdjacent(segs, r)
    ensures Distinct(pairs) ==> Distinct(r)
  {
    if pairs == [] then []
    else
      var k := |pairs| - 1;
      var p := pairs[k];
      assert pairs == pairs[..k] + [p];
      var rest := Resolvable(pos, segs, pairs[..k]);
      if ChainInRange(pos, segs, p.0, p.1) then rest + [p] else rest
  }

  /** The curvature energies of a batch of resolvable chains, scored in one
      call of the pairwise scorer: each is the interaction of its pair. */
  function ChainEnergies(pos: seq<Point>, segs: seq<Segment>, pairs: seq<(nat, nat)>, cfg: Config, sqrt: real -> real)
    : (r: seq<real>)
    requires IsRoot(sqrt) && ChainsNondegenerate(pos, segs)
    requires AllAdjacent(segs, pairs) && AllInRange(pos, segs, pairs)
    ensures |r| == |pairs|
    ensures forall k :: 0 <= k < |pairs| ==> r[k] == Interaction(pos, segs, cfg, sqrt, pairs[k].0, pairs[k].1)
  {
    var a := seq(|pairs|, k requires 0 <= k < |pairs| => pos[segs[pairs[k].0].start]);
    var b := seq(|pairs|, k requires 0 <= k < |pairs| => pos[segs[pairs[k].0].end]);
    var c := seq(|pairs|, k requires 0 <= k < |pairs| => pos[segs[pairs[k].1].end]);
    assert Nondegenerate(a, b, c) by {
      forall k | 0 <= k < |pairs|
        ensures a[k] != b[k] && b[k] != c[k]
      {
        assert Adjacent(segs, pairs[k].0, pairs[k].1);
        assert ChainInRange(pos, segs, pairs[k].0, pairs[k].1);
      }
    }
    CurvatureEnergyPairwise(a, b, c, cfg, sqrt).value
  }

  /** The total a batch deposits at position p of a coordinate-format
      matrix, where entries listed at the same position are summed. */
  function Deposit(pairs: seq<(nat, nat)>, energies: seq<real>, p: (nat, nat)): (e: real)
    requires |pairs| == |energies|
    ensures p !in pairs ==> e == 0.0
  {
    if pairs == [] then 0.0
    else
      var k := |pairs| - 1;
      assert p !in pairs ==> p !in pairs[..k] && pairs[k] != p;
      Deposit(pairs[..k], energies[..k], p) + (if pairs[k] == p then energies[k] else 0.0)
  }

  /** With no position listed twice, a listed position receives exactly the
      value listed there. */
  lemma {:induction false} DepositOfDistinct(pairs: seq<(nat, nat)>, energies: seq<real>, p: (nat, nat))
    requires |pairs| == |energies| && Distinct(pairs)
    ensures forall k :: 0 <= k < |pairs| && pairs[k] == p ==> Deposit(pairs, energies, p) == energies[k]
  {
    if pairs != [] {
      var k := |pairs| - 1;
      assert Distinct(pairs[..k]);
      DepositOfDistinct(pairs[..k], energies[..k], p);
      if pairs[k] == p {
        assert p !in pairs[..k];
      }
    }
  }

  /** The matrix W + W^T of a coordinate-format batch W. */
  function Fill(n: nat, pairs: seq<(nat, nat)>, energies: seq<real>): (w: seq<seq<real>>)
    requires |pairs| == |energies|
    ensures |w| == n && forall i :: 0 <= i < n ==> |w[i]| == n
    ensures forall i, j :: 0 <= i < n && 0 <= j < n ==> w[i][j] == w[j][i]
  {
    seq(n, i requires 0 <= i < n =>
      seq(n, j requires 0 <= j < n => Deposit(pairs, energies, (i, j)) + Deposit(pairs, energies, (j, i))))
  }

  function CurvatureEnergyMatrix(pos: seq<Point>, segs: seq<Segment>, cfg: Config, sqrt: real -> real)
    : (w: seq<seq<real>>)
    requires IsRoot(sqrt) && ChainsNondegenerate(pos, segs)
    ensures |w| == |segs| && forall i :: 0 <= i < |segs| ==> |w[i]| == |segs|
  {
    var pairs := SegmentAdjacentPairs(segs);
    AdjacentPairsExact(segs);
    var chains := Resolvable(pos, segs, pairs);
    Fill(|segs|, chains, ChainEnergies(pos, segs, chains, cfg, sqrt))
  }

  /** Entry (i, j) of the matrix is the energy i passes to j plus the energy
      j passes to i. */
  lemma MatrixEntries(pos: seq<Point>, segs: seq<Segment>, cfg: Config, sqrt: real -> real)
    requires IsRoot(sqrt) && ChainsNondegenerate(pos, segs)
    ensures var w := CurvatureEnergyMatrix(pos, segs, cfg, sqrt);
      forall i: nat, j: nat | i < |segs| && j < |segs| ::
        w[i][j] == Interaction(pos, segs, cfg, sqrt, i, j) + Interaction(pos, segs, cfg, sqrt, j, i)
  {
    var pairs := SegmentAdjacentPairs(segs);
    AdjacentPairsExact(segs);
    var chains := Resolvable(pos, segs, pairs);
    var energies := ChainEnergies(pos, segs, chains, cfg, sqrt);
    forall i: nat, j: nat | i < |segs| && j < |segs|
      ensures Deposit(chains, energies, (i, j)) == Interaction(pos, segs, cfg, sqrt, i, j)
    {
      DepositIsInteraction(pos, segs, cfg, sqrt, pairs, chains, energies, i, j);
    }
  }

  lemma DepositIsInteraction(pos: seq<Point>, segs: seq<Segment>, cfg: Config, sqrt: real -> real,
                             pairs: seq<(nat, nat)>, chains: seq<(nat, nat)>, energies: seq<real>, i: nat, j: nat)
    requires IsRoot(sqrt) && ChainsNondegenerate(pos, segs)
    requires forall p :: p in pairs <==> Adjacent(segs, p.0, p.1)
    requires Distinct(pairs)
    requires chains == Resolvable(pos, segs, pairs)
    requires AllAdjacent(segs, chains)
    requires energies == ChainEnergies(pos, segs, chains, cfg, sqrt)
    ensures Deposit(chains, energies, (i, j)) == Interaction(pos, segs, cfg, sqrt, i, j)
  {
    DepositOfDistinct(chains, energies, (i, j));
    if (i, j) in chains {
      var k :| 0 <= k < |chains| && chains[k] == (i, j);
    }
  }

  /** The matrix is symmetric. */
  lemma MatrixSymmetric(pos: seq<Point>, segs: seq<Segment>, cfg: Config, sqrt: real -> real, i: nat, j: nat)
    requires IsRoot(sqrt) && ChainsNondegenerate(pos, segs)
    requires i < |segs| && j < |segs|
    ensures CurvatureEnergyMatrix(pos, segs, cfg, sqrt)[i][j] == CurvatureEnergyMatrix(pos, segs, cfg, sqrt)[j][i]
  {
    MatrixEntries(pos, segs, cfg, sqrt);
  }

  /** No segment interacts with itself. */
  lemma MatrixZeroDiagonal(pos: seq<Point>, segs: seq<Segment>, cfg: Config, sqrt: real -> real, i: nat)
    requires IsRoot(sqrt) && ChainsNondegenerate(pos, segs)
    requires i < |segs|
    ensures CurvatureEnergyMatrix(pos, segs, cfg, sqrt)[i][i] == 0.0
  {
    MatrixEntries(pos, segs, cfg, sqrt);
  }

  /** Entries off the adjacency pattern are zero. */
  lemma MatrixSparse(pos: seq<Point>, segs: seq<Segment>, cfg: Config, sqrt: real -> real, i: nat, j: nat)
    requires IsRoot(sqrt) && ChainsNondegenerate(pos, segs)
    requires i < |segs| && j < |segs|
    requires CurvatureEnergyMatrix(pos, segs, cfg, sqrt)[i][j] != 0.0
    ensures Adjacent(segs, i, j) || Adjacent(segs, j, i)
  {
    MatrixEntries(pos, segs, cfg, sqrt);
  }

  /** A segment that chains with no other segment has an all-zero row. */
  lemma IsolatedRowZero(pos: seq<Point>, segs: seq<Segment>, cfg: Config, sqrt: real -> real, i: nat)
    requires IsRoot(sqrt) && ChainsNondegenerate(pos, segs)
    requires i < |segs|
    requires forall j: nat :: !Adjacent(segs, i, j) && !Adjacent(segs, j, i)
    ensures forall j :: 0 <= j < |segs| ==> CurvatureEnergyMatrix(pos, segs, cfg, sqrt)[i][j] == 0.0
  {
    MatrixEntries(pos, segs, cfg, sqrt);
  }

  /** A segment one of whose hits is not in the position table has an
      all-zero row. */
  lemma OutOfRangeRowZero(pos: seq<Point>, segs: seq<Segment>, cfg: Config, sqrt: real -> real, i: nat)
    requires IsRoot(sqrt) && ChainsNondegenerate(pos, segs)
    requires i < |segs| && (segs[i].start >= |pos| || segs[i].end >= |pos|)
    ensures forall j :: 0 <= j < |segs| ==> CurvatureEnergyMatrix(pos, segs, cfg, sqrt)[i][j] == 0.0
  {
    MatrixEntries(pos, segs, cfg, sqrt);
  }

  /** With no segments the matrix is 0 x 0, whatever the hits. */
  lemma NoSegments(pos: seq<Point>, cfg: Config, sqrt: real -> real)
    requires IsRoot(sqrt)
    ensures ChainsNondegenerate(pos, [])
    ensures CurvatureEnergyMatrix(pos, [], cfg, sqrt) == []
  {
  }

  /** The matrix is the one whose entries are the pairwise interactions. */
  lemma MatrixOfInteractions(pos: seq<Point>, segs: seq<Segment>, cfg: Config, sqrt: real -> real, m: seq<seq<real>>)
    requires IsRoot(sqrt) && ChainsNondegenerate(pos, segs)
    requires |m| == |segs| && forall i :: 0 <= i < |segs| ==> |m[i]| == |segs|
    requires forall i: nat, j: nat | i < |segs| && j < |segs| ::
      m[i][j] == Interaction(pos, segs, cfg, sqrt, i, j) + Interaction(pos, segs, cfg, sqrt, j, i)
    ensures CurvatureEnergyMatrix(pos, segs, cfg, sqrt) == m
  {
    MatrixEntries(pos, segs, cfg, sqrt);
    var w := CurvatureEnergyMatrix(pos, segs, cfg, sqrt);
    forall i | 0 <= i < |segs| ensures w[i] == m[i] {
      forall j | 0 <= j < |segs| ensures w[i][j] == m[i][j] {
      }
    }
  }
}
