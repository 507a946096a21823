# Curvature energy of hopfield-tracking

hopfield-tracking reconstructs particle tracks by letting a Hopfield network
choose among candidate segments, where each segment links two detector hits.
This project models the curvature part of the network's energy, in five
operations:

- `segment_adjacent_pairs` finds every ordered pair of segments `(i, j)`
  where segment `i` ends at the hit where segment `j` starts
  (`Adjacency.SegmentAdjacentPairs`).
- `curvature_energy_pairwise` scores a batch of three-hit chains
  `a -> b -> c`. The score is `-1/2 cos^p / (‖u‖ ‖v‖)^q`, where `u = b - a`
  and `v = c - b`. A chain whose cosine is below `cosine_threshold` scores
  exactly 0. The defaults are `p = 3`, threshold `-1` and `q = 1`
  (`Scoring.CurvatureEnergyPairwise`, `Scoring.BendEnergy`).
- `curvature_energy_matrix` builds the segment interaction matrix `W`. It
  scores the chain `start(i), end(i), end(j)` of every adjacent pair and
  writes the energy into both `W[i][j]` and `W[j][i]`
  (`Assembly.CurvatureEnergyMatrix`).
- `curvature_energy` computes `x^T W x / 2` for an activation vector `x`
  (`Evaluation.CurvatureEnergy`).
- `curvature_energy_gradient` computes `W x` (`Evaluation.CurvatureEnergyGradient`).

Everything is pure: functions over sequences, with lemmas about them.
The modules are:

- `Geometry`: points, edges and the bend of a chain, meaning its cosine and
  edge-length product.
- `Scoring`: the chain score.
- `Adjacency`: the adjacency finder.
- `Assembly`: the matrix builder.
- `Evaluation`: the energy and gradient.
- `Pipeline`: the builder and the evaluator together.
- `ScoringCases`, `AdjacencyCases`, `AssemblyCases`, `EvaluationCases`: the
  cases of `curvature_test.py`, with their expected values proved exactly.

The model follows the behaviour that `curvature_test.py` asserts of the
five functions, and every row below cites the lines of that file that the
member reproduces or generalises.

Square roots are a parameter `sqrt` of every geometric function. It must be
a genuine non-negative square root (`Geometry.IsRoot`). The test values
involving `sqrt(2)` are therefore proved for every such root.

## Model

| member | source | states |
|---|---|---|
| Geometry.Measure | curvature_test.py:13-18 | a chain without a repeated hit has a positive edge-length product, so its score is defined |
| Geometry.MeasureSpec | curvature_test.py:13-18 | the bend measured for a chain has length product `‖u‖ ‖v‖` (positive, squaring to `‖u‖^2 ‖v‖^2`), and its cosine times that product is `u . v` |
| Geometry.BendUnique | curvature_test.py:13-18 | two edges determine their bend uniquely, so any bend meeting those conditions is the measured one |
| Geometry.CosineBounded | curvature_test.py:13-18 | every measured cosine lies in [-1, 1] (Cauchy-Schwarz) |
| Geometry.CauchySchwarz | curvature_test.py:13-18 | `(u . v)^2 <= ‖u‖^2 ‖v‖^2` for all 3D vectors |
| Geometry.StraightChain | curvature_test.py:13-18 | a chain whose second edge continues the first, stretched by `s > 0`, has cosine exactly 1 and length product `s ‖u‖^2` |
| Geometry.RightAngle | curvature_test.py:13-18 | the cosine is 0 if and only if the edges are perpendicular |
| Scoring.Pow | curvature_test.py:17-20 | `x^n` of a positive `x` is positive |
| Scoring.PowSign | curvature_test.py:17-20 | an odd power keeps a negative sign, an even power is non-negative, and `x^n = 0` exactly when `x = 0` and `n > 0` |
| Scoring.PowOfNegation | curvature_test.py:17-20 | `(-x)^n` is `x^n` with its sign flipped when `n` is odd |
| Scoring.PowBounded | curvature_test.py:17-20 | powers of a number in [-1, 1] stay in [-1, 1] |
| Scoring.CurvatureEnergyPairwise | curvature_test.py:10-18 | refuses batches of unequal length with an error; otherwise returns one energy per chain |
| Scoring.PairwiseOfBends | curvature_test.py:13-26 | in a batch of any length, entry `k` is the energy of the bend of chain `k`'s own edges `u = b[k] - a[k]` and `v = c[k] - b[k]` |
| Scoring.BendEnergy | curvature_test.py:17-22 | a bend scores exactly 0 if and only if its cosine is below the threshold, or the cosine is 0 and raised to a positive power |
| Scoring.ChainEnergy | curvature_test.py:21-22 | a threshold above 1 cuts off every chain, since no cosine exceeds 1 |
| Scoring.ChainEnergyOfBend | curvature_test.py:13-18 | a chain scores as any bend meeting the cosine and length-product conditions of its edges |
| Scoring.EnergySign | curvature_test.py:17-18 | above the threshold, a chain with positive cosine scores below 0, and with an odd power a chain that turns back scores above 0 |
| Scoring.EnergyMagnitude | curvature_test.py:17-18 | the score is at most `0.5 / (‖u‖ ‖v‖)^q` in absolute value |
| Scoring.DistancePowerFactor | curvature_test.py:23-26 | the score times `(‖u‖ ‖v‖)^q` is the score with `q = 0`, so `q` only rescales by the distance product |
| Scoring.CosinePowerFactor | curvature_test.py:19-20 | the score with cosine power `p >= 1` is the score with power 1 times `cos^(p-1)` |
| Scoring.DefaultThresholdNeverCuts | curvature_test.py:17-18 | under a threshold of -1 or lower no measured chain is cut off; such a chain scores 0 exactly when its edges are perpendicular and `p > 0` |
| Scoring.DefaultEnergyRational | curvature_test.py:17-18 | the default score satisfies `E (‖u‖^2 ‖v‖^2)^2 = -0.5 (u . v)^3`, with no square root |
| Scoring.StraightChainEnergy | curvature_test.py:17-18 | a straight chain stretched by `s` scores `-0.5 / (s ‖u‖^2)^q` when the threshold admits cosine 1 |
| Scoring.RightAngleEnergy | curvature_test.py:13-18 | a right-angle chain scores exactly 0 under any threshold when `p > 0` |
| ScoringCases.PairwiseEmpty | curvature_test.py:10-11 | an empty batch scores to an empty array |
| ScoringCases.FirstChainBend | curvature_test.py:13-15 | chain (0,0) (1,0) (2,0) has cosine 1 and length product 1 |
| ScoringCases.SecondChainBend | curvature_test.py:13-16 | chain (0,1) (1,1) (2,0) has cosine `1/r2` and length product `r2`, where `r2 = sqrt(2)` |
| ScoringCases.ThirdChainBend | curvature_test.py:13-16 | chain (0,2) (1,2) (3,4) has cosine `1/r2` and length product `2 r2` |
| ScoringCases.FirstChainEnergy | curvature_test.py:13-15 | the first test chain scores as a bend of cosine 1 and length product 1, under any parameters |
| ScoringCases.SecondChainEnergy | curvature_test.py:13-16 | the second test chain scores as its 45 degree bend, under any parameters |
| ScoringCases.ThirdChainEnergy | curvature_test.py:13-16 | the third test chain scores as its 45 degree bend, under any parameters |
| ScoringCases.PairwiseOfThree | curvature_test.py:13-17 | a batch of three chains holds the three chain energies, in order |
| ScoringCases.PairwiseOfTestChains | curvature_test.py:13-17 | the test batch scores as the energies of its three bends, under any parameters |
| ScoringCases.PairwiseDefault | curvature_test.py:17-18 | default parameters give `[-0.5, -0.5 (1/r2)^3 / 1 / r2, -0.5 (1/r2)^3 / 2 / r2]` |
| ScoringCases.PairwiseLinearCosine | curvature_test.py:19-20 | `cosine_power = 1` gives `[-0.5, -0.5 (1/r2) / 1 / r2, -0.5 (1/r2) / 2 / r2]` |
| ScoringCases.PairwiseThreshold | curvature_test.py:21-22 | `cosine_threshold = 0.8` gives exactly `[-0.5, 0, 0]` |
| ScoringCases.PairwiseNoDistance | curvature_test.py:23-24 | `distance_prod_power_in_denominator = 0` gives `[-0.5, -0.5 (1/r2)^3, -0.5 (1/r2)^3]` |
| ScoringCases.PairwiseLinearNoDistance | curvature_test.py:25-26 | both changes give `[-0.5, -0.5 (1/r2), -0.5 (1/r2)]` |
| ScoringCases.DefaultTurnEnergies | curvature_test.py:17-18 | the two turned chains' default energies are exactly -1/8 and -1/16 |
| ScoringCases.StraightUnitEnergy | curvature_test.py:17-26 | the straight unit chain scores -0.5 under every threshold up to 1 and every pair of powers |
| Adjacency.SegmentAdjacentPairs | curvature_test.py:29-39 | the result holds `(i, j)` if and only if segment `i` ends where segment `j != i` starts, and no pair repeats |
| Adjacency.StartIndexSpec | curvature_test.py:29-39 | the start-hit multi-map lists, under each hit, exactly the segments starting there, in increasing order |
| Adjacency.PartnersSpec | curvature_test.py:29-39 | the pairs formed from one segment's candidates are those candidates, minus the segment itself, each once |
| Adjacency.PairsFromSpec | curvature_test.py:29-39 | the pairs contributed by the first `k` segments are exactly their adjacent pairs, each once |
| Adjacency.AdjacentPairsExact | curvature_test.py:29-39 | the set of the result is the set of adjacent pairs, and its length is that set's size |
| Adjacency.DistinctCount | curvature_test.py:35-39 | a sequence without repetitions is as long as its set, so the set and the count fix the result up to order |
| AdjacencyCases.Empty | curvature_test.py:30-31 | no segments give no pairs |
| AdjacencyCases.NoChain | curvature_test.py:32-33 | 1->3, 1->4, 2->3 give no pairs |
| AdjacencyCases.TwoIntoOne | curvature_test.py:34-36 | adding 3->4 gives exactly the pairs (0,3) and (2,3) |
| AdjacencyCases.FanOutAdjacentSet | curvature_test.py:37-39 | the fan-out segments have exactly the adjacent pairs (2,3), (2,4), (2,5), (3,6), (4,7) |
| AdjacencyCases.FanOut | curvature_test.py:37-39 | the finder returns those five pairs, each once |
| Assembly.Resolvable | curvature_test.py:52-66 | keeps exactly the pairs whose three hits are in the position table, and keeps them adjacent and distinct |
| Assembly.ChainEnergies | curvature_test.py:52-66 | one pairwise-scorer call returns, for each resolvable pair, that pair's interaction |
| Assembly.Interaction | curvature_test.py:52-66 | the energy segment `i` passes to `j` is non-zero only for an adjacent pair whose three hits are in the position table, and is 0 on the diagonal and outside the segment range |
| Assembly.Deposit | curvature_test.py:52-66 | a position that the coordinate list does not name receives 0 |
| Assembly.DepositOfDistinct | curvature_test.py:52-66 | in a coordinate list with no repeated position, a listed position receives exactly the value listed there |
| Assembly.Fill | curvature_test.py:57-66 | the coordinate list and its transpose fill an `n x n` matrix that is symmetric |
| Assembly.CurvatureEnergyMatrix | curvature_test.py:42-66 | the matrix is `n x n` for `n` segments |
| Assembly.MatrixEntries | curvature_test.py:52-66 | `W[i][j]` is the energy segment `i` passes to `j` plus the energy `j` passes to `i`; each is the chain energy when the pair is adjacent and resolvable, and 0 otherwise |
| Assembly.MatrixSymmetric | curvature_test.py:57-66 | `W[i][j] = W[j][i]` |
| Assembly.MatrixZeroDiagonal | curvature_test.py:57-66 | `W[i][i] = 0` |
| Assembly.MatrixSparse | curvature_test.py:57-66 | a non-zero entry sits on an adjacent pair, in one direction or the other |
| Assembly.IsolatedRowZero | curvature_test.py:57-59 | a segment that chains with no other has an all-zero row |
| Assembly.OutOfRangeRowZero | curvature_test.py:52-59 | a segment with a hit outside the position table has an all-zero row |
| Assembly.NoSegments | curvature_test.py:42-50 | with no segments the matrix is 0 x 0, whatever the hits |
| Assembly.MatrixOfInteractions | curvature_test.py:52-66 | any matrix of the right shape holding the interactions in both directions is the assembled one |
| AssemblyCases.NoSegmentCases | curvature_test.py:42-50 | no hits and no segments, or the seven test hits and no segments, both give the 0 x 0 matrix |
| AssemblyCases.StraightChainEnergies | curvature_test.py:52-56 | the straight chains of the test hits score -1/2 over their length products 1 and 2 |
| AssemblyCases.TurnChainEnergies | curvature_test.py:52-56 | the 45 degree chains of the test hits score -1/8 and -1/16 |
| AssemblyCases.FanOutInteractions | curvature_test.py:52-66 | every directed interaction of the fan-out on the test hits is the expected s, c, l or 0 |
| AssemblyCases.FanOutTest | curvature_test.py:48-66 | the fan-out segments on the test hits assemble to exactly the 8 x 8 matrix of the test |
| AssemblyCases.StarAdjacency | curvature_test.py:70-72 | in the star, segment 0 chains into every other segment and nothing else chains |
| AssemblyCases.StarTest | curvature_test.py:70-72 | the star segments on the test hits assemble to the matrix whose row and column 0 hold -1/2, -1/8, -1/8, -1/4, -1/16 |
| Evaluation.MatVec | curvature_test.py:82-88 | `W x` has one entry per activation |
| Evaluation.CurvatureEnergy | curvature_test.py:69-79 | refuses, with an error, a matrix that is not square with one row per activation, and otherwise returns a value |
| Evaluation.CurvatureEnergyGradient | curvature_test.py:82-88 | refuses, with an error, a matrix that is not square with one row per activation, and otherwise returns one entry per activation |
| Evaluation.CornerIsTwicePairSum | curvature_test.py:69-79 | for a symmetric matrix with zero diagonal, `x^T W x` over the first `n` indices is twice `sum_{i<j} W[i][j] x_i x_j` |
| Evaluation.EnergyIsPairSum | curvature_test.py:69-79 | for a symmetric `W` with zero diagonal, the energy is `sum_{i<j} W[i][j] x_i x_j` |
| Evaluation.RowDotCommutes | curvature_test.py:69-79 | the dot product is symmetric |
| Evaluation.RowDotAdd | curvature_test.py:82-88 | the dot product is additive in its second argument |
| Evaluation.RowDotScale | curvature_test.py:82-88 | the dot product is homogeneous in its second argument |
| Evaluation.RowDotBasis | curvature_test.py:82-88 | the dot product with `t e_k` picks out `t r[k]` |
| Evaluation.MatVecBasis | curvature_test.py:82-88 | `W (t e_k)` is `t` times column `k`, which is row `k` for symmetric `W` |
| Evaluation.GradientIsDerivative | curvature_test.py:82-88 | for symmetric `W` with zero diagonal, `E(x + t e_k) = E(x) + t g_k` exactly, where `g = W x`; so the gradient is the derivative of the energy |
| Pipeline.AssembledIsEvaluable | curvature_test.py:69-72 | every assembled matrix is square, symmetric and zero on its diagonal |
| Pipeline.AssembledEnergyIsPairSum | curvature_test.py:69-79 | the energy over an assembled matrix is the sum over segment pairs of `x_i x_j` times their interaction |
| Pipeline.AssembledGradientIsDerivative | curvature_test.py:82-88 | the gradient over an assembled matrix is the exact derivative of its energy |
| EvaluationCases.StarGradient | curvature_test.py:82-88 | on the star matrix, `g_0` is the energy-weighted sum of the other activations and `g_j = W[j][0] x_0` |
| EvaluationCases.StarEnergy | curvature_test.py:69-79 | on the star matrix, the energy is `x_0 g_0`: every interaction involves segment 0 |
| EvaluationCases.PairEnergies | curvature_test.py:73-77 | with segment 0 and one other active, the energies are -1/2, -1/8, -1/8, -1/4 and -1/16 |
| EvaluationCases.SumEnergies | curvature_test.py:78-79 | all segments active give -17/16, and the others at 0.1 give -1.7/16 |
| EvaluationCases.EnergyTest | curvature_test.py:69-79 | the seven energies hold for the matrix the assembler builds from the test hits and star segments |
| EvaluationCases.GradientTest | curvature_test.py:82-88 | the gradient at `[1, 1, 0, 0, 0, 0]` of that matrix is `[-1/2, -1/2, -1/8, -1/8, -1/4, -1/16]` |

## Left out

- The vectorised numpy code of the five functions is not modelled line by
  line. Each operation has the behaviour `curvature_test.py` asserts of it:
  adjacency is "segment `i` ends where segment `j` starts", the score is
  `-1/2 cos^p / (‖u‖ ‖v‖)^q` cut to 0 below the cosine threshold, and `W`
  adds each chain energy at `(i, j)` and `(j, i)`.
- Floating point: every value is an exact real. The tests' approximate
  comparisons (`assert_array_almost_equal`, `approx`) become exact
  equalities, which hold of the real-number semantics.
- `numpy.sqrt` is the parameter `sqrt`, constrained only to return
  non-negative square roots. `sqrt(2)` therefore stays symbolic in the
  pairwise results, as `r2` does in the test.
- Degenerate geometry (a chain with two coincident consecutive hits) is a
  precondition: `Nondegenerate` for the scorer and `ChainsNondegenerate` for
  the builder. The source lets NaN or infinity propagate there.
- Hit and segment indices are natural numbers. Negative numpy indices, which
  wrap around, are not modelled.
- Points are three-dimensional. The tests' 2D points are embedded with
  `z = 0`, which leaves dot products and lengths unchanged.
- Sparse storage (scipy's coordinate and compressed formats) and the
  near-linear cost of the adjacency search are not modelled. The finder
  does use a hit-to-segments multi-map, but the matrix is a dense
  `seq<seq<real>>`. The builder sums a coordinate list, as a sparse
  constructor does.
- Scoring.BendEnergy: both powers, `cosine_power` and
  `distance_prod_power_in_denominator`, are natural numbers. Fractional and
  negative powers, which numpy accepts as floats, are not modelled.
- Adjacency.SegmentAdjacentPairs: the order of the pairs is not promised,
  so the lemmas state the set of pairs and their count, not their order.
- Assembly.CurvatureEnergyMatrix: a chain whose hits are outside the
  position table contributes 0, so a segment with a hit outside the table
  has an all-zero row. Indexing a numpy position table there
  would raise an error instead. For the same reason, zero hits with some segments give an `n x n` zero
  matrix, not `0 x 0`.
- Assembly.MatrixEntries: when segments `i` and `j` chain both ways
  (`i -> j` and `j -> i`), the entry is the sum of the two chain energies,
  as a coordinate-format matrix sums duplicate entries.
- Evaluation.CurvatureEnergy: the energy is `x^T W x / 2`, computed with the
  matrix-vector product only. The pair sum `sum_{i<j}` is proved equal for
  symmetric matrices with zero diagonal, which every assembled matrix is.
- The optimizer, the datasets loaders and the rest of the network's energy
  (the number-of-tracks and fork terms) are outside this core.
