/**
  The curvature scorer (`curvature_energy_pairwise`): one energy per chain of
  three hits, -0.5 cos^p / (|u| |v|)^q, or exactly 0 when the chain bends more
  sharply than the cosine threshold allows.
*/
module Scoring {
  import opened Wrappers
  import opened Geometry

  /** The three scoring parameters: `cosine_power`, `cosine_threshold` and
      `distance_prod_power_in_denominator`. */
  datatype Config = Config(cosinePower: nat, cosineThreshold: real, distanceProdPower: nat)

  /** cosine_power = 3, no cut-off (a cosine is never below -1), and
      distance_prod_power_in_denominator = 1. */
  const Default: Config := Config(3, -1.0, 1)

  datatype ScoringError = DimensionMismatch

  /** x^n by repeated multiplication: an odd power keeps the sign of x, and a
      power of a positive number is positive. */
  function Pow(x: real, n: nat): (r: real)
    ensures x > 0.0 ==> r > 0.0
  {
    if n == 0 then 1.0
    else
      var rest := Pow(x, n - 1);
      if x > 0.0 then PositiveProduct(x, rest); x * rest else x * rest
  }

  lemma PowCube(x: real)
    ensures Pow(x, 3) == x * x * x
  {
    assert Pow(x, 1) == x;
    assert Pow(x, 2) == x * x;
  }

  /** An odd power is an odd function and an even power an even one: the
      power of -x is the power of x with its sign flipped exactly n times. */
  lemma {:induction false} PowOfNegation(x: real, n: nat)
    ensures Pow(-x, n) == if n % 2 == 1 then -Pow(x, n) else Pow(x, n)
  {
    if n > 0 {
      PowOfNegation(x, n - 1);
    }
  }

  lemma {:induction false} PowOfZero(n: nat)
    ensures Pow(0.0, n) == if n == 0 then 1.0 else 0.0
  {
    if n > 0 {
      PowOfZero(n - 1);
    }
  }

  lemma {:induction false} PowOfOne(n: nat)
    ensures Pow(1.0, n) == 1.0
  {
    if n > 0 {
      PowOfOne(n - 1);
    }
  }

  /** Sign preservation: an odd power of a negative number is negative, an
      even power of anything is non-negative, and the power is 0 exactly when
      a positive power is taken of 0. */
  lemma PowSign(x: real, n: nat)
    ensures x < 0.0 && n % 2 == 1 ==> Pow(x, n) < 0.0
    ensures n % 2 == 0 ==> Pow(x, n) >= 0.0
    ensures Pow(x, n) == 0.0 <==> x == 0.0 && n > 0
  {
    if x < 0.0 {
      PowOfNegation(-x, n);
    } else if x == 0.0 {
      PowOfZero(n);
    }
  }

  /** A power of a number in [-1, 1] stays in [-1, 1]. */
  lemma {:induction false} PowBounded(x: real, n: nat)
    requires -1.0 <= x <= 1.0
    ensures -1.0 <= Pow(x, n) <= 1.0
  {
    if n > 0 {
      PowBounded(x, n - 1);
      ProductOfUnitInterval(x, Pow(x, n - 1));
    }
  }

  lemma ProductOfUnitInterval(s: real, t: real)
    requires -1.0 <= s <= 1.0 && -1.0 <= t <= 1.0
    ensures -1.0 <= s * t <= 1.0
  {
    if s >= 0.0 && t >= 0.0 {
      assert s * t <= 1.0 * t;
    } else if s >= 0.0 {
      assert s * t >= s * -1.0;
    } else if t >= 0.0 {
      assert s * t >= -1.0 * t;
    } else {
      assert s * t <= -1.0 * t;
    }
  }

  /** The energy of one chain from its bend: -0.5 cos^p / (|u| |v|)^q, or 0
      when the cosine is below the threshold. The energy is zero exactly when
      the cosine is cut off by the threshold, or when the cosine is 0 and
      raised to a positive power; it is never a small non-zero value instead. */
  function BendEnergy(bend: Bend, cfg: Config): (e: real)
    requires bend.lengthProduct > 0.0
    ensures e == 0.0 <==> bend.cosine < cfg.cosineThreshold || (bend.cosine == 0.0 && cfg.cosinePower > 0)
  {
    if bend.cosine < cfg.cosineThreshold then 0.0
    else
      PowSign(bend.cosine, cfg.cosinePower);
      HalfQuotient(Pow(bend.cosine, cfg.cosinePower), Pow(bend.lengthProduct, cfg.distanceProdPower));
      -0.5 * Pow(bend.cosine, cfg.cosinePower) / Pow(bend.lengthProduct, cfg.distanceProdPower)
  }

  /** The energy of the chain a -> b -> c, with edges u = b - a and v = c - b.
      A cosine never exceeds 1, so a threshold above 1 cuts off every chain. */
  function ChainEnergy(a: Point, b: Point, c: Point, cfg: Config, sqrt: real -> real): (e: real)
    requires IsRoot(sqrt)
    requires a != b && b != c
    ensures cfg.cosineThreshold > 1.0 ==> e == 0.0
  {
    CosineBounded(a, b, c, sqrt);
    BendEnergy(Measure(a, b, c, sqrt), cfg)
  }

  /** The energy of a chain is the energy of the one bend its edges have,
      whichever square root computed it. */
  lemma ChainEnergyOfBend(a: Point, b: Point, c: Point, cfg: Config, sqrt: real -> real, m: Bend)
    requires IsRoot(sqrt)
    requires a != b && b != c
    requires IsBend(m, Dot(Sub(b, a), Sub(c, b)), NormSq(Sub(b, a)), NormSq(Sub(c, b)))
    ensures ChainEnergy(a, b, c, cfg, sqrt) == BendEnergy(m, cfg)
  {
    MeasureSpec(a, b, c, sqrt);
    BendUnique(m, Measure(a, b, c, sqrt), Dot(Sub(b, a), Sub(c, b)), NormSq(Sub(b, a)), NormSq(Sub(c, b)));
  }

  /** Every chain has two edges of positive length. */
  ghost predicate Nondegenerate(a: seq<Point>, b: seq<Point>, c: seq<Point>)
    requires |a| == |b| == |c|
  {
    forall k :: 0 <= k < |a| ==> a[k] != b[k] && b[k] != c[k]
  }

  /** The batch scorer: the k-th energy belongs to the k-th chain
      (a[k], b[k], c[k]); unequal batch lengths are refused. */
  function CurvatureEnergyPairwise(a: seq<Point>, b: seq<Point>, c: seq<Point>, cfg: Config, sqrt: real -> real)
    : (r: Result<seq<real>, ScoringError>)
    requires IsRoot(sqrt)
    requires |a| == |b| == |c| ==> Nondegenerate(a, b, c)
    ensures r.Err? <==> !(|a| == |b| == |c|)
    ensures r.Ok? ==> |r.value| == |a|
  {
    if !(|a| == |b| == |c|) then Err(DimensionMismatch)
    else Ok(seq(|a|, k requires 0 <= k < |a| => ChainEnergy(a[k], b[k], c[k], cfg, sqrt)))
  }

  /** Entry k of a batch is the energy of the bend of chain k's own edges,
      whatever the batch's length. */
  lemma PairwiseOfBends(a: seq<Point>, b: seq<Point>, c: seq<Point>, cfg: Config, sqrt: real -> real)
    requires IsRoot(sqrt)
    requires |a| == |b| == |c| && Nondegenerate(a, b, c)
    ensures forall k, m ::
              0 <= k < |a| &&
              IsBend(m, Dot(Sub(b[k], a[k]), Sub(c[k], b[k])), NormSq(Sub(b[k], a[k])), NormSq(Sub(c[k], b[k])))
              ==> CurvatureEnergyPairwise(a, b, c, cfg, sqrt).value[k] == BendEnergy(m, cfg)
  {
    forall k, m | 0 <= k < |a| &&
      IsBend(m, Dot(Sub(b[k], a[k]), Sub(c[k], b[k])), NormSq(Sub(b[k], a[k])), NormSq(Sub(c[k], b[k])))
      ensures CurvatureEnergyPairwise(a, b, c, cfg, sqrt).value[k] == BendEnergy(m, cfg)
    {
      ChainEnergyOfBend(a[k], b[k], c[k], cfg, sqrt, m);
    }
  }

  // ---------------------------------------------------------------------
  // Properties of the score
  // ---------------------------------------------------------------------

  /** -0.5 num / den has the opposite sign of num. */
  lemma HalfQuotient(num: real, den: real)
    requires den > 0.0
    ensures num > 0.0 ==> -0.5 * num / den < 0.0
    ensures num < 0.0 ==> -0.5 * num / den > 0.0
    ensures num == 0.0 <==> -0.5 * num / den == 0.0
  {
    var q := -0.5 * num / den;
    assert q * den == -0.5 * num;
    ProductSign(q, den);
  }

  lemma ProductSign(q: real, den: real)
    requires den > 0.0
    ensures q > 0.0 ==> q * den > 0.0
    ensures q < 0.0 ==> q * den < 0.0
    ensures q == 0.0 ==> q * den == 0.0
  {
    if q > 0.0 {
      PositiveProduct(q, den);
    } else if q < 0.0 {
      PositiveProduct(-q, den);
    }
  }

  /** Above the threshold the energy has the opposite sign of cos^p: a straight
      or mildly bent chain (cosine > 0) lowers the energy, and with an odd
      power a chain that turns back (cosine < 0) raises it. */
  lemma EnergySign(bend: Bend, cfg: Config)
    requires bend.lengthProduct > 0.0
    requires bend.cosine >= cfg.cosineThreshold
    ensures bend.cosine > 0.0 ==> BendEnergy(bend, cfg) < 0.0
    ensures bend.cosine < 0.0 && cfg.cosinePower % 2 == 1 ==> BendEnergy(bend, cfg) > 0.0
  {
    PowSign(bend.cosine, cfg.cosinePower);
    HalfQuotient(Pow(bend.cosine, cfg.cosinePower), Pow(bend.lengthProduct, cfg.distanceProdPower));
  }

  /** With a genuine cosine, the energy is at most 0.5 / (|u| |v|)^q in size. */
  lemma EnergyMagnitude(bend: Bend, cfg: Config)
    requires bend.lengthProduct > 0.0
    requires -1.0 <= bend.cosine <= 1.0
    ensures -0.5 / Pow(bend.lengthProduct, cfg.distanceProdPower) <= BendEnergy(bend, cfg)
    ensures BendEnergy(bend, cfg) <= 0.5 / Pow(bend.lengthProduct, cfg.distanceProdPower)
  {
    var den := Pow(bend.lengthProduct, cfg.distanceProdPower);
    PowBounded(bend.cosine, cfg.cosinePower);
    HalfQuotientBounded(Pow(bend.cosine, cfg.cosinePower), den);
  }

  lemma HalfQuotientBounded(num: real, den: real)
    requires den > 0.0 && -1.0 <= num <= 1.0
    ensures -0.5 / den <= -0.5 * num / den <= 0.5 / den
  {
    var inv := 1.0 / den;
    assert inv > 0.0;
    assert -0.5 * num / den == (-0.5 * num) * inv;
    assert -0.5 / den == -0.5 * inv;
    assert 0.5 / den == 0.5 * inv;
    ScaledOrder(-0.5, -0.5 * num, inv);
    ScaledOrder(-0.5 * num, 0.5, inv);
  }

  lemma ScaledOrder(s: real, t: real, w: real)
    requires s <= t && w > 0.0
    ensures s * w <= t * w
  {
    if s < t {
      PositiveProduct(t - s, w);
    }
  }

  /** Changing distance_prod_power_in_denominator only rescales the energy by
      the length product: q = 0 drops the distance factor. */
  lemma DistancePowerFactor(bend: Bend, cfg: Config)
    requires bend.lengthProduct > 0.0
    ensures BendEnergy(bend, cfg) * Pow(bend.lengthProduct, cfg.distanceProdPower)
         == BendEnergy(bend, cfg.(distanceProdPower := 0))
  {
    if bend.cosine >= cfg.cosineThreshold {
      var den := Pow(bend.lengthProduct, cfg.distanceProdPower);
      assert (-0.5 * Pow(bend.cosine, cfg.cosinePower) / den) * den == -0.5 * Pow(bend.cosine, cfg.cosinePower);
    }
  }

  /** Changing cosine_power only changes the cosine factor: the energy with
      power p is the energy with power 1 times cos^(p-1). */
  lemma CosinePowerFactor(bend: Bend, cfg: Config)
    requires bend.lengthProduct > 0.0
    requires cfg.cosinePower >= 1
    ensures BendEnergy(bend, cfg)
         == BendEnergy(bend, cfg.(cosinePower := 1)) * Pow(bend.cosine, cfg.cosinePower - 1)
  {
    if bend.cosine >= cfg.cosineThreshold {
      var den := Pow(bend.lengthProduct, cfg.distanceProdPower);
      var k := bend.cosine;
      var rest := Pow(k, cfg.cosinePower - 1);
      assert Pow(k, 1) == k;
      assert -0.5 * (k * rest) / den == (-0.5 * k / den) * rest;
    }
  }

  /** Under the default threshold -1 no chain is cut off: a measured chain
      scores exactly 0 only when its edges are perpendicular and the cosine is
      raised to a positive power. */
  lemma DefaultThresholdNeverCuts(a: Point, b: Point, c: Point, cfg: Config, sqrt: real -> real)
    requires IsRoot(sqrt)
    requires a != b && b != c
    requires cfg.cosineThreshold <= -1.0
    ensures Measure(a, b, c, sqrt).cosine >= cfg.cosineThreshold
    ensures ChainEnergy(a, b, c, cfg, sqrt) == 0.0
        <==> Dot(Sub(b, a), Sub(c, b)) == 0.0 && cfg.cosinePower > 0
  {
    CosineBounded(a, b, c, sqrt);
    RightAngle(a, b, c, sqrt);
  }

  /** With the default parameters the energy needs no square root at all:
      -0.5 cos^3 / (|u| |v|) = -0.5 (u . v)^3 / (|u|^2 |v|^2)^2. */
  lemma DefaultEnergyRational(a: Point, b: Point, c: Point, sqrt: real -> real)
    requires IsRoot(sqrt)
    requires a != b && b != c
    ensures ChainEnergy(a, b, c, Default, sqrt)
            * ((NormSq(Sub(b, a)) * NormSq(Sub(c, b))) * (NormSq(Sub(b, a)) * NormSq(Sub(c, b))))
         == -0.5 * (Dot(Sub(b, a), Sub(c, b)) * Dot(Sub(b, a), Sub(c, b)) * Dot(Sub(b, a), Sub(c, b)))
  {
    var u, v := Sub(b, a), Sub(c, b);
    CosineBounded(a, b, c, sqrt);
    DefaultBendEnergy(ChainEnergy(a, b, c, Default, sqrt), Measure(a, b, c, sqrt), Dot(u, v), NormSq(u), NormSq(v));
  }

  /** The default energy `e` of a bend that is not cut off, from its dot
      product and squared edge lengths. */
  lemma DefaultBendEnergy(e: real, m: Bend, d: real, n1: real, n2: real)
    requires IsBend(m, d, n1, n2) && -1.0 <= m.cosine
    requires e == BendEnergy(m, Default)
    ensures e * ((n1 * n2) * (n1 * n2)) == -0.5 * (d * d * d)
  {
    var k, rr := m.cosine, m.lengthProduct;
    PowCube(k);
    assert Pow(rr, 1) == rr;
    CubeOverLength(e, k, rr, d, n1 * n2);
  }

  lemma CubeOverLength(e: real, k: real, rr: real, d: real, n: real)
    requires rr > 0.0 && e == -0.5 * (k * k * k) / rr
    requires k * rr == d && rr * rr == n
    ensures e * (n * n) == -0.5 * (d * d * d)
  {
    assert e * rr == -0.5 * (k * k * k);
    calc {
      e * (n * n);
    ==
      (e * rr) * (rr * rr * rr);
    ==
      -0.5 * (k * k * k) * (rr * rr * rr);
    ==
      -0.5 * ((k * rr) * (k * rr) * (k * rr));
    ==
      -0.5 * (d * d * d);
    }
  }

  /** A straight chain (the second edge continues the first, stretched by s)
      scores -0.5 / (s |u|^2)^q whenever the threshold admits cosine 1; with
      unit edges that is -0.5. */
  lemma StraightChainEnergy(a: Point, b: Point, c: Point, s: real, cfg: Config, sqrt: real -> real)
    requires IsRoot(sqrt)
    requires a != b && s > 0.0
    requires Sub(c, b) == Point(s * (b.x - a.x), s * (b.y - a.y), s * (b.z - a.z))
    requires cfg.cosineThreshold <= 1.0
    ensures b != c
    ensures ChainEnergy(a, b, c, cfg, sqrt) * Pow(s * NormSq(Sub(b, a)), cfg.distanceProdPower) == -0.5
  {
    StraightChain(a, b, c, s, sqrt);
    PowOfOne(cfg.cosinePower);
    var den := Pow(Measure(a, b, c, sqrt).lengthProduct, cfg.distanceProdPower);
    assert (-0.5 * 1.0 / den) * den == -0.5;
  }

  /** A right-angle bend scores exactly 0 under any threshold, as long as the
      cosine is raised to a positive power. */
  lemma RightAngleEnergy(a: Point, b: Point, c: Point, cfg: Config, sqrt: real -> real)
    requires IsRoot(sqrt)
    requires a != b && b != c
    requires Dot(Sub(b, a), Sub(c, b)) == 0.0
    requires cfg.cosinePower > 0
    ensures ChainEnergy(a, b, c, cfg, sqrt) == 0.0
  {
    RightAngle(a, b, c, sqrt);
  }
}
