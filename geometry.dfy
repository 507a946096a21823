/**
  The geometry behind the curvature score of a chain of three hits a -> b -> c:
  the edge vectors u = b - a and v = c - b, the cosine of the angle between
  them and the product of their lengths.

  Hit positions are 2D or 3D; a 2D point is the 3D point with z = 0, which
  changes neither dot products nor lengths. Square roots are not computed by
  the model: the Euclidean norm takes a square-root function `sqrt` as a
  parameter, and every property that depends on it assumes `IsRoot(sqrt)`.
*/
module Geometry {

  datatype Point = Point(x: real, y: real, z: real)

  /** A 2D hit position, embedded in the plane z = 0. */
  function Planar(x: real, y: real): Point {
    Point(x, y, 0.0)
  }

  /** The vector from `a` to `b`. */
  function Sub(b: Point, a: Point): Point {
    Point(b.x - a.x, b.y - a.y, b.z - a.z)
  }

  function Dot(u: Point, v: Point): real {
    u.x * v.x + u.y * v.y + u.z * v.z
  }

  function NormSq(u: Point): real {
    Dot(u, u)
  }

  /** `sqrt` returns the non-negative square root of every non-negative real. */
  ghost predicate IsRoot(sqrt: real -> real) {
    forall t: real :: 0.0 <= t ==> 0.0 <= sqrt(t) && sqrt(t) * sqrt(t) == t
  }

  /** What the score needs to know about a chain: the cosine of its bend and
      the product of its two edge lengths. */
  datatype Bend = Bend(cosine: real, lengthProduct: real)

  /** The bend of two edges given by their dot product `d` and their squared
      lengths `n1` and `n2`: lengthProduct = |u| |v|, taken as the root of
      |u|^2 |v|^2, and cosine = (u . v) / (|u| |v|). */
  function BendOf(d: real, n1: real, n2: real, sqrt: real -> real): Bend
    requires IsRoot(sqrt)
    requires n1 > 0.0 && n2 > 0.0
  {
    PositiveProduct(n1, n2);
    RootPositive(n1 * n2, sqrt);
    Bend(d / sqrt(n1 * n2), sqrt(n1 * n2))
  }

  /** `m` is the bend of two edges with dot product `d` and squared lengths
      `n1` and `n2`: its length product is positive and squares to n1 n2, and
      its cosine times its length product gives back the dot product. */
  predicate IsBend(m: Bend, d: real, n1: real, n2: real) {
    m.lengthProduct > 0.0
    && m.lengthProduct * m.lengthProduct == n1 * n2
    && m.cosine * m.lengthProduct == d
  }

  /** What BendOf reports is a bend of the two edges. */
  lemma BendOfSpec(d: real, n1: real, n2: real, sqrt: real -> real)
    requires IsRoot(sqrt)
    requires n1 > 0.0 && n2 > 0.0
    ensures IsBend(BendOf(d, n1, n2, sqrt), d, n1, n2)
  {
    PositiveProduct(n1, n2);
    RootPositive(n1 * n2, sqrt);
    QuotientTimes(d, sqrt(n1 * n2));
  }

  /** Two edges have only one bend: the length product is the non-negative
      root of |u|^2 |v|^2 and the cosine is fixed by the dot product. */
  lemma BendUnique(m: Bend, m': Bend, d: real, n1: real, n2: real)
    requires IsBend(m, d, n1, n2) && IsBend(m', d, n1, n2)
    ensures m == m'
  {
    RootUnique(m.lengthProduct, m'.lengthProduct);
    assert (m.cosine - m'.cosine) * m.lengthProduct == 0.0;
    ZeroProduct(m.lengthProduct, m.cosine - m'.cosine);
  }

  /** So BendOf is the one bend of its edges. */
  lemma BendOfUnique(d: real, n1: real, n2: real, sqrt: real -> real, m: Bend)
    requires IsRoot(sqrt)
    requires n1 > 0.0 && n2 > 0.0
    requires IsBend(m, d, n1, n2)
    ensures BendOf(d, n1, n2, sqrt) == m
  {
    BendOfSpec(d, n1, n2, sqrt);
    BendUnique(BendOf(d, n1, n2, sqrt), m, d, n1, n2);
  }

  lemma QuotientTimes(d: real, r: real)
    requires r > 0.0
    ensures (d / r) * r == d
  {
  }

  /** u . v for the edges u = b - a and v = c - b, from the coordinates. */
  function EdgeDot(a: Point, b: Point, c: Point): real {
    (b.x - a.x) * (c.x - b.x) + (b.y - a.y) * (c.y - b.y) + (b.z - a.z) * (c.z - b.z)
  }

  /** |b - a|^2, from the coordinates. */
  function EdgeNormSq(a: Point, b: Point): real {
    (b.x - a.x) * (b.x - a.x) + (b.y - a.y) * (b.y - a.y) + (b.z - a.z) * (b.z - a.z)
  }

  /** The bend of the chain a -> b -> c, with edges u = b - a and v = c - b,
      computed from the coordinates of the three hits. A chain without a
      repeated hit has a positive length product, so its score is defined;
      MeasureSpec says which bend it is. */
  function Measure(a: Point, b: Point, c: Point, sqrt: real -> real): (m: Bend)
    requires IsRoot(sqrt)
    requires a != b && b != c
    ensures m.lengthProduct > 0.0
  {
    EdgeScalars(a, b, c);
    BendOfSpec(EdgeDot(a, b, c), EdgeNormSq(a, b), EdgeNormSq(b, c), sqrt);
    BendOf(EdgeDot(a, b, c), EdgeNormSq(a, b), EdgeNormSq(b, c), sqrt)
  }

  /** What Measure reports is the bend of the chain's two edges u = b - a and
      v = c - b. */
  lemma MeasureSpec(a: Point, b: Point, c: Point, sqrt: real -> real)
    requires IsRoot(sqrt)
    requires a != b && b != c
    ensures IsBend(Measure(a, b, c, sqrt), Dot(Sub(b, a), Sub(c, b)), NormSq(Sub(b, a)), NormSq(Sub(c, b)))
  {
    EdgeScalars(a, b, c);
    BendOfSpec(EdgeDot(a, b, c), EdgeNormSq(a, b), EdgeNormSq(b, c), sqrt);
  }

  /** The coordinate sums in Measure are u . v, |u|^2 and |v|^2, and the
      squared lengths of the edges of a chain without repeated hits are
      positive. */
  lemma EdgeScalars(a: Point, b: Point, c: Point)
    requires a != b && b != c
    ensures Dot(Sub(b, a), Sub(c, b)) == EdgeDot(a, b, c)
    ensures NormSq(Sub(b, a)) == EdgeNormSq(a, b) && NormSq(Sub(c, b)) == EdgeNormSq(b, c)
    ensures EdgeNormSq(a, b) > 0.0 && EdgeNormSq(b, c) > 0.0
  {
    EdgeNonZero(a, b);
    EdgeNonZero(b, c);
    NormSqPositive(Sub(b, a));
    NormSqPositive(Sub(c, b));
  }

  lemma PositiveProduct(s: real, t: real)
    requires s > 0.0 && t > 0.0
    ensures s * t > 0.0
  {
  }

  lemma SquarePositive(t: real)
    requires t != 0.0
    ensures t * t > 0.0
  {
    if t < 0.0 {
      assert t * t > 0.0;
    } else {
      assert t * t > 0.0;
    }
  }

  /** Some coordinate of `u` is not zero. */
  predicate NonZero(u: Point) {
    u.x != 0.0 || u.y != 0.0 || u.z != 0.0
  }

  /** The edge between two distinct hits is not the zero vector. */
  lemma EdgeNonZero(a: Point, b: Point)
    requires a != b
    ensures NonZero(Sub(b, a))
  {
  }

  /** A non-zero vector has a positive squared length. */
  lemma NormSqPositive(u: Point)
    requires NonZero(u)
    ensures NormSq(u) > 0.0
  {
    var x2, y2, z2 := u.x * u.x, u.y * u.y, u.z * u.z;
    assert x2 >= 0.0 && y2 >= 0.0 && z2 >= 0.0;
    var t := if u.x != 0.0 then u.x else if u.y != 0.0 then u.y else u.z;
    assert t != 0.0;
    SquarePositive(t);
    calc {
      NormSq(u);
    ==
      x2 + y2 + z2;
    >=
      t * t;
    >
      0.0;
    }
  }

  lemma RootPositive(n: real, sqrt: real -> real)
    requires IsRoot(sqrt)
    requires n > 0.0
    ensures sqrt(n) > 0.0
  {
    var r := sqrt(n);
    assert r >= 0.0 && r * r == n;
    ZeroSquare(r);
  }

  lemma ZeroSquare(r: real)
    ensures r == 0.0 ==> r * r == 0.0
  {
  }

  /** Two non-negative square roots of the same number are equal. */
  lemma RootUnique(s: real, t: real)
    requires 0.0 <= s && 0.0 <= t
    requires s * s == t * t
    ensures s == t
  {
    if s > t {
      SquareMonotone(s, t);
    } else if t > s {
      SquareMonotone(t, s);
    }
  }

  /** Squaring is strictly increasing on the non-negative reals. */
  lemma SquareMonotone(s: real, t: real)
    requires s > t >= 0.0
    ensures s * s > t * t
  {
    calc {
      s * s;
    >
      { PositiveProduct(s - t, s); }
      t * s;
    >=
      t * t;
    }
  }

  /** A product is zero only if one of its factors is. */
  lemma ZeroProduct(s: real, t: real)
    requires s != 0.0 && s * t == 0.0
    ensures t == 0.0
  {
    if t > 0.0 {
      if s > 0.0 {
        PositiveProduct(s, t);
      } else {
        PositiveProduct(-s, t);
      }
    } else if t < 0.0 {
      if s > 0.0 {
        PositiveProduct(s, -t);
      } else {
        PositiveProduct(-s, -t);
      }
    }
  }

  /** The Cauchy-Schwarz inequality, through Lagrange's identity. */
  lemma CauchySchwarz(u: Point, v: Point)
    ensures Dot(u, v) * Dot(u, v) <= NormSq(u) * NormSq(v)
  {
    var p := u.x * v.y - u.y * v.x;
    var q := u.y * v.z - u.z * v.y;
    var r := u.z * v.x - u.x * v.z;
    assert p * p >= 0.0 && q * q >= 0.0 && r * r >= 0.0;
    calc {
      NormSq(u) * NormSq(v);
    ==
      Dot(u, v) * Dot(u, v) + (p * p + q * q + r * r);
    >=
      Dot(u, v) * Dot(u, v);
    }
  }

  /** The cosine that Measure reports is a genuine cosine: it lies in [-1, 1]. */
  lemma CosineBounded(a: Point, b: Point, c: Point, sqrt: real -> real)
    requires IsRoot(sqrt)
    requires a != b && b != c
    ensures -1.0 <= Measure(a, b, c, sqrt).cosine <= 1.0
  {
    var u, v := Sub(b, a), Sub(c, b);
    CauchySchwarz(u, v);
    MeasureSpec(a, b, c, sqrt);
    BendCosineBounded(Measure(a, b, c, sqrt), Dot(u, v), NormSq(u), NormSq(v));
  }

  /** A bend whose dot product obeys the Cauchy-Schwarz inequality has a
      cosine in [-1, 1]. */
  lemma BendCosineBounded(m: Bend, d: real, n1: real, n2: real)
    requires IsBend(m, d, n1, n2) && d * d <= n1 * n2
    ensures -1.0 <= m.cosine <= 1.0
  {
    var k, rr := m.cosine, m.lengthProduct;
    assert (-d) * (-d) == d * d;
    if k > 1.0 {
      PositiveProduct(k - 1.0, rr);
      SquareMonotone(d, rr);
      assert false;
    }
    if k < -1.0 {
      PositiveProduct(-1.0 - k, rr);
      SquareMonotone(-d, rr);
      assert false;
    }
  }

  /** A straight chain: when the second edge continues the first one with a
      stretch factor `s > 0`, the cosine is exactly 1 and the length product is
      `s |u|^2`. */
  lemma StraightChain(a: Point, b: Point, c: Point, s: real, sqrt: real -> real)
    requires IsRoot(sqrt)
    requires a != b && s > 0.0
    requires Sub(c, b) == Point(s * (b.x - a.x), s * (b.y - a.y), s * (b.z - a.z))
    ensures b != c
    ensures Measure(a, b, c, sqrt).cosine == 1.0
    ensures Measure(a, b, c, sqrt).lengthProduct == s * NormSq(Sub(b, a))
  {
    var u := Sub(b, a);
    assert Sub(c, b) == Point(s * u.x, s * u.y, s * u.z);
    EdgeNonZero(a, b);
    ScaledNonZero(u, s);
    NormSqPositive(u);
    ScaledNorm(u, s);
    MeasureSpec(a, b, c, sqrt);
    StraightBend(Measure(a, b, c, sqrt), Dot(u, Sub(c, b)), NormSq(u), NormSq(Sub(c, b)), s);
  }

  lemma ScaledNonZero(u: Point, s: real)
    requires NonZero(u) && s != 0.0
    ensures NonZero(Point(s * u.x, s * u.y, s * u.z))
  {
    if s * u.x == 0.0 && s * u.y == 0.0 && s * u.z == 0.0 {
      ZeroProduct(s, u.x);
      ZeroProduct(s, u.y);
      ZeroProduct(s, u.z);
    }
  }

  /** A bend of two edges pointing the same way, the second s times as long
      as the first, has cosine 1 and length product s |u|^2. */
  lemma StraightBend(m: Bend, d: real, n: real, n': real, s: real)
    requires IsBend(m, d, n, n')
    requires n > 0.0 && s > 0.0 && n' == (s * s) * n && d == s * n
    ensures m.cosine == 1.0 && m.lengthProduct == s * n
  {
    var k, rr := m.cosine, m.lengthProduct;
    StretchedProduct(n, n', rr, s);
    assert (k - 1.0) * rr == 0.0;
    ZeroProduct(rr, k - 1.0);
  }

  /** The positive root of n (s^2 n) is s n. */
  lemma StretchedProduct(n: real, n': real, rr: real, s: real)
    requires n > 0.0 && s > 0.0 && n' == (s * s) * n
    requires rr > 0.0 && rr * rr == n * n'
    ensures rr == s * n
  {
    calc {
      (s * n) * (s * n);
    ==
      n * ((s * s) * n);
    ==
      n * n';
    ==
      rr * rr;
    }
    PositiveProduct(s, n);
    RootUnique(rr, s * n);
  }

  lemma ScaledNorm(u: Point, s: real)
    ensures Dot(u, Point(s * u.x, s * u.y, s * u.z)) == s * NormSq(u)
    ensures NormSq(Point(s * u.x, s * u.y, s * u.z)) == (s * s) * NormSq(u)
  {
  }

  /** Perpendicular edges, and only they, have cosine exactly 0. */
  lemma RightAngle(a: Point, b: Point, c: Point, sqrt: real -> real)
    requires IsRoot(sqrt)
    requires a != b && b != c
    ensures Measure(a, b, c, sqrt).cosine == 0.0 <==> Dot(Sub(b, a), Sub(c, b)) == 0.0
  {
    var u, v := Sub(b, a), Sub(c, b);
    MeasureSpec(a, b, c, sqrt);
    CosineZeroIff(Measure(a, b, c, sqrt), Dot(u, v), NormSq(u), NormSq(v));
  }

  /** The cosine of a bend is 0 exactly when its dot product is. */
  lemma CosineZeroIff(m: Bend, d: real, n1: real, n2: real)
    requires IsBend(m, d, n1, n2)
    ensures m.cosine == 0.0 <==> d == 0.0
  {
    if d == 0.0 {
      ZeroProduct(m.lengthProduct, m.cosine);
    }
  }
}
