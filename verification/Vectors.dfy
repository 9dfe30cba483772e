/**
 Cosine distance of embeddings over exact reals.  `math.Sqrt` is a parameter: any function that is a square
 root on the non-negative reals.
 */
module Vectors {

  type Vector = seq<real>

  ghost predicate IsSqrt(sqrt: real -> real) {
    forall x: real :: x >= 0.0 ==> sqrt(x) >= 0.0 && sqrt(x) * sqrt(x) == x
  }

  function Times(x: real, y: real): real { x * y }

  function Over(x: real, y: real): real
    requires y != 0.0
  {
    x / y
  }

  function Dot(a: Vector, b: Vector): real
    requires |a| == |b|
  {
    if a == [] then 0.0 else Dot(a[..|a| - 1], b[..|b| - 1]) + Times(a[|a| - 1], b[|b| - 1])
  }

  predicate IsZero(a: Vector) { forall i :: 0 <= i < |a| ==> a[i] == 0.0 }

  function Scale(x: real, a: Vector): (r: Vector)
    ensures |r| == |a| && forall i :: 0 <= i < |a| ==> r[i] == Times(x, a[i])
  {
    seq(|a|, i requires 0 <= i < |a| => Times(x, a[i]))
  }

  /** One minus the cosine similarity; 1 when there is none to speak of. */
  function CosineDistance(sqrt: real -> real, a: Vector, b: Vector): real {
    if |a| != |b| || |a| == 0 || Dot(a, a) == 0.0 || Dot(b, b) == 0.0 then 1.0
    else
      var norms := Times(sqrt(Dot(a, a)), sqrt(Dot(b, b)));
      if norms == 0.0 then 1.0 else 1.0 - Over(Dot(a, b), norms)
  }

  method ComputeCosineDistance(sqrt: real -> real, a: Vector, b: Vector) returns (d: real)
    requires IsSqrt(sqrt)
    ensures d == CosineDistance(sqrt, a, b)
  {
    if |a| != |b| || |a| == 0 {
      return 1.0;
    }
    var dot, normA, normB := 0.0, 0.0, 0.0;
    for i := 0 to |a|
      invariant dot == Dot(a[..i], b[..i]) && normA == Dot(a[..i], a[..i]) && normB == Dot(b[..i], b[..i])
    {
      assert a[..i + 1][..i] == a[..i] && b[..i + 1][..i] == b[..i];
      dot := dot + a[i] * b[i];
      normA := normA + a[i] * a[i];
      normB := normB + b[i] * b[i];
    }
    assert a[..|a|] == a && b[..|b|] == b;
    if normA == 0.0 || normB == 0.0 {
      return 1.0;
    }
    SquareNonNegative(a);
    SquareNonNegative(b);
    RootPositive(sqrt, normA);
    RootPositive(sqrt, normB);
    ProductPositive(sqrt(normA), sqrt(normB));
    var similarity := dot / (sqrt(normA) * sqrt(normB));
    d := 1.0 - similarity;
  }

  // ---------- real arithmetic ----------

  lemma RootPositive(sqrt: real -> real, x: real)
    requires IsSqrt(sqrt) && x > 0.0
    ensures sqrt(x) > 0.0
  {
    assert sqrt(x) * sqrt(x) == x;
    assert sqrt(x) == 0.0 ==> sqrt(x) * sqrt(x) == 0.0;
  }

  lemma ProductPositive(x: real, y: real)
    requires x > 0.0 && y > 0.0
    ensures Times(x, y) > 0.0
  {
  }

  lemma SquareMonotone(x: real, y: real)
    requires y >= 0.0 && x * x <= y * y
    ensures -y <= x <= y
  {
    assert x > y ==> x * x > x * y && x * y >= y * y;
    assert x < -y ==> (-x) * (-x) > (-x) * y && (-x) * y >= y * y;
  }

  lemma SquareOfNegation(x: real)
    ensures Times(-x, -x) == Times(x, x)
  {
  }

  lemma SquareSign(x: real)
    ensures x > 0.0 || x < 0.0 ==> Times(x, x) > 0.0
    ensures x == 0.0 ==> Times(x, x) == 0.0
  {
    if x > 0.0 {
      ProductPositive(x, x);
    } else if x < 0.0 {
      ProductPositive(-x, -x);
      SquareOfNegation(x);
    }
  }

  lemma {:induction false} SquareNonNegative(a: Vector)
    ensures Dot(a, a) >= 0.0
    ensures Dot(a, a) == 0.0 <==> IsZero(a)
  {
    if a != [] {
      var n := |a| - 1;
      SquareNonNegative(a[..n]);
      SquareSign(a[n]);
      assert IsZero(a) <==> IsZero(a[..n]) && a[n] == 0.0;
    }
  }

  lemma {:induction false} DotSymmetric(a: Vector, b: Vector)
    requires |a| == |b|
    ensures Dot(a, b) == Dot(b, a)
  {
    if a != [] { DotSymmetric(a[..|a| - 1], b[..|b| - 1]); }
  }

  lemma {:induction false} DotScale(a: Vector, x: real, b: Vector)
    requires |a| == |b|
    ensures Dot(a, Scale(x, b)) == x * Dot(a, b)
  {
    if a != [] {
      var n := |a| - 1;
      DotScale(a[..n], x, b[..n]);
      assert Scale(x, b)[..n] == Scale(x, b[..n]);
      assert Scale(x, b)[n] == x * b[n];
      assert a[n] * (x * b[n]) == x * (a[n] * b[n]);
    }
  }

  /** The components b[i] * p - a[i] * q. */
  function Combination(a: Vector, b: Vector, p: real, q: real): (r: Vector)
    requires |a| == |b|
    ensures |r| == |a| && forall i :: 0 <= i < |a| ==> r[i] == Times(b[i], p) - Times(a[i], q)
  {
    seq(|a|, i requires 0 <= i < |a| => Times(b[i], p) - Times(a[i], q))
  }

  lemma SquareOfDifference(x: real, y: real, p: real, q: real)
    ensures (y * p - x * q) * (y * p - x * q) == (p * p) * (y * y) - 2.0 * (p * q) * (x * y) + (q * q) * (x * x)
  {
    var u, v := y * p, x * q;
    assert (u - v) * (u - v) == u * u - 2.0 * (u * v) + v * v;
    assert u * u == (p * p) * (y * y);
    assert u * v == (p * q) * (x * y);
    assert v * v == (q * q) * (x * x);
  }

  lemma Distribute(p: real, q: real, r: real, a: real, b: real, c: real, a': real, b': real, c': real)
    ensures p * (a + a') - 2.0 * q * (b + b') + r * (c + c')
            == (p * a - 2.0 * q * b + r * c) + (p * a' - 2.0 * q * b' + r * c')
  {
  }

  lemma DotSnoc(a: Vector, b: Vector, n: nat)
    requires |a| == |b| == n + 1
    ensures Dot(a, b) == Dot(a[..n], b[..n]) + Times(a[n], b[n])
  {
  }

  /** The square of p * b - q * a, by the three dot products. */
  function Quadratic(p: real, q: real, A: real, B: real, D: real): real {
    (p * p) * B - 2.0 * (p * q) * D + (q * q) * A
  }

  lemma {:induction false} CombinationSquare(a: Vector, b: Vector, p: real, q: real, n: nat)
    requires |a| == |b| == n
    ensures Dot(Combination(a, b, p, q), Combination(a, b, p, q)) == Quadratic(p, q, Dot(a, a), Dot(b, b), Dot(a, b))
  {
    if n > 0 {
      var c := Combination(a, b, p, q);
      CombinationSquare(a[..n - 1], b[..n - 1], p, q, n - 1);
      assert c[..n - 1] == Combination(a[..n - 1], b[..n - 1], p, q);
      DotSnoc(c, c, n - 1);
      DotSnoc(a, a, n - 1);
      DotSnoc(a, b, n - 1);
      DotSnoc(b, b, n - 1);
      AddSquare(Dot(a[..n - 1], a[..n - 1]), Dot(b[..n - 1], b[..n - 1]), Dot(a[..n - 1], b[..n - 1]),
                a[n - 1], b[n - 1], p, q);
    }
  }

  lemma AddSquare(A: real, B: real, D: real, x: real, y: real, p: real, q: real)
    ensures var d := Times(y, p) - Times(x, q);
            Quadratic(p, q, A, B, D) + Times(d, d)
            == Quadratic(p, q, A + Times(x, x), B + Times(y, y), D + Times(x, y))
  {
    SquareOfDifference(x, y, p, q);
    Distribute(p * p, p * q, q * q, B, D, A, y * y, x * y, x * x);
  }

  lemma Associate(x: real, y: real, z: real)
    ensures (x * y) * z == Times(x, y * z)
  {
  }

  lemma Difference(x: real, u: real, v: real, gap: real)
    requires gap == u - v
    ensures Times(x, u) - 2.0 * Times(x, v) + Times(x, v) == Times(x, gap)
  {
  }

  lemma Regroup(a: real, b: real, d: real, gap: real)
    requires gap == a * b - d * d
    ensures Quadratic(a, d, a, b, d) == Times(a, gap)
  {
    Associate(a, a, b);
    Associate(a, d, d);
    var t := Times(a, d * d);
    assert (d * d) * a == t;
    assert 2.0 * (a * d) * d == 2.0 * t;
    Difference(a, a * b, d * d, gap);
  }

  /** With p = |a|^2 and q = a.b the square above is |a|^2 times the gap in the Cauchy-Schwarz inequality. */
  lemma Gap(a: Vector, b: Vector, A: real, B: real, D: real, gap: real)
    requires |a| == |b| && A == Dot(a, a) && B == Dot(b, b) && D == Dot(a, b) && gap == A * B - D * D
    ensures Dot(Combination(a, b, A, D), Combination(a, b, A, D)) == Times(A, gap)
  {
    CombinationSquare(a, b, A, D, |a|);
    Regroup(A, B, D, gap);
  }

  lemma {:induction false} ZeroDot(a: Vector, b: Vector)
    requires |a| == |b| && IsZero(a)
    ensures Dot(a, b) == 0.0
  {
    if a != [] { ZeroDot(a[..|a| - 1], b[..|b| - 1]); }
  }

  lemma CauchySchwarz(a: Vector, b: Vector, A: real, B: real, D: real)
    requires |a| == |b| && A == Dot(a, a) && B == Dot(b, b) && D == Dot(a, b)
    ensures D * D <= A * B
  {
    SquareNonNegative(a);
    if A == 0.0 {
      ZeroDot(a, b);
    } else {
      var gap := A * B - D * D;
      Gap(a, b, A, B, D, gap);
      SquareNonNegative(Combination(a, b, A, D));
      FactorSign(A, gap);
    }
  }

  lemma FactorSign(x: real, y: real)
    requires x > 0.0 && Times(x, y) >= 0.0
    ensures y >= 0.0
  {
    assert y < 0.0 ==> x * (-y) > 0.0;
  }

  // ---------- the distance ----------

  /** The product of the norms: its square is the product of the squared norms, and it bounds the dot product. */
  lemma Norms(sqrt: real -> real, a: Vector, b: Vector) returns (m: real)
    requires IsSqrt(sqrt) && |a| == |b| && |a| != 0 && Dot(a, a) != 0.0 && Dot(b, b) != 0.0
    ensures m == Times(sqrt(Dot(a, a)), sqrt(Dot(b, b))) && m > 0.0
    ensures m * m == Dot(a, a) * Dot(b, b) && -m <= Dot(a, b) <= m
    ensures CosineDistance(sqrt, a, b) == 1.0 - Over(Dot(a, b), m)
  {
    var A, B := Dot(a, a), Dot(b, b);
    SquareNonNegative(a);
    SquareNonNegative(b);
    RootPositive(sqrt, A);
    RootPositive(sqrt, B);
    var x, y := sqrt(A), sqrt(B);
    m := Times(x, y);
    ProductPositive(x, y);
    assert (x * y) * (x * y) == (x * x) * (y * y);
    CauchySchwarz(a, b, A, B, Dot(a, b));
    SquareMonotone(Dot(a, b), m);
  }

  lemma QuotientBounds(d: real, m: real)
    requires m > 0.0 && -m <= d <= m
    ensures -1.0 <= Over(d, m) <= 1.0 && (Over(d, m) == 1.0 <==> d == m)
  {
    var q := d / m;
    assert q * m == d;
    assert q > 1.0 ==> q * m > m;
    assert q < -1.0 ==> (-q) * m > m;
  }

  /** The dot product of single components, and of concatenations: together they determine it. */
  lemma {:induction false} DotAppend(a: Vector, b: Vector, c: Vector, d: Vector)
    requires |a| == |b| && |c| == |d|
    ensures Dot(a + c, b + d) == Dot(a, b) + Dot(c, d)
    ensures forall x, y :: Dot([x], [y]) == x * y
  {
    forall x: real, y: real ensures Dot([x], [y]) == x * y {
      DotSnoc([x], [y], 0);
    }
    if c == [] {
      assert a + c == a && b + d == b;
    } else {
      var n := |c| - 1;
      DotAppend(a, b, c[..n], d[..n]);
      DotSnoc(c, d, n);
      assert (a + c)[..|a| + n] == a + c[..n] && (b + d)[..|a| + n] == b + d[..n];
      DotSnoc(a + c, b + d, |a| + n);
    }
  }

  /** What the distance is: one minus a number with the sign of the dot product, whose square relates the dot product
      to the two squared norms. */
  lemma CosineLaw(sqrt: real -> real, a: Vector, b: Vector)
    requires IsSqrt(sqrt) && |a| == |b| && !IsZero(a) && !IsZero(b)
    ensures var u := 1.0 - CosineDistance(sqrt, a, b);
            && (u * u) * (Dot(a, a) * Dot(b, b)) == Dot(a, b) * Dot(a, b)
            && (u > 0.0 <==> Dot(a, b) > 0.0) && (u < 0.0 <==> Dot(a, b) < 0.0)
  {
    SquareNonNegative(a);
    SquareNonNegative(b);
    var D := Dot(a, b);
    var m := Norms(sqrt, a, b);
    QuotientSquare(D, m);
  }

  lemma QuotientSquare(d: real, m: real)
    requires m > 0.0
    ensures var u := Over(d, m);
            (u * u) * (m * m) == d * d && (u > 0.0 <==> d > 0.0) && (u < 0.0 <==> d < 0.0)
  {
    var u := d / m;
    assert u * m == d;
    assert (u * m) * (u * m) == (u * u) * (m * m);
    assert u > 0.0 ==> u * m > 0.0;
    assert u < 0.0 ==> (-u) * m > 0.0;
  }

  /** Every distance lies between 0 and 2, whatever the vectors. */
  lemma CosineDistanceBounds(sqrt: real -> real, a: Vector, b: Vector)
    requires IsSqrt(sqrt)
    ensures 0.0 <= CosineDistance(sqrt, a, b) <= 2.0
  {
    if |a| == |b| && |a| != 0 && Dot(a, a) != 0.0 && Dot(b, b) != 0.0 {
      var m := Norms(sqrt, a, b);
      QuotientBounds(Dot(a, b), m);
    }
  }

  lemma CosineDistanceSymmetric(sqrt: real -> real, a: Vector, b: Vector)
    ensures CosineDistance(sqrt, a, b) == CosineDistance(sqrt, b, a)
  {
    if |a| == |b| {
      DotSymmetric(a, b);
      assert sqrt(Dot(a, a)) * sqrt(Dot(b, b)) == sqrt(Dot(b, b)) * sqrt(Dot(a, a));
    }
  }

  /** The second vector is a positive multiple of the first, and neither is zero. */
  ghost predicate SameDirection(a: Vector, b: Vector) {
    |a| == |b| && !IsZero(a) && exists x :: x > 0.0 && b == Scale(x, a)
  }

  /** Distance zero means the same direction, and nothing else does. */
  lemma ZeroDistanceIffSameDirection(sqrt: real -> real, a: Vector, b: Vector)
    requires IsSqrt(sqrt)
    ensures CosineDistance(sqrt, a, b) == 0.0 <==> SameDirection(a, b)
  {
    if SameDirection(a, b) {
      var x :| x > 0.0 && b == Scale(x, a);
      SameDirectionIsZero(sqrt, a, x);
    }
    if CosineDistance(sqrt, a, b) == 0.0 {
      ZeroIsSameDirection(sqrt, a, b);
    }
  }

  lemma SameDirectionIsZero(sqrt: real -> real, a: Vector, x: real)
    requires IsSqrt(sqrt) && !IsZero(a) && x > 0.0
    ensures CosineDistance(sqrt, a, Scale(x, a)) == 0.0
  {
    var b := Scale(x, a);
    var A := Dot(a, a);
    SquareNonNegative(a);
    DotScale(a, x, a);
    DotScale(b, x, a);
    DotSymmetric(b, a);
    var D := Dot(a, b);
    assert D == x * A && Dot(b, b) == x * D;
    ProductPositive(x, A);
    ProductPositive(x, D);
    var m := Norms(sqrt, a, b);
    assert m * m == D * D by { assert A * (x * D) == (x * A) * D; }
    SquareMonotone(m, D);
    assert m == D;
    QuotientBounds(D, m);
  }

  /** Where the combination with coefficients m and d vanishes, b is d / m times a. */
  lemma ZeroCombination(a: Vector, b: Vector, m: real, d: real)
    requires |a| == |b| && m > 0.0 && IsZero(Combination(a, b, m, d))
    ensures b == Scale(Over(d, m), a)
  {
    hide Over, Times;
    var c := Combination(a, b, m, d);
    forall i | 0 <= i < |a| ensures b[i] == Times(Over(d, m), a[i]) {
      assert c[i] == 0.0;
      CrossMultiply(b[i], m, a[i], d);
    }
  }

  lemma NoGap(a: Vector, b: Vector, m: real)
    requires |a| == |b| && Dot(a, b) == m && m * m == Dot(a, a) * Dot(b, b)
    ensures IsZero(Combination(a, b, Dot(a, a), m))
  {
    var A := Dot(a, a);
    Gap(a, b, A, Dot(b, b), m, 0.0);
    assert Times(A, 0.0) == 0.0;
    SquareNonNegative(Combination(a, b, A, m));
  }

  lemma ZeroIsSameDirection(sqrt: real -> real, a: Vector, b: Vector)
    requires IsSqrt(sqrt) && CosineDistance(sqrt, a, b) == 0.0
    ensures SameDirection(a, b)
  {
    var m := Norms(sqrt, a, b);
    QuotientBounds(Dot(a, b), m);
    SquareNonNegative(a);
    hide Dot, CosineDistance, Over, Times;
    assert Dot(a, b) == m;
    NoGap(a, b, m);
    ZeroCombination(a, b, Dot(a, a), m);
    QuotientPositive(m, Dot(a, a));
  }

  lemma QuotientPositive(d: real, m: real)
    requires d > 0.0 && m > 0.0
    ensures Over(d, m) > 0.0
  {
  }

  lemma CrossMultiply(y: real, m: real, z: real, d: real)
    requires m > 0.0 && Times(y, m) - Times(z, d) == 0.0
    ensures y == Times(Over(d, m), z)
  {
    var q := d / m;
    assert q * m == d;
    assert (q * z) * m == z * d;
    assert (y - q * z) * m == 0.0;
  }
}
