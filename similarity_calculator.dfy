/**
 * Vector similarity (src/domain/services/similarity_calculator.py), over `real`.
 *
 * The generator sums become recursive functions over the two sequences. `math.sqrt`
 * is a parameter `sqrt`; the facts proved about the results assume only that it is
 * a square root (`IsSqrt`): non-negative, and squaring back to its argument.
 */
module SimilarityCalculator {
  import opened Exceptions
  import Text

  /** The argument`sqrt` stands for `math.sqrt` on non-negative reals. */
  ghost predicate IsSqrt(sqrt: real -> real)
  {
    forall x :: 0.0 <= x ==> 0.0 <= sqrt(x) && sqrt(x) * sqrt(x) == x
  }

  /** `sum(a * b for a, b in zip(v1, v2))` on equal lengths. */
  function Dot(a: seq<real>, b: seq<real>): real
    requires |a| == |b|
  {
    if |a| == 0 then 0.0 else a[0] * b[0] + Dot(a[1..], b[1..])
  }

  /** `sum(a * a for a in v)`. */
  function SquaredNorm(v: seq<real>): real
  {
    Dot(v, v)
  }

  /** `sum((a - b) ** 2 for a, b in zip(v1, v2))` on equal lengths. */
  function SquaredDistance(a: seq<real>, b: seq<real>): real
    requires |a| == |b|
  {
    if |a| == 0 then 0.0 else (a[0] - b[0]) * (a[0] - b[0]) + SquaredDistance(a[1..], b[1..])
  }

  function DimensionMessage(n: nat, m: nat): string
  {
    "vector dimensions differ: " + Text.NatToString(n) + " vs " + Text.NatToString(m)
  }

  const EmptyVectorMessage := "vector is empty"

  /** The cosine similarity, with the two guards raised as ValueError and the zero-magnitude case returning 0.0. */
  function CosineSimilarity(a: seq<real>, b: seq<real>, sqrt: real -> real): (r: Result<real>)
    ensures r.Err? <==> |a| != |b| || |a| == 0
    ensures |a| != |b| ==> r == Err(ValueError(DimensionMessage(|a|, |b|)))
    ensures |a| == |b| == 0 ==> r == Err(ValueError(EmptyVectorMessage))
  {
    if |a| != |b| then Err(ValueError(DimensionMessage(|a|, |b|)))
    else if |a| == 0 then Err(ValueError(EmptyVectorMessage))
    else
      var dot := Dot(a, b);
      var m1 := sqrt(SquaredNorm(a));
      var m2 := sqrt(SquaredNorm(b));
      if m1 == 0.0 || m2 == 0.0 then Ok(0.0) else Ok(dot / (m1 * m2))
  }

  /** The Euclidean distance; only the length guard, so two empty vectors are at distance sqrt(0). */
  function EuclideanDistance(a: seq<real>, b: seq<real>, sqrt: real -> real): (r: Result<real>)
    ensures r.Err? <==> |a| != |b|
    ensures r.Err? ==> r == Err(ValueError(DimensionMessage(|a|, |b|)))
  {
    if |a| != |b| then Err(ValueError(DimensionMessage(|a|, |b|)))
    else Ok(sqrt(SquaredDistance(a, b)))
  }

  /** The three numbers `normalized_similarity` returns. */
  datatype Scores = Scores(similarity: real, cosine: real, euclidean: real)

  /** The asymmetric rule: clamp (c + 1) / 2 into [0, 1], then let a non-negative cosine pass through. */
  function SimilarityFromCosine(c: real): (s: real)
    ensures c >= 0.0 ==> s == c
    ensures c < 0.0 ==> 0.0 <= s < 0.5
    ensures -1.0 <= c < 0.0 ==> s == (c + 1.0) / 2.0
  {
    var clamped := Max(0.0, Min(1.0, (c + 1.0) / 2.0));
    if c >= 0.0 then c else clamped
  }

  function Max(x: real, y: real): real { if x >= y then x else y }
  function Min(x: real, y: real): real { if x <= y then x else y }

  function NormalizedSimilarity(a: seq<real>, b: seq<real>, sqrt: real -> real): (r: Result<Scores>)
    ensures r.Err? <==> CosineSimilarity(a, b, sqrt).Err?
    ensures r.Err? ==> r.error == CosineSimilarity(a, b, sqrt).error
    ensures r.Ok? ==> r.value.cosine == CosineSimilarity(a, b, sqrt).value
    ensures r.Ok? ==> EuclideanDistance(a, b, sqrt).Ok? && r.value.euclidean == EuclideanDistance(a, b, sqrt).value
    ensures r.Ok? ==> r.value.similarity == SimilarityFromCosine(r.value.cosine)
  {
    match CosineSimilarity(a, b, sqrt)
    case Err(e) => Err(e)
    case Ok(cosine) =>
      // the cosine succeeded, so the lengths agree and the distance cannot raise
      Ok(Scores(SimilarityFromCosine(cosine), cosine, EuclideanDistance(a, b, sqrt).value))
  }

  // ---------------------------------------------------------------------------
  // Facts about sums

  lemma {:induction false} SquaredDistanceNonNegative(a: seq<real>, b: seq<real>)
    requires |a| == |b|
    ensures SquaredDistance(a, b) >= 0.0
  {
    if |a| > 0 {
      SquareNonNegative(a[0] - b[0]);
      SquaredDistanceNonNegative(a[1..], b[1..]);
    }
  }

  lemma {:induction false} SquaredDistanceSymmetric(a: seq<real>, b: seq<real>)
    requires |a| == |b|
    ensures SquaredDistance(a, b) == SquaredDistance(b, a)
  {
    if |a| > 0 {
      assert (a[0] - b[0]) * (a[0] - b[0]) == (b[0] - a[0]) * (b[0] - a[0]);
      SquaredDistanceSymmetric(a[1..], b[1..]);
    }
  }

  lemma {:induction false} SquaredDistanceSelf(v: seq<real>)
    ensures SquaredDistance(v, v) == 0.0
  {
    if |v| > 0 {
      SquaredDistanceSelf(v[1..]);
    }
  }

  lemma SquareNonNegative(x: real)
    ensures x * x >= 0.0
  {
  }

  lemma ProductZero(x: real, y: real)
    requires x * y == 0.0
    ensures x == 0.0 || y == 0.0
  {
  }

  lemma SquareZero(x: real)
    ensures x * x == 0.0 <==> x == 0.0
  {
    if x * x == 0.0 {
      ProductZero(x, x);
    }
  }

  lemma {:induction false} SquaredNormNonNegative(v: seq<real>)
    ensures SquaredNorm(v) >= 0.0
  {
    if |v| > 0 {
      SquaredNormNonNegative(v[1..]);
      SquareNonNegative(v[0]);
    }
  }

  /** The squared norm is 0 exactly for the zero vector, and positive otherwise. */
  lemma {:induction false} SquaredNormZero(v: seq<real>)
    ensures SquaredNorm(v) >= 0.0
    ensures SquaredNorm(v) == 0.0 <==> forall i :: 0 <= i < |v| ==> v[i] == 0.0
  {
    if |v| > 0 {
      var t := v[1..];
      SquaredNormZero(t);
      SquareNonNegative(v[0]);
      SquareZero(v[0]);
      assert SquaredNorm(v) == v[0] * v[0] + SquaredNorm(t);
      assert (forall i :: 0 <= i < |v| ==> v[i] == 0.0) <==>
             v[0] == 0.0 && (forall i :: 0 <= i < |t| ==> t[i] == 0.0) by {
        if v[0] == 0.0 && (forall i :: 0 <= i < |t| ==> t[i] == 0.0) {
          forall i | 0 <= i < |v| ensures v[i] == 0.0 {
            if i > 0 { assert v[i] == t[i - 1]; }
          }
        }
      }
    }
  }

  lemma NonNegativeProduct(x: real, y: real)
    requires x >= 0.0 && y >= 0.0
    ensures x * y >= 0.0
  {
  }

  lemma PositiveFactor(p: real, z: real)
    requires p > 0.0 && p * z >= 0.0
    ensures z >= 0.0
  {
  }

  /** From d^2 <= p q with p, q >= 0: 2 x y d <= y^2 p + x^2 q (the cross term is dominated). */
  lemma CrossTermBound(x: real, y: real, d: real, p: real, q: real)
    requires p >= 0.0 && q >= 0.0 && d * d <= p * q
    ensures 2.0 * x * y * d <= y * y * p + x * x * q
  {
    SquareNonNegative(d);
    if p == 0.0 {
      assert d * d == 0.0;
      ProductZero(d, d);
      SquareNonNegative(x);
      NonNegativeProduct(x * x, q);
    } else {
      // p * (y^2 p + x^2 q - 2 x y d) == (y p - x d)^2 + x^2 (p q - d^2) >= 0
      var t := y * p - x * d;
      SquareNonNegative(t);
      SquareNonNegative(x);
      NonNegativeProduct(x * x, p * q - d * d);
      var z := y * y * p + x * x * q - 2.0 * x * y * d;
      assert t * t == y * y * (p * p) - 2.0 * (x * y * d) * p + x * x * (d * d);
      assert p * z == y * y * (p * p) + x * x * (p * q) - 2.0 * (x * y * d) * p;
      assert p * z == t * t + x * x * (p * q - d * d);
      PositiveFactor(p, z);
    }
  }

  /**
   * One coordinate (x, y) added in front of sums d = a'.b', p = a'.a', q = b'.b' that already
   * satisfy Cauchy-Schwarz keeps it satisfied for ab = x y + d, aa = x^2 + p, bb = y^2 + q.
   */
  lemma CauchySchwarzStep(x: real, y: real, d: real, p: real, q: real, ab: real, aa: real, bb: real)
    requires p >= 0.0 && q >= 0.0 && d * d <= p * q
    requires ab == x * y + d && aa == x * x + p && bb == y * y + q
    ensures ab * ab <= aa * bb
  {
    CrossTermBound(x, y, d, p, q);
    assert (x * y + d) * (x * y + d) == x * x * (y * y) + 2.0 * x * y * d + d * d;
    assert (x * x + p) * (y * y + q) == x * x * (y * y) + x * x * q + y * y * p + p * q;
  }

  /** Cauchy-Schwarz: Dot(a, b)^2 <= |a|^2 |b|^2. */
  lemma {:induction false} CauchySchwarz(a: seq<real>, b: seq<real>)
    requires |a| == |b|
    ensures Dot(a, b) * Dot(a, b) <= Dot(a, a) * Dot(b, b)
  {
    if |a| > 0 {
      CauchySchwarz(a[1..], b[1..]);
      SquaredNormNonNegative(a[1..]);
      SquaredNormNonNegative(b[1..]);
      CauchySchwarzStep(a[0], b[0], Dot(a[1..], b[1..]), Dot(a[1..], a[1..]), Dot(b[1..], b[1..]),
                        Dot(a, b), Dot(a, a), Dot(b, b));
    }
  }

  lemma SquareGrows(d: real, m: real)
    requires m > 0.0
    ensures d > m ==> d * d > m * m
    ensures d < -m ==> d * d > m * m
  {
  }

  /** From d^2 <= m^2 with m > 0: -m <= d <= m, so d / m lies in [-1, 1]. */
  lemma QuotientBounded(d: real, m: real)
    requires m > 0.0 && d * d <= m * m
    ensures -1.0 <= d / m <= 1.0
  {
    SquareGrows(d, m);
    assert -m <= d <= m;
    assert d / m * m == d;
  }

  lemma ProductPositive(x: real, y: real)
    requires x > 0.0 && y > 0.0
    ensures x * y > 0.0
  {
  }

  // ---------------------------------------------------------------------------
  // What the calculator promises

  lemma SqrtZero(sqrt: real -> real)
    requires IsSqrt(sqrt)
    ensures sqrt(0.0) == 0.0
  {
    var r := sqrt(0.0);
    assert r * r == 0.0;
    ProductZero(r, r);
  }

  lemma SqrtPositive(sqrt: real -> real, x: real)
    requires IsSqrt(sqrt) && x > 0.0
    ensures sqrt(x) > 0.0
  {
    var r := sqrt(x);
    assert r * r == x;
  }

  /** A zero vector on either side gives exactly 0.0; otherwise the quotient dot / (|a| |b|). */
  lemma CosineZeroMagnitude(a: seq<real>, b: seq<real>, sqrt: real -> real)
    requires IsSqrt(sqrt) && |a| == |b| > 0
    ensures (forall i :: 0 <= i < |a| ==> a[i] == 0.0) ==> CosineSimilarity(a, b, sqrt) == Ok(0.0)
    ensures (forall i :: 0 <= i < |b| ==> b[i] == 0.0) ==> CosineSimilarity(a, b, sqrt) == Ok(0.0)
    ensures (exists i :: 0 <= i < |a| && a[i] != 0.0) && (exists j :: 0 <= j < |b| && b[j] != 0.0) ==>
      sqrt(SquaredNorm(a)) > 0.0 && sqrt(SquaredNorm(b)) > 0.0 &&
      CosineSimilarity(a, b, sqrt) == Ok(Dot(a, b) / (sqrt(SquaredNorm(a)) * sqrt(SquaredNorm(b))))
  {
    SquaredNormZero(a);
    SquaredNormZero(b);
    SqrtZero(sqrt);
    if SquaredNorm(a) > 0.0 { SqrtPositive(sqrt, SquaredNorm(a)); }
    if SquaredNorm(b) > 0.0 { SqrtPositive(sqrt, SquaredNorm(b)); }
  }

  /** cosine_similarity(v, v) == 1 for a non-zero v. */
  lemma CosineSelf(v: seq<real>, sqrt: real -> real)
    requires IsSqrt(sqrt)
    requires exists i :: 0 <= i < |v| && v[i] != 0.0
    ensures CosineSimilarity(v, v, sqrt) == Ok(1.0)
  {
    SquaredNormZero(v);
    var n := SquaredNorm(v);
    SqrtPositive(sqrt, n);
    var m := sqrt(n);
    CosineFormula(v, v, sqrt);
    DivideSelf(Dot(v, v), m * m);
  }

  lemma CosineFormula(a: seq<real>, b: seq<real>, sqrt: real -> real)
    requires |a| == |b| > 0
    requires sqrt(SquaredNorm(a)) != 0.0 && sqrt(SquaredNorm(b)) != 0.0
    ensures CosineSimilarity(a, b, sqrt) == Ok(Dot(a, b) / (sqrt(SquaredNorm(a)) * sqrt(SquaredNorm(b))))
  {
  }

  lemma DivideSelf(x: real, y: real)
    requires x == y && x != 0.0
    ensures x / y == 1.0
  {
  }

  /** The cosine lies in [-1, 1] whenever it is defined. */
  lemma CosineBounded(a: seq<real>, b: seq<real>, sqrt: real -> real)
    requires IsSqrt(sqrt)
    requires CosineSimilarity(a, b, sqrt).Ok?
    ensures -1.0 <= CosineSimilarity(a, b, sqrt).value <= 1.0
  {
    if sqrt(SquaredNorm(a)) != 0.0 && sqrt(SquaredNorm(b)) != 0.0 {
      CosineFormula(a, b, sqrt);
      assert -1.0 <= Dot(a, b) / (sqrt(SquaredNorm(a)) * sqrt(SquaredNorm(b))) <= 1.0 by {
        SquaredNormNonNegative(a);
        SquaredNormNonNegative(b);
        CauchySchwarz(a, b);
        UnitQuotient(Dot(a, b), sqrt(SquaredNorm(a)), sqrt(SquaredNorm(b)), SquaredNorm(a), SquaredNorm(b));
      }
    } else {
      assert CosineSimilarity(a, b, sqrt) == Ok(0.0);
    }
  }

  /** d / (m1 m2) lies in [-1, 1] when m1, m2 are the square roots of sa, sb and d^2 <= sa sb. */
  lemma UnitQuotient(d: real, m1: real, m2: real, sa: real, sb: real)
    requires m1 > 0.0 && m2 > 0.0 && m1 * m1 == sa && m2 * m2 == sb && d * d <= sa * sb
    ensures -1.0 <= d / (m1 * m2) <= 1.0
  {
    ProductPositive(m1, m2);
    assert (m1 * m2) * (m1 * m2) == sa * sb;
    QuotientBounded(d, m1 * m2);
  }

  /** Euclidean distance is non-negative, symmetric, and 0 from a vector to itself. */
  lemma EuclideanMetric(a: seq<real>, b: seq<real>, sqrt: real -> real)
    requires IsSqrt(sqrt) && |a| == |b|
    ensures EuclideanDistance(a, b, sqrt).Ok? && EuclideanDistance(a, b, sqrt).value >= 0.0
    ensures EuclideanDistance(a, b, sqrt) == EuclideanDistance(b, a, sqrt)
    ensures EuclideanDistance(a, a, sqrt) == Ok(0.0)
  {
    SquaredDistanceNonNegative(a, b);
    SquaredDistanceSymmetric(a, b);
    SquaredDistanceSelf(a);
    SqrtZero(sqrt);
  }

  /** No empty-vector guard: two empty vectors are at distance 0, where the cosine fails. */
  lemma EuclideanOfEmpty(sqrt: real -> real)
    requires IsSqrt(sqrt)
    ensures EuclideanDistance([], [], sqrt) == Ok(0.0)
    ensures CosineSimilarity([], [], sqrt).Err?
  {
    SqrtZero(sqrt);
  }

  /** Whenever normalized_similarity succeeds, its three numbers have the ranges of a similarity result. */
  lemma NormalizedRanges(a: seq<real>, b: seq<real>, sqrt: real -> real)
    requires IsSqrt(sqrt)
    requires NormalizedSimilarity(a, b, sqrt).Ok?
    ensures var s := NormalizedSimilarity(a, b, sqrt).value;
      0.0 <= s.similarity <= 1.0 && -1.0 <= s.cosine <= 1.0 && s.euclidean >= 0.0
  {
    CosineBounded(a, b, sqrt);
    EuclideanMetric(a, b, sqrt);
  }

  /** Identical non-zero vectors: similarity 1 and distance 0. */
  lemma NormalizedSelf(v: seq<real>, sqrt: real -> real)
    requires IsSqrt(sqrt)
    requires exists i :: 0 <= i < |v| && v[i] != 0.0
    ensures NormalizedSimilarity(v, v, sqrt) == Ok(Scores(1.0, 1.0, 0.0))
  {
    CosineSelf(v, sqrt);
    EuclideanMetric(v, v, sqrt);
  }

  /** Swapping the arguments keeps the cosine and the distance, hence the similarity too. */
  lemma NormalizedSwap(a: seq<real>, b: seq<real>, sqrt: real -> real)
    ensures NormalizedSimilarity(a, b, sqrt).Ok? <==> NormalizedSimilarity(b, a, sqrt).Ok?
    ensures NormalizedSimilarity(a, b, sqrt).Ok? ==>
      NormalizedSimilarity(a, b, sqrt).value == NormalizedSimilarity(b, a, sqrt).value
  {
    if |a| == |b| {
      DotSymmetric(a, b);
      SquaredDistanceSymmetric(a, b);
      var m1, m2 := sqrt(SquaredNorm(a)), sqrt(SquaredNorm(b));
      if m1 != 0.0 && m2 != 0.0 {
        assert m1 * m2 == m2 * m1;
      }
    }
  }

  lemma {:induction false} DotSymmetric(a: seq<real>, b: seq<real>)
    requires |a| == |b|
    ensures Dot(a, b) == Dot(b, a)
  {
    if |a| > 0 {
      DotSymmetric(a[1..], b[1..]);
    }
  }

  /** The branch examples: 0.5 passes through, -0.5 maps to 0.25, -1 to 0. */
  lemma SimilarityExamples()
    ensures SimilarityFromCosine(0.5) == 0.5
    ensures SimilarityFromCosine(-0.5) == 0.25
    ensures SimilarityFromCosine(-1.0) == 0.0
  {
  }

  /**
   * The score is not monotone in the cosine: a slightly negative cosine is mapped near 0.5,
   * above every cosine in [0, 0.5).
   */
  lemma NegativeCosineCanOutscorePositive(c: real, d: real)
    requires -1.0 <= c < 0.0 <= d < (c + 1.0) / 2.0
    ensures SimilarityFromCosine(c) > SimilarityFromCosine(d)
  {
  }
}
