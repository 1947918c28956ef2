/** Cosine similarity between embedding vectors, over the reals. The square
    root is a parameter: the model only needs what a square root promises. */
module Similarity {
  type Vector = seq<real>

  /** What `Math.sqrt` promises: zero exactly at zero (a negative argument
      gives NaN, which is not zero either), and on the non-negative reals a
      non-negative root whose square is the argument. */
  ghost predicate IsSqrt(sqrt: real -> real)
  {
    forall x: real {:trigger sqrt(x)} ::
      (sqrt(x) == 0.0 <==> x == 0.0) &&
      (x >= 0.0 ==> sqrt(x) >= 0.0 && sqrt(x) * sqrt(x) == x)
  }

  /** Entry i of a vector; an index past the end reads as 0. */
  function At(v: Vector, i: nat): real
  {
    if i < |v| then v[i] else 0.0
  }

  /** Sum of a[i] * b[i] over the first n indices. */
  function Dot(a: Vector, b: Vector, n: nat): real
  {
    if n == 0 then 0.0 else Dot(a, b, n - 1) + At(a, n - 1) * At(b, n - 1)
  }

  /** cosineSimilarity: the loop runs over the indices of the first vector;
      when either magnitude is zero the result is 0. */
  function Cosine(a: Vector, b: Vector, sqrt: real -> real): real
  {
    var ma := sqrt(Dot(a, a, |a|));
    var mb := sqrt(Dot(b, b, |a|));
    if ma == 0.0 || mb == 0.0 then 0.0 else Dot(a, b, |a|) / (ma * mb)
  }

  /** The accumulating loop of cosineSimilarity. */
  method CosineSimilarity(vecA: Vector, vecB: Vector, sqrt: real -> real) returns (r: real)
    ensures r == Cosine(vecA, vecB, sqrt)
  {
    var dotProduct := 0.0;
    var magnitudeA := 0.0;
    var magnitudeB := 0.0;
    var i := 0;
    while i < |vecA|
      invariant 0 <= i <= |vecA|
      invariant dotProduct == Dot(vecA, vecB, i)
      invariant magnitudeA == Dot(vecA, vecA, i)
      invariant magnitudeB == Dot(vecB, vecB, i)
    {
      var bi := if i < |vecB| then vecB[i] else 0.0;
      dotProduct := dotProduct + vecA[i] * bi;
      magnitudeA := magnitudeA + vecA[i] * vecA[i];
      magnitudeB := magnitudeB + bi * bi;
      i := i + 1;
    }
    magnitudeA := sqrt(magnitudeA);
    magnitudeB := sqrt(magnitudeB);
    if magnitudeA == 0.0 || magnitudeB == 0.0 {
      return 0.0;
    }
    r := dotProduct / (magnitudeA * magnitudeB);
  }

  lemma MulPositive(a: real, b: real)
    requires a > 0.0 && b > 0.0
    ensures a * b > 0.0
  {
  }

  lemma SquareNonNegative(x: real)
    ensures x * x >= 0.0
  {
    if x > 0.0 {
      MulPositive(x, x);
    } else if x < 0.0 {
      MulPositive(-x, -x);
      assert (-x) * (-x) == x * x;
    }
  }

  lemma AddNonNegative(a: real, b: real)
    requires a >= 0.0 && b >= 0.0
    ensures a + b >= 0.0
  {
  }

  /** A sum of squares is never negative. */
  lemma {:induction false} SumOfSquares(v: Vector, n: nat)
    ensures Dot(v, v, n) >= 0.0
  {
    if n > 0 {
      SumOfSquares(v, n - 1);
      var x := At(v, n - 1);
      SquareNonNegative(x);
      AddNonNegative(Dot(v, v, n - 1), x * x);
    }
  }

  /** A vector that is zero on the first n indices has nothing to add. */
  lemma {:induction false} ZeroDot(a: Vector, b: Vector, n: nat)
    requires forall i :: 0 <= i < n ==> At(a, i) == 0.0
    ensures Dot(a, b, n) == 0.0
  {
    if n > 0 {
      ZeroDot(a, b, n - 1);
      assert At(a, n - 1) == 0.0;
    }
  }

  /** The zero guard: a zero magnitude on either side makes the similarity 0. */
  lemma ZeroMagnitude(a: Vector, b: Vector, sqrt: real -> real)
    requires IsSqrt(sqrt)
    requires Dot(a, a, |a|) == 0.0 || Dot(b, b, |a|) == 0.0
    ensures Cosine(a, b, sqrt) == 0.0
  {
    assert sqrt(Dot(a, a, |a|)) == 0.0 || sqrt(Dot(b, b, |a|)) == 0.0;
  }

  /** A vector that is zero on the compared indices, on either side, has zero
      similarity with anything. */
  lemma ZeroVector(a: Vector, b: Vector, sqrt: real -> real)
    requires IsSqrt(sqrt)
    requires (forall i :: 0 <= i < |a| ==> At(a, i) == 0.0) || (forall i :: 0 <= i < |a| ==> At(b, i) == 0.0)
    ensures Cosine(a, b, sqrt) == 0.0
  {
    if forall i :: 0 <= i < |a| ==> At(a, i) == 0.0 {
      ZeroDot(a, a, |a|);
    } else {
      ZeroDot(b, b, |a|);
    }
    ZeroMagnitude(a, b, sqrt);
  }

  lemma {:induction false} DotSymmetric(a: Vector, b: Vector, n: nat)
    ensures Dot(a, b, n) == Dot(b, a, n)
  {
    if n > 0 {
      DotSymmetric(a, b, n - 1);
    }
  }

  /** Vectors of the same length compare the same way round. */
  lemma Symmetric(a: Vector, b: Vector, sqrt: real -> real)
    requires |a| == |b|
    ensures Cosine(a, b, sqrt) == Cosine(b, a, sqrt)
  {
    DotSymmetric(a, b, |a|);
  }

  /** A vector of non-zero magnitude is fully similar to itself. */
  lemma SelfSimilar(a: Vector, sqrt: real -> real)
    requires IsSqrt(sqrt)
    requires Dot(a, a, |a|) != 0.0
    ensures Cosine(a, a, sqrt) == 1.0
  {
    var q := Dot(a, a, |a|);
    SumOfSquares(a, |a|);
    var s := sqrt(q);
    assert s * s == q && s != 0.0;
    DivideBySelf(q, s);
  }

  lemma DivideBySelf(q: real, s: real)
    requires s * s == q && q != 0.0
    ensures q / (s * s) == 1.0
  {
  }
}
