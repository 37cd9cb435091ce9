/** Cosine similarity between an embedding of the query and an embedding of a record, in the two
    variants the services use: the guarded loop of the NestJS controller and the unguarded
    `reduce`-based one of the Express middleware. Only the control structure is modelled: every
    floating-point operation (`+`, `*`, `Math.sqrt`, `/`) is a parameter, so nothing here depends
    on rounding, and what is proved holds for any implementation of them. */
module VectorMath {
  import opened Wrappers

  /** The message of the error the controller's version throws on vectors of different lengths. */
  const DimensionMismatch: string := "Vectors must have the same length"

  /** A JavaScript number as far as ranking cares: a numeric value, or NaN. */
  datatype Num = Num(value: real) | NaN

  /** The floating-point operations the similarity uses, left uninterpreted. Division yields a
      number or NaN (0/0 and anything involving an undefined operand). */
  datatype Float = Float(add: (real, real) -> real, multiply: (real, real) -> real,
                         sqrt: real -> real, divide: (real, real) -> Num)
  {
    /** `x + y`. */
    function Sum(x: real, y: real): real { add(x, y) }

    /** `x * y`. */
    function Product(x: real, y: real): real { multiply(x, y) }

    /** `Math.sqrt(x)`. */
    function Root(x: real): real { sqrt(x) }

    /** `x / y`. */
    function Quotient(x: real, y: real): Num { divide(x, y) }

    /** Whether `*` is commutative, as IEEE multiplication is. */
    ghost predicate Commutative() {
      forall x, y :: Product(x, y) == Product(y, x)
    }
  }

  /** `Σ a[i]·b[i]`, accumulated from index 0 up, starting from 0. */
  function Dot(a: seq<real>, b: seq<real>, fp: Float): real
    requires |a| == |b|
  {
    if a == [] then 0.0 else fp.Sum(Dot(a[..|a| - 1], b[..|b| - 1], fp), fp.Product(a[|a| - 1], b[|b| - 1]))
  }

  /** `Σ a[i]²`, the squared magnitude before the square root is taken. */
  function SumOfSquares(a: seq<real>, fp: Float): real {
    if a == [] then 0.0 else fp.Sum(SumOfSquares(a[..|a| - 1], fp), fp.Product(a[|a| - 1], a[|a| - 1]))
  }

  /** `Math.sqrt` of the squared magnitude. */
  function Magnitude(a: seq<real>, fp: Float): real {
    fp.Root(SumOfSquares(a, fp))
  }

  /** A vector's dot product with itself is its squared magnitude. */
  lemma {:induction false} DotSelf(a: seq<real>, fp: Float)
    ensures Dot(a, a, fp) == SumOfSquares(a, fp)
  {
    if a != [] {
      DotSelf(a[..|a| - 1], fp);
    }
  }

  /** With a commutative `*`, the dot product does not depend on the order of its arguments. */
  lemma {:induction false} DotSymmetric(a: seq<real>, b: seq<real>, fp: Float)
    requires |a| == |b|
    requires fp.Commutative()
    ensures Dot(a, b, fp) == Dot(b, a, fp)
  {
    if a != [] {
      DotSymmetric(a[..|a| - 1], b[..|b| - 1], fp);
      assert fp.Product(a[|a| - 1], b[|b| - 1]) == fp.Product(b[|b| - 1], a[|a| - 1]);
    }
  }

  /** The score from the accumulated sums: 0 when either magnitude is 0, else the dot product
      divided by the product of the magnitudes. */
  function Score(dot: real, sumA: real, sumB: real, fp: Float): Num {
    var magnitudeA := fp.Root(sumA);
    var magnitudeB := fp.Root(sumB);
    if magnitudeA == 0.0 || magnitudeB == 0.0 then Num(0.0)
    else fp.Quotient(dot, fp.Product(magnitudeA, magnitudeB))
  }

  /** The controller's `cosineSimilarity`: a length mismatch is an error, a zero magnitude gives 0,
      and otherwise the dot product is divided by the product of the magnitudes. */
  function Cosine(a: seq<real>, b: seq<real>, fp: Float): Result<Num, string> {
    if |a| != |b| then Failure(DimensionMismatch)
    else Success(Score(Dot(a, b, fp), SumOfSquares(a, fp), SumOfSquares(b, fp), fp))
  }

  /** The controller's loop: one pass accumulating the dot product and both squared magnitudes. */
  method CosineSimilarity(a: seq<real>, b: seq<real>, fp: Float) returns (r: Result<Num, string>)
    ensures r == Cosine(a, b, fp)
  {
    if |a| != |b| {
      return Failure(DimensionMismatch);
    }
    var dotProduct, magnitudeA, magnitudeB := 0.0, 0.0, 0.0;
    for i := 0 to |a|
      invariant dotProduct == Dot(a[..i], b[..i], fp)
      invariant magnitudeA == SumOfSquares(a[..i], fp)
      invariant magnitudeB == SumOfSquares(b[..i], fp)
    {
      assert a[..i + 1][..i] == a[..i] && b[..i + 1][..i] == b[..i];
      dotProduct := fp.Sum(dotProduct, fp.Product(a[i], b[i]));
      magnitudeA := fp.Sum(magnitudeA, fp.Product(a[i], a[i]));
      magnitudeB := fp.Sum(magnitudeB, fp.Product(b[i], b[i]));
    }
    assert a[..|a|] == a && b[..|b|] == b;
    magnitudeA := fp.Root(magnitudeA);
    magnitudeB := fp.Root(magnitudeB);
    if magnitudeA == 0.0 || magnitudeB == 0.0 {
      return Success(Num(0.0));
    }
    return Success(fp.Quotient(dotProduct, fp.Product(magnitudeA, magnitudeB)));
  }

  /** The controller's guards: the dimension error exactly on a length mismatch, a score of 0
      whenever either vector has magnitude 0, and the normalised dot product otherwise. */
  lemma CosineGuards(a: seq<real>, b: seq<real>, fp: Float)
    ensures Cosine(a, b, fp).Failure? <==> |a| != |b|
    ensures |a| != |b| ==> Cosine(a, b, fp).error == DimensionMismatch
    ensures |a| == |b| && (Magnitude(a, fp) == 0.0 || Magnitude(b, fp) == 0.0) ==> Cosine(a, b, fp) == Success(Num(0.0))
    ensures |a| == |b| && Magnitude(a, fp) != 0.0 && Magnitude(b, fp) != 0.0 ==>
      Cosine(a, b, fp) == Success(fp.Quotient(Dot(a, b, fp), fp.Product(Magnitude(a, fp), Magnitude(b, fp))))
  {
  }

  /** With a commutative `*`, a record is as similar to the query as the query is to the record. */
  lemma CosineSymmetric(a: seq<real>, b: seq<real>, fp: Float)
    requires fp.Commutative()
    ensures Cosine(a, b, fp) == Cosine(b, a, fp)
  {
    if |a| == |b| {
      DotSymmetric(a, b, fp);
      assert fp.Product(Magnitude(a, fp), Magnitude(b, fp)) == fp.Product(Magnitude(b, fp), Magnitude(a, fp));
    }
  }

  /** A non-zero vector is scored against itself as its squared magnitude over the square of its
      magnitude: 1 whenever the square root and the division are exact on it. */
  lemma CosineOfSelf(a: seq<real>, fp: Float)
    requires Magnitude(a, fp) != 0.0
    ensures Cosine(a, a, fp) == Success(fp.Quotient(SumOfSquares(a, fp), fp.Product(Magnitude(a, fp), Magnitude(a, fp))))
    ensures fp.Product(Magnitude(a, fp), Magnitude(a, fp)) == SumOfSquares(a, fp) ==>
      fp.Quotient(SumOfSquares(a, fp), SumOfSquares(a, fp)) == Num(1.0) ==> Cosine(a, a, fp) == Success(Num(1.0))
  {
    DotSelf(a, fp);
  }

  /** The middleware's `cosineSimilarity`. The dot product runs over the query's indices and reads
      `b[i]`, so a shorter `b` makes it NaN, while a longer `b` is silently cut to the query's
      length for the dot product but counted in full for its magnitude; there is no zero guard. */
  function UnguardedCosine(a: seq<real>, b: seq<real>, fp: Float): Num {
    if |b| < |a| then NaN
    else fp.Quotient(Dot(a, b[..|a|], fp), fp.Product(Magnitude(a, fp), Magnitude(b, fp)))
  }

  /** The middleware's score is NaN whenever the record vector is shorter than the query's. */
  lemma UnguardedShorterIsNaN(a: seq<real>, b: seq<real>, fp: Float)
    requires |b| < |a|
    ensures UnguardedCosine(a, b, fp) == NaN
  {
  }

  /** Where the controller's guards do not fire, the two versions compute the same score. */
  lemma UnguardedAgreesWhenGuardsPass(a: seq<real>, b: seq<real>, fp: Float)
    requires |a| == |b|
    requires Magnitude(a, fp) != 0.0 && Magnitude(b, fp) != 0.0
    ensures Cosine(a, b, fp) == Success(UnguardedCosine(a, b, fp))
  {
    assert b[..|a|] == b;
  }

  /** Where the controller rejects a longer record vector, the middleware divides anyway, and
      where the controller returns 0 for a zero magnitude, the middleware divides by it. */
  lemma UnguardedDiverges(a: seq<real>, b: seq<real>, fp: Float)
    ensures |a| < |b| ==>
      && Cosine(a, b, fp) == Failure(DimensionMismatch)
      && UnguardedCosine(a, b, fp) == fp.Quotient(Dot(a, b[..|a|], fp), fp.Product(Magnitude(a, fp), Magnitude(b, fp)))
    ensures |a| == |b| && Magnitude(a, fp) == 0.0 ==>
      && Cosine(a, b, fp) == Success(Num(0.0))
      && UnguardedCosine(a, b, fp) == fp.Quotient(Dot(a, b, fp), fp.Product(0.0, Magnitude(b, fp)))
  {
    assert |a| == |b| ==> b[..|a|] == b;
  }
}
