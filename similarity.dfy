/**
 * The cosine similarity of the clustering engine, reduced to what can be stated
 * without floating point or square roots: the dot product is computed exactly on
 * reals, and each Euclidean norm is supplied by the caller together with the
 * fact that it is the non-negative root of the vector's dot product with itself.
 */
module Cosine {

  type Vector = seq<real>

  /** Exact dot product of two vectors of equal length. */
  function Dot(u: Vector, v: Vector): real
    requires |u| == |v|
  {
    if u == [] then 0.0 else u[0] * v[0] + Dot(u[1..], v[1..])
  }

  /** The vector with every component negated. */
  function Negate(v: Vector): (w: Vector)
    ensures |w| == |v|
    ensures forall i :: 0 <= i < |v| ==> w[i] == -v[i]
  {
    seq(|v|, i requires 0 <= i < |v| => -v[i])
  }

  /** The all-zero vector of length n. */
  function Zero(n: nat): (z: Vector)
    ensures |z| == n
    ensures forall i :: 0 <= i < n ==> z[i] == 0.0
  {
    seq(n, i => 0.0)
  }

  /** `norm` is the Euclidean norm of `v`. */
  predicate IsNorm(v: Vector, norm: real)
  {
    norm >= 0.0 && norm * norm == Dot(v, v)
  }

  /**
   * Dot product over the product of the norms; 0.0 instead of a division by
   * zero when either norm is zero.
   */
  function CosineSimilarity(u: Vector, v: Vector, normU: real, normV: real): (r: real)
    requires |u| == |v|
    requires IsNorm(u, normU) && IsNorm(v, normV)
    ensures normU == 0.0 || normV == 0.0 ==> r == 0.0
    ensures normU != 0.0 && normV != 0.0 ==> r * (normU * normV) == Dot(u, v)
  {
    if normU == 0.0 || normV == 0.0 then 0.0 else Dot(u, v) / (normU * normV)
  }

  lemma {:induction false} DotNegate(v: Vector)
    ensures Dot(v, Negate(v)) == -Dot(v, v)
  {
    if v != [] {
      assert Negate(v)[1..] == Negate(v[1..]);
      DotNegate(v[1..]);
    }
  }

  lemma {:induction false} DotZero(v: Vector)
    ensures Dot(v, Zero(|v|)) == 0.0
  {
    if v != [] {
      assert Zero(|v|)[1..] == Zero(|v| - 1);
      DotZero(v[1..]);
    }
  }

  lemma {:induction false} NegateNorm(v: Vector, norm: real)
    requires IsNorm(v, norm)
    ensures IsNorm(Negate(v), norm)
  {
    NegateDot(v, v);
  }

  lemma {:induction false} NegateDot(u: Vector, v: Vector)
    requires |u| == |v|
    ensures Dot(Negate(u), Negate(v)) == Dot(u, v)
  {
    if u != [] {
      assert Negate(u)[1..] == Negate(u[1..]);
      assert Negate(v)[1..] == Negate(v[1..]);
      NegateDot(u[1..], v[1..]);
    }
  }

  /** A non-zero vector is perfectly similar to itself. */
  lemma SelfSimilarity(v: Vector, norm: real)
    requires IsNorm(v, norm) && Dot(v, v) != 0.0
    ensures CosineSimilarity(v, v, norm, norm) == 1.0
  {
    ZeroSquare(norm);
    DivideSelf(Dot(v, v), norm * norm);
  }

  /** A non-zero vector is perfectly dissimilar to its negation. */
  lemma OppositeSimilarity(v: Vector, norm: real)
    requires IsNorm(v, norm) && Dot(v, v) != 0.0
    ensures IsNorm(Negate(v), norm)
    ensures CosineSimilarity(v, Negate(v), norm, norm) == -1.0
  {
    NegateNorm(v, norm);
    DotNegate(v);
    ZeroSquare(norm);
    DivideSelf(Dot(v, v), norm * norm);
  }

  lemma ZeroSquare(x: real)
    ensures x == 0.0 ==> x * x == 0.0
  {
  }

  lemma DivideSelf(x: real, y: real)
    requires x == y && y != 0.0
    ensures x / y == 1.0 && -x / y == -1.0
  {
  }

  /** The zero vector is similar to nothing, and comparing with it does not fail. */
  lemma ZeroSimilarity(v: Vector, norm: real)
    requires IsNorm(v, norm)
    ensures IsNorm(Zero(|v|), 0.0)
    ensures CosineSimilarity(v, Zero(|v|), norm, 0.0) == 0.0
  {
    DotZero(Zero(|v|));
  }
}
