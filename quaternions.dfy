/**
 * The parts of System.Numerics.Quaternion that the bridge uses, over exact
 * reals: the Hamilton product in the component order of the .NET
 * implementation, the conjugate, the squared length and Inverse, which is
 * the conjugate divided by the squared length.
 */
module Quaternions {

  datatype Quaternion = Quaternion(x: real, y: real, z: real, w: real)

  /** The identity rotation (0, 0, 0, 1). */
  const Identity := Quaternion(0.0, 0.0, 0.0, 1.0)

  /** The squared norm, never negative. */
  function LengthSquared(q: Quaternion): (ls: real)
    ensures ls >= 0.0
  {
    SquareNonnegative(q.x);
    SquareNonnegative(q.y);
    SquareNonnegative(q.z);
    SquareNonnegative(q.w);
    q.x * q.x + q.y * q.y + q.z * q.z + q.w * q.w
  }

  lemma SquareNonnegative(a: real)
    ensures a * a >= 0.0
  {
    if a < 0.0 {
      assert a * a == (-a) * (-a);
    }
  }

  predicate IsNonzero(q: Quaternion) {
    LengthSquared(q) != 0.0
  }

  function Conjugate(q: Quaternion): Quaternion {
    Quaternion(-q.x, -q.y, -q.z, q.w)
  }

  function Scale(q: Quaternion, s: real): Quaternion {
    Quaternion(q.x * s, q.y * s, q.z * s, q.w * s)
  }

  /**
   * Quaternion.Inverse: the conjugate scaled by 1 / |q|^2. The .NET code
   * divides by zero for the zero quaternion; here that input is excluded.
   */
  function Inverse(q: Quaternion): Quaternion
    requires IsNonzero(q)
  {
    Scale(Conjugate(q), 1.0 / LengthSquared(q))
  }

  /**
   * The Hamilton product a * b as Quaternion.Multiply computes it: the
   * vector part is a.v * b.w + b.v * a.w + a.v x b.v and the scalar part is
   * a.w * b.w - a.v . b.v.
   */
  function Multiply(a: Quaternion, b: Quaternion): Quaternion {
    var cx := a.y * b.z - a.z * b.y;
    var cy := a.z * b.x - a.x * b.z;
    var cz := a.x * b.y - a.y * b.x;
    var dot := a.x * b.x + a.y * b.y + a.z * b.z;
    Quaternion(a.x * b.w + b.x * a.w + cx,
               a.y * b.w + b.y * a.w + cy,
               a.z * b.w + b.z * a.w + cz,
               a.w * b.w - dot)
  }

  /** The identity is a two-sided unit of the product. */
  lemma IdentityIsUnit(q: Quaternion)
    ensures Multiply(Identity, q) == q
    ensures Multiply(q, Identity) == q
  {
  }

  /** Inverse(r) * r is the identity for every nonzero r. */
  lemma InverseTimesSelf(r: Quaternion)
    requires IsNonzero(r)
    ensures Multiply(Inverse(r), r) == Identity
  {
    var ls := LengthSquared(r);
    var s := 1.0 / ls;
    assert s * ls == 1.0;
    var i := Inverse(r);
    assert i == Quaternion(-r.x * s, -r.y * s, -r.z * s, r.w * s);
    calc {
      Multiply(i, r).w;
      (r.w * s) * r.w - ((-r.x * s) * r.x + (-r.y * s) * r.y + (-r.z * s) * r.z);
      s * ls;
      1.0;
    }
  }

  /** r * Inverse(r) is the identity too: Inverse is a two-sided inverse. */
  lemma SelfTimesInverse(r: Quaternion)
    requires IsNonzero(r)
    ensures Multiply(r, Inverse(r)) == Identity
  {
    var ls := LengthSquared(r);
    var s := 1.0 / ls;
    assert s * ls == 1.0;
    var i := Inverse(r);
    assert i == Quaternion(-r.x * s, -r.y * s, -r.z * s, r.w * s);
    calc {
      Multiply(r, i).w;
      r.w * (r.w * s) - (r.x * (-r.x * s) + r.y * (-r.y * s) + r.z * (-r.z * s));
      s * ls;
      1.0;
    }
  }

  /** Multiplying by r undoes multiplying by Inverse(r) on the left. */
  lemma InverseCancels(r: Quaternion, q: Quaternion)
    requires IsNonzero(r)
    ensures Multiply(r, Multiply(Inverse(r), q)) == q
  {
    MultiplyAssociative(r, Inverse(r), q);
    SelfTimesInverse(r);
    IdentityIsUnit(q);
  }

  /** The product is associative. */
  lemma MultiplyAssociative(a: Quaternion, b: Quaternion, c: Quaternion)
    ensures Multiply(Multiply(a, b), c) == Multiply(a, Multiply(b, c))
  {
    var ab, bc := Multiply(a, b), Multiply(b, c);
    AssociativeX(a, b, c, ab, bc);
    AssociativeY(a, b, c, ab, bc);
    AssociativeZ(a, b, c, ab, bc);
    AssociativeW(a, b, c, ab, bc);
  }

  /**
   * One component of associativity, with the inner products ab and bc named:
   * each product of a sum is distributed over its four monomials.
   */
  lemma AssociativeX(a: Quaternion, b: Quaternion, c: Quaternion, ab: Quaternion, bc: Quaternion)
    requires ab == Multiply(a, b) && bc == Multiply(b, c)
    ensures ab.x * c.w + c.x * ab.w + (ab.y * c.z - ab.z * c.y) == a.x * bc.w + bc.x * a.w + (a.y * bc.z - a.z * bc.y)
  {
    Distributes(a.x * b.w, b.x * a.w, a.y * b.z, -(a.z * b.y), c.w);
    Distributes(a.w * b.w, -(a.x * b.x), -(a.y * b.y), -(a.z * b.z), c.x);
    Distributes(a.y * b.w, b.y * a.w, a.z * b.x, -(a.x * b.z), c.z);
    Distributes(a.z * b.w, b.z * a.w, a.x * b.y, -(a.y * b.x), c.y);
    Distributes(b.w * c.w, -(b.x * c.x), -(b.y * c.y), -(b.z * c.z), a.x);
    Distributes(b.x * c.w, c.x * b.w, b.y * c.z, -(b.z * c.y), a.w);
    Distributes(b.z * c.w, c.z * b.w, b.x * c.y, -(b.y * c.x), a.y);
    Distributes(b.y * c.w, c.y * b.w, b.z * c.x, -(b.x * c.z), a.z);
  }

  lemma AssociativeY(a: Quaternion, b: Quaternion, c: Quaternion, ab: Quaternion, bc: Quaternion)
    requires ab == Multiply(a, b) && bc == Multiply(b, c)
    ensures ab.y * c.w + c.y * ab.w + (ab.z * c.x - ab.x * c.z) == a.y * bc.w + bc.y * a.w + (a.z * bc.x - a.x * bc.z)
  {
    Distributes(a.y * b.w, b.y * a.w, a.z * b.x, -(a.x * b.z), c.w);
    Distributes(a.w * b.w, -(a.x * b.x), -(a.y * b.y), -(a.z * b.z), c.y);
    Distributes(a.z * b.w, b.z * a.w, a.x * b.y, -(a.y * b.x), c.x);
    Distributes(a.x * b.w, b.x * a.w, a.y * b.z, -(a.z * b.y), c.z);
    Distributes(b.w * c.w, -(b.x * c.x), -(b.y * c.y), -(b.z * c.z), a.y);
    Distributes(b.y * c.w, c.y * b.w, b.z * c.x, -(b.x * c.z), a.w);
    Distributes(b.x * c.w, c.x * b.w, b.y * c.z, -(b.z * c.y), a.z);
    Distributes(b.z * c.w, c.z * b.w, b.x * c.y, -(b.y * c.x), a.x);
  }

  lemma AssociativeZ(a: Quaternion, b: Quaternion, c: Quaternion, ab: Quaternion, bc: Quaternion)
    requires ab == Multiply(a, b) && bc == Multiply(b, c)
    ensures ab.z * c.w + c.z * ab.w + (ab.x * c.y - ab.y * c.x) == a.z * bc.w + bc.z * a.w + (a.x * bc.y - a.y * bc.x)
  {
    Distributes(a.z * b.w, b.z * a.w, a.x * b.y, -(a.y * b.x), c.w);
    Distributes(a.w * b.w, -(a.x * b.x), -(a.y * b.y), -(a.z * b.z), c.z);
    Distributes(a.x * b.w, b.x * a.w, a.y * b.z, -(a.z * b.y), c.y);
    Distributes(a.y * b.w, b.y * a.w, a.z * b.x, -(a.x * b.z), c.x);
    Distributes(b.w * c.w, -(b.x * c.x), -(b.y * c.y), -(b.z * c.z), a.z);
    Distributes(b.z * c.w, c.z * b.w, b.x * c.y, -(b.y * c.x), a.w);
    Distributes(b.y * c.w, c.y * b.w, b.z * c.x, -(b.x * c.z), a.x);
    Distributes(b.x * c.w, c.x * b.w, b.y * c.z, -(b.z * c.y), a.y);
  }

  lemma AssociativeW(a: Quaternion, b: Quaternion, c: Quaternion, ab: Quaternion, bc: Quaternion)
    requires ab == Multiply(a, b) && bc == Multiply(b, c)
    ensures ab.w * c.w - (ab.x * c.x + ab.y * c.y + ab.z * c.z) == a.w * bc.w - (a.x * bc.x + a.y * bc.y + a.z * bc.z)
  {
    Distributes(a.w * b.w, -(a.x * b.x), -(a.y * b.y), -(a.z * b.z), c.w);
    Distributes(a.x * b.w, b.x * a.w, a.y * b.z, -(a.z * b.y), c.x);
    Distributes(a.y * b.w, b.y * a.w, a.z * b.x, -(a.x * b.z), c.y);
    Distributes(a.z * b.w, b.z * a.w, a.x * b.y, -(a.y * b.x), c.z);
    Distributes(b.w * c.w, -(b.x * c.x), -(b.y * c.y), -(b.z * c.z), a.w);
    Distributes(b.x * c.w, c.x * b.w, b.y * c.z, -(b.z * c.y), a.x);
    Distributes(b.y * c.w, c.y * b.w, b.z * c.x, -(b.x * c.z), a.y);
    Distributes(b.z * c.w, c.z * b.w, b.x * c.y, -(b.y * c.x), a.z);
  }

  /** (p + q + r + s) * t distributes over the four terms. */
  lemma Distributes(p: real, q: real, r: real, s: real, t: real)
    ensures (p + q + r + s) * t == p * t + q * t + r * t + s * t
  {
  }

  /**
   * For a unit quaternion the full inverse and the conjugate coincide, so
   * a conjugate would give the same relative rotation for a normalised
   * reference; for any other reference they differ by the factor 1 / |r|^2.
   */
  lemma InverseOfUnitIsConjugate(r: Quaternion)
    requires LengthSquared(r) == 1.0
    ensures Inverse(r) == Conjugate(r)
  {
  }
}
