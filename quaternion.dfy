/**
 * Vectors and quaternions over exact reals, standing for GLM's vec3 and quat
 * (and Bullet's btVector3) as the retargeting and physics code use them.
 * Single-precision rounding is not modelled: every operation is the exact
 * real-number operation the float code approximates.
 */
module Quaternions {

  /** A 3-vector. */
  datatype Vec3 = Vec3(x: real, y: real, z: real)

  const Origin: Vec3 := Vec3(0.0, 0.0, 0.0)
  const XAxis: Vec3 := Vec3(1.0, 0.0, 0.0)
  const YAxis: Vec3 := Vec3(0.0, 1.0, 0.0)
  const ZAxis: Vec3 := Vec3(0.0, 0.0, 1.0)

  /** The quaternion w + x·i + y·j + z·k. */
  datatype Quat = Quat(w: real, x: real, y: real, z: real)

  const Identity: Quat := Quat(1.0, 0.0, 0.0, 0.0)
  const Zero: Quat := Quat(0.0, 0.0, 0.0, 0.0)

  /** The Hamilton product p·q (GLM's quat * quat). */
  function Mul(p: Quat, q: Quat): Quat {
    Quat(p.w * q.w - p.x * q.x - p.y * q.y - p.z * q.z,
         p.w * q.x + p.x * q.w + p.y * q.z - p.z * q.y,
         p.w * q.y - p.x * q.z + p.y * q.w + p.z * q.x,
         p.w * q.z + p.x * q.y - p.y * q.x + p.z * q.w)
  }

  function Conjugate(q: Quat): Quat {
    Quat(q.w, -q.x, -q.y, -q.z)
  }

  /** The squared norm, GLM's dot(q, q). */
  function Norm2(q: Quat): real {
    q.w * q.w + q.x * q.x + q.y * q.y + q.z * q.z
  }

  /** The identity is a two-sided unit of the product. */
  lemma MulIdentity(q: Quat)
    ensures Mul(Identity, q) == q && Mul(q, Identity) == q
  {
  }

  /** The Hamilton product is associative. */
  lemma MulAssociative(p: Quat, q: Quat, r: Quat)
    ensures Mul(Mul(p, q), r) == Mul(p, Mul(q, r))
  {
    MulAssociativeW(p, q, r);
    MulAssociativeX(p, q, r);
    MulAssociativeY(p, q, r);
    MulAssociativeZ(p, q, r);
  }

  // Associativity is proved one component at a time. Each component of a
  // triple product is a signed sum of 16 monomials; the Distribute lemmas
  // multiply one component of an inner product out into such monomials,
  // written with Mono so that both sides end up as the same linear
  // combination of the same terms.

  /** The monomial a·b·c. */
  function Mono(a: real, b: real, c: real): real { a * b * c }
  lemma DistributeW(t: real, a0: real, a1: real, b0: real, b1: real, c0: real, c1: real, d0: real, d1: real, s: real)
    requires t == a0 * a1 - b0 * b1 - c0 * c1 - d0 * d1
    ensures t * s == Mono(a0, a1, s) - Mono(b0, b1, s) - Mono(c0, c1, s) - Mono(d0, d1, s)
    ensures s * t == Mono(s, a0, a1) - Mono(s, b0, b1) - Mono(s, c0, c1) - Mono(s, d0, d1)
  {
  }

  lemma DistributeX(t: real, a0: real, a1: real, b0: real, b1: real, c0: real, c1: real, d0: real, d1: real, s: real)
    requires t == a0 * a1 + b0 * b1 + c0 * c1 - d0 * d1
    ensures t * s == Mono(a0, a1, s) + Mono(b0, b1, s) + Mono(c0, c1, s) - Mono(d0, d1, s)
    ensures s * t == Mono(s, a0, a1) + Mono(s, b0, b1) + Mono(s, c0, c1) - Mono(s, d0, d1)
  {
  }

  lemma DistributeY(t: real, a0: real, a1: real, b0: real, b1: real, c0: real, c1: real, d0: real, d1: real, s: real)
    requires t == a0 * a1 - b0 * b1 + c0 * c1 + d0 * d1
    ensures t * s == Mono(a0, a1, s) - Mono(b0, b1, s) + Mono(c0, c1, s) + Mono(d0, d1, s)
    ensures s * t == Mono(s, a0, a1) - Mono(s, b0, b1) + Mono(s, c0, c1) + Mono(s, d0, d1)
  {
  }

  lemma DistributeZ(t: real, a0: real, a1: real, b0: real, b1: real, c0: real, c1: real, d0: real, d1: real, s: real)
    requires t == a0 * a1 + b0 * b1 - c0 * c1 + d0 * d1
    ensures t * s == Mono(a0, a1, s) + Mono(b0, b1, s) - Mono(c0, c1, s) + Mono(d0, d1, s)
    ensures s * t == Mono(s, a0, a1) + Mono(s, b0, b1) - Mono(s, c0, c1) + Mono(s, d0, d1)
  {
  }
  lemma MulAssociativeW(p: Quat, q: Quat, r: Quat)
    ensures Mul(Mul(p, q), r).w == Mul(p, Mul(q, r)).w
  {
    var pq, qr := Mul(p, q), Mul(q, r);
    DistributeW(pq.w, p.w, q.w, p.x, q.x, p.y, q.y, p.z, q.z, r.w);
    DistributeX(pq.x, p.w, q.x, p.x, q.w, p.y, q.z, p.z, q.y, r.x);
    DistributeY(pq.y, p.w, q.y, p.x, q.z, p.y, q.w, p.z, q.x, r.y);
    DistributeZ(pq.z, p.w, q.z, p.x, q.y, p.y, q.x, p.z, q.w, r.z);
    DistributeW(qr.w, q.w, r.w, q.x, r.x, q.y, r.y, q.z, r.z, p.w);
    DistributeX(qr.x, q.w, r.x, q.x, r.w, q.y, r.z, q.z, r.y, p.x);
    DistributeY(qr.y, q.w, r.y, q.x, r.z, q.y, r.w, q.z, r.x, p.y);
    DistributeZ(qr.z, q.w, r.z, q.x, r.y, q.y, r.x, q.z, r.w, p.z);
  }

  lemma MulAssociativeX(p: Quat, q: Quat, r: Quat)
    ensures Mul(Mul(p, q), r).x == Mul(p, Mul(q, r)).x
  {
    var pq, qr := Mul(p, q), Mul(q, r);
    DistributeW(pq.w, p.w, q.w, p.x, q.x, p.y, q.y, p.z, q.z, r.x);
    DistributeX(pq.x, p.w, q.x, p.x, q.w, p.y, q.z, p.z, q.y, r.w);
    DistributeY(pq.y, p.w, q.y, p.x, q.z, p.y, q.w, p.z, q.x, r.z);
    DistributeZ(pq.z, p.w, q.z, p.x, q.y, p.y, q.x, p.z, q.w, r.y);
    DistributeX(qr.x, q.w, r.x, q.x, r.w, q.y, r.z, q.z, r.y, p.w);
    DistributeW(qr.w, q.w, r.w, q.x, r.x, q.y, r.y, q.z, r.z, p.x);
    DistributeZ(qr.z, q.w, r.z, q.x, r.y, q.y, r.x, q.z, r.w, p.y);
    DistributeY(qr.y, q.w, r.y, q.x, r.z, q.y, r.w, q.z, r.x, p.z);
  }

  lemma MulAssociativeY(p: Quat, q: Quat, r: Quat)
    ensures Mul(Mul(p, q), r).y == Mul(p, Mul(q, r)).y
  {
    var pq, qr := Mul(p, q), Mul(q, r);
    DistributeW(pq.w, p.w, q.w, p.x, q.x, p.y, q.y, p.z, q.z, r.y);
    DistributeX(pq.x, p.w, q.x, p.x, q.w, p.y, q.z, p.z, q.y, r.z);
    DistributeY(pq.y, p.w, q.y, p.x, q.z, p.y, q.w, p.z, q.x, r.w);
    DistributeZ(pq.z, p.w, q.z, p.x, q.y, p.y, q.x, p.z, q.w, r.x);
    DistributeY(qr.y, q.w, r.y, q.x, r.z, q.y, r.w, q.z, r.x, p.w);
    DistributeZ(qr.z, q.w, r.z, q.x, r.y, q.y, r.x, q.z, r.w, p.x);
    DistributeW(qr.w, q.w, r.w, q.x, r.x, q.y, r.y, q.z, r.z, p.y);
    DistributeX(qr.x, q.w, r.x, q.x, r.w, q.y, r.z, q.z, r.y, p.z);
  }

  lemma MulAssociativeZ(p: Quat, q: Quat, r: Quat)
    ensures Mul(Mul(p, q), r).z == Mul(p, Mul(q, r)).z
  {
    var pq, qr := Mul(p, q), Mul(q, r);
    DistributeW(pq.w, p.w, q.w, p.x, q.x, p.y, q.y, p.z, q.z, r.z);
    DistributeX(pq.x, p.w, q.x, p.x, q.w, p.y, q.z, p.z, q.y, r.y);
    DistributeY(pq.y, p.w, q.y, p.x, q.z, p.y, q.w, p.z, q.x, r.x);
    DistributeZ(pq.z, p.w, q.z, p.x, q.y, p.y, q.x, p.z, q.w, r.w);
    DistributeZ(qr.z, q.w, r.z, q.x, r.y, q.y, r.x, q.z, r.w, p.w);
    DistributeY(qr.y, q.w, r.y, q.x, r.z, q.y, r.w, q.z, r.x, p.x);
    DistributeX(qr.x, q.w, r.x, q.x, r.w, q.y, r.z, q.z, r.y, p.y);
    DistributeW(qr.w, q.w, r.w, q.x, r.x, q.y, r.y, q.z, r.z, p.z);
  }

  /**
   * GLM's inverse: the conjugate divided by the squared norm. The zero
   * quaternion has no inverse; there the model returns the zero quaternion
   * itself.
   */
  function Inverse(q: Quat): (r: Quat)
    ensures Norm2(q) != 0.0 ==> Mul(q, r) == Identity && Mul(r, q) == Identity
    ensures Norm2(q) != 0.0 ==> Norm2(r) * Norm2(q) == 1.0 && Norm2(r) != 0.0
    ensures Norm2(q) == 0.0 ==> r == Zero
  {
    var n := Norm2(q);
    if n == 0.0 then Zero
    else
      var k := 1.0 / n;
      InverseProducts(q.w, q.x, q.y, q.z, k);
      InverseNorm(q.w, q.x, q.y, q.z, k);
      Quat(q.w * k, -q.x * k, -q.y * k, -q.z * k)
  }

  // The eight products q·q⁻¹ and q⁻¹·q, written out on plain reals.
  lemma InverseProducts(w: real, x: real, y: real, z: real, k: real)
    requires k * (w * w + x * x + y * y + z * z) == 1.0
    ensures w * (w * k) - x * (-x * k) - y * (-y * k) - z * (-z * k) == 1.0
    ensures w * (-x * k) + x * (w * k) + y * (-z * k) - z * (-y * k) == 0.0
    ensures w * (-y * k) - x * (-z * k) + y * (w * k) + z * (-x * k) == 0.0
    ensures w * (-z * k) + x * (-y * k) - y * (-x * k) + z * (w * k) == 0.0
    ensures (w * k) * w - (-x * k) * x - (-y * k) * y - (-z * k) * z == 1.0
    ensures (w * k) * x + (-x * k) * w + (-y * k) * z - (-z * k) * y == 0.0
    ensures (w * k) * y - (-x * k) * z + (-y * k) * w + (-z * k) * x == 0.0
    ensures (w * k) * z + (-x * k) * y - (-y * k) * x + (-z * k) * w == 0.0
  {
  }

  // The squared norm of the inverse, written out on plain reals.
  lemma InverseNorm(w: real, x: real, y: real, z: real, k: real)
    requires k * (w * w + x * x + y * y + z * z) == 1.0
    ensures (w * k) * (w * k) + (-x * k) * (-x * k) + (-y * k) * (-y * k) + (-z * k) * (-z * k) != 0.0
    ensures ((w * k) * (w * k) + (-x * k) * (-x * k) + (-y * k) * (-y * k) + (-z * k) * (-z * k))
            * (w * w + x * x + y * y + z * z) == 1.0
  {
    assert (w * k) * (w * k) + (-x * k) * (-x * k) + (-y * k) * (-y * k) + (-z * k) * (-z * k)
        == k * (k * (w * w + x * x + y * y + z * z));
  }

  /** A right inverse is the inverse: q·r = 1 forces r = q⁻¹. */
  lemma InverseUnique(q: Quat, r: Quat)
    requires Norm2(q) != 0.0
    requires Mul(q, r) == Identity
    ensures r == Inverse(q)
  {
    calc {
      r;
      { MulIdentity(r); }
      Mul(Identity, r);
      Mul(Mul(Inverse(q), q), r);
      { MulAssociative(Inverse(q), q, r); }
      Mul(Inverse(q), Mul(q, r));
      Mul(Inverse(q), Identity);
      { MulIdentity(Inverse(q)); }
      Inverse(q);
    }
  }

  /** Inverting twice gives back the quaternion. */
  lemma InverseInvolution(q: Quat)
    requires Norm2(q) != 0.0
    ensures Inverse(Inverse(q)) == q
  {
    InverseUnique(Inverse(q), q);
  }

  /** A unit quaternion's inverse is its conjugate. */
  lemma UnitInverse(q: Quat)
    requires Norm2(q) == 1.0
    ensures Inverse(q) == Conjugate(q)
  {
  }

  /**
   * GLM's angleAxis(180 degrees, axis): the half angle is 90 degrees, so the
   * real part is cos 90° = 0 and the vector part is sin 90° · axis = axis.
   */
  function HalfTurn(axis: Vec3): (r: Quat)
    ensures Norm2(r) == axis.x * axis.x + axis.y * axis.y + axis.z * axis.z
    ensures Mul(r, r) == Quat(-Norm2(r), 0.0, 0.0, 0.0)
  {
    Quat(0.0, axis.x, axis.y, axis.z)
  }
}
