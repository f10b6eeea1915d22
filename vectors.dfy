/** Three-component vectors: Babylon's Vector3.One and Vector3.Lerp, and the
    WGSL componentwise product of two vec3<f32> values. Components are reals;
    neither the f64 arithmetic of Lerp nor f32 rounding is modelled. */
module Vectors {

  datatype Vec3 = Vec3(x: real, y: real, z: real) {

    /** Component k, with 0, 1, 2 standing for x, y, z. */
    function At(k: nat): real
      requires k < 3
    {
      if k == 0 then x else if k == 1 then y else z
    }

    /** Componentwise product, as WGSL's `vec3<f32> * vec3<f32>`. */
    function Mul(o: Vec3): Vec3 {
      Vec3(x * o.x, y * o.y, z * o.z)
    }
  }

  /** Vector3.One(): the scale that changes nothing, that is, the unit of the
      componentwise product. */
  function One(): (r: Vec3)
    ensures forall v: Vec3 :: v.Mul(r) == v && r.Mul(v) == v
  {
    Vec3(1.0, 1.0, 1.0)
  }

  function LerpReal(a: real, b: real, t: real): real {
    a + (b - a) * t
  }

  /** Vector3.Lerp(start, end, amount), componentwise start + (end - start) * amount. */
  function Lerp(a: Vec3, b: Vec3, t: real): (r: Vec3)
    ensures t == 0.0 ==> r == a
    ensures t == 1.0 ==> r == b
    ensures a == b ==> r == a
  {
    Vec3(LerpReal(a.x, b.x, t), LerpReal(a.y, b.y, t), LerpReal(a.z, b.z, t))
  }

  /** For an amount in [0, 1] each interpolated component lies between the
      corresponding components of the two end points. */
  lemma LerpRealBetween(a: real, b: real, t: real)
    requires 0.0 <= t <= 1.0
    ensures a <= b ==> a <= LerpReal(a, b, t) <= b
    ensures b <= a ==> b <= LerpReal(a, b, t) <= a
  {
    var d := b - a;
    assert d * t + d * (1.0 - t) == d;
    if a <= b {
      assert 0.0 <= d * t by { NonNegativeProduct(d, t); }
      assert 0.0 <= d * (1.0 - t) by { NonNegativeProduct(d, 1.0 - t); }
    } else {
      assert 0.0 <= (-d) * t by { NonNegativeProduct(-d, t); }
      assert 0.0 <= (-d) * (1.0 - t) by { NonNegativeProduct(-d, 1.0 - t); }
    }
  }

  lemma NonNegativeProduct(p: real, q: real)
    requires 0.0 <= p && 0.0 <= q
    ensures 0.0 <= p * q
  {
  }

  lemma LerpBetween(a: Vec3, b: Vec3, t: real)
    requires 0.0 <= t <= 1.0
    ensures forall k :: 0 <= k < 3 ==>
      (a.At(k) <= b.At(k) ==> a.At(k) <= Lerp(a, b, t).At(k) <= b.At(k)) &&
      (b.At(k) <= a.At(k) ==> b.At(k) <= Lerp(a, b, t).At(k) <= a.At(k))
  {
    LerpRealBetween(a.x, b.x, t);
    LerpRealBetween(a.y, b.y, t);
    LerpRealBetween(a.z, b.z, t);
  }
}
