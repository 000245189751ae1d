/**
 The slice of a three.js `Vector3` the game's simulation uses, over exact
 reals: component-wise sums and scalings, squared length, and `lerp`.
 */
module Vectors {

  datatype Vec3 = Vec3(x: real, y: real, z: real)

  const Zero: Vec3 := Vec3(0.0, 0.0, 0.0)

  /** `a.add(b)`; `a.addScaledVector(b, k)` is `Add(a, Scale(b, k))`. */
  function Add(a: Vec3, b: Vec3): Vec3 {
    Vec3(a.x + b.x, a.y + b.y, a.z + b.z)
  }

  /** `a.sub(b)`, the vector from `b` to `a`. */
  function Sub(a: Vec3, b: Vec3): Vec3 {
    Vec3(a.x - b.x, a.y - b.y, a.z - b.z)
  }

  /** `v.multiplyScalar(k)`. */
  function Scale(v: Vec3, k: real): Vec3 {
    Vec3(v.x * k, v.y * k, v.z * k)
  }

  /** The identity on reals, used so that a square is a product of two terms. */
  function Same(a: real): (r: real)
    ensures r == a
  {
    a
  }

  /**
   The square of a real. It is written `a * Same(a)` rather than `a * a`
   because the solver's arithmetic treats a literal square unreliably.
   */
  function Sq(a: real): (r: real)
    ensures r >= 0.0
  {
    a * Same(a)
  }

  /** Only zero squares to zero. */
  lemma SqZero(a: real)
    ensures Sq(a) == 0.0 <==> a == 0.0
  {
    assert Sq(0.0) == 0.0;
    if a > 0.0 {
      SqStrict(0.0, a);
    } else if a < 0.0 {
      SqStrict(0.0, -a);
      assert Sq(-a) == Sq(a);
    }
  }

  /** Squaring is strictly increasing on the non-negative reals. */
  lemma SqStrict(a: real, b: real)
    requires 0.0 <= a < b
    ensures Sq(a) < Sq(b)
  {
    var d := b - a;
    assert Sq(b) == Sq(a) + d * (a + a + d);
    assert d * (a + a + d) > 0.0;
  }

  /** Squaring is increasing on the non-negative reals. */
  lemma SqMono(a: real, b: real)
    requires 0.0 <= a <= b
    ensures Sq(a) <= Sq(b)
  {
  }

  /** The square of a product is the product of the squares. */
  lemma SqProduct(a: real, b: real)
    ensures Sq(a * b) == Sq(a) * Sq(b)
  {
  }

  /** Multiplying a non-negative real by a factor in [0, 1] does not increase it. */
  lemma AtMostOneTimes(k: real, l: real)
    requires 0.0 <= k <= 1.0 && 0.0 <= l
    ensures k * l <= l
  {
    assert k * l <= 1.0 * l;
  }

  /** `v.lengthSq()`. */
  function LenSq(v: Vec3): (r: real)
    ensures r >= 0.0
    ensures r == 0.0 <==> v == Zero
  {
    Sq(v.x) + Sq(v.y) + Sq(v.z)
  }

  /** One component of `lerp`: move `a` the fraction `t` of the way to `b`. */
  function Mix(a: real, b: real, t: real): real {
    a + (b - a) * t
  }

  /** `a.lerp(b, t)`, component by component. */
  function Lerp(a: Vec3, b: Vec3, t: real): Vec3 {
    Vec3(Mix(a.x, b.x, t), Mix(a.y, b.y, t), Mix(a.z, b.z, t))
  }

  /** Scaling a vector by `k` scales its squared length by the square of `k`. */
  lemma LenSqScale(v: Vec3, k: real)
    ensures LenSq(Scale(v, k)) == Sq(k) * LenSq(v)
  {
    SqProduct(v.x, k);
    SqProduct(v.y, k);
    SqProduct(v.z, k);
  }

  /** Scaling a real by a factor in [0, 1] does not increase its square. */
  lemma SqShrink(a: real, k: real)
    requires 0.0 <= k <= 1.0
    ensures Sq(a * k) <= Sq(a)
  {
    var b := if a < 0.0 then -a else a;
    AtMostOneTimes(k, b);
    assert 0.0 <= k * b;
    SqMono(k * b, b);
    assert Sq(a * k) == Sq(k * b);
    assert Sq(a) == Sq(b);
  }

  /** Scaling twice is scaling once by the product of the factors. */
  lemma ScaleTwice(v: Vec3, a: real, b: real)
    ensures Scale(Scale(v, a), b) == Scale(v, a * b)
  {
    assert v.x * a * b == v.x * (a * b);
    assert v.y * a * b == v.y * (a * b);
    assert v.z * a * b == v.z * (a * b);
  }

  /** Scaling by a factor in [0, 1] never lengthens a vector. */
  lemma ShrinkNoLonger(v: Vec3, k: real)
    requires 0.0 <= k <= 1.0
    ensures LenSq(Scale(v, k)) <= LenSq(v)
  {
    SqShrink(v.x, k);
    SqShrink(v.y, k);
    SqShrink(v.z, k);
    NoLongerByComponents(Scale(v, k), v);
  }

  /** A vector whose every component has no larger square is no longer. */
  lemma NoLongerByComponents(w: Vec3, v: Vec3)
    requires Sq(w.x) <= Sq(v.x) && Sq(w.y) <= Sq(v.y) && Sq(w.z) <= Sq(v.z)
    ensures LenSq(w) <= LenSq(v)
  {
  }

  /**
   For a fraction `t` in [0, 1], a step of `lerp` is a convex combination:
   it stays between its end points, so an interval holding both holds it.
   */
  lemma MixBetween(a: real, b: real, t: real, lo: real, hi: real)
    requires 0.0 <= t <= 1.0
    requires lo <= a <= hi && lo <= b <= hi
    ensures lo <= Mix(a, b, t) <= hi
  {
    assert Mix(a, b, t) == (1.0 - t) * a + t * b;
    assert (1.0 - t) * lo <= (1.0 - t) * a <= (1.0 - t) * hi;
    assert t * lo <= t * b <= t * hi;
  }

  /** A positive factor keeps the sign of every component. */
  lemma ScalePositiveSigns(v: Vec3, c: real)
    requires c > 0.0
    ensures Scale(v, c).x < 0.0 <==> v.x < 0.0
    ensures Scale(v, c).x > 0.0 <==> v.x > 0.0
    ensures Scale(v, c).y == 0.0 <==> v.y == 0.0
    ensures Scale(v, c).z < 0.0 <==> v.z < 0.0
    ensures Scale(v, c).z > 0.0 <==> v.z > 0.0
  {
    SignOfProduct(v.x, c);
    SignOfProduct(v.y, c);
    SignOfProduct(v.z, c);
  }

  /** Multiplying by a positive factor keeps the sign of a real. */
  lemma SignOfProduct(a: real, c: real)
    requires c > 0.0
    ensures a * c < 0.0 <==> a < 0.0
    ensures a * c > 0.0 <==> a > 0.0
  {
    if a < 0.0 {
      assert a * c < 0.0 * c;
    } else if a > 0.0 {
      assert a * c > 0.0 * c;
    }
  }

  /** After a step of `lerp` the remaining offset to `b` is the old one times `1 - t`. */
  lemma LerpRemaining(a: Vec3, b: Vec3, t: real)
    ensures Sub(Lerp(a, b, t), b) == Scale(Sub(a, b), 1.0 - t)
  {
  }

  /** A flat vector with components in {-1, 0, 1} has as squared length the count of its non-zero components. */
  lemma AxisLenSq(v: Vec3)
    requires v.y == 0.0 && v.x in {-1.0, 0.0, 1.0} && v.z in {-1.0, 0.0, 1.0}
    ensures LenSq(v) == (if v.x == 0.0 then 0.0 else 1.0) + (if v.z == 0.0 then 0.0 else 1.0)
  {
    assert Sq(0.0) == 0.0 && Sq(1.0) == 1.0 && Sq(-1.0) == 1.0;
  }
}
