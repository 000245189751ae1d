/**
 `Math.exp` and `Math.sqrt` as the game uses them. Neither can be computed
 exactly over the reals, so the model takes them as a pair of functions
 supplied by the caller, and every proof assumes only the laws in `Lawful`.
 */
module RealMath {
  import opened Vectors

  /** `expNeg(k)` stands for `Math.exp(-k)`; `sqrt` for `Math.sqrt`. */
  datatype Oracle = Oracle(expNeg: real -> real, sqrt: real -> real)

  /** `Math.exp(-k)`, named so that the law about it applies only where a proof asks for it. */
  function Decay(m: Oracle, k: real): real {
    m.expNeg(k)
  }

  /** `Math.sqrt(x)`, named for the same reason. */
  function Root(m: Oracle, x: real): real {
    m.sqrt(x)
  }

  /** The only facts about exp and sqrt the model relies on. */
  ghost predicate Lawful(m: Oracle) {
    && (forall k {:trigger Decay(m, k)} :: 0.0 <= k ==> 0.0 < Decay(m, k) <= 1.0)
    && (forall x {:trigger Root(m, x)} :: 0.0 <= x ==> 0.0 <= Root(m, x) && Sq(Root(m, x)) == x)
  }

  /** `v.length()`. */
  function Length(m: Oracle, v: Vec3): real {
    m.sqrt(LenSq(v))
  }

  /** For a non-negative exponent, `Math.exp(-k)` lies in (0, 1]. */
  lemma DecayBounds(m: Oracle, k: real)
    requires Lawful(m)
    requires 0.0 <= k
    ensures 0.0 < m.expNeg(k) <= 1.0
  {
    assert 0.0 < Decay(m, k) <= 1.0;
  }

  /** The length is the non-negative square root of the squared length. */
  lemma LengthSquares(m: Oracle, v: Vec3)
    requires Lawful(m)
    ensures 0.0 <= Length(m, v)
    ensures Sq(Length(m, v)) == LenSq(v)
  {
    assert 0.0 <= Root(m, LenSq(v)) && Sq(Root(m, LenSq(v))) == LenSq(v);
  }

  /** Comparing a length with a non-negative bound is comparing squares. */
  lemma LengthBelow(m: Oracle, v: Vec3, bound: real)
    requires Lawful(m)
    requires 0.0 <= bound
    ensures Length(m, v) < bound <==> LenSq(v) < Sq(bound)
  {
    var s := Length(m, v);
    LengthSquares(m, v);
    if s < bound {
      SqStrict(s, bound);
    } else {
      SqMono(bound, s);
    }
  }

  /** The same with the comparison the other way round. */
  lemma LengthAbove(m: Oracle, v: Vec3, bound: real)
    requires Lawful(m)
    requires 0.0 <= bound
    ensures Length(m, v) > bound <==> LenSq(v) > Sq(bound)
  {
    var s := Length(m, v);
    LengthSquares(m, v);
    if s > bound {
      SqStrict(bound, s);
    } else {
      SqMono(s, bound);
    }
  }

  /** A non-negative real whose square is one is one. */
  lemma UnitRoot(s: real)
    requires 0.0 <= s && Sq(s) == 1.0
    ensures s == 1.0
  {
    if s < 1.0 {
      SqStrict(s, 1.0);
    } else if s > 1.0 {
      SqStrict(1.0, s);
    }
  }

  /** The factor `normalize` multiplies by: one over the length, or 1 when the length is 0. */
  function InverseLength(m: Oracle, v: Vec3): real {
    var len := Length(m, v);
    1.0 / (if len == 0.0 then 1.0 else len)
  }

  /** `v.normalize()`. */
  function Normalize(m: Oracle, v: Vec3): Vec3 {
    Scale(v, InverseLength(m, v))
  }

  /** `v.setLength(target)`, which three.js defines as normalise, then scale. */
  function SetLength(m: Oracle, v: Vec3, target: real): Vec3 {
    Scale(Normalize(m, v), target)
  }

  /** Normalising a non-zero vector scales it by a positive factor to unit length. */
  lemma NormalizeUnit(m: Oracle, v: Vec3)
    requires Lawful(m)
    requires v != Zero
    ensures InverseLength(m, v) > 0.0
    ensures LenSq(Normalize(m, v)) == 1.0
  {
    var s := Length(m, v);
    LengthSquares(m, v);
    SqZero(s);
    var c := 1.0 / s;
    assert c * s == 1.0;
    LenSqScale(v, c);
    SqProduct(c, s);
    assert Sq(1.0) == 1.0;
  }

  /** A vector of unit length is left unchanged by `normalize`. */
  lemma NormalizeUnitVector(m: Oracle, v: Vec3)
    requires Lawful(m)
    requires LenSq(v) == 1.0
    ensures Normalize(m, v) == v
  {
    LengthSquares(m, v);
    UnitRoot(Length(m, v));
  }

  /**
   `setLength(target)` on a non-zero vector gives squared length
   `target * target`; for a positive target it keeps the direction, being a
   positive multiple of the vector.
   */
  lemma SetLengthExact(m: Oracle, v: Vec3, target: real)
    requires Lawful(m)
    requires v != Zero
    ensures LenSq(SetLength(m, v, target)) == Sq(target)
    ensures 0.0 < target ==> exists c :: 0.0 < c && SetLength(m, v, target) == Scale(v, c)
  {
    var n := Normalize(m, v);
    NormalizeUnit(m, v);
    LenSqScale(n, target);
    var c := InverseLength(m, v) * target;
    ScaleTwice(v, InverseLength(m, v), target);
    assert SetLength(m, v, target) == Scale(v, c);
    if 0.0 < target {
      assert 0.0 < c;
    }
  }
}
