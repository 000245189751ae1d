/**
 `inputDirection` of game.js: the set of held key codes becomes a direction
 on the ground plane. W or ArrowUp pushes towards -z, S or ArrowDown towards
 +z, A or ArrowLeft towards -x, D or ArrowRight towards +x; a non-zero sum is
 normalised to unit length.
 */
module Controls {
  import opened Vectors
  import opened RealMath
  import opened Keys

  predicate Forward(keys: set<Key>) { KeyW in keys || ArrowUp in keys }
  predicate Back(keys: set<Key>) { KeyS in keys || ArrowDown in keys }
  predicate Left(keys: set<Key>) { KeyA in keys || ArrowLeft in keys }
  predicate Right(keys: set<Key>) { KeyD in keys || ArrowRight in keys }

  /** Every key `inputDirection` looks at. */
  const MovementKeys: set<Key> :=
    {KeyW, ArrowUp, KeyS, ArrowDown, KeyA, ArrowLeft, KeyD, ArrowRight}

  /**
   The direction before normalisation, built by the four conditional
   increments in their source order. Each ground component is -1, 0 or 1:
   it is non-zero exactly when one of its two opposing keys is held and the
   other is not, so opposing keys cancel.
   */
  function RawDirection(keys: set<Key>): (d: Vec3)
    ensures d.y == 0.0
    ensures d.x in {-1.0, 0.0, 1.0} && d.z in {-1.0, 0.0, 1.0}
    ensures d.x == -1.0 <==> Left(keys) && !Right(keys)
    ensures d.x == 1.0 <==> Right(keys) && !Left(keys)
    ensures d.z == -1.0 <==> Forward(keys) && !Back(keys)
    ensures d.z == 1.0 <==> Back(keys) && !Forward(keys)
  {
    var z1 := if Forward(keys) then 0.0 - 1.0 else 0.0;
    var z2 := if Back(keys) then z1 + 1.0 else z1;
    var x1 := if Left(keys) then 0.0 - 1.0 else 0.0;
    var x2 := if Right(keys) then x1 + 1.0 else x1;
    Vec3(x2, 0.0, z2)
  }

  /** The last step of `inputDirection`: normalise a non-zero direction, keep a zero one. */
  function Steer(m: Oracle, raw: Vec3): Vec3 {
    if LenSq(raw) > 0.0 then Normalize(m, raw) else raw
  }

  /** `inputDirection()`. */
  function Direction(m: Oracle, keys: set<Key>): Vec3 {
    Steer(m, RawDirection(keys))
  }

  /** The raw direction is zero exactly when both pairs of opposing keys cancel. */
  lemma RawZero(keys: set<Key>)
    ensures RawDirection(keys) == Zero <==> Left(keys) == Right(keys) && Forward(keys) == Back(keys)
  {
  }

  /** With no net key pressed, the direction is the zero vector. */
  lemma DirectionStill(m: Oracle, keys: set<Key>)
    requires RawDirection(keys) == Zero
    ensures Direction(m, keys) == Zero
  {
  }

  /** When both pairs of opposing keys cancel, the direction is the zero vector. */
  lemma DirectionIdle(m: Oracle, keys: set<Key>)
    requires Left(keys) == Right(keys) && Forward(keys) == Back(keys)
    ensures Direction(m, keys) == Zero
  {
    RawZero(keys);
    DirectionStill(m, keys);
  }

  /** With a net key pressed, the direction is the raw direction times a positive factor. */
  lemma DirectionKeepsSigns(m: Oracle, keys: set<Key>)
    requires Lawful(m)
    requires RawDirection(keys) != Zero
    ensures var d, raw := Direction(m, keys), RawDirection(keys);
      && (d.x < 0.0 <==> raw.x < 0.0) && (d.x > 0.0 <==> raw.x > 0.0)
      && (d.y == 0.0 <==> raw.y == 0.0)
      && (d.z < 0.0 <==> raw.z < 0.0) && (d.z > 0.0 <==> raw.z > 0.0)
  {
    var raw := RawDirection(keys);
    NormalizeUnit(m, raw);
    ScalePositiveSigns(raw, InverseLength(m, raw));
  }

  /**
   The direction is zero exactly when both pairs of opposing keys cancel,
   and of unit length otherwise.
   */
  lemma DirectionUnit(m: Oracle, keys: set<Key>)
    requires Lawful(m)
    ensures var d := Direction(m, keys);
      && (d == Zero <==> Left(keys) == Right(keys) && Forward(keys) == Back(keys))
      && (d != Zero ==> LenSq(d) == 1.0)
  {
    RawZero(keys);
    if RawDirection(keys) != Zero {
      NormalizeUnit(m, RawDirection(keys));
    } else {
      DirectionStill(m, keys);
    }
  }

  /**
   The direction's vertical part is zero, and each ground component has the
   sign its keys call for: negative or positive when exactly one of the two
   opposing keys is held, zero when they cancel.
   */
  lemma DirectionSigns(m: Oracle, keys: set<Key>)
    requires Lawful(m)
    ensures Direction(m, keys).y == 0.0
    ensures Direction(m, keys).x < 0.0 <==> Left(keys) && !Right(keys)
    ensures Direction(m, keys).x > 0.0 <==> Right(keys) && !Left(keys)
    ensures Direction(m, keys).z < 0.0 <==> Forward(keys) && !Back(keys)
    ensures Direction(m, keys).z > 0.0 <==> Back(keys) && !Forward(keys)
  {
    RawSigns(keys);
    if RawDirection(keys) != Zero {
      DirectionKeepsSigns(m, keys);
    } else {
      DirectionStill(m, keys);
    }
  }

  /** The raw direction's components have the signs the keys call for. */
  lemma RawSigns(keys: set<Key>)
    ensures RawDirection(keys).x < 0.0 <==> Left(keys) && !Right(keys)
    ensures RawDirection(keys).x > 0.0 <==> Right(keys) && !Left(keys)
    ensures RawDirection(keys).z < 0.0 <==> Forward(keys) && !Back(keys)
    ensures RawDirection(keys).z > 0.0 <==> Back(keys) && !Forward(keys)
  {
  }

  /** With at most one axis pressed, normalisation changes nothing. */
  lemma DirectionAxisAligned(m: Oracle, keys: set<Key>)
    requires Lawful(m)
    requires Left(keys) == Right(keys) || Forward(keys) == Back(keys)
    ensures Direction(m, keys) == RawDirection(keys)
  {
    SteerAxis(m, RawDirection(keys));
  }

  /** `Steer` leaves a flat ±1 vector along at most one axis unchanged. */
  lemma SteerAxis(m: Oracle, v: Vec3)
    requires Lawful(m)
    requires v.y == 0.0 && v.x in {-1.0, 0.0, 1.0} && v.z in {-1.0, 0.0, 1.0}
    requires v.x == 0.0 || v.z == 0.0
    ensures Steer(m, v) == v
  {
    AxisLenSq(v);
    if LenSq(v) > 0.0 {
      NormalizeUnitVector(m, v);
    }
  }

  /** On a diagonal each ground component has square one half. */
  lemma DirectionDiagonal(m: Oracle, keys: set<Key>)
    requires Lawful(m)
    requires Left(keys) != Right(keys) && Forward(keys) != Back(keys)
    ensures Sq(Direction(m, keys).x) == 0.5
    ensures Sq(Direction(m, keys).z) == 0.5
  {
    var raw := RawDirection(keys);
    assert Sq(1.0) == 1.0 && Sq(-1.0) == 1.0;
    assert raw != Zero;
    NormalizeDiagonal(m, raw);
  }

  /** Normalising a vector with unit ground components and no height halves their squares. */
  lemma NormalizeDiagonal(m: Oracle, v: Vec3)
    requires Lawful(m)
    requires v.y == 0.0 && Sq(v.x) == 1.0 && Sq(v.z) == 1.0
    ensures v != Zero
    ensures Sq(Normalize(m, v).x) == 0.5
    ensures Sq(Normalize(m, v).z) == 0.5
  {
    SqZero(v.x);
    NormalizeUnit(m, v);
    var c := InverseLength(m, v);
    var d := Normalize(m, v);
    SqProduct(v.x, c);
    SqProduct(v.z, c);
    assert Sq(d.y) == 0.0;
  }

  /**
   Keys other than the eight movement keys do not affect the raw direction,
   and so not the direction, which is `Steer` of it.
   */
  lemma RawIgnoresOtherKeys(keys: set<Key>, key: Key)
    requires key !in MovementKeys
    ensures RawDirection(keys + {key}) == RawDirection(keys)
    ensures RawDirection(keys - {key}) == RawDirection(keys)
  {
    assert Forward(keys + {key}) == Forward(keys) && Back(keys + {key}) == Back(keys);
    assert Left(keys + {key}) == Left(keys) && Right(keys + {key}) == Right(keys);
    assert Forward(keys - {key}) == Forward(keys) && Back(keys - {key}) == Back(keys);
    assert Left(keys - {key}) == Left(keys) && Right(keys - {key}) == Right(keys);
  }
}
