/**
 Properties of the game's state machine: the speed cap, the course bounds,
 the flat vertical motion, and the only ways `won` can change.
 */
module GameProofs {
  import opened Vectors
  import opened RealMath
  import opened Keys
  import opened Controls
  import opened Game

  /** Squares of the constants the properties are stated with. */
  lemma Squares()
    ensures Sq(MaxSpeed) == 121.0
    ensures Sq(CaptureSpeed) == 11.56
    ensures Sq(CaptureDistance) == 0.53509225
    ensures Sq(BallRadius) == 0.3025
    ensures Sq(CaptureDamping) == 0.04
    ensures Sq(1.0 - SettlePull) == 0.8836
  {
  }

  // ----- Speed -----

  /**
   Over the cap, `setLength` brings the squared speed down to exactly 121
   and keeps the direction: the result is the velocity shrunk by a factor
   in (0, 1).
   */
  lemma CapSpeedAbove(m: Oracle, v: Vec3)
    requires Lawful(m)
    requires LenSq(v) > Sq(MaxSpeed)
    ensures LenSq(CapSpeed(m, v)) == Sq(MaxSpeed)
    ensures exists c :: 0.0 < c < 1.0 && CapSpeed(m, v) == Scale(v, c)
  {
    LengthAbove(m, v, MaxSpeed);
    SqZero(0.0);
    assert v != Zero by { assert LenSq(Zero) == 0.0; }
    SetLengthExact(m, v, MaxSpeed);
    var len := Length(m, v);
    var c := InverseLength(m, v) * MaxSpeed;
    ScaleTwice(v, InverseLength(m, v), MaxSpeed);
    assert CapSpeed(m, v) == Scale(v, c);
    assert c * len == MaxSpeed;
    assert (1.0 - c) * len == len - MaxSpeed;
    SignOfProduct(1.0 - c, len);
  }

  /** At or under the cap, the velocity is left alone. */
  lemma CapSpeedBelow(m: Oracle, v: Vec3)
    requires Lawful(m)
    requires LenSq(v) <= Sq(MaxSpeed)
    ensures CapSpeed(m, v) == v
  {
    LengthAbove(m, v, MaxSpeed);
  }

  /**
   After the cap the squared speed is at most 121, it is never larger than
   before, a velocity already within the cap is unchanged, and the direction
   is always kept.
   */
  lemma CapSpeedBound(m: Oracle, v: Vec3)
    requires Lawful(m)
    ensures LenSq(CapSpeed(m, v)) <= Sq(MaxSpeed)
    ensures LenSq(CapSpeed(m, v)) <= LenSq(v)
    ensures LenSq(v) <= Sq(MaxSpeed) ==> CapSpeed(m, v) == v
    ensures exists c :: 0.0 < c <= 1.0 && CapSpeed(m, v) == Scale(v, c)
  {
    if LenSq(v) > Sq(MaxSpeed) {
      CapSpeedAbove(m, v);
    } else {
      CapSpeedBelow(m, v);
      assert CapSpeed(m, v) == Scale(v, 1.0);
    }
  }

  /** For a non-negative step the drag factor lies in (0, 1], so drag never speeds the ball up. */
  lemma DampNoFaster(m: Oracle, v: Vec3, dt: real)
    requires Lawful(m)
    requires dt >= 0.0
    ensures 0.0 < m.expNeg(Drag * dt) <= 1.0
    ensures LenSq(Damp(m, v, dt)) <= LenSq(v)
  {
    DecayBounds(m, Drag * dt);
    ShrinkNoLonger(v, m.expNeg(Drag * dt));
  }

  /** After the motion part of a playing frame the squared speed is at most 121, whatever the direction. */
  lemma RollSpeedCapped(m: Oracle, s: State, dir: Vec3, dt: real)
    requires Lawful(m)
    requires dt >= 0.0
    ensures LenSq(Roll(m, s, dir, dt).vel) <= Sq(MaxSpeed)
  {
    var a := Accelerate(s.vel, dir, dt);
    CapSpeedBound(m, a);
    DampNoFaster(m, CapSpeed(m, a), dt);
  }

  /** The velocity after the motion part is no longer than the accelerated one. */
  lemma RollVelocityBound(m: Oracle, s: State, dir: Vec3, dt: real)
    requires Lawful(m)
    requires dt >= 0.0
    ensures LenSq(Roll(m, s, dir, dt).vel) <= LenSq(Accelerate(s.vel, dir, dt))
  {
    var a := Accelerate(s.vel, dir, dt);
    CapSpeedBound(m, a);
    DampNoFaster(m, CapSpeed(m, a), dt);
  }

  /** Accelerating along the zero direction leaves the velocity as it was. */
  lemma NoPushNoChange(v: Vec3, dt: real)
    ensures Accelerate(v, Zero, dt) == v
  {
  }

  /** The playing step's velocity is no longer than the one its motion part produced. */
  lemma PlayingStepNoFaster(m: Oracle, s: State, dir: Vec3, dt: real)
    ensures LenSq(PlayingStep(m, s, dir, dt).next.vel) <= LenSq(Roll(m, s, dir, dt).vel)
  {
    ShrinkNoLonger(Roll(m, s, dir, dt).vel, CaptureDamping);
  }

  /** A playing step along the zero direction does not speed the ball up. */
  lemma Coasting(m: Oracle, s: State, dt: real)
    requires Lawful(m)
    requires dt >= 0.0
    ensures LenSq(PlayingStep(m, s, Zero, dt).next.vel) <= LenSq(s.vel)
  {
    NoPushNoChange(s.vel, dt);
    RollVelocityBound(m, s, Zero, dt);
    PlayingStepNoFaster(m, s, Zero, dt);
  }

  /** While playing, a frame is a playing step along the input direction, of a size in [0, 0.033]. */
  lemma TickPlaying(m: Oracle, s: State, delta: real)
    requires !s.won
    requires delta >= 0.0
    ensures 0.0 <= StepSize(delta) <= MaxStep
    ensures Tick(m, s, delta) == PlayingStep(m, s, Direction(m, s.keys), StepSize(delta))
  {
  }

  // ----- Vertical motion -----

  /** Along a flat direction, a velocity with no vertical part keeps none, and the height stays. */
  lemma RollFlat(m: Oracle, s: State, dir: Vec3, dt: real)
    requires s.vel.y == 0.0 && dir.y == 0.0
    ensures Roll(m, s, dir, dt).vel.y == 0.0
    ensures Roll(m, s, dir, dt).pos.y == s.pos.y
  {
    var a := Accelerate(s.vel, dir, dt);
    assert a.y == 0.0;
    assert CapSpeed(m, a).y == 0.0;
  }

  // ----- Winning -----

  /** The win test compared by squares: squared distance under 0.53509225 and squared speed under 11.56. */
  lemma CapturedBySquares(m: Oracle, s: State)
    requires Lawful(m)
    ensures Captured(m, s) <==>
      LenSq(Sub(s.pos, HolePosition)) < Sq(CaptureDistance) && LenSq(s.vel) < Sq(CaptureSpeed)
  {
    LengthBelow(m, Sub(s.pos, HolePosition), CaptureDistance);
    LengthBelow(m, s.vel, CaptureSpeed);
  }

  /**
   The win test measures in three dimensions from the hole at ground level,
   so with the ball resting on the ground its centre's 0.55 height uses up
   most of the 0.7315 radius: the ground distance must be under about 0.48.
   */
  lemma CaptureNeedsGroundCloseness(m: Oracle, s: State)
    requires Lawful(m)
    requires s.pos.y == BallRadius
    requires Captured(m, s)
    ensures Sq(s.pos.x - HolePosition.x) + Sq(s.pos.z - HolePosition.z) < 0.23259225
  {
    CapturedBySquares(m, s);
    Squares();
  }

  // ----- Bounds -----

  /**
   A won frame is a convex combination of the ball's position and the rest
   point, so it stays in bounds and between the rest height and the ground;
   the offset to the rest point shrinks by the factor 0.94 and the speed
   does not grow.
   */
  lemma SettleStepSpec(s: State)
    requires InBounds(s.pos)
    requires RestPoint.y <= s.pos.y <= BallRadius
    ensures InBounds(SettleStep(s).pos)
    ensures RestPoint.y <= SettleStep(s).pos.y <= BallRadius
    ensures Sub(SettleStep(s).pos, RestPoint) == Scale(Sub(s.pos, RestPoint), 1.0 - SettlePull)
    ensures LenSq(SettleStep(s).vel) <= LenSq(s.vel)
  {
    MixBetween(s.pos.x, RestPoint.x, SettlePull, -Bound, Bound);
    MixBetween(s.pos.z, RestPoint.z, SettlePull, -Bound, Bound);
    MixBetween(s.pos.y, RestPoint.y, SettlePull, RestPoint.y, BallRadius);
    LerpRemaining(s.pos, RestPoint, SettlePull);
    ShrinkNoLonger(s.vel, SettleDamping);
  }

  /** Each won frame brings the squared distance to the rest point down to 0.8836 of what it was. */
  lemma SettleApproaches(s: State)
    ensures LenSq(Sub(SettleStep(s).pos, RestPoint)) == 0.8836 * LenSq(Sub(s.pos, RestPoint))
  {
    LerpRemaining(s.pos, RestPoint, SettlePull);
    LenSqScale(Sub(s.pos, RestPoint), 1.0 - SettlePull);
    Squares();
  }

  // ----- The invariant -----

  lemma InitialInv()
    ensures Inv(Initial())
  {
  }

  /** A playing frame that does not win keeps the invariant. */
  lemma PlayingKeepsInv(m: Oracle, s: State, dir: Vec3, dt: real)
    requires Lawful(m)
    requires dt >= 0.0
    requires dir.y == 0.0
    requires Inv(s) && !s.won
    ensures Inv(Roll(m, s, dir, dt))
  {
    RollSpeedCapped(m, s, dir, dt);
    RollFlat(m, s, dir, dt);
  }

  /** The capture that ends a playing frame keeps the invariant. */
  lemma CaptureKeepsInv(t: State)
    requires Inv(t) && !t.won
    ensures Inv(t.(won := true, vel := Scale(t.vel, CaptureDamping)))
  {
    ShrinkNoLonger(t.vel, CaptureDamping);
  }

  lemma TickKeepsInv(m: Oracle, s: State, delta: real)
    requires Lawful(m)
    requires delta >= 0.0
    requires Inv(s)
    ensures Inv(Tick(m, s, delta).next)
  {
    if s.won {
      SettleStepSpec(s);
    } else {
      var dt, dir := StepSize(delta), Direction(m, s.keys);
      DirectionSigns(m, s.keys);
      PlayingKeepsInv(m, s, dir, dt);
      CaptureKeepsInv(Roll(m, s, dir, dt));
    }
  }

  lemma KeyDownKeepsInv(s: State, key: Key)
    requires Inv(s)
    ensures Inv(KeyDown(s, key).next)
  {
    if s.won && key == Space {
      ResetInv(s.(keys := s.keys + {key}));
    }
  }

  /** The reset state satisfies the invariant, whatever it is reset from. */
  lemma ResetInv(s: State)
    ensures Inv(Reset(s))
  {
  }

  /** Every event keeps the invariant, given a clock that does not run backwards. */
  lemma StepKeepsInv(m: Oracle, s: State, e: Event)
    requires Lawful(m)
    requires ClockForward(e)
    requires Inv(s)
    ensures Inv(Step(m, s, e).next)
  {
    match e
    case Press(code) => KeyDownKeepsInv(s, Parse(code));
    case Release(code) =>
    case Frame(delta) => TickKeepsInv(m, s, delta);
  }

  /** Any sequence of events keeps the invariant. */
  lemma RunKeepsInv(m: Oracle, s: State, events: seq<Event>)
    requires Lawful(m)
    requires forall i :: 0 <= i < |events| ==> ClockForward(events[i])
    requires Inv(s)
    ensures Inv(Run(m, s, events))
  {
    var step := Transition(m);
    forall t: State, e: Event | Inv(t) && ClockForward(e)
      ensures Inv(step(t, e))
    {
      StepKeepsInv(m, t, e);
    }
    ReplayKeeps(step, Inv, ClockForward, s, events);
  }

  /**
   A property that every step keeps from a state that has it, under events
   that satisfy `ok`, holds after any replay of such events.
   */
  lemma {:induction false} ReplayKeeps<S, E>(step: (S, E) -> S, P: S -> bool, ok: E -> bool, s: S, events: seq<E>)
    requires forall t, e :: P(t) && ok(e) ==> P(step(t, e))
    requires forall i :: 0 <= i < |events| ==> ok(events[i])
    requires P(s)
    ensures P(Replay(step, s, events))
    decreases |events|
  {
    if |events| > 0 {
      ReplayKeeps(step, P, ok, step(s, events[0]), events[1..]);
    }
  }

  // ----- Transitions of `won` -----

  /**
   While playing, `won` becomes true exactly on a frame whose motion ends
   captured; that is also exactly when the win notice is shown.
   */
  lemma WinOnlyByCapture(m: Oracle, s: State, e: Event)
    requires !s.won
    ensures Step(m, s, e).next.won <==> e.Frame? && Captured(m, Roll(m, s, Direction(m, s.keys), StepSize(e.delta)))
    ensures Step(m, s, e).notice == ShowWin <==> Step(m, s, e).next.won
  {
  }

  /**
   On the winning frame the ball stays where the motion left it and keeps a
   fifth of its velocity, so its squared speed is under 0.4624.
   */
  lemma WinSoftStop(m: Oracle, s: State, dir: Vec3, dt: real)
    requires Lawful(m)
    requires !s.won
    requires PlayingStep(m, s, dir, dt).next.won
    ensures var t := Roll(m, s, dir, dt);
      PlayingStep(m, s, dir, dt).next == t.(won := true, vel := Scale(t.vel, CaptureDamping))
    ensures LenSq(PlayingStep(m, s, dir, dt).next.vel) < 0.4624
  {
    var t := Roll(m, s, dir, dt);
    CapturedBySquares(m, t);
    LenSqScale(t.vel, CaptureDamping);
    Squares();
  }

  /** A won frame runs no win test: the game stays won and just settles. */
  lemma WonFrameSettles(m: Oracle, s: State, delta: real)
    requires s.won
    ensures Tick(m, s, delta) == Outcome(SettleStep(s), Quiet)
    ensures Tick(m, s, delta).next.won
  {
  }

  /**
   Once won, `won` becomes false exactly on a Space press; that press resets
   the ball to the start at rest, keeps the held keys plus Space, and shows
   the reset notice.
   */
  lemma ResetOnlyBySpace(m: Oracle, s: State, e: Event)
    requires s.won
    ensures !Step(m, s, e).next.won <==> e == Press("Space")
    ensures e == Press("Space") ==>
      Step(m, s, e) == Outcome(State(s.keys + {Space}, false, StartPosition, Zero), ShowReset)
    ensures Step(m, s, e).notice == ShowReset <==> e == Press("Space")
  {
  }

  /** While playing, Space is an ordinary key: it is only added to the held set. */
  lemma SpaceWhilePlaying(s: State)
    requires !s.won
    ensures KeyDown(s, Space) == Outcome(s.(keys := s.keys + {Space}), Quiet)
  {
  }

  // ----- Keys -----

  /** Pressing then releasing a key that was not held, without a reset, changes nothing. */
  lemma KeyRoundTrip(s: State, key: Key)
    requires key !in s.keys
    requires !(s.won && key == Space)
    ensures KeyUp(KeyDown(s, key).next, key) == s
  {
    assert s.keys + {key} - {key} == s.keys;
  }

  /** Press adds the key and release removes it, and neither touches the ball. */
  lemma KeysOnlyChangeKeySet(s: State, key: Key)
    requires !(s.won && key == Space)
    ensures KeyDown(s, key).next == s.(keys := s.keys + {key})
    ensures KeyUp(s, key) == s.(keys := s.keys - {key})
    ensures key in KeyDown(s, key).next.keys && key !in KeyUp(s, key).keys
  {
  }

  /**
   A key event records or forgets the key its code names; apart from the
   Space reset it changes nothing else and shows nothing.
   */
  lemma CodeEvents(m: Oracle, s: State, code: string)
    requires !(s.won && code == "Space")
    ensures Step(m, s, Press(code)) == Outcome(s.(keys := s.keys + {Parse(code)}), Quiet)
    ensures Step(m, s, Release(code)) == Outcome(s.(keys := s.keys - {Parse(code)}), Quiet)
  {
    CodeOfParse(code);
  }

  /** Every event keeps every held key canonical. */
  lemma StepKeepsCanonical(m: Oracle, s: State, e: Event)
    requires HeldCanonical(s)
    ensures HeldCanonical(Step(m, s, e).next)
  {
    match e
    case Press(code) => CodeOfParse(code);
    case Release(code) =>
    case Frame(delta) => assert Step(m, s, e).next.keys == s.keys;
  }

  /**
   Starting from held keys that are all canonical, such as none at all, the
   held keys stay canonical over any sequence of events. With
   `Keys.ParseInjective`, the held keys are then exactly the held codes.
   */
  lemma RunKeepsCanonical(m: Oracle, s: State, events: seq<Event>)
    requires HeldCanonical(s)
    ensures HeldCanonical(Run(m, s, events))
  {
    var step := Transition(m);
    var any := (e: Event) => true;
    forall t: State, e: Event | HeldCanonical(t) && any(e)
      ensures HeldCanonical(step(t, e))
    {
      StepKeepsCanonical(m, t, e);
    }
    ReplayKeeps(step, HeldCanonical, any, s, events);
  }
}
