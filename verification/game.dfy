/**
 The per-frame simulation of game.js without rendering: the held-key set,
 the `won` flag, and the ball's position and velocity, changed by key
 presses, key releases and animation frames.
 */
module Game {
  import opened Vectors
  import opened RealMath
  import opened Keys
  import opened Controls

  const Acceleration: real := 18.0
  const Drag: real := 2.8
  const MaxSpeed: real := 11.0
  /** The longest step a frame may simulate, in seconds. */
  const MaxStep: real := 0.033
  /** Half the side of the square the ball's x and z are kept in. */
  const Bound: real := 37.5
  const BallRadius: real := 0.55
  const HoleRadius: real := 0.95
  const HolePosition: Vec3 := Vec3(14.0, 0.0, -8.0)
  /** The ball is captured within this distance of the hole's centre ... */
  const CaptureDistance: real := HoleRadius * 0.77
  /** ... and below this speed. */
  const CaptureSpeed: real := 3.4
  /** The factor the velocity keeps at the moment of capture. */
  const CaptureDamping: real := 0.2
  /** The per-frame velocity factor and pull towards the rest point once won. */
  const SettleDamping: real := 0.88
  const SettlePull: real := 0.06
  /** Where a won ball settles: above the hole, a quarter radius up. */
  const RestPoint: Vec3 := Vec3(HolePosition.x, BallRadius * 0.25, HolePosition.z)
  const StartPosition: Vec3 := Vec3(-14.0, BallRadius, 11.0)

  datatype State = State(keys: set<Key>, won: bool, pos: Vec3, vel: Vec3)

  /** What the status label is told to show, if anything. */
  datatype Notice = Quiet | ShowWin | ShowReset

  datatype Outcome = Outcome(next: State, notice: Notice)

  /** The state when the page loads: nothing held, playing, at rest on the start point. */
  function Initial(): State {
    State({}, false, StartPosition, Zero)
  }

  /** `resetBall`: playing again, at rest on the start point; held keys are kept. */
  function Reset(s: State): State {
    s.(won := false, vel := Zero, pos := StartPosition)
  }

  /** The keydown handler: record the key, and reset on Space while won. */
  function KeyDown(s: State, key: Key): Outcome {
    var held := s.(keys := s.keys + {key});
    if s.won && key == Space then Outcome(Reset(held), ShowReset)
    else Outcome(held, Quiet)
  }

  /** The keyup handler: forget the key. */
  function KeyUp(s: State, key: Key): State {
    s.(keys := s.keys - {key})
  }

  /** `Math.min(delta, 0.033)`: the clock delta, capped. */
  function StepSize(delta: real): (dt: real)
    ensures dt <= MaxStep
    ensures delta <= MaxStep ==> dt == delta
    ensures delta >= MaxStep ==> dt == MaxStep
  {
    if delta < MaxStep then delta else MaxStep
  }

  /** `THREE.MathUtils.clamp(v, lo, hi)`, that is `max(lo, min(hi, v))`. */
  function Clamp(v: real, lo: real, hi: real): (r: real)
    ensures lo <= hi ==> lo <= r <= hi
    ensures lo <= v <= hi ==> r == v
    ensures v < lo ==> r == lo
    ensures lo <= hi < v ==> r == hi
  {
    var below := if hi < v then hi else v;
    if lo > below then lo else below
  }

  /** Both ground coordinates lie in the course square. */
  predicate InBounds(p: Vec3) {
    -Bound <= p.x <= Bound && -Bound <= p.z <= Bound
  }

  /** Clamp the ground coordinates into the course square; height is untouched. */
  function Contain(p: Vec3): (r: Vec3)
    ensures InBounds(r)
    ensures r.y == p.y
    ensures InBounds(p) ==> r == p
  {
    Vec3(Clamp(p.x, -Bound, Bound), p.y, Clamp(p.z, -Bound, Bound))
  }

  /** `velocity.addScaledVector(direction, acceleration * dt)`. */
  function Accelerate(vel: Vec3, dir: Vec3, dt: real): Vec3 {
    Add(vel, Scale(dir, Acceleration * dt))
  }

  /** `if (velocity.length() > maxSpeed) velocity.setLength(maxSpeed)`. */
  function CapSpeed(m: Oracle, v: Vec3): Vec3 {
    if Length(m, v) > MaxSpeed then SetLength(m, v, MaxSpeed) else v
  }

  /** `velocity.multiplyScalar(Math.exp(-drag * dt))`. */
  function Damp(m: Oracle, v: Vec3, dt: real): Vec3 {
    Scale(v, m.expNeg(Drag * dt))
  }

  /**
   The motion part of a playing frame: accelerate along the input
   direction, cap the speed, apply drag, move, and clamp to the course.
   */
  function Roll(m: Oracle, s: State, dir: Vec3, dt: real): State {
    var vel := Damp(m, CapSpeed(m, Accelerate(s.vel, dir, dt)), dt);
    s.(vel := vel, pos := Contain(Add(s.pos, Scale(vel, dt))))
  }

  /** The win test: close enough to the hole's centre and slow enough. */
  predicate Captured(m: Oracle, s: State) {
    Length(m, Sub(s.pos, HolePosition)) < CaptureDistance && Length(m, s.vel) < CaptureSpeed
  }

  /** The `!won` branch of `animate`. */
  function PlayingStep(m: Oracle, s: State, dir: Vec3, dt: real): Outcome {
    var t := Roll(m, s, dir, dt);
    if Captured(m, t) then Outcome(t.(won := true, vel := Scale(t.vel, CaptureDamping)), ShowWin)
    else Outcome(t, Quiet)
  }

  /** The `won` branch of `animate`: ease towards the rest point and slow down. */
  function SettleStep(s: State): State {
    s.(pos := Lerp(s.pos, RestPoint, SettlePull), vel := Scale(s.vel, SettleDamping))
  }

  /** One call of `animate` given the clock delta since the previous one. */
  function Tick(m: Oracle, s: State, delta: real): Outcome {
    var dt := StepSize(delta);
    var dir := Direction(m, s.keys);
    if !s.won then PlayingStep(m, s, dir, dt) else Outcome(SettleStep(s), Quiet)
  }

  /**
   Everything that can happen to the game between two observations. Key
   events carry the `event.code` string the browser reports.
   */
  datatype Event = Press(code: string) | Release(code: string) | Frame(delta: real)

  /** The host's clock never runs backwards. */
  predicate ClockForward(e: Event) {
    e.Frame? ==> e.delta >= 0.0
  }

  function Step(m: Oracle, s: State, e: Event): Outcome {
    match e
    case Press(code) => KeyDown(s, Parse(code))
    case Release(code) => Outcome(KeyUp(s, Parse(code)), Quiet)
    case Frame(delta) => Tick(m, s, delta)
  }

  /** `Step` as a transition on states alone, dropping the notice. */
  function Transition(m: Oracle): (State, Event) -> State {
    (s: State, e: Event) => Step(m, s, e).next
  }

  /** The state after applying `step` to each event in order. */
  function Replay<S, E>(step: (S, E) -> S, s: S, events: seq<E>): S
    decreases |events|
  {
    if |events| == 0 then s else Replay(step, step(s, events[0]), events[1..])
  }

  /** The state after a sequence of events, in order. */
  function Run(m: Oracle, s: State, events: seq<Event>): State {
    Replay(Transition(m), s, events)
  }

  /**
   The ball is on the course and never moving vertically; while playing it
   sits on the ground, and once won it is between the rest point and the
   ground.
   */
  predicate OnCourse(s: State) {
    && InBounds(s.pos)
    && s.vel.y == 0.0
    && (if s.won then RestPoint.y <= s.pos.y <= BallRadius else s.pos.y == BallRadius)
  }

  /** The ball is no faster than the cap. */
  predicate WithinSpeedCap(s: State) {
    LenSq(s.vel) <= Sq(MaxSpeed)
  }

  /** Every held key is one `Parse` can produce, so held keys and held codes correspond one to one. */
  predicate HeldCanonical(s: State) {
    forall k :: k in s.keys ==> Canonical(k)
  }

  /** What holds of every reachable state. */
  predicate Inv(s: State) {
    OnCourse(s) && WithinSpeedCap(s)
  }
}
