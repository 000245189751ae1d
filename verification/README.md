# Mini-golf simulation core, modelled in Dafny

This project models the per-frame simulation of a small three.js mini-golf
demo (`game.js`). A white ball is steered with the arrow keys or WASD across
a flat green towards a hole. The model leaves out everything visual and
keeps the state machine over `{keys, won, position, velocity}`:

- **Input mapping** (`Controls`): the held keys become a ground-plane
  direction. Each axis gets -1, 0 or +1, with opposing keys cancelling, and
  a non-zero result is normalised to unit length.
- **Key codes** (`Keys`): an `event.code` string is one of the nine codes
  the game names (WASD, the four arrows, Space) or some other code.
  `Keys.Parse` and `Keys.Code` translate between strings and the `Key`
  datatype in both directions.
- **Key events** (`Game.KeyDown`, `Game.KeyUp`): a key event carries the
  browser's code string, and `Game.Step` parses it into a `Key`. A press
  adds that key to the held set and a release removes it. A Space press
  while the game is won resets the ball.
- **Frame** (`Game.Tick`): the clock delta is capped at 0.033 s by
  `Game.StepSize`, and the input direction is read from the held keys.
- **Playing frame** (`Game.Roll`, `Game.PlayingStep`): the frame accelerates at 18 along the direction, caps the
  speed at 11, applies drag `exp(-2.8 dt)` and integrates the position. It
  clamps x and z into [-37.5, 37.5] and runs the win test: distance to the
  hole under 0.95 × 0.77 and speed under 3.4. A win keeps a fifth of the
  velocity.
- **Won frame** (`Game.SettleStep`): the velocity is multiplied by 0.88 and
  the ball moves 6% of the way to the point (14, 0.1375, -8) above the hole.

Everything is over exact `real`s. `Math.exp` and `Math.sqrt` cannot be
computed exactly, so they come as a pair of functions (`RealMath.Oracle`).
Proofs assume only the laws in `RealMath.Lawful`:
- `0 < exp(-k) <= 1` for `k >= 0`;
- `sqrt(x) >= 0` and `sqrt(x)² = x` for `x >= 0`.

Comparisons of lengths are proved equal to comparisons of squared lengths.
The two laws are stated over `RealMath.Decay` and `RealMath.Root`, thin
names for the oracle's functions, so that the solver uses them only where a
proof names one of those terms.

The clock delta is an input to each frame. Key presses, key releases and
frames are the three kinds of `Game.Event`. `Game.Run` applies a sequence of
them in order; it is the generic `Game.Replay` over `Game.Transition`. The
invariant proof for whole runs is the generic induction
`GameProofs.ReplayKeeps` applied to the one-event lemma.

Modules: `Vectors` (the `Vector3` operations used), `RealMath` (exp/sqrt,
`length`, `normalize`, `setLength`), `Keys` (key codes), `Controls`
(`inputDirection`), `Game`
(state, handlers, `animate`), `GameProofs` (invariants and transitions).

Squares are written `Sq(a) = a * Same(a)`, where `Same` is the identity. The
solver's arithmetic is unreliable on a literal `a * a`. This does not change
the meaning.

## Model

| member | source | states |
|---|---|---|
| Controls.RawDirection | game.js:105-111 | Each ground component is -1, 0 or 1 and y is 0. x is -1 exactly when A/Left is held and D/Right is not, and +1 exactly in the opposite case. z follows the same rule for W/Up against S/Down. Opposing keys therefore cancel. |
| Controls.DirectionSigns | game.js:105-117 | After normalisation the direction still has y = 0. Each ground component is negative, positive or zero exactly as its pair of opposing keys calls for. |
| Controls.DirectionUnit | game.js:113-115 | The direction is the zero vector exactly when both pairs of opposing keys cancel. Otherwise its squared length is 1. |
| Controls.DirectionAxisAligned | game.js:113-115 | With at most one axis pressed, normalising leaves the raw ±1 direction unchanged. |
| Controls.DirectionDiagonal | game.js:113-115 | On a diagonal, each ground component has square 1/2. |
| Controls.RawIgnoresOtherKeys | game.js:105-111 | Adding or removing a key outside the eight movement keys leaves the raw direction unchanged. `Direction` is `Steer` applied to the raw direction, so it depends on nothing else. |
| Keys.Parse | game.js:94-111 | A code maps to `Other` exactly when it is none of the nine codes the game names. |
| Keys.CodeOfParse | game.js:93-103 | Parsing a code and writing it back gives the same code, and the parsed key is canonical. |
| Keys.ParseOfCode | game.js:93-103 | A canonical key, written as a code and parsed, gives the same key. |
| Keys.ParseInjective | game.js:93-103 | Two codes give the same key exactly when they are the same code. Held keys only ever come from `Parse` (`GameProofs.RunKeepsCanonical`), so the set of held keys mirrors the set of held codes. |
| RealMath.SetLengthExact | game.js:137-139 | `setLength(t)` on a non-zero vector yields squared length t². For t > 0 the result is a positive multiple of the vector, so the direction is kept. |
| RealMath.LengthBelow | game.js:156 | `length() < b` holds exactly when the squared length is below b², for b >= 0. |
| Game.StepSize | game.js:131 | The step is at most 0.033. It equals the delta when the delta is at most 0.033, and 0.033 otherwise. |
| Game.Clamp | game.js:145-146 | The clamped value lies in [lo, hi]. It equals the input when the input is already there, and the nearer end otherwise. |
| Game.Contain | game.js:145-146 | The contained position is in bounds with its height unchanged. A position already in bounds is returned as is. |
| GameProofs.CapSpeedBound | game.js:137-139 | After the cap, the squared speed is at most 121 and never larger than before. A velocity already within the cap is unchanged. The result is always the velocity times a factor in (0, 1], so the direction is kept. |
| GameProofs.CapSpeedAbove | game.js:137-139 | A velocity over the cap comes out with squared speed exactly 121, as the velocity times a factor in (0, 1). |
| GameProofs.DampNoFaster | game.js:141-142 | For dt >= 0, the drag factor lies in (0, 1] and the damped velocity is no longer than before. |
| GameProofs.RollSpeedCapped | game.js:135-143 | After the motion part of a playing frame, the squared speed is at most 121, whatever the direction. |
| GameProofs.Coasting | game.js:134-161 | A playing step along the zero direction does not increase the squared speed. |
| GameProofs.RollFlat | game.js:135-143 | Along a direction with no vertical part, a velocity with none keeps none through a playing frame, and the ball's height is unchanged. |
| GameProofs.CapturedBySquares | game.js:155-156 | The win test holds exactly when the squared 3-D distance to the hole is below 0.53509225 and the squared speed is below 11.56. |
| GameProofs.CaptureNeedsGroundCloseness | game.js:155-156 | With the ball at height 0.55, a win needs squared ground distance to the hole below 0.23259225 (about 0.482). |
| GameProofs.SettleStepSpec | game.js:162-165 | A won frame keeps the ball in bounds and its height in [0.1375, 0.55]. The offset to the rest point becomes 0.94 times the old offset, and the speed does not grow. |
| GameProofs.SettleApproaches | game.js:163 | Each won frame multiplies the squared distance to the rest point by 0.8836. |
| GameProofs.InitialInv | game.js:73-91 | The page-load state satisfies the invariant. |
| GameProofs.PlayingKeepsInv | game.js:134-147 | The motion part of a playing frame keeps the invariant. |
| GameProofs.CaptureKeepsInv | game.js:156-158 | Turning `won` on and scaling the velocity by 0.2 keeps the invariant. |
| GameProofs.TickKeepsInv | game.js:130-165 | Every frame with a non-negative delta keeps the invariant: position in bounds, squared speed at most 121, vertical velocity 0, height 0.55 while playing and in [0.1375, 0.55] once won. |
| GameProofs.ResetInv | game.js:120-126 | The state after a reset satisfies the invariant. |
| GameProofs.KeyDownKeepsInv | game.js:93-99 | A key press keeps the invariant, including the reset it may trigger. |
| GameProofs.StepKeepsInv | game.js:93-165 | Every event keeps the invariant, given a clock that does not run backwards. |
| GameProofs.RunKeepsInv | game.js:93-180 | Any sequence of key events and frames keeps the invariant. |
| GameProofs.TickPlaying | game.js:130-134 | While playing, a frame with delta >= 0 is a playing step along the input direction, with step size in [0, 0.033]. |
| GameProofs.PlayingStepNoFaster | game.js:155-161 | The win branch never makes the velocity longer than the motion left it. |
| GameProofs.WinOnlyByCapture | game.js:134-161 | From a playing state, `won` becomes true exactly on a frame whose motion ends captured. The win notice is shown exactly then. |
| GameProofs.WinSoftStop | game.js:155-158 | On a playing step that wins, the ball stays where the motion left it and keeps a fifth of its velocity. Its squared speed is then below 0.4624. |
| GameProofs.WonFrameSettles | game.js:162-165 | A won frame runs no win test. The game stays won and the frame is the settle step. |
| GameProofs.ResetOnlyBySpace | game.js:93-126 | From a won state, `won` becomes false exactly on a press with code "Space". That press sets position (-14, 0.55, 11), velocity 0, held keys plus Space, and shows the reset notice. |
| GameProofs.SpaceWhilePlaying | game.js:93-99 | While playing, a Space press only adds `Space` to the held set. |
| GameProofs.KeyRoundTrip | game.js:93-103 | Pressing and then releasing a key that was not held (without a reset) restores the original state. |
| GameProofs.KeysOnlyChangeKeySet | game.js:93-103 | Apart from the Space reset, a press adds exactly its key and a release removes exactly its key. Neither touches the ball or `won`. |
| GameProofs.CodeEvents | game.js:93-103 | Apart from the Space reset, a press event adds the key its code names and a release event removes it. Nothing else changes and no notice is shown. |
| GameProofs.StepKeepsCanonical | game.js:93-103 | No event puts a key into the held set that `Parse` could not have produced. |
| GameProofs.RunKeepsCanonical | game.js:93-103 | From held keys that `Parse` could have produced, such as none, any sequence of events keeps it so. |
| Game.Initial | game.js:73-91 | The page-load state: nothing held, playing, at rest at (-14, 0.55, 11). `GameProofs.InitialInv` shows it satisfies the invariant. |
| Game.Reset | game.js:120-126 | `resetBall`. `GameProofs.ResetInv` and `GameProofs.ResetOnlyBySpace` characterise it. |
| Game.KeyDown | game.js:93-99 | The keydown handler. Characterised by `GameProofs.KeysOnlyChangeKeySet`, `GameProofs.SpaceWhilePlaying`, `GameProofs.ResetOnlyBySpace` and `GameProofs.KeyDownKeepsInv`. |
| Game.KeyUp | game.js:101-103 | The keyup handler. Characterised by `GameProofs.KeysOnlyChangeKeySet` and `GameProofs.KeyRoundTrip`. |
| Game.Step | game.js:93-103 | Dispatches one event: key events are parsed from their code, frames go to `Game.Tick`. `GameProofs.StepKeepsInv` and `GameProofs.CodeEvents` characterise it. |
| Game.Tick | game.js:130-134 | One call of `animate`. Characterised by `GameProofs.TickPlaying`, `GameProofs.WonFrameSettles` and `GameProofs.TickKeepsInv`. |
| Game.Roll | game.js:135-147 | Accelerate, cap, drag, move and clamp. Characterised by `GameProofs.RollSpeedCapped`, `GameProofs.RollFlat` and `GameProofs.PlayingKeepsInv`. |
| Game.CapSpeed | game.js:137-139 | The speed cap. Characterised by `GameProofs.CapSpeedBound` and `GameProofs.CapSpeedAbove`. |
| Game.Damp | game.js:141-142 | The drag. Characterised by `GameProofs.DampNoFaster`. |
| Game.Captured | game.js:155-156 | The win test. Characterised by `GameProofs.CapturedBySquares`. |
| Game.PlayingStep | game.js:134-161 | The `!won` branch. Characterised by `GameProofs.WinOnlyByCapture`, `GameProofs.WinSoftStop` and `GameProofs.PlayingStepNoFaster`. |
| Game.SettleStep | game.js:162-165 | The `won` branch. Characterised by `GameProofs.SettleStepSpec` and `GameProofs.SettleApproaches`. |
| Controls.Steer | game.js:113-115 | Normalise a non-zero direction, keep a zero one. Characterised by `Controls.DirectionUnit` and `Controls.DirectionAxisAligned`. |
| Controls.Direction | game.js:105-117 | `inputDirection`. Characterised by `Controls.DirectionSigns`, `Controls.DirectionUnit`, `Controls.DirectionDiagonal` and `Controls.RawIgnoresOtherKeys`. |
| RealMath.Length | game.js:137 | `length()`. Characterised by `RealMath.LengthBelow`. |
| RealMath.Normalize | game.js:114 | `normalize()`. Characterised by `RealMath.NormalizeUnit`. |
| RealMath.SetLength | game.js:138 | `setLength()`. Characterised by `RealMath.SetLengthExact`. |

## Left out

- Scene construction (renderer, lights, ground, hole, rim, flag and ball meshes, lines 1-82) is static setup through a foreign library.
- Rendering, `requestAnimationFrame` scheduling, the resize handler and `THREE.Clock` are host plumbing. The clock delta is a parameter of each frame. The invariant lemmas require it to be non-negative, as a real clock guarantees.
- The roll rotation, the shadow disc, the camera follow and the flag animation are visual only and never feed back into the state.
- The status label's text and CSS class are reduced to a `Notice` tag: `ShowWin` or `ShowReset`.
- `Math.exp` and `Math.sqrt` are supplied functions constrained only by `Lawful`. IEEE-754 rounding, NaN and infinities are not modelled; arithmetic is exact over reals.
- `setLength` is modelled as three.js defines it: normalise, dividing by `length() || 1`, then scale. Over exact reals its result has the requested length.
- Held keys are the `Key` datatype rather than raw strings. Events carry the raw code string and `Game.Step` parses it. `Other` stands for every code the game does not name, and `Keys.ParseInjective` shows that no information is lost.
- The won-state factors 0.88 and 0.06 are applied per frame, as the code does, rather than scaled by dt.
- While playing, the ball's centre sits 0.55 above the hole's centre, so its 3-D distance to the hole is never below 0.55. A capture therefore needs a ground distance under about 0.482 (`GameProofs.CaptureNeedsGroundCloseness`).
- GameProofs.Coasting: states only that one playing step with no push does not increase the squared speed. It states neither a strict decrease nor convergence to 0 over repeated frames. The law `exp(-k) <= 1` cannot give either, and a frame with delta 0 does not slow the ball. The case of held keys that cancel reaches this lemma through `Controls.DirectionIdle` and `GameProofs.TickPlaying` rather than by a lemma of its own.
- A reachability lemma from the literal page-load state is not stated separately. `GameProofs.InitialInv` together with `GameProofs.RunKeepsInv` gives it.
