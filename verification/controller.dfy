/** The per-frame controller of `MinimalGlobe` (app/ui/globe.tsx, the `useFrame` callback).

    One frame is a pure step from the controller state (the refs `yawRef`, `pitchRef`,
    `appearRef`, `pupilOffsetRef` and the group's scale) to the next one, given the value
    `clock.getDelta()` returns and the pointer in normalised device coordinates. The pointer conversion from
    client pixels, the `groupRef` guard and the THREE.Euler composition stay outside: the step
    receives the pointer already in device coordinates and returns the Euler angles as data. */
module Controller {
  import opened MathEnv
  import opened Vectors

  /** The props of `MinimalGlobe` that the controller reads. */
  datatype Config = Config(
    maxYawDeg: real,
    maxPitchDeg: real,
    rotationLerp: real,
    eyeIrisRadius: real,
    eyePupilRadius: real,
    pupilOffsetScale: real,
    pupilLerp: real,
    baseRollDeg: real)

  /** The defaults in the signature of `MinimalGlobe`. */
  const DefaultConfig: Config := Config(45.0, 30.0, 0.15, 0.24, 0.12, 0.75, 0.3, 8.0)

  /** The mutable part of the component: yaw and pitch in radians, the appear progress,
      the uniform scale of the group and the pupil offset inside the iris. */
  datatype State = State(yaw: real, pitch: real, appear: real, scale: real, pupil: Vec2)

  /** The refs at mount: all zero, and a group at its default unit scale. */
  const InitialState: State := State(0.0, 0.0, 0.0, 1.0, Vec2(0.0, 0.0))

  /** The inputs of one frame: the value `clock.getDelta()` returns (the time since the
      clock's previous `getDelta()` call, not necessarily the frame time) and the pointer in
      device coordinates. */
  datatype Frame = Frame(dt: real, px: real, py: real)

  /** The rotation handed to `setRotationFromEuler`, as Euler angles in the order 'YXZ'. */
  datatype Euler = Euler(x: real, y: real, z: real)

  /** Pointer coordinates are clamped to [-1.2, 1.2]. */
  const PointerLimit: real := 1.2

  /** The appear progress advances by 1.5 per second. */
  const AppearRate: real := 1.5

  /** The scale eases in from 0.9 to 1. */
  const StartScale: real := 0.9

  /** The pupil keeps 0.001 of clearance from the iris rim. */
  const PupilClearance: real := 0.001

  // ---------------------------------------------------------------------------
  // Rotation
  // ---------------------------------------------------------------------------

  /** `clamp(p, -1.2, 1.2)`: a pointer far outside the canvas behaves like one at its edge. */
  function ClampPointer(p: real): (r: real)
    ensures -PointerLimit <= r <= PointerLimit
    ensures -PointerLimit <= p <= PointerLimit ==> r == p
    ensures p > PointerLimit ==> r == PointerLimit
    ensures p < -PointerLimit ==> r == -PointerLimit
  {
    Clamp(p, -PointerLimit, PointerLimit)
  }

  /** `clamp(p, -1, 1) * degToRad(maxDeg)`: the pointer maps linearly onto the angle range,
      saturating at the canvas edge. */
  function TargetAngle(p: real, maxDeg: real): real
  {
    Clamp(p, -1.0, 1.0) * DegToRad(maxDeg)
  }

  /** `unwrap(target, current) = current + atan2(sin(target - current), cos(target - current))`. */
  function Unwrap(m: Env, target: real, current: real): real
  {
    current + m.atan2(m.sin(target - current), m.cos(target - current))
  }

  /** One smoothed angle: lerp from the current angle toward the unwrapped target. */
  function SmoothAngle(m: Env, current: real, target: real, rate: real): real
  {
    Lerp(current, Unwrap(m, target, current), rate)
  }

  /** The Euler angles of the group: `(-pitch, yaw, degToRad(baseRollDeg))`. */
  function Rotation(cfg: Config, s: State): Euler
  {
    Euler(-s.pitch, s.yaw, DegToRad(cfg.baseRollDeg))
  }

  // ---------------------------------------------------------------------------
  // Appear and scale
  // ---------------------------------------------------------------------------

  /** `appear = min(1, appear + dt * 1.5)`, only while `appear < 1`. */
  function Advance(appear: real, dt: real): real
  {
    if appear < 1.0 then Min(1.0, appear + dt * AppearRate) else appear
  }

  /** `easeOut = 1 - pow(1 - p, 3)`. */
  function EaseOut(m: Env, p: real): real
  {
    1.0 - m.pow(1.0 - p, 3.0)
  }

  /** `lerp(0.9, 1, easeOut)`. */
  function ScaleAt(m: Env, p: real): real
  {
    Lerp(StartScale, 1.0, EaseOut(m, p))
  }

  // ---------------------------------------------------------------------------
  // Pupil
  // ---------------------------------------------------------------------------

  /** The aim `(px, py)`, shrunk to unit length when it is longer than 1. */
  function PupilAim(m: Env, px: real, py: real): Vec2
  {
    var aim := Vec2(px, py);
    var len := m.sqrt(LengthSq2(aim));
    if len > 1.0 then Scale2(aim, 1.0 / len) else aim
  }

  /** `max(0, iris - pupil - 0.001) * pupilOffsetScale`: how far the pupil may move. */
  function PupilReach(cfg: Config): real
  {
    Max(0.0, cfg.eyeIrisRadius - cfg.eyePupilRadius - PupilClearance) * cfg.pupilOffsetScale
  }

  /** The offset the pupil is pulled toward this frame. */
  function PupilTarget(m: Env, cfg: Config, px: real, py: real): Vec2
  {
    Scale2(PupilAim(m, px, py), PupilReach(cfg))
  }

  // ---------------------------------------------------------------------------
  // The frame
  // ---------------------------------------------------------------------------

  /** One call of the `useFrame` callback. The scale is only written while the group is
      still appearing; afterwards it keeps the last value written. */
  function Step(m: Env, cfg: Config, s: State, f: Frame): State
  {
    var px := ClampPointer(f.px);
    var py := ClampPointer(f.py);
    var yaw := SmoothAngle(m, s.yaw, TargetAngle(px, cfg.maxYawDeg), cfg.rotationLerp);
    var pitch := SmoothAngle(m, s.pitch, TargetAngle(py, cfg.maxPitchDeg), cfg.rotationLerp);
    var appear := Advance(s.appear, f.dt);
    var scale := if s.appear < 1.0 then ScaleAt(m, appear) else s.scale;
    var pupil := Lerp2(s.pupil, PupilTarget(m, cfg, px, py), cfg.pupilLerp);
    State(yaw, pitch, appear, scale, pupil)
  }

  /** A run of frames, one `Step` per frame in order. */
  function Run(m: Env, cfg: Config, s: State, frames: seq<Frame>): State
    decreases |frames|
  {
    if |frames| == 0 then s else Run(m, cfg, Step(m, cfg, s, frames[0]), frames[1..])
  }

  // ---------------------------------------------------------------------------
  // Properties of the pieces
  // ---------------------------------------------------------------------------

  /** The product is passed in as `t` so that the caller's own term for it is the one the
      conclusion mentions. */
  lemma UnitTimesBound(c: real, k: real, t: real)
    requires -1.0 <= c <= 1.0 && k >= 0.0 && t == c * k
    ensures -k <= t <= k
  {
    MulNonneg(1.0 - c, k);
    MulNonneg(1.0 + c, k);
    assert (1.0 - c) * k == k - t;
    assert (1.0 + c) * k == k + t;
  }

  /** The target never exceeds the configured maximum angle in either direction. */
  lemma TargetBounded(p: real, maxDeg: real)
    requires maxDeg >= 0.0
    ensures -DegToRad(maxDeg) <= TargetAngle(p, maxDeg) <= DegToRad(maxDeg)
  {
    var c := Clamp(p, -1.0, 1.0);
    var k := DegToRad(maxDeg);
    assert k >= 0.0;
    UnitTimesBound(c, k, TargetAngle(p, maxDeg));
  }

  /** Beyond the canvas edge the target saturates at the maximum angle, with the pointer's
      sign; inside it is linear in the pointer. */
  lemma TargetSaturates(p: real, maxDeg: real)
    ensures p >= 1.0 ==> TargetAngle(p, maxDeg) == DegToRad(maxDeg)
    ensures p <= -1.0 ==> TargetAngle(p, maxDeg) == -DegToRad(maxDeg)
    ensures -1.0 <= p <= 1.0 ==> TargetAngle(p, maxDeg) == p * DegToRad(maxDeg)
  {
  }

  /** The map from pointer to target is odd: mirroring the pointer mirrors the angle. */
  lemma TargetOdd(p: real, maxDeg: real)
    ensures TargetAngle(-p, maxDeg) == -TargetAngle(p, maxDeg)
  {
    assert Clamp(-p, -1.0, 1.0) == -Clamp(p, -1.0, 1.0);
  }

  /** Unwrapping moves the target to within a half turn of the current angle. */
  lemma UnwrapWithinHalfTurn(m: Env, target: real, current: real)
    requires Atan2Range(m)
    ensures -Pi < Unwrap(m, target, current) - current <= Pi
  {
    var d := target - current;
    Atan2InRange(m, m.sin(d), m.cos(d));
  }

  lemma Atan2InRange(m: Env, y: real, x: real)
    requires Atan2Range(m)
    ensures -Pi < m.atan2(y, x) <= Pi
  {
  }

  /** When the target is already within a half turn of the current angle, unwrapping
      gives the target back. */
  lemma UnwrapExact(m: Env, target: real, current: real)
    requires Atan2Recovers(m)
    requires -Pi < target - current <= Pi
    ensures Unwrap(m, target, current) == target
  {
    var d := target - current;
    assert m.atan2(m.sin(d), m.cos(d)) == d;
  }

  /** Unwrapping takes the short way round: a target between a half and one and a half turns
      below the current angle comes back one full turn higher, and one between a half and one
      and a half turns above comes back one full turn lower. */
  lemma UnwrapAcrossBoundary(m: Env, target: real, current: real)
    requires Atan2Recovers(m) && Periodic(m)
    ensures -3.0 * Pi < target - current <= -Pi ==> Unwrap(m, target, current) == target + 2.0 * Pi
    ensures Pi < target - current <= 3.0 * Pi ==> Unwrap(m, target, current) == target - 2.0 * Pi
  {
    var d := target - current;
    if -3.0 * Pi < d <= -Pi {
      assert m.sin(PlusTurn(d)) == m.sin(d) && m.cos(PlusTurn(d)) == m.cos(d);
      assert m.atan2(m.sin(PlusTurn(d)), m.cos(PlusTurn(d))) == PlusTurn(d);
    } else if Pi < d <= 3.0 * Pi {
      var e := d - 2.0 * Pi;
      assert PlusTurn(e) == d;
      assert m.sin(PlusTurn(e)) == m.sin(e) && m.cos(PlusTurn(e)) == m.cos(e);
      assert m.atan2(m.sin(e), m.cos(e)) == e;
    }
  }

  /** Crossing the wrap boundary: from 170 degrees toward a target of -170 degrees the
      unwrapped target is 20 degrees ahead, not 340 degrees behind. */
  lemma UnwrapCrossingExample(m: Env)
    requires Atan2Recovers(m) && Periodic(m)
    ensures Unwrap(m, DegToRad(-170.0), DegToRad(170.0)) - DegToRad(170.0) == DegToRad(20.0)
  {
    UnwrapAcrossBoundary(m, DegToRad(-170.0), DegToRad(170.0));
  }

  /** With a rate in [0, 1] the smoothed angle lies between the current angle and the
      unwrapped target. */
  lemma SmoothBetween(m: Env, current: real, target: real, rate: real)
    requires 0.0 <= rate <= 1.0
    ensures Min(current, Unwrap(m, target, current)) <= SmoothAngle(m, current, target, rate)
                                                      <= Max(current, Unwrap(m, target, current))
  {
    LerpBetween(current, Unwrap(m, target, current), rate);
  }

  /** The appear progress never decreases for a nonnegative delta, never passes 1 once at
      or below it, and is frozen once it reaches 1. */
  lemma AdvanceProperties(appear: real, dt: real)
    ensures dt >= 0.0 ==> Advance(appear, dt) >= appear
    ensures appear <= 1.0 ==> Advance(appear, dt) <= 1.0
    ensures appear >= 1.0 ==> Advance(appear, dt) == appear
    ensures appear < 1.0 && appear + dt * AppearRate >= 1.0 ==> Advance(appear, dt) == 1.0
  {
  }

  /** With pow(x, 3) in [0, 1] on [0, 1], the scale stays in [0.9, 1]. */
  lemma ScaleInRange(m: Env, p: real)
    requires CubeUnit(m) && 0.0 <= p <= 1.0
    ensures StartScale <= ScaleAt(m, p) <= 1.0
  {
    assert 0.0 <= m.pow(1.0 - p, 3.0) <= 1.0;
    LerpBetween(StartScale, 1.0, EaseOut(m, p));
  }

  /** Fully appeared means full size: at progress 1 the scale is exactly 1. */
  lemma ScaleAtEnd(m: Env)
    requires PowLaws(m)
    ensures ScaleAt(m, 1.0) == 1.0
  {
    assert m.pow(0.0, 3.0) == 0.0;
  }

  /** With an exact square root the aim lies in the closed unit disc, and an aim already
      inside the disc is used as it is. */
  lemma AimInUnitDisc(m: Env, px: real, py: real)
    requires SqrtExact(m)
    ensures LengthSq2(PupilAim(m, px, py)) <= 1.0
    ensures LengthSq2(Vec2(px, py)) <= 1.0 ==> PupilAim(m, px, py) == Vec2(px, py)
  {
    var aim := Vec2(px, py);
    var l2 := LengthSq2(aim);
    SquareNonneg(px);
    SquareNonneg(py);
    var len := m.sqrt(l2);
    assert len >= 0.0 && len * len == l2;
    if len > 1.0 {
      var k := 1.0 / len;
      LengthSqScale2(aim, k);
      assert k * k * l2 == (k * len) * (k * len);
      assert k * len == 1.0;
    } else {
      MulMonotone(len, 1.0, len);
      MulMonotone(len, 1.0, 1.0);
    }
    if l2 <= 1.0 && len > 1.0 {
      MulMonotone(1.0, len, len);
      MulMonotone(1.0, len, 1.0);
      assert false;
    }
  }

  /** The pupil target lies within the reach `max(0, iris - pupil - 0.001) * scale`. */
  lemma PupilTargetInReach(m: Env, cfg: Config, px: real, py: real)
    requires SqrtExact(m)
    ensures LengthSq2(PupilTarget(m, cfg, px, py)) <= PupilReach(cfg) * PupilReach(cfg)
  {
    var aim := PupilAim(m, px, py);
    var k := PupilReach(cfg);
    AimInUnitDisc(m, px, py);
    LengthSqScale2(aim, k);
    SquareNonneg(k);
    MulMonotone(LengthSq2(aim), 1.0, k * k);
    assert k * k * LengthSq2(aim) == LengthSq2(aim) * (k * k);
  }

  // ---------------------------------------------------------------------------
  // Properties of the frame
  // ---------------------------------------------------------------------------

  /** A pointer outside [-1.2, 1.2] gives exactly the frame of the clamped pointer:
      (2, 2) and (1.2, 1.2) are indistinguishable. */
  lemma PointerSaturation(m: Env, cfg: Config, s: State, f: Frame)
    ensures Step(m, cfg, s, f) == Step(m, cfg, s, Frame(f.dt, ClampPointer(f.px), ClampPointer(f.py)))
  {
  }

  /** Once fully appeared, a frame leaves the progress and the scale alone. */
  lemma AppearSettled(m: Env, cfg: Config, s: State, f: Frame)
    requires s.appear >= 1.0
    ensures Step(m, cfg, s, f).appear == s.appear
    ensures Step(m, cfg, s, f).scale == s.scale
  {
  }

  /** The configurations the invariant below holds for: both maximum angles below a quarter
      turn (so the whole swing is under a half turn) and both rates in [0, 1]. The defaults
      are such a configuration. */
  predicate SaneConfig(cfg: Config)
  {
    && 0.0 <= cfg.maxYawDeg < 90.0
    && 0.0 <= cfg.maxPitchDeg < 90.0
    && 0.0 <= cfg.rotationLerp <= 1.0
    && 0.0 <= cfg.pupilLerp <= 1.0
  }

  /** The numeric laws the invariant relies on. */
  ghost predicate Laws(m: Env)
  {
    Atan2Recovers(m) && CubeUnit(m) && SqrtExact(m)
  }

  /** What every frame keeps: the angles inside the configured range, the progress in [0, 1],
      the scale in [0.9, 1] and the pupil inside its reach. */
  predicate Valid(cfg: Config, s: State)
  {
    && -DegToRad(cfg.maxYawDeg) <= s.yaw <= DegToRad(cfg.maxYawDeg)
    && -DegToRad(cfg.maxPitchDeg) <= s.pitch <= DegToRad(cfg.maxPitchDeg)
    && 0.0 <= s.appear <= 1.0
    && StartScale <= s.scale <= 1.0
    && LengthSq2(s.pupil) <= PupilReach(cfg) * PupilReach(cfg)
  }

  lemma DefaultConfigSane()
    ensures SaneConfig(DefaultConfig)
  {
  }

  lemma InitialValid(cfg: Config)
    requires SaneConfig(cfg)
    ensures Valid(cfg, InitialState)
  {
    SquareNonneg(PupilReach(cfg));
  }

  /** With exact unwrapping and both angles in range the smoothed angle stays in range. */
  lemma SmoothStaysInRange(m: Env, current: real, target: real, rate: real, maxDeg: real)
    requires Atan2Recovers(m) && 0.0 <= maxDeg < 90.0 && 0.0 <= rate <= 1.0
    requires -DegToRad(maxDeg) <= current <= DegToRad(maxDeg)
    requires -DegToRad(maxDeg) <= target <= DegToRad(maxDeg)
    ensures -DegToRad(maxDeg) <= SmoothAngle(m, current, target, rate) <= DegToRad(maxDeg)
  {
    assert DegToRad(maxDeg) < Pi / 2.0;
    UnwrapExact(m, target, current);
    SmoothBetween(m, current, target, rate);
  }

  /** One frame with a nonnegative delta keeps the invariant. */
  lemma StepKeepsValid(m: Env, cfg: Config, s: State, f: Frame)
    requires Laws(m) && SaneConfig(cfg) && Valid(cfg, s) && f.dt >= 0.0
    ensures Valid(cfg, Step(m, cfg, s, f))
  {
    var px := ClampPointer(f.px);
    var py := ClampPointer(f.py);
    TargetBounded(px, cfg.maxYawDeg);
    TargetBounded(py, cfg.maxPitchDeg);
    SmoothStaysInRange(m, s.yaw, TargetAngle(px, cfg.maxYawDeg), cfg.rotationLerp, cfg.maxYawDeg);
    SmoothStaysInRange(m, s.pitch, TargetAngle(py, cfg.maxPitchDeg), cfg.rotationLerp, cfg.maxPitchDeg);
    AdvanceProperties(s.appear, f.dt);
    if s.appear < 1.0 {
      ScaleInRange(m, Advance(s.appear, f.dt));
    }
    var bound := PupilReach(cfg) * PupilReach(cfg);
    PupilTargetInReach(m, cfg, px, py);
    Lerp2InDisc(s.pupil, PupilTarget(m, cfg, px, py), cfg.pupilLerp, bound);
  }

  /** Every run of frames with nonnegative deltas keeps the invariant. */
  lemma {:induction false} RunKeepsValid(m: Env, cfg: Config, s: State, frames: seq<Frame>)
    requires Laws(m) && SaneConfig(cfg) && Valid(cfg, s)
    requires forall i :: 0 <= i < |frames| ==> frames[i].dt >= 0.0
    ensures Valid(cfg, Run(m, cfg, s, frames))
    decreases |frames|
  {
    if |frames| > 0 {
      StepKeepsValid(m, cfg, s, frames[0]);
      RunKeepsValid(m, cfg, Step(m, cfg, s, frames[0]), frames[1..]);
    }
  }

  /** The appear progress never decreases over a run with nonnegative deltas. */
  lemma {:induction false} RunAppearMonotone(m: Env, cfg: Config, s: State, frames: seq<Frame>)
    requires forall i :: 0 <= i < |frames| ==> frames[i].dt >= 0.0
    ensures Run(m, cfg, s, frames).appear >= s.appear
    decreases |frames|
  {
    if |frames| > 0 {
      AdvanceProperties(s.appear, frames[0].dt);
      RunAppearMonotone(m, cfg, Step(m, cfg, s, frames[0]), frames[1..]);
    }
  }

  /** Frames whose pointer sits at the exact centre of the canvas. */
  predicate CentredFrames(frames: seq<Frame>)
  {
    forall i :: 0 <= i < |frames| ==> frames[i].px == 0.0 && frames[i].py == 0.0
  }

  /** `x^k` for a natural exponent. */
  function Power(x: real, k: nat): real
  {
    if k == 0 then 1.0 else x * Power(x, k - 1)
  }

  /** A centred pointer aims both angles at 0. */
  lemma CentreTargets(m: Env, cfg: Config, s: State, f: Frame)
    requires f.px == 0.0 && f.py == 0.0
    ensures Step(m, cfg, s, f).yaw == SmoothAngle(m, s.yaw, 0.0, cfg.rotationLerp)
    ensures Step(m, cfg, s, f).pitch == SmoothAngle(m, s.pitch, 0.0, cfg.rotationLerp)
  {
    assert TargetAngle(ClampPointer(f.px), cfg.maxYawDeg) == 0.0;
    assert TargetAngle(ClampPointer(f.py), cfg.maxPitchDeg) == 0.0;
  }

  /** A pointer at the exact centre keeps a globe at rest: yaw and pitch stay 0, and the
      rotation is the base roll alone. */
  lemma CentreAtRest(m: Env, cfg: Config, s: State, f: Frame)
    requires Atan2AtZero(m)
    requires s.yaw == 0.0 && s.pitch == 0.0 && f.px == 0.0 && f.py == 0.0
    ensures Step(m, cfg, s, f).yaw == 0.0 && Step(m, cfg, s, f).pitch == 0.0
    ensures Rotation(cfg, Step(m, cfg, s, f)) == Euler(0.0, 0.0, DegToRad(cfg.baseRollDeg))
  {
    CentreTargets(m, cfg, s, f);
  }

  /** Every run of centred frames keeps a globe at rest. */
  lemma CentreRunAtRest(m: Env, cfg: Config, s: State, frames: seq<Frame>)
    requires Atan2AtZero(m) && s.yaw == 0.0 && s.pitch == 0.0
    requires CentredFrames(frames)
    ensures Run(m, cfg, s, frames).yaw == 0.0 && Run(m, cfg, s, frames).pitch == 0.0
    ensures Rotation(cfg, Run(m, cfg, s, frames)) == Euler(0.0, 0.0, DegToRad(cfg.baseRollDeg))
  {
    YawAtRest(m, cfg, s, frames);
    PitchAtRest(m, cfg, s, frames);
  }

  lemma YawAtRest(m: Env, cfg: Config, s: State, frames: seq<Frame>)
    requires Atan2AtZero(m) && s.yaw == 0.0
    requires forall i :: 0 <= i < |frames| ==> frames[i].px == 0.0
    ensures Run(m, cfg, s, frames).yaw == 0.0
  {
    RunAngles(m, cfg, s, frames);
    AngleAtRest(m, cfg.maxYawDeg, cfg.rotationLerp, PointerXs(frames));
  }

  lemma PitchAtRest(m: Env, cfg: Config, s: State, frames: seq<Frame>)
    requires Atan2AtZero(m) && s.pitch == 0.0
    requires forall i :: 0 <= i < |frames| ==> frames[i].py == 0.0
    ensures Run(m, cfg, s, frames).pitch == 0.0
  {
    RunAngles(m, cfg, s, frames);
    AngleAtRest(m, cfg.maxPitchDeg, cfg.rotationLerp, PointerYs(frames));
  }

  /** An angle at 0 followed over a centred pointer run stays at 0. */
  lemma {:induction false} AngleAtRest(m: Env, maxDeg: real, rate: real, pointer: seq<real>)
    requires Atan2AtZero(m)
    requires forall i :: 0 <= i < |pointer| ==> pointer[i] == 0.0
    ensures RunAngle(m, 0.0, maxDeg, rate, pointer) == 0.0
    decreases |pointer|
  {
    if |pointer| > 0 {
      assert TargetAngle(ClampPointer(pointer[0]), maxDeg) == 0.0;
      assert SmoothAngle(m, 0.0, 0.0, rate) == 0.0;
      AngleAtRest(m, maxDeg, rate, pointer[1..]);
    }
  }

  /** Dropping the first frame of a centred run leaves a centred run. */
  lemma CentredTail(frames: seq<Frame>)
    requires CentredFrames(frames) && |frames| > 0
    ensures CentredFrames(frames[1..])
  {
    forall i | 0 <= i < |frames[1..]|
      ensures frames[1..][i].px == 0.0 && frames[1..][i].py == 0.0
    {
      assert frames[1..][i] == frames[i + 1];
    }
  }

  /** Smoothing toward a target of 0 from an angle in [-pi, pi) scales it by `1 - rate`. */
  lemma CentreSmooth(m: Env, current: real, rate: real)
    requires Atan2Recovers(m) && -Pi <= current < Pi
    ensures SmoothAngle(m, current, 0.0, rate) == (1.0 - rate) * current
  {
    UnwrapExact(m, 0.0, current);
  }

  /** The horizontal pointer coordinates of a run. */
  function PointerXs(frames: seq<Frame>): (xs: seq<real>)
    ensures |xs| == |frames| && forall i :: 0 <= i < |frames| ==> xs[i] == frames[i].px
  {
    seq(|frames|, i requires 0 <= i < |frames| => frames[i].px)
  }

  /** The vertical pointer coordinates of a run. */
  function PointerYs(frames: seq<Frame>): (ys: seq<real>)
    ensures |ys| == |frames| && forall i :: 0 <= i < |frames| ==> ys[i] == frames[i].py
  {
    seq(|frames|, i requires 0 <= i < |frames| => frames[i].py)
  }

  /** One angle followed on its own over a run: each frame smooths it toward the target of
      that frame's pointer coordinate. Yaw and pitch evolve independently of everything else
      in the state. */
  function RunAngle(m: Env, angle: real, maxDeg: real, rate: real, pointer: seq<real>): real
    decreases |pointer|
  {
    if |pointer| == 0 then angle
    else RunAngle(m, SmoothAngle(m, angle, TargetAngle(ClampPointer(pointer[0]), maxDeg), rate),
                  maxDeg, rate, pointer[1..])
  }

  /** A run's yaw and pitch are the angles followed on their own. */
  lemma {:induction false} RunAngles(m: Env, cfg: Config, s: State, frames: seq<Frame>)
    ensures Run(m, cfg, s, frames).yaw == RunAngle(m, s.yaw, cfg.maxYawDeg, cfg.rotationLerp, PointerXs(frames))
    ensures Run(m, cfg, s, frames).pitch == RunAngle(m, s.pitch, cfg.maxPitchDeg, cfg.rotationLerp, PointerYs(frames))
    decreases |frames|
  {
    if |frames| > 0 {
      assert PointerXs(frames)[1..] == PointerXs(frames[1..]);
      assert PointerYs(frames)[1..] == PointerYs(frames[1..]);
      RunAngles(m, cfg, Step(m, cfg, s, frames[0]), frames[1..]);
    }
  }

  /** `x` multiplied by `c`, k times over. */
  function Decay(c: real, k: nat, x: real): real
  {
    if k == 0 then x else Decay(c, k - 1, c * x)
  }

  /** Decaying k times is multiplying by `c^k`. */
  lemma {:induction false} DecayIsPower(c: real, k: nat, x: real)
    ensures Decay(c, k, x) == Power(c, k) * x
  {
    if k > 0 {
      DecayIsPower(c, k - 1, c * x);
      PowerChain(Decay(c, k, x), c * x, c, k, x);
    }
  }

  /** With the pointer held at the centre an angle of [-pi, pi) shrinks by the factor
      `1 - rate` per frame. */
  lemma {:induction false} AngleRunContracts(m: Env, angle: real, maxDeg: real, rate: real, pointer: seq<real>)
    requires Atan2Recovers(m) && 0.0 <= rate <= 1.0 && -Pi <= angle < Pi
    requires forall i :: 0 <= i < |pointer| ==> pointer[i] == 0.0
    ensures RunAngle(m, angle, maxDeg, rate, pointer) == Decay(1.0 - rate, |pointer|, angle)
    decreases |pointer|
  {
    if |pointer| > 0 {
      CentreFrameStep(m, angle, maxDeg, rate, pointer);
      ContractStaysInTurn(1.0 - rate, angle);
      AngleRunContracts(m, (1.0 - rate) * angle, maxDeg, rate, pointer[1..]);
    }
  }

  /** The first frame of a centred pointer run scales the angle by `1 - rate`. */
  lemma CentreFrameStep(m: Env, angle: real, maxDeg: real, rate: real, pointer: seq<real>)
    requires Atan2Recovers(m) && -Pi <= angle < Pi
    requires |pointer| > 0 && pointer[0] == 0.0
    ensures RunAngle(m, angle, maxDeg, rate, pointer) == RunAngle(m, (1.0 - rate) * angle, maxDeg, rate, pointer[1..])
  {
    assert TargetAngle(ClampPointer(pointer[0]), maxDeg) == 0.0;
    CentreSmooth(m, angle, rate);
  }

  /** One more factor: from `r = c^(k-1) next` and `next = c x` follows `r = c^k x`. */
  lemma PowerChain(r: real, next: real, c: real, k: nat, x: real)
    requires k > 0 && r == Power(c, k - 1) * next && next == c * x
    ensures r == Power(c, k) * x
  {
    assert Power(c, k) == c * Power(c, k - 1);
  }

  /** A factor in [0, 1] keeps an angle of [-pi, pi) in [-pi, pi). */
  lemma ContractStaysInTurn(c: real, x: real)
    requires 0.0 <= c <= 1.0 && -Pi <= x < Pi
    ensures -Pi <= c * x < Pi
  {
    if x >= 0.0 {
      assert c * x <= x;
    } else {
      assert c * x >= x;
    }
  }

  /** In a valid state the rotation's pitch and yaw stay within the configured maxima and
      the roll is the fixed base roll. */
  lemma RotationInRange(cfg: Config, s: State)
    requires Valid(cfg, s)
    ensures -DegToRad(cfg.maxPitchDeg) <= Rotation(cfg, s).x <= DegToRad(cfg.maxPitchDeg)
    ensures -DegToRad(cfg.maxYawDeg) <= Rotation(cfg, s).y <= DegToRad(cfg.maxYawDeg)
    ensures Rotation(cfg, s).z == DegToRad(cfg.baseRollDeg)
  {
  }
}
