/** What one call of PlayerController.RotateCamera does to the aim state, as
    pure functions of the tunables, the state before the frame, the raw stick
    vector and the frame time; and what follows from them over one frame and
    over a run of frames. */
module CameraAim {
  import opened Vectors
  import opened Mathf
  import opened Conditioning

  /** From this conditioned length on, the stick counts as held at full deflection. */
  const PinnedThreshold: real := 0.9999

  /** The inspector-set tunables of PlayerController, with the types it
      declares: speeds and angle bounds are integers, the rest floats. */
  datatype Tunables = Tunables(
    yawSpeed: int,
    pitchSpeed: int,
    innerDeadZone: real,
    outerDeadZone: real,
    joystickCurve: real -> real,
    extraYawSpeed: int,
    extraPitchSpeed: int,
    extraSpeedRampUpTime: real,
    extraSpeedRampUpDelay: real,
    maxUpAngle: int,
    maxDownAngle: int)
  {
    /** The two divisors of the pipeline are non-zero. */
    predicate Valid() {
      innerDeadZone != outerDeadZone && extraSpeedRampUpTime != 0.0
    }
  }

  /** The field initialisers of PlayerController; the curve is authored in the editor. */
  function Defaults(joystickCurve: real -> real): (t: Tunables)
    ensures t.Valid()
    ensures t.innerDeadZone < t.outerDeadZone && t.extraSpeedRampUpTime > 0.0
    ensures t.extraSpeedRampUpDelay == 0.0 && t.maxDownAngle <= t.maxUpAngle
  {
    Tunables(160, 120, 0.08, 0.98, joystickCurve, 220, 0, 0.33, 0.0, 90, -90)
  }

  /** The private per-frame state of PlayerController. */
  datatype AimState = AimState(
    camCurrentRotationX: real,
    camCurrentRotationY: real,
    stickAtMaximum: bool,
    extraSpeedRampUpTimer: real,
    extraSpeedDelayTimer: real)

  const Initial: AimState := AimState(0.0, 0.0, false, 0.0, 0.0)

  /** The stick after the dead zone and the response curve. */
  function Condition(t: Tunables, raw: Vector2): (c: Vector2)
    requires t.Valid() && raw.Valid()
    ensures c.Valid()
    ensures c.direction == raw.direction || c.direction == raw.direction.Opposite()
    ensures raw.magnitude < t.innerDeadZone ==> c.magnitude == 0.0
    ensures raw.x() == 0.0 ==> c.x() == 0.0
    ensures raw.y() == 0.0 ==> c.y() == 0.0
  {
    ApplyJoystickCurve(ApplyDeadZone(raw, t.innerDeadZone, t.outerDeadZone), t.joystickCurve)
  }

  /** The stick-at-maximum flag and the two timers after one frame in which
      the conditioned stick has length `magnitude`; the angles are untouched. */
  function UpdateRamp(t: Tunables, s: AimState, magnitude: real, dt: real): (r: AimState)
    ensures r.camCurrentRotationX == s.camCurrentRotationX
    ensures r.camCurrentRotationY == s.camCurrentRotationY
  {
    if s.stickAtMaximum then
      if magnitude < PinnedThreshold then
        s.(stickAtMaximum := false, extraSpeedDelayTimer := 0.0, extraSpeedRampUpTimer := 0.0)
      else
        var delay := s.extraSpeedDelayTimer + dt;
        if delay >= t.extraSpeedRampUpDelay then
          if s.extraSpeedRampUpTimer == 0.0 then
            s.(extraSpeedDelayTimer := delay,
               extraSpeedRampUpTimer := s.extraSpeedRampUpTimer + (delay - t.extraSpeedRampUpDelay))
          else
            s.(extraSpeedDelayTimer := delay, extraSpeedRampUpTimer := s.extraSpeedRampUpTimer + dt)
        else
          s.(extraSpeedDelayTimer := delay)
    else if magnitude >= PinnedThreshold then
      s.(stickAtMaximum := true)
    else
      s
  }

  /** The bonus turn speed is granted: the stick is held and the hold delay has passed. */
  predicate BonusActive(t: Tunables, s: AimState) {
    s.stickAtMaximum && s.extraSpeedDelayTimer >= t.extraSpeedRampUpDelay
  }

  /** The share of the extra speed granted: the ramp timer over the ramp-up time, clamped to [0, 1]. */
  function RampUpPercent(t: Tunables, s: AimState): (p: real)
    requires t.Valid()
    ensures 0.0 <= p <= 1.0
    ensures t.extraSpeedRampUpTime > 0.0 && s.extraSpeedRampUpTimer >= t.extraSpeedRampUpTime ==> p == 1.0
    ensures t.extraSpeedRampUpTime > 0.0 && s.extraSpeedRampUpTimer <= 0.0 ==> p == 0.0
  {
    var ratio := s.extraSpeedRampUpTimer / t.extraSpeedRampUpTime;
    if t.extraSpeedRampUpTime > 0.0 && s.extraSpeedRampUpTimer >= t.extraSpeedRampUpTime then
      QuotientAtLeastOne(s.extraSpeedRampUpTimer, t.extraSpeedRampUpTime);
      Clamp01(ratio)
    else if t.extraSpeedRampUpTime > 0.0 && s.extraSpeedRampUpTimer <= 0.0 then
      QuotientsOrdered(s.extraSpeedRampUpTimer, 0.0, t.extraSpeedRampUpTime);
      Clamp01(ratio)
    else
      Clamp01(ratio)
  }

  /** `v` lies between `a` and `b`, whichever is larger. */
  predicate Between(v: real, a: real, b: real) {
    (a <= v <= b) || (b <= v <= a)
  }

  /** The yaw speed of a frame whose ramp state is `s`: the base speed, plus
      the ramped share of the extra speed while the bonus is granted. */
  function CurrentYawSpeed(t: Tunables, s: AimState): (v: real)
    requires t.Valid()
    ensures Between(v, t.yawSpeed as real, (t.yawSpeed + t.extraYawSpeed) as real)
    ensures !BonusActive(t, s) ==> v == t.yawSpeed as real
    ensures (BonusActive(t, s) && t.extraSpeedRampUpTime > 0.0 && s.extraSpeedRampUpTimer >= t.extraSpeedRampUpTime)
              ==> v == (t.yawSpeed + t.extraYawSpeed) as real
  {
    if BonusActive(t, s) then
      var p := RampUpPercent(t, s);
      FractionBetween(t.extraYawSpeed as real, p);
      t.yawSpeed as real + t.extraYawSpeed as real * p
    else
      t.yawSpeed as real
  }

  /** The pitch speed of a frame whose ramp state is `s`, by the same rule. */
  function CurrentPitchSpeed(t: Tunables, s: AimState): (v: real)
    requires t.Valid()
    ensures Between(v, t.pitchSpeed as real, (t.pitchSpeed + t.extraPitchSpeed) as real)
    ensures !BonusActive(t, s) ==> v == t.pitchSpeed as real
    ensures (BonusActive(t, s) && t.extraSpeedRampUpTime > 0.0 && s.extraSpeedRampUpTimer >= t.extraSpeedRampUpTime)
              ==> v == (t.pitchSpeed + t.extraPitchSpeed) as real
  {
    if BonusActive(t, s) then
      var p := RampUpPercent(t, s);
      FractionBetween(t.extraPitchSpeed as real, p);
      t.pitchSpeed as real + t.extraPitchSpeed as real * p
    else
      t.pitchSpeed as real
  }

  /** An angle after turning for `dt` at `speed` times the stick component `axis`. */
  function Turn(angle: real, axis: real, speed: real, dt: real): (turned: real) {
    angle + axis * speed * dt
  }

  /** One frame of RotateCamera. The vertical stick component turns the
      unclamped Y angle at the yaw speed; the horizontal component turns the X
      angle at the pitch speed, and the X angle is then clamped. */
  function Next(t: Tunables, s: AimState, raw: Vector2, dt: real): (r: AimState)
    requires t.Valid() && raw.Valid()
    ensures t.maxDownAngle <= t.maxUpAngle ==> t.maxDownAngle as real <= r.camCurrentRotationX <= t.maxUpAngle as real
  {
    var c := Condition(t, raw);
    var u := UpdateRamp(t, s, c.magnitude, dt);
    var rotationY := Turn(u.camCurrentRotationY, c.y(), CurrentYawSpeed(t, u), dt);
    var rotationX := Turn(u.camCurrentRotationX, c.x(), CurrentPitchSpeed(t, u), dt);
    u.(camCurrentRotationY := rotationY,
       camCurrentRotationX := Clamp(rotationX, t.maxDownAngle as real, t.maxUpAngle as real))
  }

  /** The ramp state that RotateCamera keeps from frame to frame when frame
      times are never negative: timers are non-negative; both are zero while
      the stick is not held; and once the hold delay has passed, the ramp
      timer is exactly the time held beyond the delay (the overshoot seeding
      never counts a frame twice). The one exception is the frame on which the
      stick is first held, when both timers are still zero. */
  predicate RampInvariant(t: Tunables, s: AimState) {
    && s.extraSpeedDelayTimer >= 0.0
    && s.extraSpeedRampUpTimer >= 0.0
    && (!s.stickAtMaximum ==> s.extraSpeedDelayTimer == 0.0 && s.extraSpeedRampUpTimer == 0.0)
    && (s.extraSpeedRampUpTimer != 0.0 ==> s.extraSpeedDelayTimer >= t.extraSpeedRampUpDelay)
    && (s.extraSpeedDelayTimer >= t.extraSpeedRampUpDelay && (s.extraSpeedDelayTimer != 0.0 || s.extraSpeedRampUpTimer != 0.0)
        ==> s.extraSpeedRampUpTimer == s.extraSpeedDelayTimer - t.extraSpeedRampUpDelay)
  }

  lemma InitialSatisfiesInvariant(t: Tunables)
    ensures RampInvariant(t, Initial)
  {
  }

  /** A frame leaves the flag and the timers as the state machine steps them for the conditioned length. */
  lemma NextHoldState(t: Tunables, s: AimState, raw: Vector2, dt: real)
    requires t.Valid() && raw.Valid()
    ensures var r, u := Next(t, s, raw, dt), UpdateRamp(t, s, Condition(t, raw).magnitude, dt);
      && r.stickAtMaximum == u.stickAtMaximum
      && r.extraSpeedDelayTimer == u.extraSpeedDelayTimer
      && r.extraSpeedRampUpTimer == u.extraSpeedRampUpTimer
  {
  }

  /** The four transitions of the held-at-maximum state machine. */
  lemma RampTransitions(t: Tunables, s: AimState, raw: Vector2, dt: real)
    requires t.Valid() && raw.Valid()
    ensures var m, r := Condition(t, raw).magnitude, Next(t, s, raw, dt);
      && (s.stickAtMaximum && m < PinnedThreshold ==>
            !r.stickAtMaximum && r.extraSpeedDelayTimer == 0.0 && r.extraSpeedRampUpTimer == 0.0)
      && (!s.stickAtMaximum && m >= PinnedThreshold ==>
            r.stickAtMaximum && r.extraSpeedDelayTimer == s.extraSpeedDelayTimer
            && r.extraSpeedRampUpTimer == s.extraSpeedRampUpTimer)
      && (s.stickAtMaximum && m >= PinnedThreshold ==>
            r.stickAtMaximum && r.extraSpeedDelayTimer == s.extraSpeedDelayTimer + dt)
      && (!s.stickAtMaximum && m < PinnedThreshold ==>
            !r.stickAtMaximum && r.extraSpeedDelayTimer == s.extraSpeedDelayTimer
            && r.extraSpeedRampUpTimer == s.extraSpeedRampUpTimer)
  {
  }

  /** The ramp timer while the stick stays held: on the frame the delay is
      first reached it is seeded with the overshoot beyond the delay, after
      that it grows by the frame time, and whenever the delay has passed it
      equals the held time beyond the delay. */
  lemma OvershootSeeding(t: Tunables, s: AimState, raw: Vector2, dt: real)
    requires t.Valid() && raw.Valid() && RampInvariant(t, s) && dt >= 0.0
    requires s.stickAtMaximum && Condition(t, raw).magnitude >= PinnedThreshold
    ensures var r := Next(t, s, raw, dt);
      && (r.extraSpeedDelayTimer >= t.extraSpeedRampUpDelay ==>
            r.extraSpeedRampUpTimer == r.extraSpeedDelayTimer - t.extraSpeedRampUpDelay)
      && (s.extraSpeedDelayTimer < t.extraSpeedRampUpDelay <= r.extraSpeedDelayTimer ==>
            s.extraSpeedRampUpTimer == 0.0
            && r.extraSpeedRampUpTimer == r.extraSpeedDelayTimer - t.extraSpeedRampUpDelay)
      && (s.extraSpeedRampUpTimer != 0.0 ==> r.extraSpeedRampUpTimer == s.extraSpeedRampUpTimer + dt)
      && (r.extraSpeedDelayTimer < t.extraSpeedRampUpDelay ==> r.extraSpeedRampUpTimer == 0.0)
  {
  }

  /** One frame keeps the ramp invariant when its frame time is not negative. */
  lemma NextPreservesInvariant(t: Tunables, s: AimState, raw: Vector2, dt: real)
    requires t.Valid() && raw.Valid() && RampInvariant(t, s) && dt >= 0.0
    ensures RampInvariant(t, Next(t, s, raw, dt))
  {
  }

  /** Once the stick has been held for the delay plus the ramp-up time, the
      full extra speed is granted on both axes. */
  lemma FullBonusAfterRampUp(t: Tunables, s: AimState)
    requires t.Valid() && RampInvariant(t, s) && s.stickAtMaximum
    requires t.extraSpeedRampUpDelay >= 0.0 && t.extraSpeedRampUpTime > 0.0
    requires s.extraSpeedDelayTimer >= t.extraSpeedRampUpDelay + t.extraSpeedRampUpTime
    ensures CurrentYawSpeed(t, s) == (t.yawSpeed + t.extraYawSpeed) as real
    ensures CurrentPitchSpeed(t, s) == (t.pitchSpeed + t.extraPitchSpeed) as real
  {
  }

  /** While the bonus is granted after the first held frame, each speed is the
      base speed plus the share of the extra speed given by the time held
      beyond the delay over the ramp-up time, clamped to [0, 1]. */
  lemma RampInByHeldTime(t: Tunables, s: AimState)
    requires t.Valid() && RampInvariant(t, s) && BonusActive(t, s) && s.extraSpeedDelayTimer != 0.0
    ensures var held := Clamp01((s.extraSpeedDelayTimer - t.extraSpeedRampUpDelay) / t.extraSpeedRampUpTime);
      && CurrentYawSpeed(t, s) == t.yawSpeed as real + t.extraYawSpeed as real * held
      && CurrentPitchSpeed(t, s) == t.pitchSpeed as real + t.extraPitchSpeed as real * held
  {
  }

  /** A longer ramp timer never grants a smaller share, for a positive ramp-up time. */
  lemma RampUpPercentGrows(t: Tunables, s: AimState, r: AimState)
    requires t.Valid() && t.extraSpeedRampUpTime > 0.0
    requires s.extraSpeedRampUpTimer <= r.extraSpeedRampUpTimer
    ensures RampUpPercent(t, s) <= RampUpPercent(t, r)
  {
    QuotientsOrdered(s.extraSpeedRampUpTimer, r.extraSpeedRampUpTimer, t.extraSpeedRampUpTime);
  }

  /** A larger share of `extra` lands between the smaller share and the whole of it. */
  lemma ShareTowardFull(base: int, extra: int, p: real, q: real)
    requires 0.0 <= p <= q <= 1.0
    ensures Between(base as real + extra as real * q, base as real + extra as real * p, (base + extra) as real)
  {
    ProductBetween(extra as real, q, p, 1.0);
  }

  /** From ramp state `s` to ramp state `r`, where a granted bonus stays
      granted with a ramp timer that has not gone back, the yaw speed moves
      towards the full bonus speed and never past it. */
  lemma YawTowardFull(t: Tunables, s: AimState, r: AimState)
    requires t.Valid() && t.extraSpeedRampUpTime > 0.0
    requires BonusActive(t, s) ==> BonusActive(t, r) && s.extraSpeedRampUpTimer <= r.extraSpeedRampUpTimer
    ensures Between(CurrentYawSpeed(t, r), CurrentYawSpeed(t, s), (t.yawSpeed + t.extraYawSpeed) as real)
  {
    if BonusActive(t, s) {
      RampUpPercentGrows(t, s, r);
      ShareTowardFull(t.yawSpeed, t.extraYawSpeed, RampUpPercent(t, s), RampUpPercent(t, r));
    }
  }

  /** The same for the pitch speed. */
  lemma PitchTowardFull(t: Tunables, s: AimState, r: AimState)
    requires t.Valid() && t.extraSpeedRampUpTime > 0.0
    requires BonusActive(t, s) ==> BonusActive(t, r) && s.extraSpeedRampUpTimer <= r.extraSpeedRampUpTimer
    ensures Between(CurrentPitchSpeed(t, r), CurrentPitchSpeed(t, s), (t.pitchSpeed + t.extraPitchSpeed) as real)
  {
    if BonusActive(t, s) {
      RampUpPercentGrows(t, s, r);
      ShareTowardFull(t.pitchSpeed, t.extraPitchSpeed, RampUpPercent(t, s), RampUpPercent(t, r));
    }
  }

  /** A frame that keeps the stick held (with a positive ramp-up time and a
      non-negative frame time) moves each speed from its value before the
      frame towards the full bonus speed and never past it. */
  lemma HeldFrameRampsIn(t: Tunables, s: AimState, raw: Vector2, dt: real)
    requires t.Valid() && raw.Valid() && RampInvariant(t, s) && dt >= 0.0 && t.extraSpeedRampUpTime > 0.0
    requires s.stickAtMaximum && Condition(t, raw).magnitude >= PinnedThreshold
    ensures var r := Next(t, s, raw, dt);
      && Between(CurrentYawSpeed(t, r), CurrentYawSpeed(t, s), (t.yawSpeed + t.extraYawSpeed) as real)
      && Between(CurrentPitchSpeed(t, r), CurrentPitchSpeed(t, s), (t.pitchSpeed + t.extraPitchSpeed) as real)
  {
    var r := Next(t, s, raw, dt);
    NextHoldState(t, s, raw, dt);
    OvershootSeeding(t, s, raw, dt);
    YawTowardFull(t, s, r);
    PitchTowardFull(t, s, r);
  }

  /** The Y angle turns by the vertical stick component at the frame's yaw
      speed (the base speed plus the ramped bonus, computed from the ramp
      state after this frame's update) for the frame time, and is not clamped. */
  lemma YawIntegration(t: Tunables, s: AimState, raw: Vector2, dt: real)
    requires t.Valid() && raw.Valid()
    ensures var c, r := Condition(t, raw), Next(t, s, raw, dt);
      r.camCurrentRotationY
      == Turn(s.camCurrentRotationY, c.y(), CurrentYawSpeed(t, UpdateRamp(t, s, c.magnitude, dt)), dt)
  {
  }

  /** The X angle turns by the horizontal stick component at the frame's
      pitch speed for the frame time, and is then clamped to its bounds. */
  lemma PitchIntegration(t: Tunables, s: AimState, raw: Vector2, dt: real)
    requires t.Valid() && raw.Valid()
    ensures var c, r := Condition(t, raw), Next(t, s, raw, dt);
      r.camCurrentRotationX
      == Clamp(Turn(s.camCurrentRotationX, c.x(), CurrentPitchSpeed(t, UpdateRamp(t, s, c.magnitude, dt)), dt),
               t.maxDownAngle as real, t.maxUpAngle as real)
  {
  }

  /** No stick deflection, no turn. */
  lemma TurnStill(angle: real, axis: real, speed: real, dt: real)
    requires axis == 0.0
    ensures Turn(angle, axis, speed, dt) == angle
  {
  }

  /** A stick with no vertical component leaves the Y angle where it was. */
  lemma HorizontalStickKeepsYaw(t: Tunables, s: AimState, raw: Vector2, dt: real)
    requires t.Valid() && raw.Valid() && raw.y() == 0.0
    ensures Next(t, s, raw, dt).camCurrentRotationY == s.camCurrentRotationY
  {
    var c := Condition(t, raw);
    YawIntegration(t, s, raw, dt);
    TurnStill(s.camCurrentRotationY, c.y(), CurrentYawSpeed(t, UpdateRamp(t, s, c.magnitude, dt)), dt);
  }

  /** A frame of a run: the raw stick vector and the frame time. */
  datatype Frame = Frame(input: Vector2, dt: real)

  predicate ValidFrames(frames: seq<Frame>) {
    forall i :: 0 <= i < |frames| ==> frames[i].input.Valid()
  }

  /** The state after RotateCamera has run once per frame, in order. */
  function Run(t: Tunables, s: AimState, frames: seq<Frame>): (r: AimState)
    requires t.Valid() && ValidFrames(frames)
    ensures frames == [] ==> r == s
    ensures frames != [] && t.maxDownAngle <= t.maxUpAngle ==>
              t.maxDownAngle as real <= r.camCurrentRotationX <= t.maxUpAngle as real
    decreases |frames|
  {
    if frames == [] then s else Run(t, Next(t, s, frames[0].input, frames[0].dt), frames[1..])
  }

  /** The time covered by a run of frames. */
  function TotalTime(frames: seq<Frame>): (total: real)
    decreases |frames|
  {
    if frames == [] then 0.0 else frames[0].dt + TotalTime(frames[1..])
  }

  /** Every frame holds the conditioned stick at full deflection. */
  predicate AllHeld(t: Tunables, frames: seq<Frame>)
    requires t.Valid() && ValidFrames(frames)
  {
    forall i :: 0 <= i < |frames| ==> Condition(t, frames[i].input).magnitude >= PinnedThreshold
  }

  /** The ramp invariant holds after any run of frames with non-negative frame times. */
  lemma {:induction false} RunPreservesInvariant(t: Tunables, s: AimState, frames: seq<Frame>)
    requires t.Valid() && ValidFrames(frames) && RampInvariant(t, s)
    requires forall i :: 0 <= i < |frames| ==> frames[i].dt >= 0.0
    ensures RampInvariant(t, Run(t, s, frames))
    decreases |frames|
  {
    if frames != [] {
      NextPreservesInvariant(t, s, frames[0].input, frames[0].dt);
      RunPreservesInvariant(t, Next(t, s, frames[0].input, frames[0].dt), frames[1..]);
    }
  }

  /** Whatever the inputs, after at least one frame the X angle lies within its bounds. */
  /** Running two stretches of frames one after the other is running them as one. */
  lemma {:induction false} RunAppend(t: Tunables, s: AimState, a: seq<Frame>, b: seq<Frame>)
    requires t.Valid() && ValidFrames(a) && ValidFrames(b)
    ensures ValidFrames(a + b)
    ensures Run(t, s, a + b) == Run(t, Run(t, s, a), b)
    decreases |a|
  {
    assert forall i :: 0 <= i < |a + b| ==> (a + b)[i] == if i < |a| then a[i] else b[i - |a|];
    if a != [] {
      assert (a + b)[0] == a[0] && (a + b)[1..] == a[1..] + b;
      assert ValidFrames(a[1..]) by {
        forall i | 0 <= i < |a[1..]| ensures a[1..][i] == a[i + 1] {
        }
      }
      RunAppend(t, Next(t, s, a[0].input, a[0].dt), a[1..], b);
    } else {
      assert a + b == b;
    }
  }

  lemma {:induction false} RunPitchBounded(t: Tunables, s: AimState, frames: seq<Frame>)
    requires t.Valid() && ValidFrames(frames) && frames != []
    requires t.maxDownAngle <= t.maxUpAngle
    ensures var r := Run(t, s, frames); t.maxDownAngle as real <= r.camCurrentRotationX <= t.maxUpAngle as real
    decreases |frames|
  {
    if |frames| > 1 {
      RunPitchBounded(t, Next(t, s, frames[0].input, frames[0].dt), frames[1..]);
    }
  }

  /** While the stick stays held, the delay timer is the time held (the first
      held frame itself not counted) and the flag stays set. */
  lemma {:induction false} RunHeldAccumulatesDelay(t: Tunables, s: AimState, frames: seq<Frame>)
    requires t.Valid() && ValidFrames(frames) && AllHeld(t, frames) && s.stickAtMaximum
    ensures Run(t, s, frames).stickAtMaximum
    ensures Run(t, s, frames).extraSpeedDelayTimer == s.extraSpeedDelayTimer + TotalTime(frames)
    decreases |frames|
  {
    if frames != [] {
      var n := Next(t, s, frames[0].input, frames[0].dt);
      RampTransitions(t, s, frames[0].input, frames[0].dt);
      assert AllHeld(t, frames[1..]) by {
        forall i | 0 <= i < |frames[1..]| ensures Condition(t, frames[1..][i].input).magnitude >= PinnedThreshold {
          assert frames[1..][i] == frames[i + 1];
        }
      }
      RunHeldAccumulatesDelay(t, n, frames[1..]);
    }
  }

  /** Frames whose stick has no vertical component never move the Y angle. */
  lemma {:induction false} RunHorizontalKeepsYaw(t: Tunables, s: AimState, frames: seq<Frame>)
    requires t.Valid() && ValidFrames(frames)
    requires forall i :: 0 <= i < |frames| ==> frames[i].input.y() == 0.0
    ensures Run(t, s, frames).camCurrentRotationY == s.camCurrentRotationY
    decreases |frames|
  {
    if frames != [] {
      HorizontalStickKeepsYaw(t, s, frames[0].input, frames[0].dt);
      RunHorizontalKeepsYaw(t, Next(t, s, frames[0].input, frames[0].dt), frames[1..]);
    }
  }

  /** How far a frame turns the X angle at the base pitch speed, before the clamp. */
  function PitchTurn(t: Tunables, f: Frame): (turn: real)
    requires t.Valid() && f.input.Valid()
  {
    Turn(0.0, Condition(t, f.input).x(), t.pitchSpeed as real, f.dt)
  }

  /** Turning from `angle` is turning from 0 and adding `angle`. */
  lemma TurnFromZero(angle: real, axis: real, speed: real, dt: real)
    ensures Turn(angle, axis, speed, dt) == angle + Turn(0.0, axis, speed, dt)
  {
  }

  /** With no extra pitch speed the X angle turns at the base pitch speed, whatever the hold state. */
  lemma BaseSpeedPitch(t: Tunables, s: AimState, raw: Vector2, dt: real)
    requires t.Valid() && raw.Valid() && t.extraPitchSpeed == 0
    ensures Next(t, s, raw, dt).camCurrentRotationX
            == Clamp(Turn(s.camCurrentRotationX, Condition(t, raw).x(), t.pitchSpeed as real, dt),
                     t.maxDownAngle as real, t.maxUpAngle as real)
  {
    var c := Condition(t, raw);
    assert CurrentPitchSpeed(t, UpdateRamp(t, s, c.magnitude, dt)) == t.pitchSpeed as real;
    PitchIntegration(t, s, raw, dt);
  }

  /** With no extra pitch speed a frame turns the X angle by its base-speed turn, then clamps it. */
  lemma SteadyPitchFrame(t: Tunables, s: AimState, f: Frame)
    requires t.Valid() && f.input.Valid() && t.extraPitchSpeed == 0
    ensures Next(t, s, f.input, f.dt).camCurrentRotationX
            == Clamp(s.camCurrentRotationX + PitchTurn(t, f), t.maxDownAngle as real, t.maxUpAngle as real)
  {
    BaseSpeedPitch(t, s, f.input, f.dt);
    TurnFromZero(s.camCurrentRotationX, Condition(t, f.input).x(), t.pitchSpeed as real, f.dt);
  }

  /** The distance covered by `m` turns of `step` each. */
  function Steps(m: nat, step: real): (sum: real) {
    if m == 0 then 0.0 else Steps(m - 1, step) + step
  }

  lemma {:induction false} StepsIsProduct(m: nat, step: real)
    ensures Steps(m, step) == m as real * step
  {
    if m > 0 {
      StepsIsProduct(m - 1, step);
    }
  }

  /** Every partial sum of `m` equal turns by `step`, added to the angle `x`,
      lies within the X bounds. */
  predicate StaysWithin(t: Tunables, x: real, m: nat, step: real) {
    forall k :: 0 <= k <= m ==> t.maxDownAngle as real <= x + Steps(k, step) <= t.maxUpAngle as real
  }

  /** Partial sums that stay within the bounds for `m + 1` turns from `x`
      stay within them for `m` turns from `x + step`, and `x + step` is
      itself within them. */
  lemma StaysWithinShift(t: Tunables, x: real, m: nat, step: real)
    requires StaysWithin(t, x, m + 1, step)
    ensures t.maxDownAngle as real <= x + step <= t.maxUpAngle as real
    ensures StaysWithin(t, x + step, m, step)
  {
    assert Steps(1, step) == step;
    forall k | 0 <= k <= m
      ensures t.maxDownAngle as real <= x + step + Steps(k, step) <= t.maxUpAngle as real
    {
      assert Steps(k + 1, step) == Steps(k, step) + step;
    }
  }

  /** One frame of a steady-pitch run whose partial sums stay within both
      bounds for `m + 1` frames: the clamp does not bite, and the remaining
      `m` frames stay within the bounds from the new angle. */
  lemma SteadyPitchStep(t: Tunables, s: AimState, f: Frame, step: real, m: nat)
    requires t.Valid() && f.input.Valid() && t.extraPitchSpeed == 0
    requires PitchTurn(t, f) == step
    requires StaysWithin(t, s.camCurrentRotationX, m + 1, step)
    ensures var n := Next(t, s, f.input, f.dt);
      && n.camCurrentRotationX == s.camCurrentRotationX + step
      && StaysWithin(t, n.camCurrentRotationX, m, step)
  {
    SteadyPitchFrame(t, s, f);
    StaysWithinShift(t, s.camCurrentRotationX, m, step);
  }

  /** With no extra pitch speed, frames that each turn the X angle by the same
      `step`, positive or negative, with every partial sum inside both bounds,
      move it by `step` per frame. */
  lemma {:induction false} RunSteadyPitch(t: Tunables, s: AimState, frames: seq<Frame>, step: real)
    requires t.Valid() && ValidFrames(frames) && t.extraPitchSpeed == 0
    requires forall i :: 0 <= i < |frames| ==> PitchTurn(t, frames[i]) == step
    requires StaysWithin(t, s.camCurrentRotationX, |frames|, step)
    ensures Run(t, s, frames).camCurrentRotationX == s.camCurrentRotationX + Steps(|frames|, step)
    decreases |frames|
  {
    if frames != [] {
      var rest := frames[1..];
      var n := Next(t, s, frames[0].input, frames[0].dt);
      SteadyPitchStep(t, s, frames[0], step, |rest|);
      SteadyPitchTail(t, frames, step);
      RunSteadyPitch(t, n, rest, step);
      assert Run(t, s, frames) == Run(t, n, rest);
    }
  }

  /** The frames after the first of a steady-pitch run are valid and turn by the same step. */
  lemma SteadyPitchTail(t: Tunables, frames: seq<Frame>, step: real)
    requires t.Valid() && ValidFrames(frames) && frames != []
    requires forall i :: 0 <= i < |frames| ==> PitchTurn(t, frames[i]) == step
    ensures ValidFrames(frames[1..])
    ensures forall i :: 0 <= i < |frames[1..]| ==> PitchTurn(t, frames[1..][i]) == step
  {
    forall i | 0 <= i < |frames[1..]| ensures frames[1..][i] == frames[i + 1] {
    }
  }
}
