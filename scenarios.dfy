/** Concrete runs of the aim pipeline. The turning runs push the stick fully
    to the right for frames of 16 ms; they are stated for any tunables with a
    per-frame pitch turn of 1.92 degrees, no extra pitch speed and bounds that
    leave room, and the default tunables with an identity response curve are
    shown to be such tunables. The ramp runs hold for any tunables with
    a hold delay of 0.1 s and any stick that conditions to full deflection. */
module Scenarios {
  import opened Vectors
  import opened Conditioning
  import opened CameraAim

  /** The straight-line response curve. */
  function Identity(m: real): (r: real) {
    m
  }

  /** The stick pushed fully to the right: horizontal component 1, vertical 0. */
  const FullRight: Vector2 := Vector2(Direction(1.0, 0.0), 1.0)

  /** Past the outer dead zone and through the identity curve the full stick stays the full stick. */
  lemma FullRightConditioned(t: Tunables)
    requires t.Valid() && t.innerDeadZone == 0.08 && t.outerDeadZone == 0.98 && t.joystickCurve == Identity
    ensures Condition(t, FullRight) == FullRight
    ensures Condition(t, FullRight).x() == 1.0 && Condition(t, FullRight).magnitude >= PinnedThreshold
  {
    assert ApplyDeadZone(FullRight, t.innerDeadZone, t.outerDeadZone) == FullRight;
  }

  /** A frame of 16 ms with the stick fully right. */
  const Tick: Frame := Frame(FullRight, 0.016)

  /** Under the default dead zones and the identity curve, a frame of 16 ms
      with the stick fully right turns the X angle by 1.92 degrees at a pitch
      speed of 120 degrees a second. */
  lemma TickPitchTurn(t: Tunables)
    requires t.Valid() && t.innerDeadZone == 0.08 && t.outerDeadZone == 0.98 && t.joystickCurve == Identity
    requires t.pitchSpeed == 120
    ensures PitchTurn(t, Tick) == 1.92
  {
    FullRightConditioned(t);
  }

  /** Ten frames of 16 ms with the stick fully right, from rest, with no extra
      pitch speed (as in the defaults) and a per-frame pitch turn of 1.92
      degrees: the stick's horizontal component drives the clamped X angle, to
      19.2 degrees. */
  lemma FullRightTurnsX(t: Tunables, frames: seq<Frame>)
    requires t.Valid() && t.extraPitchSpeed == 0 && PitchTurn(t, Tick) == 1.92
    requires t.maxDownAngle <= 0 && t.maxUpAngle >= 20
    requires |frames| == 10 && forall i :: 0 <= i < |frames| ==> frames[i] == Tick
    ensures ValidFrames(frames)
    ensures Run(t, Initial, frames).camCurrentRotationX == 19.2
  {
    TenTicksStayWithin(t);
    TickRunSteps(t, frames, 1.92);
  }

  /** Equal ticks from rest that stay within the bounds move the X angle by the sum of their turns. */
  lemma TickRunSteps(t: Tunables, frames: seq<Frame>, step: real)
    requires t.Valid() && t.extraPitchSpeed == 0 && PitchTurn(t, Tick) == step
    requires forall i :: 0 <= i < |frames| ==> frames[i] == Tick
    requires StaysWithin(t, 0.0, |frames|, step)
    ensures ValidFrames(frames)
    ensures Run(t, Initial, frames).camCurrentRotationX == Steps(|frames|, step)
  {
    RunSteadyPitch(t, Initial, frames, step);
  }

  /** Ten turns of 1.92 degrees from 0 never leave bounds of at most 0 below and at least 20 above. */
  lemma TenTicksStayWithin(t: Tunables)
    requires t.maxDownAngle <= 0 && t.maxUpAngle >= 20
    ensures StaysWithin(t, 0.0, 10, 1.92)
    ensures Steps(10, 1.92) == 19.2
  {
    StepsIsProduct(10, 1.92);
    forall k | 0 <= k <= 10
      ensures t.maxDownAngle as real <= 0.0 + Steps(k, 1.92) <= t.maxUpAngle as real
    {
      StepsIsProduct(k, 1.92);
    }
  }

  /** The same ten frames leave the Y angle at 0: the stick has no vertical component. */
  lemma FullRightKeepsY(t: Tunables, frames: seq<Frame>)
    requires t.Valid()
    requires forall i :: 0 <= i < |frames| ==> frames[i] == Tick
    ensures ValidFrames(frames)
    ensures Run(t, Initial, frames).camCurrentRotationY == 0.0
  {
    assert Tick.input.y() == 0.0;
    RunHorizontalKeepsYaw(t, Initial, frames);
  }

  /** The default tunables with the identity curve meet the conditions of
      `FullRightTurnsX`, so ten full-right frames of 16 ms turn their X angle
      from rest to 19.2 degrees. */
  lemma DefaultsAllowTurn(t: Tunables)
    requires t == Defaults(Identity)
    ensures t.Valid() && t.extraPitchSpeed == 0 && PitchTurn(t, Tick) == 1.92
    ensures t.maxDownAngle <= 0 && t.maxUpAngle >= 20
  {
    TickPitchTurn(t);
  }

  /** Under the default tunables the full-right run leaves the Y angle at 0. */
  lemma DefaultsFullRightKeepsY(frames: seq<Frame>)
    requires forall i :: 0 <= i < |frames| ==> frames[i] == Tick
    ensures ValidFrames(frames)
    ensures Run(Defaults(Identity), Initial, frames).camCurrentRotationY == 0.0
  {
    FullRightKeepsY(Defaults(Identity), frames);
  }

  /** Hold delay 0.1 s, a stick that conditions to full deflection, from rest,
      frame times 0.05, 0.05, 0.1 and 0.2. The first frame only sets the flag;
      the delay timer then reads 0.05, 0.15 and 0.35; the ramp timer starts on
      the frame where the delay passes 0.1, seeded with the overshoot 0.05,
      then reads 0.25. */
  lemma RampSeedsWithOvershoot(t: Tunables, raw: Vector2)
    requires t.Valid() && raw.Valid() && t.extraSpeedRampUpDelay == 0.1
    requires Condition(t, raw).magnitude >= PinnedThreshold
    ensures var s1 := Next(t, Initial, raw, 0.05);
      var s2 := Next(t, s1, raw, 0.05);
      var s3 := Next(t, s2, raw, 0.1);
      var s4 := Next(t, s3, raw, 0.2);
      && s1.stickAtMaximum && s1.extraSpeedDelayTimer == 0.0 && s1.extraSpeedRampUpTimer == 0.0
      && s2.extraSpeedDelayTimer == 0.05 && s2.extraSpeedRampUpTimer == 0.0
      && s3.extraSpeedDelayTimer == 0.15 && s3.extraSpeedRampUpTimer == 0.05
      && s4.extraSpeedDelayTimer == 0.35 && s4.extraSpeedRampUpTimer == 0.25
  {
    var s1 := Next(t, Initial, raw, 0.05);
    NextHoldState(t, Initial, raw, 0.05);
    var s2 := Next(t, s1, raw, 0.05);
    NextHoldState(t, s1, raw, 0.05);
    var s3 := Next(t, s2, raw, 0.1);
    NextHoldState(t, s2, raw, 0.1);
    NextHoldState(t, s3, raw, 0.2);
  }

  /** When a frame brings the delay timer exactly to the hold delay, the
      overshoot is 0 and the ramp timer stays 0; the next frame seeds it again,
      from the whole time held past the delay. Here: hold delay 0.1, a stick
      that conditions to full deflection and is held from the start, frame
      times 0.05, 0.05 and 0.1. */
  lemma ZeroOvershootReseeds(t: Tunables, raw: Vector2)
    requires t.Valid() && raw.Valid() && t.extraSpeedRampUpDelay == 0.1
    requires Condition(t, raw).magnitude >= PinnedThreshold
    ensures var s0 := Initial.(stickAtMaximum := true);
      var s1 := Next(t, s0, raw, 0.05);
      var s2 := Next(t, s1, raw, 0.05);
      var s3 := Next(t, s2, raw, 0.1);
      && s2.extraSpeedDelayTimer == 0.1 && s2.extraSpeedRampUpTimer == 0.0
      && s3.extraSpeedDelayTimer == 0.2 && s3.extraSpeedRampUpTimer == 0.1
  {
    var s0 := Initial.(stickAtMaximum := true);
    var s1 := Next(t, s0, raw, 0.05);
    NextHoldState(t, s0, raw, 0.05);
    var s2 := Next(t, s1, raw, 0.05);
    NextHoldState(t, s1, raw, 0.05);
    NextHoldState(t, s2, raw, 0.1);
  }
}
