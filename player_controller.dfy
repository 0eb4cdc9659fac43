/** PlayerController itself: the tunables, the five private state fields and
    RotateCamera, which updates the fields in place once per frame. The engine
    reads (the two camera axes, the frame time) arrive as parameters. */
module Player {
  import opened Vectors
  import opened Mathf
  import opened Conditioning
  import opened CameraAim

  class PlayerController {
    const yawSpeed: int
    const pitchSpeed: int
    const innerDeadZone: real
    const outerDeadZone: real
    const joystickCurve: real -> real
    const extraYawSpeed: int
    const extraPitchSpeed: int
    const extraSpeedRampUpTime: real
    const extraSpeedRampUpDelay: real
    const maxUpAngle: int
    const maxDownAngle: int

    var camCurrentRotationX: real
    var camCurrentRotationY: real
    var stickAtMaximum: bool
    var extraSpeedRampUpTimer: real
    var extraSpeedDelayTimer: real

    /** The tunables as one value. */
    function Settings(): (t: Tunables) {
      Tunables(yawSpeed, pitchSpeed, innerDeadZone, outerDeadZone, joystickCurve,
               extraYawSpeed, extraPitchSpeed, extraSpeedRampUpTime, extraSpeedRampUpDelay,
               maxUpAngle, maxDownAngle)
    }

    /** The five state fields as one value. */
    function State(): (s: AimState)
      reads this
    {
      AimState(camCurrentRotationX, camCurrentRotationY, stickAtMaximum,
               extraSpeedRampUpTimer, extraSpeedDelayTimer)
    }

    /** The tunables meet the model's condition that the two divisors of the pipeline are non-zero. */
    predicate Valid() {
      Settings().Valid()
    }

    /** A controller with the given tunables and the fields' initial values. */
    constructor (yawSpeed: int, pitchSpeed: int, innerDeadZone: real, outerDeadZone: real,
                 joystickCurve: real -> real, extraYawSpeed: int, extraPitchSpeed: int,
                 extraSpeedRampUpTime: real, extraSpeedRampUpDelay: real,
                 maxUpAngle: int, maxDownAngle: int)
      requires innerDeadZone != outerDeadZone && extraSpeedRampUpTime != 0.0
      ensures Valid()
      ensures Settings() == Tunables(yawSpeed, pitchSpeed, innerDeadZone, outerDeadZone, joystickCurve,
                                     extraYawSpeed, extraPitchSpeed, extraSpeedRampUpTime,
                                     extraSpeedRampUpDelay, maxUpAngle, maxDownAngle)
      ensures State() == Initial
    {
      this.yawSpeed, this.pitchSpeed := yawSpeed, pitchSpeed;
      this.innerDeadZone, this.outerDeadZone := innerDeadZone, outerDeadZone;
      this.joystickCurve := joystickCurve;
      this.extraYawSpeed, this.extraPitchSpeed := extraYawSpeed, extraPitchSpeed;
      this.extraSpeedRampUpTime, this.extraSpeedRampUpDelay := extraSpeedRampUpTime, extraSpeedRampUpDelay;
      this.maxUpAngle, this.maxDownAngle := maxUpAngle, maxDownAngle;
      camCurrentRotationX, camCurrentRotationY := 0.0, 0.0;
      stickAtMaximum := false;
      extraSpeedRampUpTimer, extraSpeedDelayTimer := 0.0, 0.0;
    }

    /** A controller with the field initialisers' tunables and the given curve. */
    constructor Default(joystickCurve: real -> real)
      ensures Valid() && Settings() == Defaults(joystickCurve)
      ensures State() == Initial
    {
      yawSpeed, pitchSpeed := 160, 120;
      innerDeadZone, outerDeadZone := 0.08, 0.98;
      this.joystickCurve := joystickCurve;
      extraYawSpeed, extraPitchSpeed := 220, 0;
      extraSpeedRampUpTime, extraSpeedRampUpDelay := 0.33, 0.0;
      maxUpAngle, maxDownAngle := 90, -90;
      camCurrentRotationX, camCurrentRotationY := 0.0, 0.0;
      stickAtMaximum := false;
      extraSpeedRampUpTimer, extraSpeedDelayTimer := 0.0, 0.0;
    }

    /** Lines 61-85 of RotateCamera: the held-at-maximum state machine, given
        the conditioned stick length of this frame. The angles are untouched. */
    method UpdateHoldState(magnitude: real, dt: real)
      modifies this
      ensures State() == UpdateRamp(Settings(), old(State()), magnitude, dt)
    {
      if stickAtMaximum {
        if magnitude < PinnedThreshold {
          stickAtMaximum := false;
          extraSpeedDelayTimer := 0.0;
          extraSpeedRampUpTimer := 0.0;
        } else {
          extraSpeedDelayTimer := extraSpeedDelayTimer + dt;
          if extraSpeedDelayTimer >= extraSpeedRampUpDelay {
            if extraSpeedRampUpTimer == 0.0 {
              extraSpeedRampUpTimer := extraSpeedRampUpTimer + (extraSpeedDelayTimer - extraSpeedRampUpDelay);
            } else {
              extraSpeedRampUpTimer := extraSpeedRampUpTimer + dt;
            }
          }
        }
      } else if magnitude >= PinnedThreshold {
        stickAtMaximum := true;
      }
    }

    /** One frame: condition the stick, step the held-at-maximum state
        machine, add the ramped bonus speed, integrate both angles and clamp
        the X angle. `input` is the camera stick, `dt` the frame time. */
    method RotateCamera(input: Vector2, dt: real)
      requires Valid() && input.Valid()
      modifies this
      ensures State() == Next(Settings(), old(State()), input, dt)
      ensures dt >= 0.0 && RampInvariant(Settings(), old(State())) ==> RampInvariant(Settings(), State())
      ensures maxDownAngle <= maxUpAngle ==> maxDownAngle as real <= camCurrentRotationX <= maxUpAngle as real
    {
      ghost var before := State();
      var joystickInputs := ApplyDeadZone(input, innerDeadZone, outerDeadZone);
      joystickInputs := ApplyJoystickCurve(joystickInputs, joystickCurve);

      var currentYawSpeed: real := yawSpeed as real;
      var currentPitchSpeed: real := pitchSpeed as real;

      UpdateHoldState(joystickInputs.magnitude, dt);
      ghost var updated := State();

      if stickAtMaximum && extraSpeedDelayTimer >= extraSpeedRampUpDelay {
        var rampUpPercent := extraSpeedRampUpTimer / extraSpeedRampUpTime;
        rampUpPercent := Clamp01(rampUpPercent);
        currentYawSpeed := currentYawSpeed + extraYawSpeed as real * rampUpPercent;
        currentPitchSpeed := currentPitchSpeed + extraPitchSpeed as real * rampUpPercent;
      }
      assert currentYawSpeed == CurrentYawSpeed(Settings(), updated);
      assert currentPitchSpeed == CurrentPitchSpeed(Settings(), updated);

      camCurrentRotationY := Turn(camCurrentRotationY, joystickInputs.y(), currentYawSpeed, dt);
      camCurrentRotationX := Turn(camCurrentRotationX, joystickInputs.x(), currentPitchSpeed, dt);
      camCurrentRotationX := Clamp(camCurrentRotationX, maxDownAngle as real, maxUpAngle as real);
      if dt >= 0.0 && RampInvariant(Settings(), before) {
        NextPreservesInvariant(Settings(), before, input, dt);
      }
    }
  }
}
