/** Stick signal conditioning of PlayerController: the dead zone and the
    response curve, both pure functions of the stick vector. */
module Conditioning {
  import opened Vectors

  /** `ApplyDeadZone`: inside the inner dead zone the stick reads zero, past
      the outer dead zone it reads full length, and in between its length is
      rescaled linearly from [inner, outer] onto [0, 1]. The direction is kept
      throughout. PlayerController divides by `outerDeadZone - innerDeadZone` only
      when the length lies between the two, so that is the only case where the
      two must differ. */
  function ApplyDeadZone(joystickInputs: Vector2, innerDeadZone: real, outerDeadZone: real): (r: Vector2)
    requires joystickInputs.Valid()
    requires innerDeadZone == outerDeadZone ==> joystickInputs.magnitude != innerDeadZone
    ensures r.Valid() && r.direction == joystickInputs.direction
    ensures 0.0 <= r.magnitude <= 1.0
    ensures joystickInputs.magnitude < innerDeadZone ==> r.magnitude == 0.0
    ensures innerDeadZone <= joystickInputs.magnitude && outerDeadZone < joystickInputs.magnitude ==>
              r.magnitude == if joystickInputs.magnitude == 0.0 then 0.0 else 1.0
    ensures innerDeadZone <= joystickInputs.magnitude <= outerDeadZone ==>
              r.magnitude == if joystickInputs.magnitude == 0.0 then 0.0
                             else (joystickInputs.magnitude - innerDeadZone) / (outerDeadZone - innerDeadZone)
    ensures joystickInputs.magnitude == 0.0 ==> r.magnitude == 0.0
    ensures joystickInputs.x() == 0.0 ==> r.x() == 0.0
    ensures joystickInputs.y() == 0.0 ==> r.y() == 0.0
  {
    var inputsMagnitude := joystickInputs.magnitude;
    if inputsMagnitude < innerDeadZone then
      Scale(joystickInputs, 0.0)
    else if inputsMagnitude > outerDeadZone then
      Normalized(joystickInputs)
    else
      (var d := outerDeadZone - innerDeadZone;
       assert d > 0.0;
       var e := 1.0 / d;
       assert e > 0.0 && e * d == 1.0;
       var k := (inputsMagnitude - innerDeadZone) / d;
       assert k == e * (inputsMagnitude - innerDeadZone);
       ProductBetween(e, inputsMagnitude - innerDeadZone, 0.0, d);
       assert 0.0 <= k <= 1.0;
       var n := Normalized(joystickInputs);
       assert Abs(k) * n.magnitude <= 1.0 by {
         FractionBetween(n.magnitude, k);
       }
       Scale(n, k))
  }

  /** With a proper dead zone (inner below outer), a longer stick never reads shorter. */
  lemma {:induction false} DeadZoneMonotone(v: Vector2, w: Vector2, innerDeadZone: real, outerDeadZone: real)
    requires v.Valid() && w.Valid() && innerDeadZone < outerDeadZone
    requires v.magnitude <= w.magnitude
    ensures ApplyDeadZone(v, innerDeadZone, outerDeadZone).magnitude
            <= ApplyDeadZone(w, innerDeadZone, outerDeadZone).magnitude
  {
    var a, b := v.magnitude, w.magnitude;
    var d := outerDeadZone - innerDeadZone;
    if innerDeadZone <= a <= outerDeadZone && innerDeadZone <= b <= outerDeadZone && a != 0.0 {
      QuotientsOrdered(a - innerDeadZone, b - innerDeadZone, d);
    }
  }

  /** `ApplyJoystickCurve`: the length is replaced by the curve sampled at the
      length and the direction is kept (a negative sample turns the stick
      round); the zero stick stays zero whatever the curve gives at 0. */
  function ApplyJoystickCurve(joystickInputs: Vector2, joystickCurve: real -> real): (r: Vector2)
    requires joystickInputs.Valid()
    ensures r.Valid()
    ensures joystickInputs.magnitude == 0.0 ==> r.magnitude == 0.0
    ensures joystickInputs.magnitude > 0.0 ==> r.magnitude == Abs(joystickCurve(joystickInputs.magnitude))
    ensures r.direction == if joystickCurve(joystickInputs.magnitude) < 0.0
                           then joystickInputs.direction.Opposite() else joystickInputs.direction
    ensures joystickInputs.x() == 0.0 ==> r.x() == 0.0
    ensures joystickInputs.y() == 0.0 ==> r.y() == 0.0
  {
    var inputsMagnitude := joystickInputs.magnitude;
    var convertedMagnitude := joystickCurve(inputsMagnitude);
    var n := Normalized(joystickInputs);
    assert joystickInputs.x() == 0.0 ==> n.x() * convertedMagnitude == 0.0;
    assert joystickInputs.y() == 0.0 ==> n.y() * convertedMagnitude == 0.0;
    Scale(n, convertedMagnitude)
  }
}
