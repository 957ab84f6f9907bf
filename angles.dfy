/** Camera pitch limiting: Unity's Mathf.Clamp and the controller's ClampAngle. */
module Angles {

  /** Mathf.Clamp: a value below min becomes min, otherwise one above max becomes max. */
  function Clamp(value: real, min: real, max: real): (r: real)
    ensures min <= max ==> min <= r <= max
    ensures min <= value <= max ==> r == value
    ensures value < min ==> r == min
    ensures min <= value && value > max ==> r == max
  {
    if value < min then min else if value > max then max else value
  }

  /** The single turn added or removed before clamping; it never changes the direction the angle denotes. */
  function WrapTurn(angle: real): (r: real)
    ensures r == angle || r == angle + 360.0 || r == angle - 360.0
    ensures -720.0 <= angle <= 720.0 ==> -360.0 <= r <= 360.0
    ensures -360.0 <= angle <= 360.0 ==> r == angle
    ensures angle < -360.0 ==> r == angle + 360.0
    ensures angle > 360.0 ==> r == angle - 360.0
  {
    var a := if angle < -360.0 then angle + 360.0 else angle;
    if a > 360.0 then a - 360.0 else a
  }

  /** ClampAngle(angle, min, max): wrap one turn, then clamp into [min, max]. */
  function ClampAngle(angle: real, min: real, max: real): (r: real)
    ensures min <= max ==> min <= r <= max
    ensures -360.0 <= angle <= 360.0 && min <= angle <= max ==> r == angle
    ensures min <= WrapTurn(angle) <= max ==> r == WrapTurn(angle)
    ensures WrapTurn(angle) < min ==> r == min
    ensures min <= WrapTurn(angle) && WrapTurn(angle) > max ==> r == max
  {
    Clamp(WrapTurn(angle), min, max)
  }

  /** With limits inside one turn, clamping an already clamped pitch changes nothing. */
  lemma ClampAngleIdempotent(angle: real, min: real, max: real)
    requires -360.0 <= min <= max <= 360.0
    ensures ClampAngle(ClampAngle(angle, min, max), min, max) == ClampAngle(angle, min, max)
  {
  }
}
