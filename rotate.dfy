/** The rotate effect (src/animations/rotate.js): the element turns back to upright. */
module RotateAnimation {
  import opened Common
  import opened BaseAnimation

  const Directions: seq<string> := ["clockwise", "counterclockwise"]

  /** `settings.degrees || 180`. */
  function DegreesOf(bag: SettingsBag): (deg: real)
    ensures bag.degrees.None? ==> deg == 180.0
    ensures bag.degrees == Some(0.0) ==> deg == 180.0
    ensures bag.degrees.Some? && bag.degrees.value != 0.0 ==> deg == bag.degrees.value
    ensures deg != 0.0
  {
    NumberOr(bag.degrees, 180.0)
  }

  /** `settings.direction || "clockwise"`. */
  function DirectionOf(bag: SettingsBag): (d: string)
    ensures bag.direction.None? ==> d == "clockwise"
    ensures bag.direction == Some("") ==> d == "clockwise"
    ensures bag.direction.Some? && bag.direction.value != "" ==> d == bag.direction.value
    ensures d != ""
  {
    StringOr(bag.direction, "clockwise")
  }

  /**
   * The remaining turn is `degrees` at progress 0 and shrinks linearly to 0;
   * only "counterclockwise" turns the other way, any other direction turns as clockwise.
   */
  function TransformForProgress(degrees: real, direction: string, progress: real): (t: Transform)
    ensures t.Rotate?
    ensures direction != "counterclockwise" ==> t.deg == degrees * (1.0 - progress)
    ensures direction == "counterclockwise" ==> t.deg == -(degrees * (1.0 - progress))
    ensures progress == 1.0 ==> IsIdentity(t)
  {
    var rotation := degrees * (1.0 - progress);
    Rotate(if direction == "counterclockwise" then -rotation else rotation)
  }

  function InitialStyles(degrees: real, direction: string): (st: Styles)
    ensures st.opacity == 0.0 && st.visual == TransformStyle(Rotate(if direction == "counterclockwise" then -degrees else degrees))
  {
    Styles(0.0, TransformStyle(TransformForProgress(degrees, direction, 0.0)))
  }

  function AnimatedStyles(degrees: real, direction: string, progress: real): (st: Styles)
    ensures st.opacity == progress
    ensures progress == 0.0 ==> st == InitialStyles(degrees, direction)
    ensures progress == 1.0 ==> AtRest(st)
  {
    Styles(progress, TransformStyle(TransformForProgress(degrees, direction, progress)))
  }

  /** The base checks, a known direction, and at most two full turns. */
  function ValidateSettings(s: Settings, degrees: real, direction: string): (ok: bool)
    ensures ok <==> BaseAnimation.ValidateSettings(s) && direction in Directions && 0.0 <= degrees <= 720.0
  {
    BaseAnimation.ValidateSettings(s) && direction in Directions && degrees >= 0.0 && degrees <= 720.0
  }
}
