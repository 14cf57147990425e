/** The flip effect (src/animations/flip.js): a 3D turn about the X or Y axis back to flat. */
module FlipAnimation {
  import opened Common
  import opened BaseAnimation

  const Axes: seq<string> := ["x", "y"]

  /** `settings.axis || "x"`. */
  function AxisOf(bag: SettingsBag): (a: string)
    ensures bag.axis.None? ==> a == "x"
    ensures bag.axis == Some("") ==> a == "x"
    ensures bag.axis.Some? && bag.axis.value != "" ==> a == bag.axis.value
    ensures a != ""
  {
    StringOr(bag.axis, "x")
  }

  /** `settings.degrees || 90`. */
  function DegreesOf(bag: SettingsBag): (deg: real)
    ensures bag.degrees.None? ==> deg == 90.0
    ensures bag.degrees == Some(0.0) ==> deg == 90.0
    ensures bag.degrees.Some? && bag.degrees.value != 0.0 ==> deg == bag.degrees.value
    ensures deg != 0.0
  {
    NumberOr(bag.degrees, 90.0)
  }

  /** The remaining turn shrinks linearly from `degrees` to 0; "x" turns about X, anything else about Y. */
  function TransformForProgress(axis: string, degrees: real, progress: real): (t: Transform)
    ensures axis == "x" ==> t == PerspectiveRotateX(degrees * (1.0 - progress))
    ensures axis != "x" ==> t == PerspectiveRotateY(degrees * (1.0 - progress))
    ensures progress == 1.0 ==> IsIdentity(t)
  {
    var rotation := degrees * (1.0 - progress);
    if axis == "x" then PerspectiveRotateX(rotation) else PerspectiveRotateY(rotation)
  }

  function InitialStyles(axis: string, degrees: real): (st: Styles)
    ensures st.opacity == 0.0
    ensures st.visual == TransformStyle(if axis == "x" then PerspectiveRotateX(degrees) else PerspectiveRotateY(degrees))
  {
    Styles(0.0, TransformStyle(TransformForProgress(axis, degrees, 0.0)))
  }

  function AnimatedStyles(axis: string, degrees: real, progress: real): (st: Styles)
    ensures st.opacity == progress
    ensures progress == 0.0 ==> st == InitialStyles(axis, degrees)
    ensures progress == 1.0 ==> AtRest(st)
  {
    Styles(progress, TransformStyle(TransformForProgress(axis, degrees, progress)))
  }

  /** The base checks, axis "x" or "y", and at most a half turn. */
  function ValidateSettings(s: Settings, axis: string, degrees: real): (ok: bool)
    ensures ok <==> BaseAnimation.ValidateSettings(s) && axis in Axes && 0.0 <= degrees <= 180.0
  {
    BaseAnimation.ValidateSettings(s) && axis in Axes && degrees >= 0.0 && degrees <= 180.0
  }
}
