/** The slide effect (src/animations/slide.js): the element travels back to its place along one axis. */
module SlideAnimation {
  import opened Common
  import opened BaseAnimation

  const Directions: seq<string> := ["up", "down", "left", "right"]

  /** `settings.direction || "up"`. */
  function DirectionOf(bag: SettingsBag): (d: string)
    ensures bag.direction.None? ==> d == "up"
    ensures bag.direction == Some("") ==> d == "up"
    ensures bag.direction.Some? && bag.direction.value != "" ==> d == bag.direction.value
    ensures d != ""
  {
    StringOr(bag.direction, "up")
  }

  /** `settings.distance || 50`, in pixels. */
  function DistanceOf(bag: SettingsBag): (px: real)
    ensures bag.distance.None? ==> px == 50.0
    ensures bag.distance == Some(0.0) ==> px == 50.0
    ensures bag.distance.Some? && bag.distance.value != 0.0 ==> px == bag.distance.value
    ensures px != 0.0
  {
    NumberOr(bag.distance, 50.0)
  }

  /** The translation still to cover, as a signed horizontal and vertical offset in pixels. */
  function Offset(t: Transform): (real, real)
  {
    match t
    case TranslateX(px) => (px, 0.0)
    case TranslateY(px) => (0.0, px)
    case _ => (0.0, 0.0)
  }

  /** Where the element starts relative to its place: below for "up", above for "down", right for "left", left for "right". */
  function StartOffset(direction: string, distance: real): (real, real)
  {
    if direction == "up" then (0.0, distance)
    else if direction == "down" then (0.0, -distance)
    else if direction == "left" then (distance, 0.0)
    else if direction == "right" then (-distance, 0.0)
    else (0.0, 0.0)
  }

  /** The remaining offset is the starting offset scaled by `1 - progress`; an unknown direction does not move. */
  function TransformForProgress(direction: string, distance: real, progress: real): (t: Transform)
    ensures Offset(t).0 == StartOffset(direction, distance).0 * (1.0 - progress)
    ensures Offset(t).1 == StartOffset(direction, distance).1 * (1.0 - progress)
    ensures direction !in Directions ==> t == NoTransform
    ensures progress == 1.0 ==> IsIdentity(t)
  {
    var remaining := distance * (1.0 - progress);
    assert progress == 1.0 ==> remaining == 0.0;
    match direction
    case "up" => TranslateY(remaining)
    case "down" => TranslateY(-remaining)
    case "left" => TranslateX(remaining)
    case "right" => TranslateX(-remaining)
    case _ => NoTransform
  }

  /** Opposite directions travel the same path mirrored. */
  lemma OppositeDirectionsMirror(distance: real, progress: real)
    ensures Offset(TransformForProgress("down", distance, progress)).1 == -Offset(TransformForProgress("up", distance, progress)).1
    ensures Offset(TransformForProgress("right", distance, progress)).0 == -Offset(TransformForProgress("left", distance, progress)).0
  {
  }

  function InitialStyles(direction: string, distance: real): (st: Styles)
    ensures st.opacity == 0.0
    ensures st.visual.TransformStyle?
    ensures Offset(st.visual.transform) == StartOffset(direction, distance)
    ensures direction in Directions ==>
      var (dx, dy) := Offset(st.visual.transform); dx * dx + dy * dy == distance * distance
  {
    Styles(0.0, TransformStyle(TransformForProgress(direction, distance, 0.0)))
  }

  function AnimatedStyles(direction: string, distance: real, progress: real): (st: Styles)
    ensures st.opacity == progress
    ensures progress == 0.0 ==> st == InitialStyles(direction, distance)
    ensures progress == 1.0 ==> AtRest(st)
  {
    Styles(progress, TransformStyle(TransformForProgress(direction, distance, progress)))
  }

  /** The base checks plus one of the four directions. */
  function ValidateSettings(s: Settings, direction: string): (ok: bool)
    ensures ok ==> BaseAnimation.ValidateSettings(s)
    ensures ok <==> BaseAnimation.ValidateSettings(s) && direction in Directions
  {
    BaseAnimation.ValidateSettings(s) && direction in Directions
  }
}
