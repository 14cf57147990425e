/** The zoom effect (src/animations/zoom.js): the element scales back to its natural size. */
module ZoomAnimation {
  import opened Common
  import opened BaseAnimation

  const Directions: seq<string> := ["in", "out"]

  /** `settings.direction || "in"`. */
  function DirectionOf(bag: SettingsBag): (d: string)
    ensures bag.direction.None? ==> d == "in"
    ensures bag.direction == Some("") ==> d == "in"
    ensures bag.direction.Some? && bag.direction.value != "" ==> d == bag.direction.value
    ensures d != ""
  {
    StringOr(bag.direction, "in")
  }

  /** `settings.scale || 0.8`. */
  function ScaleOf(bag: SettingsBag): (s: real)
    ensures bag.scale.None? ==> s == 0.8
    ensures bag.scale == Some(0.0) ==> s == 0.8
    ensures bag.scale.Some? && bag.scale.value != 0.0 ==> s == bag.scale.value
    ensures s != 0.0
  {
    NumberOr(bag.scale, 0.8)
  }

  /**
   * "in" grows from `scale` to 1; any other direction shrinks from `1 + scale` to 1.
   * Both reach exactly 1 at full progress.
   */
  function TransformForProgress(direction: string, scale: real, progress: real): (t: Transform)
    ensures t.Scale?
    ensures progress == 0.0 ==> t.factor == (if direction == "in" then scale else 1.0 + scale)
    ensures progress == 1.0 ==> t == Scale(1.0)
    ensures direction == "in" ==> t.factor - scale == progress * (1.0 - scale)
    ensures direction != "in" ==> (1.0 + scale) - t.factor == progress * scale
  {
    Scale(if direction == "in" then scale + progress * (1.0 - scale) else 1.0 + scale - progress * scale)
  }

  /** For a valid zoom-in the element is never larger than natural size before it finishes, and grows monotonically. */
  lemma {:induction false} ZoomInGrows(scale: real, p1: real, p2: real)
    requires 0.0 < scale < 1.0 && 0.0 <= p1 <= p2 <= 1.0
    ensures TransformForProgress("in", scale, p1).factor <= TransformForProgress("in", scale, p2).factor <= 1.0
  {
    var q := 1.0 - scale;
    ScaleByNonNegative(p1, p2, q);
    ScaleByNonNegative(p2, 1.0, q);
    var f1, f2 := TransformForProgress("in", scale, p1).factor, TransformForProgress("in", scale, p2).factor;
    assert f1 == scale + p1 * q;
    assert f2 == scale + p2 * q;
    assert 1.0 * q == q;
    assert f1 <= f2 <= 1.0;
  }

  lemma ScaleByNonNegative(a: real, b: real, c: real)
    requires a <= b && c >= 0.0
    ensures a * c <= b * c
  {
    assert b * c - a * c == (b - a) * c;
  }

  function InitialStyles(direction: string, scale: real): (st: Styles)
    ensures st.opacity == 0.0 && st.visual == TransformStyle(Scale(if direction == "in" then scale else 1.0 + scale))
  {
    Styles(0.0, TransformStyle(TransformForProgress(direction, scale, 0.0)))
  }

  function AnimatedStyles(direction: string, scale: real, progress: real): (st: Styles)
    ensures st.opacity == progress
    ensures progress == 0.0 ==> st == InitialStyles(direction, scale)
    ensures progress == 1.0 ==> AtRest(st)
  {
    Styles(progress, TransformStyle(TransformForProgress(direction, scale, progress)))
  }

  /** The base checks, "in" or "out", and a scale strictly between 0 and 2. */
  function ValidateSettings(s: Settings, direction: string, scale: real): (ok: bool)
    ensures ok <==> BaseAnimation.ValidateSettings(s) && direction in Directions && 0.0 < scale < 2.0
  {
    BaseAnimation.ValidateSettings(s) && direction in Directions && scale > 0.0 && scale < 2.0
  }
}
