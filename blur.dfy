/** The blur effect (src/animations/blur.js): the element comes into focus while it fades in. */
module BlurAnimation {
  import opened Common
  import opened BaseAnimation

  const Properties: seq<string> := ["opacity", "filter"]

  /** `settings.maxBlur || 10`, in pixels. */
  function MaxBlurOf(bag: SettingsBag): (px: real)
    ensures bag.maxBlur.None? ==> px == 10.0
    ensures bag.maxBlur == Some(0.0) ==> px == 10.0
    ensures bag.maxBlur.Some? && bag.maxBlur.value != 0.0 ==> px == bag.maxBlur.value
    ensures px != 0.0
  {
    NumberOr(bag.maxBlur, 10.0)
  }

  function InitialStyles(maxBlur: real): (st: Styles)
    ensures st.opacity == 0.0 && st.visual == FilterStyle(BlurFilter(maxBlur))
  {
    Styles(0.0, FilterStyle(BlurFilter(maxBlur)))
  }

  /** The blur radius shrinks linearly to 0, and a radius that is not positive is written as no filter. */
  function AnimatedStyles(maxBlur: real, progress: real): (st: Styles)
    ensures st.opacity == progress
    ensures st.visual.FilterStyle?
    ensures st.visual.filter.BlurFilter? ==> st.visual.filter.px > 0.0 && st.visual.filter.px == maxBlur * (1.0 - progress)
    ensures st.visual.filter.NoFilter? <==> maxBlur * (1.0 - progress) <= 0.0
    ensures maxBlur > 0.0 && progress == 0.0 ==> st == InitialStyles(maxBlur)
    ensures progress == 1.0 ==> AtRest(st)
  {
    var amount := maxBlur * (1.0 - progress);
    Styles(progress, FilterStyle(if amount > 0.0 then BlurFilter(amount) else NoFilter))
  }

  /** Blur writes its own transition with a timing on each of its two properties. */
  function Transition(s: Settings): (t: BaseAnimation.Transition)
    ensures DurationOf(t, "opacity") == s.duration && DurationOf(t, "filter") == s.duration
  {
    var timing := SettingsTiming(s);
    var t := Transitions([TransitionItem("opacity", Some(timing)), TransitionItem("filter", Some(timing))]);
    assert t == TransitionPerProperty(Properties, s);
    PerPropertyTimesEveryProperty(Properties, s, "opacity");
    PerPropertyTimesEveryProperty(Properties, s, "filter");
    t
  }

  /** The base checks and a radius between 0 and 50 pixels. */
  function ValidateSettings(s: Settings, maxBlur: real): (ok: bool)
    ensures ok <==> BaseAnimation.ValidateSettings(s) && 0.0 <= maxBlur <= 50.0
  {
    BaseAnimation.ValidateSettings(s) && maxBlur >= 0.0 && maxBlur <= 50.0
  }
}
