/**
 * The shared part of every intersection-driven animation
 * (src/animations/base-animation.js): settings with defaults, the
 * progress curve, validation, style values and the transition value.
 */
module BaseAnimation {
  import opened Common

  /** The settings object an animation keeps after merging the caller's keys over the defaults. */
  datatype Settings = Settings(
    delay: real,
    duration: real,
    easing: string,
    startThreshold: real,
    endThreshold: real,
    playOnce: bool)

  /** The keys a caller passes; `None` is a key the settings object does not have. */
  datatype Overrides = Overrides(
    delay: Option<real>,
    duration: Option<real>,
    easing: Option<string>,
    startThreshold: Option<real>,
    endThreshold: Option<real>,
    playOnce: Option<bool>)

  const NoOverrides := Overrides(None, None, None, None, None, None)

  /** The settings bag a constructor receives: the base keys plus the keys the effects read. */
  datatype SettingsBag = SettingsBag(
    base: Overrides,
    direction: Option<string>,
    distance: Option<real>,
    degrees: Option<real>,
    maxBlur: Option<real>,
    scale: Option<real>,
    axis: Option<string>)

  const EmptyBag := SettingsBag(NoOverrides, None, None, None, None, None, None)

  /** Defaults spread first, the caller's keys second. */
  function ResolveSettings(o: Overrides): (s: Settings)
    ensures o == NoOverrides ==> s == Settings(0.0, 600.0, "ease-out", 0.1, 0.9, false)
    ensures o.delay.Some? ==> s.delay == o.delay.value
    ensures o.delay.None? ==> s.delay == 0.0
    ensures o.duration.Some? ==> s.duration == o.duration.value
    ensures o.duration.None? ==> s.duration == 600.0
    ensures o.easing.Some? ==> s.easing == o.easing.value
    ensures o.easing.None? ==> s.easing == "ease-out"
    ensures o.startThreshold.Some? ==> s.startThreshold == o.startThreshold.value
    ensures o.startThreshold.None? ==> s.startThreshold == 0.1
    ensures o.endThreshold.Some? ==> s.endThreshold == o.endThreshold.value
    ensures o.endThreshold.None? ==> s.endThreshold == 0.9
    ensures o.playOnce.Some? ==> s.playOnce == o.playOnce.value
    ensures o.playOnce.None? ==> !s.playOnce
  {
    Settings(
      GetOr(o.delay, 0.0),
      GetOr(o.duration, 600.0),
      GetOr(o.easing, "ease-out"),
      GetOr(o.startThreshold, 0.1),
      GetOr(o.endThreshold, 0.9),
      GetOr(o.playOnce, false))
  }

  // ---------------------------------------------------------------- progress

  /** Progress before the final clamp: 0 below the start threshold, 1 at or past the end, linear between. */
  function RawProgress(s: Settings, ratio: real): real
  {
    if ratio >= s.startThreshold then
      if ratio >= s.endThreshold then 1.0
      else (ratio - s.startThreshold) / (s.endThreshold - s.startThreshold)
    else 0.0
  }

  lemma QuotientInUnit(x: real, y: real)
    requires 0.0 <= x < y
    ensures 0.0 <= x / y < 1.0
  {
    assert x / y * y == x;
  }

  lemma QuotientMonotone(x1: real, x2: real, y: real)
    requires x1 <= x2 && y > 0.0
    ensures x1 / y <= x2 / y
  {
    assert x1 / y * y == x1;
    assert x2 / y * y == x2;
  }

  /** The `Math.min(1, Math.max(0, …))` clamp never changes the value: the curve already lies in [0, 1]. */
  lemma {:induction false} RawProgressInUnit(s: Settings, ratio: real)
    ensures 0.0 <= RawProgress(s, ratio) <= 1.0
  {
    if s.startThreshold <= ratio < s.endThreshold {
      QuotientInUnit(ratio - s.startThreshold, s.endThreshold - s.startThreshold);
    }
  }

  /** Maps an intersection ratio to a progress value in [0, 1]. */
  function CalculateProgress(s: Settings, ratio: real, isVisible: bool, hasAnimated: bool): (p: real)
    ensures 0.0 <= p <= 1.0
    ensures !isVisible ==> p == 0.0
    ensures isVisible && ratio < s.startThreshold ==> p == 0.0
    ensures isVisible && ratio >= s.startThreshold && ratio >= s.endThreshold ==> p == 1.0
    ensures isVisible && s.startThreshold <= ratio < s.endThreshold ==>
              p * (s.endThreshold - s.startThreshold) == ratio - s.startThreshold
  {
    if !isVisible then 0.0
    else
      RawProgressInUnit(s, ratio);
      Min(1.0, Max(0.0, RawProgress(s, ratio)))
  }

  /** A larger intersection ratio never gives less progress, whatever the thresholds. */
  lemma {:induction false} ProgressMonotone(s: Settings, r1: real, r2: real, hasAnimated: bool)
    requires r1 <= r2
    ensures CalculateProgress(s, r1, true, hasAnimated) <= CalculateProgress(s, r2, true, hasAnimated)
  {
    var a, b := s.startThreshold, s.endThreshold;
    if a <= r1 && r2 < b {
      QuotientMonotone(r1 - a, r2 - a, b - a);
    } else if a <= r1 < b {
      QuotientInUnit(r1 - a, b - a);
    }
  }

  /** Equal thresholds make the curve a step at that threshold. */
  lemma StepWhenThresholdsMeet(s: Settings, ratio: real, hasAnimated: bool)
    requires s.startThreshold == s.endThreshold
    ensures CalculateProgress(s, ratio, true, hasAnimated) == if ratio >= s.startThreshold then 1.0 else 0.0
  {
  }

  // -------------------------------------------------------------- validation

  /** Thresholds ordered inside [0, 1], a positive duration and a non-negative delay. */
  function ValidateSettings(s: Settings): (ok: bool)
    ensures ok <==> 0.0 <= s.startThreshold <= s.endThreshold <= 1.0 && s.duration > 0.0 && s.delay >= 0.0
  {
    s.startThreshold >= 0.0 && s.startThreshold <= 1.0 &&
    s.endThreshold >= 0.0 && s.endThreshold <= 1.0 &&
    s.startThreshold <= s.endThreshold &&
    s.duration > 0.0 && s.delay >= 0.0
  }

  /** With valid settings a fully visible element is fully animated and a hidden one is not. */
  lemma {:induction false} ValidSettingsSpanTheCurve(s: Settings, hasAnimated: bool)
    requires ValidateSettings(s)
    ensures CalculateProgress(s, 1.0, true, hasAnimated) == 1.0
    ensures s.startThreshold > 0.0 ==> CalculateProgress(s, 0.0, true, hasAnimated) == 0.0
  {
  }

  // ------------------------------------------------------------------ styles

  /** The CSS transform values the effects write; `perspective(1000px)` is part of the two flip forms. */
  datatype Transform =
    | NoTransform
    | TranslateX(px: real)
    | TranslateY(px: real)
    | Rotate(deg: real)
    | Scale(factor: real)
    | PerspectiveRotateX(deg: real)
    | PerspectiveRotateY(deg: real)

  /** The CSS filter values the blur effect writes. */
  datatype Filter = NoFilter | BlurFilter(px: real)

  /** The second key of a style object: `transform` for most effects, `filter` for blur. */
  datatype Visual = TransformStyle(transform: Transform) | FilterStyle(filter: Filter)

  datatype Styles = Styles(opacity: real, visual: Visual)

  /** A transform that leaves the element where the layout puts it. */
  predicate IsIdentity(t: Transform)
  {
    match t
    case NoTransform => true
    case TranslateX(px) => px == 0.0
    case TranslateY(px) => px == 0.0
    case Rotate(deg) => deg == 0.0
    case Scale(factor) => factor == 1.0
    case PerspectiveRotateX(deg) => deg == 0.0
    case PerspectiveRotateY(deg) => deg == 0.0
  }

  /** The end state of every effect: fully opaque and untransformed, unfiltered. */
  predicate AtRest(st: Styles)
  {
    st.opacity == 1.0 &&
    match st.visual
    case TransformStyle(t) => IsIdentity(t)
    case FilterStyle(f) => f == NoFilter
  }

  /** The base class's style before any progress: hidden, untransformed. */
  function InitialStyles(): (st: Styles)
    ensures st.opacity == 0.0 && st.visual == TransformStyle(NoTransform)
  {
    Styles(0.0, TransformStyle(NoTransform))
  }

  /** The base class's style at a progress: opacity follows progress, nothing moves. */
  function AnimatedStyles(progress: real): (st: Styles)
    ensures progress == 0.0 ==> st == InitialStyles()
    ensures progress == 1.0 ==> AtRest(st)
  {
    Styles(progress, TransformStyle(NoTransform))
  }

  // -------------------------------------------------------------- transition

  datatype Timing = Timing(duration: real, easing: string, delay: real)

  /**
   * One comma-separated item of a CSS `transition` value. An item that
   * names a property without a time transitions it over 0s.
   */
  datatype TransitionItem = TransitionItem(property: string, timing: Option<Timing>)

  /** A `transition` value: `none`, or a list of items. */
  datatype Transition = NoTransition | Transitions(items: seq<TransitionItem>)

  function SettingsTiming(s: Settings): Timing
  {
    Timing(s.duration, s.easing, s.delay)
  }

  /** How long a property transitions under a list of items: the last item naming it decides. */
  function ItemsDuration(items: seq<TransitionItem>, property: string): real
  {
    if items == [] then 0.0
    else
      var last := items[|items| - 1];
      if last.property == property then
        if last.timing.Some? then last.timing.value.duration else 0.0
      else ItemsDuration(items[..|items| - 1], property)
  }

  function DurationOf(t: Transition, property: string): real
  {
    if t.NoTransition? then 0.0 else ItemsDuration(t.items, property)
  }

  /**
   * The value base-animation.js builds: the property names joined by ", ",
   * then one duration, easing and delay. Read as CSS, only the last name
   * carries the timing.
   */
  function TransitionAsWritten(properties: seq<string>, s: Settings): (t: Transition)
    ensures t.Transitions? && |t.items| == |properties|
    ensures forall i :: 0 <= i < |properties| ==> t.items[i].property == properties[i]
    ensures forall i :: 0 <= i < |properties| - 1 ==> t.items[i].timing.None?
  {
    Transitions(seq(|properties|, i requires 0 <= i < |properties| =>
      TransitionItem(properties[i], if i == |properties| - 1 then Some(SettingsTiming(s)) else None)))
  }

  /** As written, the default opacity-and-transform transition gives opacity no duration at all. */
  lemma {:induction false} OpacityLosesItsTiming(s: Settings)
    ensures DurationOf(TransitionAsWritten(["opacity", "transform"], s), "opacity") == 0.0
    ensures DurationOf(TransitionAsWritten(["opacity", "transform"], s), "transform") == s.duration
  {
    var t := TransitionAsWritten(["opacity", "transform"], s);
    assert t.items == [TransitionItem("opacity", None), TransitionItem("transform", Some(SettingsTiming(s)))];
    assert t.items[..1] == [TransitionItem("opacity", None)];
    assert "transform" != "opacity" by { assert "transform"[0] != "opacity"[0]; }
    assert ItemsDuration(t.items[..1], "opacity") == 0.0;
  }

  /** As written, the last property named is the one that carries the configured duration. */
  lemma {:induction false} AsWrittenTimesTheLast(properties: seq<string>, s: Settings)
    requires |properties| > 0
    ensures DurationOf(TransitionAsWritten(properties, s), properties[|properties| - 1]) == s.duration
  {
    var t := TransitionAsWritten(properties, s);
    assert t.items[|t.items| - 1] == TransitionItem(properties[|properties| - 1], Some(SettingsTiming(s)));
  }

  /** Every item carries the configured timing, as blur.js writes its own transition. */
  function TransitionPerProperty(properties: seq<string>, s: Settings): (t: Transition)
    ensures t.Transitions? && |t.items| == |properties|
    ensures forall i :: 0 <= i < |properties| ==> t.items[i] == TransitionItem(properties[i], Some(SettingsTiming(s)))
  {
    Transitions(seq(|properties|, i requires 0 <= i < |properties| => TransitionItem(properties[i], Some(SettingsTiming(s)))))
  }

  lemma {:induction false} UniformItemsDuration(items: seq<TransitionItem>, property: string, timing: Timing)
    requires forall i :: 0 <= i < |items| ==> items[i].timing == Some(timing)
    requires exists i :: 0 <= i < |items| && items[i].property == property
    ensures ItemsDuration(items, property) == timing.duration
  {
    var last := items[|items| - 1];
    if last.property != property {
      var i :| 0 <= i < |items| && items[i].property == property;
      assert items[..|items| - 1][i].property == property;
      UniformItemsDuration(items[..|items| - 1], property, timing);
    }
  }

  /** With per-property timing every listed property transitions over the configured duration. */
  lemma {:induction false} PerPropertyTimesEveryProperty(properties: seq<string>, s: Settings, property: string)
    requires property in properties
    ensures DurationOf(TransitionPerProperty(properties, s), property) == s.duration
  {
    var t := TransitionPerProperty(properties, s);
    var i :| 0 <= i < |properties| && properties[i] == property;
    assert t.items[i].property == property;
    UniformItemsDuration(t.items, property, SettingsTiming(s));
  }
}
