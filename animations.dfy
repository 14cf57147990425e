/**
 * An animation instance: the settings every subclass of BaseAnimation
 * carries plus the effect-specific state its constructor stored, with the
 * overridden methods dispatched by effect (src/animations/base-animation.js
 * and its subclasses).
 */
module Animations {
  import opened Common
  import opened BaseAnimation
  import SlideAnimation
  import RotateAnimation
  import ZoomAnimation
  import FlipAnimation
  import BlurAnimation

  /** The per-class state a constructor stores next to the settings. */
  datatype Effect =
    | BaseEffect
    | FadeEffect
    | SlideEffect(direction: string, distance: real)
    | RotateEffect(degrees: real, rotation: string)
    | ZoomEffect(zoom: string, scale: real)
    | FlipEffect(axis: string, flipDegrees: real)
    | BlurEffect(maxBlur: real)

  datatype Animation = Animation(settings: Settings, effect: Effect)

  /** `supportedProperties`: what the animation writes, and so what it declares in `will-change`. */
  function SupportedProperties(a: Animation): (props: seq<string>)
    ensures |props| > 0 && props[0] == "opacity"
    ensures a.effect.FadeEffect? <==> props == ["opacity"]
    ensures a.effect.BlurEffect? <==> props == ["opacity", "filter"]
  {
    match a.effect
    case FadeEffect => ["opacity"]
    case BlurEffect(_) => BlurAnimation.Properties
    case _ => ["opacity", "transform"]
  }

  function InitialStyles(a: Animation): (st: Styles)
    ensures st.opacity == 0.0
  {
    match a.effect
    case BaseEffect => BaseAnimation.InitialStyles()
    case FadeEffect => BaseAnimation.InitialStyles()
    case SlideEffect(direction, distance) => SlideAnimation.InitialStyles(direction, distance)
    case RotateEffect(degrees, rotation) => RotateAnimation.InitialStyles(degrees, rotation)
    case ZoomEffect(zoom, scale) => ZoomAnimation.InitialStyles(zoom, scale)
    case FlipEffect(axis, degrees) => FlipAnimation.InitialStyles(axis, degrees)
    case BlurEffect(maxBlur) => BlurAnimation.InitialStyles(maxBlur)
  }

  function AnimatedStyles(a: Animation, progress: real): (st: Styles)
    ensures st.opacity == progress
    ensures progress == 1.0 ==> AtRest(st)
  {
    match a.effect
    case BaseEffect => BaseAnimation.AnimatedStyles(progress)
    case FadeEffect => BaseAnimation.AnimatedStyles(progress)
    case SlideEffect(direction, distance) => SlideAnimation.AnimatedStyles(direction, distance, progress)
    case RotateEffect(degrees, rotation) => RotateAnimation.AnimatedStyles(degrees, rotation, progress)
    case ZoomEffect(zoom, scale) => ZoomAnimation.AnimatedStyles(zoom, scale, progress)
    case FlipEffect(axis, degrees) => FlipAnimation.AnimatedStyles(axis, degrees, progress)
    case BlurEffect(maxBlur) => BlurAnimation.AnimatedStyles(maxBlur, progress)
  }

  /** At zero progress every effect shows exactly its initial snapshot (blur needs a non-zero radius). */
  lemma {:induction false} AnimationStartsAtInitialSnapshot(a: Animation)
    requires a.effect.BlurEffect? ==> a.effect.maxBlur > 0.0
    ensures AnimatedStyles(a, 0.0) == InitialStyles(a)
  {
    match a.effect
    case BaseEffect =>
    case FadeEffect =>
    case SlideEffect(direction, distance) =>
    case RotateEffect(degrees, rotation) =>
    case ZoomEffect(zoom, scale) =>
    case FlipEffect(axis, degrees) =>
    case BlurEffect(maxBlur) =>
  }

  /**
   * `getTransition`: blur writes its own per-property value; every other
   * effect writes base-animation.js's value, in which only the last
   * supported property carries the timing.
   */
  function Transition(a: Animation): (t: BaseAnimation.Transition)
    ensures t.Transitions?
    ensures var props := SupportedProperties(a); DurationOf(t, props[|props| - 1]) == a.settings.duration
    ensures a.effect.FadeEffect? || a.effect.BlurEffect? ==>
      forall p :: p in SupportedProperties(a) ==> DurationOf(t, p) == a.settings.duration
    ensures !a.effect.FadeEffect? && !a.effect.BlurEffect? ==>
      DurationOf(t, "opacity") == 0.0 && DurationOf(t, "transform") == a.settings.duration
  {
    var props := SupportedProperties(a);
    if a.effect.BlurEffect? then BlurAnimation.Transition(a.settings)
    else
      AsWrittenTimesTheLast(props, a.settings);
      OpacityLosesItsTiming(a.settings);
      TransitionAsWritten(props, a.settings)
  }

  /** The intended transition: every supported property of every effect gets the configured timing. */
  function IntendedTransition(a: Animation): (t: BaseAnimation.Transition)
    ensures t.Transitions?
    ensures forall p :: p in SupportedProperties(a) ==> DurationOf(t, p) == a.settings.duration
    ensures a.effect.FadeEffect? || a.effect.BlurEffect? ==>
      forall p :: p in SupportedProperties(a) ==> DurationOf(t, p) == DurationOf(Transition(a), p)
  {
    var props := SupportedProperties(a);
    if a.effect.BlurEffect? then BlurAnimation.Transition(a.settings)
    else
      assert forall p :: p in props ==> DurationOf(TransitionPerProperty(props, a.settings), p) == a.settings.duration by {
        forall p | p in props ensures DurationOf(TransitionPerProperty(props, a.settings), p) == a.settings.duration {
          PerPropertyTimesEveryProperty(props, a.settings, p);
        }
      }
      TransitionPerProperty(props, a.settings)
  }

  /** The overriding `validateSettings` of each class: the base checks and the effect's own. */
  function ValidateSettings(a: Animation): (ok: bool)
    ensures ok ==> BaseAnimation.ValidateSettings(a.settings)
    ensures (a.effect.BaseEffect? || a.effect.FadeEffect?) ==> (ok <==> BaseAnimation.ValidateSettings(a.settings))
  {
    match a.effect
    case BaseEffect => BaseAnimation.ValidateSettings(a.settings)
    case FadeEffect => BaseAnimation.ValidateSettings(a.settings)
    case SlideEffect(direction, _) => SlideAnimation.ValidateSettings(a.settings, direction)
    case RotateEffect(degrees, rotation) => RotateAnimation.ValidateSettings(a.settings, degrees, rotation)
    case ZoomEffect(zoom, scale) => ZoomAnimation.ValidateSettings(a.settings, zoom, scale)
    case FlipEffect(axis, degrees) => FlipAnimation.ValidateSettings(a.settings, axis, degrees)
    case BlurEffect(maxBlur) => BlurAnimation.ValidateSettings(a.settings, maxBlur)
  }

  /** The keys one `applyStyles` call assigns onto `element.style`. */
  datatype StylePatch = StylePatch(styles: Styles, transition: BaseAnimation.Transition, willChange: seq<string>)

  /**
   * What `applyStyles` writes: the initial snapshot until progress is
   * positive, the animated styles after; no transition when immediate.
   */
  function PatchFor(a: Animation, progress: real, immediate: bool): (patch: StylePatch)
    ensures patch.styles.opacity == Max(0.0, progress)
    ensures progress > 0.0 ==> patch.styles == AnimatedStyles(a, progress)
    ensures progress <= 0.0 ==> patch.styles == InitialStyles(a)
    ensures patch.transition.NoTransition? <==> immediate
    ensures !immediate ==> patch.transition == Transition(a)
    ensures !immediate ==>
      DurationOf(patch.transition, "opacity") == if a.effect.FadeEffect? || a.effect.BlurEffect? then a.settings.duration else 0.0
    ensures patch.willChange == SupportedProperties(a)
  {
    StylePatch(
      if progress > 0.0 then AnimatedStyles(a, progress) else InitialStyles(a),
      if immediate then NoTransition else Transition(a),
      SupportedProperties(a))
  }

  /** The inline style of an element: the keys the engine writes, `None` while never written. */
  class InlineStyle {
    var opacity: Option<real>
    var transform: Option<Transform>
    var filter: Option<Filter>
    var transition: Option<BaseAnimation.Transition>
    var willChange: Option<seq<string>>

    constructor ()
      ensures opacity == None && transform == None && filter == None
      ensures transition == None && willChange == None
    {
      opacity, transform, filter, transition, willChange := None, None, None, None, None;
    }
  }

  /** `applyStyles`: `Object.assign` of the patch; keys the patch does not carry keep their value. */
  method ApplyStyles(a: Animation, element: InlineStyle, progress: real, immediate: bool)
    modifies element
    ensures var patch := PatchFor(a, progress, immediate);
      && element.opacity == Some(patch.styles.opacity)
      && element.transform == (if patch.styles.visual.TransformStyle? then Some(patch.styles.visual.transform) else old(element.transform))
      && element.filter == (if patch.styles.visual.FilterStyle? then Some(patch.styles.visual.filter) else old(element.filter))
      && element.transition == Some(patch.transition)
      && element.willChange == Some(SupportedProperties(a))
  {
    var styles := if progress > 0.0 then AnimatedStyles(a, progress) else InitialStyles(a);
    element.opacity := Some(styles.opacity);
    match styles.visual {
      case TransformStyle(t) => element.transform := Some(t);
      case FilterStyle(f) => element.filter := Some(f);
    }
    element.transition := Some(if immediate then NoTransition else Transition(a));
    element.willChange := Some(SupportedProperties(a));
  }
}
