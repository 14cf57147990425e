/**
 * The registry that turns a preset name into a validated animation
 * instance (src/animations/animation-factory.js).
 */
module AnimationFactory {
  import opened Common
  import opened BaseAnimation
  import opened Animations
  import SlideAnimation
  import RotateAnimation
  import ZoomAnimation
  import FlipAnimation
  import BlurAnimation

  /** The registered type names, in the registry's insertion order. */
  const Types: seq<string> := [
    "fade", "slide-up", "slide-down", "slide-left", "slide-right",
    "zoom-in", "zoom-out", "rotate", "flip-x", "flip-y", "blur"]

  /** The settings argument: an object (an omitted argument is the empty object) or `null`. */
  datatype SettingsArg = NullSettings | Given(bag: SettingsBag)

  /** A constructor either returns an instance or throws (reading a key of `null`). */
  datatype Construction = Constructed(animation: Animation) | Threw

  function BagOf(arg: SettingsArg): SettingsBag
  {
    if arg.Given? then arg.bag else EmptyBag
  }

  /** `{ ...settings, direction: d }`: spreading `null` yields an empty object, so this never throws. */
  function WithDirection(arg: SettingsArg, d: string): (bag: SettingsBag)
    ensures bag.direction == Some(d) && bag.base == BagOf(arg).base
  {
    BagOf(arg).(direction := Some(d))
  }

  function WithAxis(arg: SettingsArg, a: string): (bag: SettingsBag)
    ensures bag.axis == Some(a) && bag.base == BagOf(arg).base
  {
    BagOf(arg).(axis := Some(a))
  }

  /**
   * `new AnimationClass(settings)` for a registered name. Rotate and blur read
   * their own keys straight off the argument, so they alone throw on `null`;
   * the direction and axis subclasses spread the argument into a new object first.
   */
  function Construct(name: string, arg: SettingsArg): (c: Construction)
    requires name in Types
    ensures c.Threw? <==> arg.NullSettings? && (name == "rotate" || name == "blur")
    ensures c.Constructed? ==> c.animation.settings == ResolveSettings(BagOf(arg).base)
    ensures c.Constructed? ==> EffectFits(name, c.animation.effect)
    ensures c.Constructed? && c.animation.effect.SlideEffect? ==> c.animation.effect.distance == SlideAnimation.DistanceOf(BagOf(arg))
    ensures c.Constructed? && c.animation.effect.ZoomEffect? ==> c.animation.effect.scale == ZoomAnimation.ScaleOf(BagOf(arg))
    ensures c.Constructed? && c.animation.effect.RotateEffect? ==>
      c.animation.effect.degrees == RotateAnimation.DegreesOf(BagOf(arg)) && c.animation.effect.rotation == RotateAnimation.DirectionOf(BagOf(arg))
    ensures c.Constructed? && c.animation.effect.FlipEffect? ==> c.animation.effect.flipDegrees == FlipAnimation.DegreesOf(BagOf(arg))
    ensures c.Constructed? && c.animation.effect.BlurEffect? ==> c.animation.effect.maxBlur == BlurAnimation.MaxBlurOf(BagOf(arg))
  {
    var settings := ResolveSettings(BagOf(arg).base);
    match name
    case "fade" => Constructed(Animation(settings, FadeEffect))
    case "slide-up" => SlideOf(settings, WithDirection(arg, "up"))
    case "slide-down" => SlideOf(settings, WithDirection(arg, "down"))
    case "slide-left" => SlideOf(settings, WithDirection(arg, "left"))
    case "slide-right" => SlideOf(settings, WithDirection(arg, "right"))
    case "zoom-in" => ZoomOf(settings, WithDirection(arg, "in"))
    case "zoom-out" => ZoomOf(settings, WithDirection(arg, "out"))
    case "rotate" =>
      if arg.NullSettings? then Threw
      else Constructed(Animation(settings, RotateEffect(RotateAnimation.DegreesOf(arg.bag), RotateAnimation.DirectionOf(arg.bag))))
    case "flip-x" => FlipOf(settings, WithAxis(arg, "x"))
    case "flip-y" => FlipOf(settings, WithAxis(arg, "y"))
    case "blur" =>
      if arg.NullSettings? then Threw
      else Constructed(Animation(settings, BlurEffect(BlurAnimation.MaxBlurOf(arg.bag))))
  }

  function SlideOf(settings: Settings, bag: SettingsBag): Construction
  {
    Constructed(Animation(settings, SlideEffect(SlideAnimation.DirectionOf(bag), SlideAnimation.DistanceOf(bag))))
  }

  function ZoomOf(settings: Settings, bag: SettingsBag): Construction
  {
    Constructed(Animation(settings, ZoomEffect(ZoomAnimation.DirectionOf(bag), ZoomAnimation.ScaleOf(bag))))
  }

  function FlipOf(settings: Settings, bag: SettingsBag): Construction
  {
    Constructed(Animation(settings, FlipEffect(FlipAnimation.AxisOf(bag), FlipAnimation.DegreesOf(bag))))
  }

  /** The effect a registered name stands for, with the direction or axis its class forces. */
  predicate EffectFits(name: string, e: Effect)
  {
    match name
    case "fade" => e.FadeEffect?
    case "slide-up" => e.SlideEffect? && e.direction == "up"
    case "slide-down" => e.SlideEffect? && e.direction == "down"
    case "slide-left" => e.SlideEffect? && e.direction == "left"
    case "slide-right" => e.SlideEffect? && e.direction == "right"
    case "zoom-in" => e.ZoomEffect? && e.zoom == "in"
    case "zoom-out" => e.ZoomEffect? && e.zoom == "out"
    case "rotate" => e.RotateEffect?
    case "flip-x" => e.FlipEffect? && e.axis == "x"
    case "flip-y" => e.FlipEffect? && e.axis == "y"
    case "blur" => e.BlurEffect?
    case _ => false
  }

  /**
   * `create(type, settings)`: `null` for an unknown name, for a constructor
   * that throws and for settings the instance rejects; otherwise a validated
   * instance of the class registered under the name.
   */
  function Create(name: string, arg: SettingsArg): (r: Option<Animation>)
    ensures name !in Types ==> r.None?
    ensures arg.NullSettings? && (name == "rotate" || name == "blur") ==> r.None?
    ensures r.Some? ==> Animations.ValidateSettings(r.value) && EffectFits(name, r.value.effect)
    ensures r.Some? ==> r.value.settings == ResolveSettings(BagOf(arg).base)
    ensures r.Some? && r.value.effect.SlideEffect? ==> r.value.effect.distance == SlideAnimation.DistanceOf(BagOf(arg))
    ensures r.Some? && r.value.effect.ZoomEffect? ==> r.value.effect.scale == ZoomAnimation.ScaleOf(BagOf(arg))
    ensures r.Some? && r.value.effect.RotateEffect? ==>
      r.value.effect.degrees == RotateAnimation.DegreesOf(BagOf(arg)) && r.value.effect.rotation == RotateAnimation.DirectionOf(BagOf(arg))
    ensures r.Some? && r.value.effect.FlipEffect? ==> r.value.effect.flipDegrees == FlipAnimation.DegreesOf(BagOf(arg))
    ensures r.Some? && r.value.effect.BlurEffect? ==> r.value.effect.maxBlur == BlurAnimation.MaxBlurOf(BagOf(arg))
    ensures name in Types && !(arg.NullSettings? && (name == "rotate" || name == "blur")) ==>
              (r.Some? <==> Animations.ValidateSettings(Construct(name, arg).animation))
  {
    if name !in Types then None
    else
      match Construct(name, arg)
      case Threw => None
      case Constructed(a) => if Animations.ValidateSettings(a) then Some(a) else None
  }

  /** Every registered name yields an instance when given the defaults. */
  lemma {:induction false} DefaultsAreAcceptedEverywhere(name: string)
    requires name in Types
    ensures Create(name, Given(EmptyBag)).Some?
  {
    var settings := ResolveSettings(NoOverrides);
    assert BaseAnimation.ValidateSettings(settings);
  }

  /** `getAvailableTypes`: the registered names in insertion order. */
  function GetAvailableTypes(): (names: seq<string>)
    ensures |names| == 11
    ensures forall i, j :: 0 <= i < j < |names| ==> names[i] != names[j]
  {
    Types
  }

  /** `isSupported`: the name is a key of the registry. */
  function IsSupported(name: string): (b: bool)
    ensures b <==> name in GetAvailableTypes()
    ensures !b ==> Create(name, Given(EmptyBag)).None?
  {
    name in Types
  }
}
