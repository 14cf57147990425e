/**
 * The block context a motion element carries and the resolved timing the
 * frontend derives from it (src/frontend/utils/motion-options.ts, with the
 * context shape of src/types/index.ts).
 */
module MotionOptions {
  import opened Common

  /**
   * The `data-wp-context` of a block. Numbers and strings the context may
   * leave out are `None`; falsy values fall back to defaults where used.
   */
  datatype MotionContext = MotionContext(
    motionEnabled: bool,
    motionType: string,
    motionDuration: Option<real>,
    motionDelay: Option<real>,
    motionTimingFunction: Option<string>,
    motionScrollEnabled: bool,
    motionScrollRange: Option<real>)

  /** Timing handed to the Web Animations API plus the entrance observer's threshold. */
  datatype Options = Options(duration: real, delay: real, easing: string, fill: string, threshold: real)

  /** The scroll range used when the context gives none (or 0), in percent. */
  const DefaultScrollRange := 30.0

  /** `max(0.1, min(1, range / 100))`: a percentage turned into an intersection ratio. */
  function CalculateVisibilityThreshold(scrollRange: real): (t: real)
    ensures 0.1 <= t <= 1.0
    ensures 10.0 <= scrollRange <= 100.0 ==> t == scrollRange / 100.0
    ensures scrollRange <= 10.0 ==> t == 0.1
    ensures scrollRange >= 100.0 ==> t == 1.0
  {
    Max(0.1, Min(1.0, scrollRange / 100.0))
  }

  /** A wider scroll range never lowers the threshold. */
  lemma {:induction false} ThresholdMonotone(r1: real, r2: real)
    requires r1 <= r2
    ensures CalculateVisibilityThreshold(r1) <= CalculateVisibilityThreshold(r2)
  {
    assert r1 / 100.0 <= r2 / 100.0;
  }

  /** `createMotionOptions`: falsy values take the defaults 600, 0, "ease-out" and a 30% range. */
  function CreateMotionOptions(ctx: MotionContext): (o: Options)
    ensures o.fill == "forwards"
    ensures 0.1 <= o.threshold <= 1.0
    ensures o.duration == NumberOr(ctx.motionDuration, 600.0) && o.duration != 0.0
    ensures o.delay == NumberOr(ctx.motionDelay, 0.0)
    ensures o.easing == StringOr(ctx.motionTimingFunction, "ease-out") && o.easing != ""
    ensures o.threshold == CalculateVisibilityThreshold(NumberOr(ctx.motionScrollRange, DefaultScrollRange))
  {
    Options(
      NumberOr(ctx.motionDuration, 600.0),
      NumberOr(ctx.motionDelay, 0.0),
      StringOr(ctx.motionTimingFunction, "ease-out"),
      "forwards",
      CalculateVisibilityThreshold(NumberOr(ctx.motionScrollRange, DefaultScrollRange)))
  }

  /** A context without a scroll range, or with 0, watches for 30% visibility. */
  lemma {:induction false} MissingRangeGivesDefaultThreshold(ctx: MotionContext)
    requires ctx.motionScrollRange.None? || ctx.motionScrollRange == Some(0.0)
    ensures CreateMotionOptions(ctx).threshold == 0.3
  {
    assert NumberOr(ctx.motionScrollRange, DefaultScrollRange) == 30.0;
  }
}
