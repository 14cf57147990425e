/**
 * Building a scroll-driven animation for an element
 * (src/frontend/animations/create-scroll-animation.ts): the keyframe lookup
 * by scroll type, the completion-point clamp and the view-timeline range
 * written onto the new animation. The ViewTimeline constructor and
 * `element.animate` are foreign; whether they throw is an input.
 */
module ScrollAnimation {
  import opened Common
  import opened SharedTypes

  /** The keyframe sets of src/frontend/animations/keyframes/scroll/, one per file. */
  datatype Keyframes =
    | FadeInUp | FadeInDown | ScaleIn | SlideInLeft | SlideInRight | RotateIn
    | FadeEnterLeave | ScaleEnterLeave | SlideEnterLeave

  const EntryTable: map<string, Keyframes> := map[
    "fade-in-up" := FadeInUp, "fade-in-down" := FadeInDown, "scale-in" := ScaleIn,
    "slide-in-left" := SlideInLeft, "slide-in-right" := SlideInRight, "rotate-in" := RotateIn]

  /**
   * The table as written: the three enter-and-leave entries are keyed by
   * enum members that do not exist, so each computed key is the string
   * "undefined" and the last assignment wins.
   */
  const TableAsWritten: map<string, Keyframes> :=
    EntryTable["undefined" := FadeEnterLeave]["undefined" := ScaleEnterLeave]["undefined" := SlideEnterLeave]

  /** As written, two enter-and-leave keyframe sets are unreachable and the third answers to "undefined". */
  lemma {:induction false} EnterLeaveKeysCollapse()
    ensures TableAsWritten["undefined"] == SlideEnterLeave
    ensures FadeEnterLeave !in TableAsWritten.Values && ScaleEnterLeave !in TableAsWritten.Values
    ensures "fade-enter-leave" !in TableAsWritten && "slide-enter-leave" !in TableAsWritten
  {
    assert TableAsWritten == EntryTable["undefined" := SlideEnterLeave];
    forall k | k in TableAsWritten ensures TableAsWritten[k] != FadeEnterLeave && TableAsWritten[k] != ScaleEnterLeave {
      if k != "undefined" {
        assert k in EntryTable;
      }
    }
  }

  /**
   * `SCROLL_ANIMATION_KEYFRAMES[animationType]` over the table as written:
   * the entry presets find their sets, no enter-and-leave name finds
   * anything, and the string "undefined" finds the slide enter-and-leave set.
   */
  function LookupKeyframesAsWritten(animationType: string): (kf: Option<Keyframes>)
    ensures kf.Some? <==> animationType in ScrollPresets || animationType == "undefined"
    ensures animationType == "undefined" ==> kf == Some(SlideEnterLeave)
    ensures animationType in EnterLeaveTypes ==> kf.None?
    ensures kf != Some(FadeEnterLeave) && kf != Some(ScaleEnterLeave)
  {
    EnterLeaveKeysCollapse();
    if animationType in TableAsWritten then Some(TableAsWritten[animationType]) else None
  }

  /** The names the enter-and-leave keyframe files carry. */
  const EnterLeaveTypes: seq<string> := ["fade-enter-leave", "scale-enter-leave", "slide-enter-leave"]

  /** The table with each enter-and-leave set under its own name. */
  const Table: map<string, Keyframes> :=
    EntryTable["fade-enter-leave" := FadeEnterLeave]["scale-enter-leave" := ScaleEnterLeave]["slide-enter-leave" := SlideEnterLeave]

  /** The intended lookup: every keyframe set is reachable under exactly one name, its own. */
  function LookupKeyframes(animationType: string): (kf: Option<Keyframes>)
    ensures kf.Some? <==> animationType in ScrollPresets || animationType in EnterLeaveTypes
    ensures animationType == "undefined" ==> kf.None?
  {
    if animationType in Table then Some(Table[animationType]) else None
  }

  /** The file name each keyframe set comes from. */
  function NameOf(kf: Keyframes): string
  {
    match kf
    case FadeInUp => "fade-in-up"
    case FadeInDown => "fade-in-down"
    case ScaleIn => "scale-in"
    case SlideInLeft => "slide-in-left"
    case SlideInRight => "slide-in-right"
    case RotateIn => "rotate-in"
    case FadeEnterLeave => "fade-enter-leave"
    case ScaleEnterLeave => "scale-enter-leave"
    case SlideEnterLeave => "slide-enter-leave"
  }

  /** Every keyframe set is found under its own name and under no other. */
  lemma {:induction false} LookupFindsExactlyItsName(name: string, kf: Keyframes)
    ensures LookupKeyframes(NameOf(kf)) == Some(kf)
    ensures LookupKeyframes(name) == Some(kf) ==> name == NameOf(kf)
  {
    if LookupKeyframes(name) == Some(kf) {
      assert name in Table;
      assert name in EntryTable || name in EnterLeaveTypes;
    }
  }

  /** The two lookups agree on every entry preset and differ exactly on the enter-and-leave names and "undefined". */
  lemma {:induction false} LookupsAgreeOnEntryPresets(name: string)
    ensures name in ScrollPresets ==> LookupKeyframesAsWritten(name) == LookupKeyframes(name)
    ensures name in EnterLeaveTypes || name == "undefined" ==> LookupKeyframesAsWritten(name) != LookupKeyframes(name)
  {
    if name in ScrollPresets {
      assert name in EntryTable;
    }
  }

  /** `Math.max(10, Math.min(90, completionPoint))`. */
  function ClampCompletionPoint(completionPoint: real): (c: real)
    ensures 10.0 <= c <= 90.0
    ensures 10.0 <= completionPoint <= 90.0 ==> c == completionPoint
    ensures completionPoint < 10.0 ==> c == 10.0
    ensures completionPoint > 90.0 ==> c == 90.0
  {
    Max(10.0, Min(90.0, completionPoint))
  }

  /** A view-timeline range offset such as `cover 30%`: a named phase and a percentage into it. */
  datatype RangeOffset = RangeOffset(phase: string, percent: real)

  /** The range the animation runs over: from the element's entry until the clamped point of the cover phase. */
  function RangeFor(completionPoint: real): (range: (RangeOffset, RangeOffset))
    ensures range.0 == RangeOffset("entry", 0.0)
    ensures range.1.phase == "cover" && 10.0 <= range.1.percent <= 90.0
    ensures range.1.percent == ClampCompletionPoint(completionPoint)
  {
    (RangeOffset("entry", 0.0), RangeOffset("cover", ClampCompletionPoint(completionPoint)))
  }

  /** The Web Animation `element.animate` returns; the range fields are written after creation. */
  class PlatformAnimation {
    const keyframes: Keyframes
    var rangeStart: Option<RangeOffset>
    var rangeEnd: Option<RangeOffset>

    constructor (kf: Keyframes)
      ensures keyframes == kf && rangeStart.None? && rangeEnd.None?
    {
      keyframes := kf;
      rangeStart, rangeEnd := None, None;
    }
  }

  /**
   * `createScrollAnimation`: `null` when the table as written has no
   * keyframes for the type and whenever the platform throws; otherwise a
   * new animation with those keyframes and the range for the clamped
   * completion point.
   */
  method CreateScrollAnimation(animationType: string, completionPoint: real, platformThrows: bool)
    returns (animation: PlatformAnimation?)
    ensures animation == null <==> LookupKeyframesAsWritten(animationType).None? || platformThrows
    ensures animation != null ==>
      && fresh(animation)
      && animation.keyframes == LookupKeyframesAsWritten(animationType).value
      && animation.rangeStart == Some(RangeFor(completionPoint).0)
      && animation.rangeEnd == Some(RangeFor(completionPoint).1)
  {
    var keyframes := LookupKeyframesAsWritten(animationType);
    if keyframes.None? {
      return null;
    }
    if platformThrows {
      return null;
    }
    animation := new PlatformAnimation(keyframes.value);
    var safeCompletionPoint := Max(10.0, Min(90.0, completionPoint));
    animation.rangeStart := Some(RangeOffset("entry", 0.0));
    animation.rangeEnd := Some(RangeOffset("cover", safeCompletionPoint));
  }
}
