/**
 * The core animation catalogue and the type guards over it: the named
 * groups of entrance and scroll animations
 * (src/core/animations/entrance/keyframes/index.ts,
 * src/core/animations/scroll/keyframes/index.ts), the preset lists composed
 * from the same name arrays in the same order, and the conversions of
 * src/core/utils/animation.ts.
 */
module CoreAnimation {
  import opened Common

  /** A named group of animation names, one entry of `*_ANIMATION_GROUPS`. */
  datatype Group = Group(name: string, members: seq<string>)

  /** `ENTRANCE_ANIMATION_GROUPS`, in declaration order. */
  const EntranceGroups: seq<Group> := [
    Group("bounce", ["bounce-in", "bounce-in-down", "bounce-in-left", "bounce-in-right", "bounce-in-up"]),
    Group("fade", ["fade-in", "fade-in-down", "fade-in-up", "fade-in-left", "fade-in-right"]),
    Group("flip", ["flip-in-x", "flip-in-y"]),
    Group("roll", ["roll-in"]),
    Group("rotate", ["rotate-in", "rotate-in-down-left", "rotate-in-down-right", "rotate-in-up-left", "rotate-in-up-right"]),
    Group("slide", ["slide-in-down", "slide-in-up", "slide-in-left", "slide-in-right"]),
    Group("zoom", ["zoom-in", "zoom-in-down", "zoom-in-up", "zoom-in-left", "zoom-in-right"])]

  /** `SCROLL_ANIMATION_GROUPS`, in declaration order. */
  const ScrollGroups: seq<Group> := [
    Group("fade", ["fade-in-up", "fade-in-down", "fade-enter-leave"]),
    Group("slide", ["slide-in-left", "slide-in-right", "slide-enter-leave"]),
    Group("scale", ["scale-in", "scale-enter-leave"]),
    Group("rotate", ["rotate-in"])]

  /** Some group lists `a`. */
  predicate InSomeGroup(groups: seq<Group>, a: string)
  {
    exists i :: 0 <= i < |groups| && a in groups[i].members
  }

  /** All members of the groups, group after group. */
  function Flatten(groups: seq<Group>): (names: seq<string>)
    ensures forall a :: a in names <==> InSomeGroup(groups, a)
  {
    if |groups| == 0 then []
    else
      InSomeGroupUnfold(groups);
      groups[0].members + Flatten(groups[1..])
  }

  /** Some group lists `a` exactly when the first does or one of the rest does. */
  lemma {:induction false} InSomeGroupUnfold(groups: seq<Group>)
    requires |groups| > 0
    ensures forall a :: InSomeGroup(groups, a) <==> a in groups[0].members || InSomeGroup(groups[1..], a)
  {
    forall a ensures InSomeGroup(groups, a) <==> a in groups[0].members || InSomeGroup(groups[1..], a) {
      if InSomeGroup(groups, a) && a !in groups[0].members {
        var i :| 0 <= i < |groups| && a in groups[i].members;
        assert groups[1..][i - 1] == groups[i];
      }
      if InSomeGroup(groups[1..], a) {
        var i :| 0 <= i < |groups[1..]| && a in groups[1..][i].members;
        assert groups[i + 1] == groups[1..][i];
      }
    }
  }

  /** `ENTRANCE_ANIMATION_PRESETS`: the group name arrays spread in the same order. */
  const EntrancePresets: seq<string> := Flatten(EntranceGroups)

  /** `SCROLL_ANIMATION_PRESETS`. */
  const ScrollPresets: seq<string> := Flatten(ScrollGroups)

  /** `getEntranceAnimationType`: the value itself when it names an entrance preset, `None` for "none" and anything else. */
  function GetEntranceAnimationType(value: string): (t: Option<string>)
    ensures t.Some? <==> value != "none" && InSomeGroup(EntranceGroups, value)
    ensures t.Some? ==> t.value == value
  {
    if value == "none" then None
    else if value in EntrancePresets then Some(value)
    else None
  }

  /** `getScrollAnimationType`: the value itself when it names a scroll preset, `None` for "none" and anything else. */
  function GetScrollAnimationType(value: string): (t: Option<string>)
    ensures t.Some? <==> value != "none" && InSomeGroup(ScrollGroups, value)
    ensures t.Some? ==> t.value == value
  {
    if value == "none" then None
    else if value in ScrollPresets then Some(value)
    else None
  }

  /** Converting a converted value again changes nothing. */
  lemma {:induction false} ConversionIsIdempotent(value: string)
    ensures GetEntranceAnimationType(value).Some? ==> GetEntranceAnimationType(GetEntranceAnimationType(value).value) == GetEntranceAnimationType(value)
    ensures GetScrollAnimationType(value).Some? ==> GetScrollAnimationType(GetScrollAnimationType(value).value) == GetScrollAnimationType(value)
  {
  }
}
