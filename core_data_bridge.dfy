/**
 * The editor's read-only view of the core catalogue
 * (src/editor/adapters/core-data-bridge.ts): group names, the animations
 * of a group, a group's first animation and the group an animation
 * belongs to.
 *
 * The bridge imports the entrance groups from the core entrance index,
 * which leaves that export commented out, so the binding is `undefined`.
 * Every entrance operation is therefore modelled over the binding it
 * receives (`None` for `undefined`, where JavaScript throws a TypeError);
 * the rest of the model passes the groups the index evidently meant to
 * export.
 */
module CoreDataBridge {
  import opened Common
  import opened CoreAnimation

  /** A call that either returns or throws a TypeError. */
  datatype Outcome<T> = Returned(value: T) | ThrewTypeError

  /** What `ENTRANCE_ANIMATION_GROUPS` is bound to as the imports are written. */
  const EntranceGroupsAsImported: Option<seq<Group>> := None

  /** What it is evidently meant to be bound to. */
  const EntranceGroupsIntended: Option<seq<Group>> := Some(EntranceGroups)

  /** The group names in declaration order: `Object.keys`. */
  function Names(groups: seq<Group>): (names: seq<string>)
    ensures |names| == |groups|
    ensures forall i :: 0 <= i < |groups| ==> names[i] == groups[i].name
  {
    if |groups| == 0 then [] else [groups[0].name] + Names(groups[1..])
  }

  /** The position of the group called `name`, the one an object property lookup finds. */
  function GroupIndex(groups: seq<Group>, name: string): (k: Option<nat>)
    ensures k.Some? ==> k.value < |groups| && groups[k.value].name == name
    ensures k.None? <==> name !in Names(groups)
  {
    if |groups| == 0 then None
    else if groups[0].name == name then Some(0)
    else
      var rest := GroupIndex(groups[1..], name);
      assert Names(groups) == [groups[0].name] + Names(groups[1..]);
      if rest.Some? then Some(rest.value + 1) else None
  }

  /** `GROUPS[animationType]`, copied, or `[]` when there is no such group. */
  function Directions(groups: seq<Group>, animationType: string): (dirs: seq<string>)
    ensures animationType !in Names(groups) ==> dirs == []
    ensures forall i :: 0 <= i < |groups| && groups[i].name == animationType && DistinctNames(groups) ==> dirs == groups[i].members
  {
    var k := GroupIndex(groups, animationType);
    if k.Some? then groups[k.value].members else []
  }

  /** No two groups share a name, as the keys of an object literal cannot. */
  predicate DistinctNames(groups: seq<Group>)
  {
    forall i, j :: 0 <= i < j < |groups| ==> groups[i].name != groups[j].name
  }

  /** `getEntranceAnimationTypes`. */
  function GetEntranceAnimationTypes(entrance: Option<seq<Group>>): (types: Outcome<seq<string>>)
    ensures entrance.None? <==> types.ThrewTypeError?
    ensures entrance.Some? ==> types.value == Names(entrance.value)
  {
    if entrance.None? then ThrewTypeError else Returned(Names(entrance.value))
  }

  /** `getScrollAnimationTypes`. */
  function GetScrollAnimationTypes(): seq<string>
  {
    Names(ScrollGroups)
  }

  /** `getEntranceAnimationDirections`. */
  function GetEntranceAnimationDirections(entrance: Option<seq<Group>>, animationType: string): (dirs: Outcome<seq<string>>)
    ensures entrance.None? <==> dirs.ThrewTypeError?
    ensures entrance.Some? ==> dirs.value == Directions(entrance.value, animationType)
  {
    if entrance.None? then ThrewTypeError else Returned(Directions(entrance.value, animationType))
  }

  /** `getScrollAnimationDirections`. */
  function GetScrollAnimationDirections(animationType: string): seq<string>
  {
    Directions(ScrollGroups, animationType)
  }

  /** `directions[0]`, `undefined` for an empty list. */
  function First(dirs: seq<string>): (first: Option<string>)
    ensures first.None? <==> dirs == []
    ensures first.Some? ==> first.value in dirs && first.value == dirs[0]
  {
    if |dirs| == 0 then None else Some(dirs[0])
  }

  /** `getFirstEntranceAnimationDirection`. */
  function GetFirstEntranceAnimationDirection(entrance: Option<seq<Group>>, animationType: string): (first: Outcome<Option<string>>)
    ensures entrance.None? <==> first.ThrewTypeError?
    ensures entrance.Some? ==> first.value == First(Directions(entrance.value, animationType))
  {
    match GetEntranceAnimationDirections(entrance, animationType)
    case ThrewTypeError => ThrewTypeError
    case Returned(dirs) => Returned(First(dirs))
  }

  /** `getFirstScrollAnimationDirection`. */
  function GetFirstScrollAnimationDirection(animationType: string): Option<string>
  {
    First(GetScrollAnimationDirections(animationType))
  }

  /** The position of the first group listing `animation`. */
  function FirstGroupWith(groups: seq<Group>, animation: string): (k: Option<nat>)
    ensures k.Some? ==> k.value < |groups| && animation in groups[k.value].members
    ensures k.Some? ==> forall j :: 0 <= j < k.value ==> animation !in groups[j].members
    ensures k.None? <==> !InSomeGroup(groups, animation)
  {
    if |groups| == 0 then None
    else if animation in groups[0].members then Some(0)
    else
      InSomeGroupUnfold(groups);
      var rest := FirstGroupWith(groups[1..], animation);
      if rest.Some? then Some(rest.value + 1) else None
  }

  /** The name of the first group listing `animation`, entrance groups before scroll groups. */
  function GroupOf(entrance: seq<Group>, animation: string): (name: Option<string>)
    ensures name.None? <==> !InSomeGroup(entrance, animation) && !InSomeGroup(ScrollGroups, animation)
    ensures InSomeGroup(entrance, animation) ==> name == Some(entrance[FirstGroupWith(entrance, animation).value].name)
    ensures !InSomeGroup(entrance, animation) && InSomeGroup(ScrollGroups, animation) ==>
      name == Some(ScrollGroups[FirstGroupWith(ScrollGroups, animation).value].name)
  {
    var e := FirstGroupWith(entrance, animation);
    if e.Some? then Some(entrance[e.value].name)
    else
      var s := FirstGroupWith(ScrollGroups, animation);
      if s.Some? then Some(ScrollGroups[s.value].name) else None
  }

  /** `findAnimationType`: the two loops with early return; iterating an `undefined` binding throws before any scroll group is seen. */
  method FindAnimationType(entrance: Option<seq<Group>>, animation: string) returns (found: Outcome<Option<string>>)
    ensures entrance.None? <==> found.ThrewTypeError?
    ensures entrance.Some? ==> found.value == GroupOf(entrance.value, animation)
  {
    if entrance.None? {
      return ThrewTypeError;
    }
    var groups := entrance.value;
    for i := 0 to |groups|
      invariant forall j :: 0 <= j < i ==> animation !in groups[j].members
    {
      if animation in groups[i].members {
        assert FirstGroupWith(groups, animation) == Some(i);
        return Returned(Some(groups[i].name));
      }
    }
    for i := 0 to |ScrollGroups|
      invariant forall j :: 0 <= j < i ==> animation !in ScrollGroups[j].members
    {
      if animation in ScrollGroups[i].members {
        assert FirstGroupWith(ScrollGroups, animation) == Some(i);
        return Returned(Some(ScrollGroups[i].name));
      }
    }
    return Returned(None);
  }

  /** The group `findAnimationType` reports lists the animation, when group names are distinct. */
  lemma {:induction false} FoundGroupListsTheAnimation(entrance: seq<Group>, animation: string)
    requires DistinctNames(entrance) && DistinctNames(ScrollGroups)
    requires GroupOf(entrance, animation).Some?
    ensures var name := GroupOf(entrance, animation).value;
      animation in Directions(entrance, name) || animation in Directions(ScrollGroups, name)
  {
    if InSomeGroup(entrance, animation) {
      var k := FirstGroupWith(entrance, animation).value;
      assert Directions(entrance, entrance[k].name) == entrance[k].members;
    } else {
      var k := FirstGroupWith(ScrollGroups, animation).value;
      assert Directions(ScrollGroups, ScrollGroups[k].name) == ScrollGroups[k].members;
    }
  }

  /** The core groups have distinct names. */
  lemma CoreGroupNamesAreDistinct()
    ensures DistinctNames(EntranceGroups) && DistinctNames(ScrollGroups)
  {
  }

  /** As the imports are written, every entrance operation and `findAnimationType` throw, whatever they are asked. */
  lemma {:induction false} EntranceOperationsThrowAsWritten(animationType: string)
    ensures GetEntranceAnimationTypes(EntranceGroupsAsImported).ThrewTypeError?
    ensures GetEntranceAnimationDirections(EntranceGroupsAsImported, animationType).ThrewTypeError?
    ensures GetFirstEntranceAnimationDirection(EntranceGroupsAsImported, animationType).ThrewTypeError?
  {
  }

  /** With the intended binding, the bridge finds every core preset's group, and an entrance preset's group first. */
  lemma {:induction false} IntendedBridgeFindsEveryPreset(animation: string)
    requires animation in EntrancePresets || animation in CoreAnimation.ScrollPresets
    ensures GroupOf(EntranceGroups, animation).Some?
    ensures animation in EntrancePresets ==> GroupOf(EntranceGroups, animation) == Some(EntranceGroups[FirstGroupWith(EntranceGroups, animation).value].name)
  {
  }
}
