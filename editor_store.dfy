/**
 * The editor's preview store (src/editor/store/index.ts): one flag saying
 * whether animation previews play, two action creators, a selector and
 * the reducer. Registering the store with the data layer is foreign.
 */
module EditorStore {
  import opened Common

  /** The store's state. */
  datatype State = State(isAnimationPreviewEnabled: bool)

  /** A dispatched action: its type and, for a set action, the value to set. */
  datatype Action = Action(kind: string, enabled: bool)

  const ToggleAnimationPreviewType := "TOGGLE_ANIMATION_PREVIEW"
  const SetAnimationPreviewType := "SET_ANIMATION_PREVIEW"

  /** Previews start switched off. */
  const InitialState := State(false)

  /** `actions.toggleAnimationPreview()`; the action carries no value, modelled as `false`. */
  function ToggleAnimationPreview(): (a: Action)
    ensures a.kind == ToggleAnimationPreviewType
  {
    Action(ToggleAnimationPreviewType, false)
  }

  /** `actions.setAnimationPreview(enabled)`. */
  function SetAnimationPreview(enabled: bool): (a: Action)
    ensures a.kind == SetAnimationPreviewType && a.enabled == enabled
  {
    Action(SetAnimationPreviewType, enabled)
  }

  /** `selectors.isAnimationPreviewEnabled`. */
  function IsAnimationPreviewEnabled(state: State): bool
  {
    state.isAnimationPreviewEnabled
  }

  /**
   * The reducer; `None` is the `undefined` state the data layer passes
   * before the store has one, which defaults to the initial state.
   */
  function Reducer(state: Option<State>, action: Action): (next: State)
    ensures action.kind == ToggleAnimationPreviewType ==>
      IsAnimationPreviewEnabled(next) == !IsAnimationPreviewEnabled(CurrentOf(state))
    ensures action.kind == SetAnimationPreviewType ==> IsAnimationPreviewEnabled(next) == action.enabled
    ensures action.kind != ToggleAnimationPreviewType && action.kind != SetAnimationPreviewType ==> next == CurrentOf(state)
    ensures state.None? && action.kind != ToggleAnimationPreviewType && action.kind != SetAnimationPreviewType ==> next == InitialState
  {
    var current := CurrentOf(state);
    if action.kind == ToggleAnimationPreviewType then current.(isAnimationPreviewEnabled := !current.isAnimationPreviewEnabled)
    else if action.kind == SetAnimationPreviewType then current.(isAnimationPreviewEnabled := action.enabled)
    else current
  }

  /** The state a reducer call works on: the one given, or the initial state. */
  function CurrentOf(state: Option<State>): State
  {
    if state.Some? then state.value else InitialState
  }

  /** Toggling twice gives the state back. */
  lemma {:induction false} ToggleTwiceRestores(state: State)
    ensures Reducer(Some(Reducer(Some(state), ToggleAnimationPreview())), ToggleAnimationPreview()) == state
  {
  }

  /** Setting the same value twice is the same as setting it once. */
  lemma {:induction false} SetIsIdempotent(state: Option<State>, enabled: bool)
    ensures var once := Reducer(state, SetAnimationPreview(enabled));
      Reducer(Some(once), SetAnimationPreview(enabled)) == once
  {
  }

  /** The state after dispatching `actions` in order to a store that starts undefined. */
  function Replay(actions: seq<Action>): State
  {
    if |actions| == 0 then InitialState
    else Reducer(Some(Replay(actions[..|actions| - 1])), actions[|actions| - 1])
  }

  /** How many toggle actions `actions` holds. */
  function Toggles(actions: seq<Action>): nat
  {
    if |actions| == 0 then 0
    else Toggles(actions[..|actions| - 1]) + if actions[|actions| - 1].kind == ToggleAnimationPreviewType then 1 else 0
  }

  /** Without set actions, previews are on exactly when an odd number of toggles was dispatched. */
  lemma {:induction false} TogglesDecideTheFlag(actions: seq<Action>)
    requires forall i :: 0 <= i < |actions| ==> actions[i].kind != SetAnimationPreviewType
    ensures IsAnimationPreviewEnabled(Replay(actions)) <==> Toggles(actions) % 2 == 1
  {
    if |actions| > 0 {
      TogglesDecideTheFlag(actions[..|actions| - 1]);
    }
  }

  /** After a set action, the flag no longer depends on anything dispatched before it. */
  lemma {:induction false} SetForgetsHistory(before: seq<Action>, enabled: bool, after: seq<Action>)
    ensures Replay(before + [SetAnimationPreview(enabled)] + after) == Replay([SetAnimationPreview(enabled)] + after)
    decreases |after|
  {
    if |after| == 0 {
      assert before + [SetAnimationPreview(enabled)] + after == before + [SetAnimationPreview(enabled)];
      assert [SetAnimationPreview(enabled)] + after == [SetAnimationPreview(enabled)];
      assert [SetAnimationPreview(enabled)][..0] == [];
    } else {
      var init := after[..|after| - 1];
      SetForgetsHistory(before, enabled, init);
      assert (before + [SetAnimationPreview(enabled)] + after)[..|before| + |after|] == before + [SetAnimationPreview(enabled)] + init;
      assert ([SetAnimationPreview(enabled)] + after)[..|after|] == [SetAnimationPreview(enabled)] + init;
    }
  }
}
