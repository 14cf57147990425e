# Motion Blocks scroll and entrance animations, modelled in Dafny

Motion Blocks adds entrance and scroll-driven animations to WordPress
blocks. This project models its core:

- **The legacy scroll engine** (`src/view.js`, `src/animations/*.js`). A
  registry of effects (fade, slide, zoom, rotate, flip, blur) turns an
  element's intersection ratio into a progress between 0 and 1, and then
  into inline styles. A `MotionBlocks` store tracks elements, their
  observers and their play-once state.
- **The interactivity frontend** (`src/frontend-view.ts` and
  `src/frontend/**`). A motion element moves through idle, entrance,
  entry-complete, scroll-ready and scroll-active. It does so under
  IntersectionObservers, with an entrance animation, a leave-and-return
  watch and a view-timeline scroll animation.
- **The editor's data layer**:
  - the animation-name helpers (parse, directions, labels, rebuild);
  - the preview store's reducer;
  - the core-data bridge and the core type conversions;
  - the legacy `calculateTransform` and element-visibility utilities.

Numbers are `real`. CSS values are datatypes (transforms, filters,
transition items) rather than formatted strings. JavaScript's `x || d`
becomes an explicit fallback: a missing or zero number, or a missing or
empty string, takes the default.

Three kinds of code are modelled in three ways:

- **Code that mutates objects** is a class with `modifies` clauses: the
  `MotionBlocks` store, the per-element runtime of the frontend, the
  element-state helpers, the inline style of an element and the
  animation returned by `element.animate`. Each such method is proved
  against a step function on a pure snapshot (`Model() ==
  Step(old(Model()), …)`). The invariants and the trace properties are
  proved about the step functions.
- **Pure code** is made of functions and lemmas.
- **Foreign calls** are inputs of the model: IntersectionObserver,
  `element.animate`, the ViewTimeline constructor, the entrance and
  scroll builders, `matchMedia` and `supportsViewTimeline`. Observers are
  handles, and the model records which handles were disconnected or
  cancelled.

## Model

| member | source | states |
|---|---|---|
| BaseAnimation.ResolveSettings | src/animations/base-animation.js:6-19 | the defaults are delay 0, duration 600, "ease-out", thresholds 0.1/0.9, not play-once; each key the caller gives overrides its default, and each key it omits takes that default |
| BaseAnimation.CalculateProgress | src/animations/base-animation.js:28-47 | progress is in [0,1]; it is 0 when invisible or below the start threshold; it is 1 at or past the end threshold; in between it is the linear fraction of the span |
| BaseAnimation.RawProgressInUnit | src/animations/base-animation.js:28-47 | the fraction of the threshold span lies in [0,1] |
| BaseAnimation.ProgressMonotone | src/animations/base-animation.js:28-47 | for a visible element, a larger intersection ratio never yields less progress |
| BaseAnimation.StepWhenThresholdsMeet | src/animations/base-animation.js:37-44 | with equal thresholds, progress jumps from 0 to 1 at the threshold |
| BaseAnimation.ValidateSettings | src/animations/base-animation.js:102-114 | valid iff 0 ≤ start ≤ end ≤ 1, duration > 0 and delay ≥ 0 |
| BaseAnimation.ValidSettingsSpanTheCurve | src/animations/base-animation.js:28-47 | under valid settings a fully visible element reaches progress 1, and a hidden one stays at 0 when the start threshold is positive |
| BaseAnimation.InitialStyles | src/animations/base-animation.js:53-58 | the element starts fully transparent and untransformed |
| BaseAnimation.AnimatedStyles | src/animations/base-animation.js:65-70 | progress 0 gives the initial styles and progress 1 gives the resting styles |
| BaseAnimation.TransitionAsWritten | src/animations/base-animation.js:76-79 | the transition as written: one item per property, and only the last item carries the timing |
| BaseAnimation.OpacityLosesItsTiming | src/animations/base-animation.js:76-79 | as written, opacity gets a 0 s transition and only transform gets the configured duration |
| BaseAnimation.AsWrittenTimesTheLast | src/animations/base-animation.js:76-79 | as written, the last property named transitions for the configured duration |
| BaseAnimation.TransitionPerProperty | src/animations/base-animation.js:76-79 | corrected: every property carries the configured timing |
| BaseAnimation.UniformItemsDuration | src/animations/base-animation.js:76-79 | in a transition whose items all share one timing, any listed property runs for that duration |
| BaseAnimation.PerPropertyTimesEveryProperty | src/animations/base-animation.js:76-79 | in the corrected transition, every listed property transitions for the configured duration |
| SlideAnimation.DirectionOf | src/animations/slide.js:8-14 | the direction defaults to "up" when missing or ""; any other value is kept |
| SlideAnimation.DistanceOf | src/animations/slide.js:8-14 | the distance defaults to 50 px when missing or 0; any other value is kept |
| SlideAnimation.TransformForProgress | src/animations/slide.js:37-52 | the offset is the start offset of the direction scaled by 1 − progress; an unknown direction does not move; progress 1 is the identity |
| SlideAnimation.OppositeDirectionsMirror | src/animations/slide.js:37-52 | down mirrors up and right mirrors left at every progress |
| SlideAnimation.InitialStyles | src/animations/slide.js:16-22 | transparent, and offset by the start offset of the direction (the full distance along its axis and sign) |
| SlideAnimation.AnimatedStyles | src/animations/slide.js:24-30 | opacity equals progress; progress 0 is the initial styles and 1 the resting styles |
| SlideAnimation.ValidateSettings | src/animations/slide.js:58-61 | valid iff the base settings are valid and the direction is one of the four |
| RotateAnimation.DegreesOf | src/animations/rotate.js:8-14 | the angle defaults to 180 when missing or 0; any other value is kept |
| RotateAnimation.DirectionOf | src/animations/rotate.js:8-14 | the direction defaults to "clockwise" when missing or ""; any other value is kept |
| RotateAnimation.TransformForProgress | src/animations/rotate.js:37-44 | the angle is degrees × (1 − progress), negated for counterclockwise; progress 1 is the identity |
| RotateAnimation.InitialStyles | src/animations/rotate.js:16-22 | transparent and rotated by the full signed angle |
| RotateAnimation.AnimatedStyles | src/animations/rotate.js:24-30 | opacity equals progress; the ends are the initial and resting styles |
| RotateAnimation.ValidateSettings | src/animations/rotate.js:50-59 | valid iff the base settings are valid, the direction is known and 0 ≤ degrees ≤ 720 |
| ZoomAnimation.DirectionOf | src/animations/zoom.js:8-14 | the direction defaults to "in" when missing or ""; any other value is kept |
| ZoomAnimation.ScaleOf | src/animations/zoom.js:8-14 | the scale defaults to 0.8 when missing or 0; any other value is kept |
| ZoomAnimation.TransformForProgress | src/animations/zoom.js:37-49 | zoom-in goes linearly from scale to 1 and zoom-out from 1 + scale to 1 |
| ZoomAnimation.ZoomInGrows | src/animations/zoom.js:37-49 | with 0 < scale < 1, zooming in never shrinks as progress grows and stays at or below 1 |
| ZoomAnimation.InitialStyles | src/animations/zoom.js:16-22 | transparent at the starting scale of the direction |
| ZoomAnimation.AnimatedStyles | src/animations/zoom.js:24-30 | opacity equals progress; the ends are the initial and resting styles |
| ZoomAnimation.ValidateSettings | src/animations/zoom.js:55-63 | valid iff the base settings are valid, the direction is known and 0 < scale < 2 |
| FlipAnimation.AxisOf | src/animations/flip.js:8-14 | the axis defaults to "x" when missing or ""; any other value is kept |
| FlipAnimation.DegreesOf | src/animations/flip.js:8-14 | the angle defaults to 90 when missing or 0; any other value is kept |
| FlipAnimation.TransformForProgress | src/animations/flip.js:37-46 | a perspective rotation about the axis (x, else y) by degrees × (1 − progress) |
| FlipAnimation.InitialStyles | src/animations/flip.js:16-22 | transparent and flipped by the full angle |
| FlipAnimation.AnimatedStyles | src/animations/flip.js:24-30 | opacity equals progress; the ends are the initial and resting styles |
| FlipAnimation.ValidateSettings | src/animations/flip.js:52-61 | valid iff the base settings are valid, the axis is x or y and 0 ≤ degrees ≤ 180 |
| BlurAnimation.MaxBlurOf | src/animations/blur.js:8-13 | the maximum blur defaults to 10 px when missing or 0; any other value is kept |
| BlurAnimation.InitialStyles | src/animations/blur.js:15-20 | transparent and blurred by the maximum |
| BlurAnimation.AnimatedStyles | src/animations/blur.js:22-30 | opacity equals progress; the blur is max × (1 − progress) while positive, and the filter is dropped otherwise |
| BlurAnimation.Transition | src/animations/blur.js:36-38 | opacity and filter both transition for the configured duration |
| BlurAnimation.ValidateSettings | src/animations/blur.js:44-51 | valid iff the base settings are valid and 0 ≤ maxBlur ≤ 50 |
| Animations.SupportedProperties | src/animations/base-animation.js:18 | opacity first; fade animates only opacity, and blur animates opacity and filter |
| Animations.InitialStyles | src/animations/base-animation.js:53-58 | every effect starts fully transparent |
| Animations.AnimatedStyles | src/animations/base-animation.js:65-70 | every effect's opacity equals the progress, and progress 1 is at rest |
| Animations.AnimationStartsAtInitialSnapshot | src/animations/base-animation.js:53-70 | for every effect with valid settings, progress 0 renders exactly the initial styles |
| Animations.Transition | src/animations/base-animation.js:76-79 | as the engine writes it: the last supported property gets the configured duration, so fade and blur time every property, while for the transform effects opacity gets 0 s and transform the duration |
| Animations.IntendedTransition | src/animations/base-animation.js:76-79 | corrected: every supported property of every effect transitions for the configured duration, and for fade and blur this agrees with what the engine writes |
| Animations.ValidateSettings | src/animations/base-animation.js:102-114 | an effect's validation implies the base validation, and equals it for base and fade |
| Animations.PatchFor | src/animations/base-animation.js:87-96 | positive progress uses the animated styles and otherwise the initial ones; the transition is "none" iff immediate, and otherwise the as-written getTransition, so opacity is timed only for fade and blur; will-change lists the supported properties |
| Animations.InlineStyle.constructor | src/animations/base-animation.js:87-96 | an element's inline style starts empty |
| Animations.ApplyStyles | src/animations/base-animation.js:87-96 | the element's inline style afterwards holds exactly the patch, including the as-written transition when not immediate |
| AnimationFactory.WithDirection | src/animations/slide.js:65-91 | a fixed-direction subclass overrides the direction and keeps the base settings |
| AnimationFactory.WithAxis | src/animations/flip.js:65-77 | a fixed-axis subclass overrides the axis and keeps the base settings |
| AnimationFactory.Construct | src/animations/animation-factory.js:40-61 | construction throws iff the settings are null for rotate or blur; otherwise the settings are the resolved defaults, the effect is the one of the name with its forced direction or axis, and its distance, scale, degrees, rotate direction or maximum blur are read from the settings with their fallbacks |
| AnimationFactory.Create | src/animations/animation-factory.js:40-61 | unknown types, constructors that throw and invalid settings give null; a result has valid settings, the resolved settings, the effect of its name with its forced direction or axis, and every effect parameter read from the settings with its fallback |
| AnimationFactory.DefaultsAreAcceptedEverywhere | src/animations/animation-factory.js:17-61 | every registered type accepts empty settings |
| AnimationFactory.GetAvailableTypes | src/animations/animation-factory.js:67-69 | eleven distinct type names |
| AnimationFactory.IsSupported | src/animations/animation-factory.js:76-78 | supported iff listed; an unsupported name is never created |
| View.SettingsFrom | src/view.js:43-55 | each attribute given (non-empty, non-zero) is kept, and otherwise takes its default: preset "fade", delay 0, duration 600, easing "ease-out", thresholds 0.1/0.9; play-once iff the attribute is "true" |
| View.AnimationFor | src/view.js:56-57 | a created animation carries the element's settings, has valid settings and a registered preset |
| View.InitializeElementStep | src/view.js:43-77 | without an animation nothing changes; otherwise the element is tracked, styled at its initial state and observed; the store invariant is kept |
| View.CreateObserverStep | src/view.js:79-96 | a fresh observer replaces the element's entry and nothing else changes |
| View.InitializeAllTracks | src/view.js:27-38 | after initializing the matched list, an element is tracked iff it was tracked before or some entry for it yields an animation |
| View.InitializeAllKeepsValid | src/view.js:27-38 | initializing the matched list keeps the store invariant and leaves the init flag and the disconnected observers alone |
| View.InitStep | src/view.js:21-41 | init runs once, only when elements match; it keeps the invariant |
| View.InitFromEmptyTracks | src/view.js:21-41 | from an empty store, init tracks exactly the matched elements that yield an animation |
| View.HandleIntersectionStep | src/view.js:98-127 | an unknown element is ignored; visibility follows the start threshold; a tracked element that has not completed is then animated by AnimateElementStep, and a completed play-once element is disconnected and never restyled; other elements are untouched |
| View.MarkSeen | src/view.js:110-113 | the first half of an intersection: only the element's visibility flag changes, and the invariant is kept |
| View.AnimateElementStep | src/view.js:129-159 | progress comes from the element's animation; only this element changes; has-animated never resets |
| View.HasAnimatedIsSticky | src/view.js:98-159 | once animated, an element stays marked as animated through any sequence of callbacks |
| View.CompletedPlayOnceIsFinal | src/view.js:108-127 | through any sequence of callbacks, a completed play-once element stays tracked and completed, its last progress and the styles are unchanged, and after its own callback it is no longer observed (only its visibility flag may change) |
| View.DeliverKeepsValid | src/view.js:98-159 | the store invariant holds along every sequence of callbacks |
| View.RefreshStep | src/view.js:164-167 | after refresh, exactly the matched elements that yield an animation are tracked, and every old observer is disconnected |
| View.AddElementStep | src/view.js:173-180 | only an enabled, untracked element is initialized |
| View.DisconnectElementStep | src/view.js:186-193 | the element's observer is disconnected and forgotten, every other observer, the data and the styles stay |
| View.RemoveElementStep | src/view.js:199-207 | the element is removed from the observers and the tracked elements and its observer is disconnected; every other entry and the styles are unchanged |
| View.DestroyStep | src/view.js:209-218 | every observer is disconnected, both maps are emptied, and init may run again |
| View.MotionBlocks.constructor | src/view.js:8-19 | an empty, uninitialized store |
| View.MotionBlocks.Init | src/view.js:21-41 | the store moves by InitStep |
| View.MotionBlocks.InitializeElement | src/view.js:43-77 | the store moves by InitializeElementStep |
| View.MotionBlocks.CreateObserver | src/view.js:79-96 | the store moves by CreateObserverStep |
| View.MotionBlocks.HandleIntersection | src/view.js:98-127 | the store moves by HandleIntersectionStep |
| View.MotionBlocks.AnimateElement | src/view.js:129-159 | the store moves by AnimateElementStep |
| View.MotionBlocks.Refresh | src/view.js:164-167 | the store moves by RefreshStep |
| View.MotionBlocks.AddElement | src/view.js:173-180 | the store moves by AddElementStep |
| View.MotionBlocks.DisconnectElement | src/view.js:186-193 | the store moves by DisconnectElementStep |
| View.MotionBlocks.RemoveElement | src/view.js:199-207 | the store moves by RemoveElementStep |
| View.MotionBlocks.Destroy | src/view.js:209-218 | the store moves by DestroyStep |
| ElementState.Initialized | src/frontend/utils/element-state.ts:15-19 | idle, with empty animation and observer collections; no handle is stopped |
| ElementState.Cleanup | src/frontend/utils/element-state.ts:26-45 | exactly the held animations are cancelled and the held observers disconnected; set collections are emptied, unset ones stay unset; the state is idle |
| ElementState.CleanupIdempotent | src/frontend/utils/element-state.ts:26-45 | cleaning up twice equals cleaning up once |
| ElementState.CleanupAfterInitializeIsNoOp | src/frontend/utils/element-state.ts:15-45 | cleaning up a freshly initialized element changes nothing |
| ElementState.MotionElement.constructor | src/frontend/utils/element-state.ts:15-19 | an untouched element has no runtime fields |
| ElementState.InitializeElementState | src/frontend/utils/element-state.ts:15-19 | the element's fields become Initialized of the old ones |
| ElementState.CleanupElementState | src/frontend/utils/element-state.ts:26-45 | the element's fields become Cleanup of the old ones |
| ElementState.CancelAll | src/frontend/utils/element-state.ts:28-31 | exactly the held animations are added to the cancelled ones, and nothing else changes |
| ElementState.DisconnectAll | src/frontend/utils/element-state.ts:36-39 | exactly the held observers are added to the disconnected ones, and nothing else changes |
| MotionOptions.CalculateVisibilityThreshold | src/frontend/utils/motion-options.ts:33-36 | the range in percent becomes a ratio clamped to [0.1, 1] |
| MotionOptions.ThresholdMonotone | src/frontend/utils/motion-options.ts:33-36 | a wider range never lowers the threshold |
| MotionOptions.CreateMotionOptions | src/frontend/utils/motion-options.ts:16-24 | falsy values take 600, 0 and "ease-out"; fill is "forwards"; the threshold is the clamped range, 30 % by default |
| MotionOptions.MissingRangeGivesDefaultThreshold | src/frontend/utils/motion-options.ts:22 | a missing or zero range watches for 30 % visibility |
| ScrollAnimation.EnterLeaveKeysCollapse | src/frontend/animations/keyframes/scroll/index.ts:42-44 | as written, the three enter-and-leave entries share the key "undefined": only slide-enter-leave survives, and under that key |
| ScrollAnimation.LookupKeyframesAsWritten | src/frontend/animations/keyframes/scroll/index.ts:32-45 | as written: keyframes are found iff the type is an entry scroll preset or "undefined", which finds the slide enter-and-leave set; no enter-and-leave name finds anything, and the fade and scale sets are never found |
| ScrollAnimation.LookupsAgreeOnEntryPresets | src/frontend/animations/keyframes/scroll/index.ts:32-45 | the as-written and corrected lookups agree on every entry preset and disagree on every enter-and-leave name and on "undefined" |
| ScrollAnimation.LookupKeyframes | src/frontend/animations/keyframes/scroll/index.ts:32-45 | corrected: keyframes are found iff the type is a scroll preset or an enter-and-leave name; "undefined" finds nothing |
| ScrollAnimation.LookupFindsExactlyItsName | src/frontend/animations/keyframes/scroll/index.ts:32-45 | corrected: every keyframe set is found under its own name and under no other |
| ScrollAnimation.ClampCompletionPoint | src/frontend/animations/create-scroll-animation.ts:118 | the completion point is clamped to [10, 90] and kept when already inside |
| ScrollAnimation.RangeFor | src/frontend/animations/create-scroll-animation.ts:121-122 | the range starts at "entry 0%" and ends in the cover phase at the clamped point |
| ScrollAnimation.PlatformAnimation.constructor | src/frontend/animations/create-scroll-animation.ts:110-114 | a new animation carries its keyframes and no range |
| ScrollAnimation.CreateScrollAnimation | src/frontend/animations/create-scroll-animation.ts:91-129 | null iff the table as written has no keyframes for the type or the platform throws; otherwise a fresh animation with those keyframes and the clamped range |
| FrontendView.ToAnimationType | src/types/index.ts:75-90 | a value converts iff it is a member of the animation-type enum, and it converts to itself |
| FrontendView.UntouchedIsValid | src/frontend-view.ts:31-67 | an untouched element satisfies the runtime invariant |
| FrontendView.Watch | src/frontend-view.ts:115-146 | a new observer is appended to the element's observers |
| FrontendView.ObserveElementStep | src/frontend-view.ts:107-148 | the entrance watcher is the new observer, registered on the element; state, animations and context are unchanged |
| FrontendView.InitializeElementMotionStep | src/frontend-view.ts:77-98 | the element is idle with no animations, stores the context and its options, and is watched by exactly one connected entrance observer |
| FrontendView.InitMotionStep | src/frontend-view.ts:31-67 | nothing happens unless the element exists, motion is enabled and reduced motion is off; otherwise the element is initialized; the invariant is kept |
| FrontendView.StartEntranceStep | src/frontend-view.ts:157-206 | an unknown type leaves the element entry-playing and visible; a failed build leaves the element entry-complete; otherwise the entrance runs and is recorded |
| FrontendView.EntranceSeenStep | src/frontend-view.ts:115-136 | only the connected entrance watcher of an idle element reacts, on an intersection: it disconnects and starts the entrance |
| FrontendView.ObserveLeaveStep | src/frontend-view.ts:220-250 | the leave watcher is a new registered observer and the element has not left yet |
| FrontendView.EntranceFinishedStep | src/frontend-view.ts:187-197 | a running entrance that finishes makes the element entry-complete and, with scroll enabled, starts the leave watch |
| FrontendView.EntranceCancelledStep | src/frontend-view.ts:199-203 | a cancelled entrance makes the element entry-complete |
| FrontendView.SetupScrollStep | src/frontend-view.ts:256-289 | without view timelines the element is only scroll-ready; an unknown type changes nothing; otherwise the built animation is recorded and the element is scroll-active |
| FrontendView.LeaveWatchSeenStep | src/frontend-view.ts:225-247 | leaving marks the element; returning after leaving disconnects the watch and sets up scrolling; every other callback changes nothing |
| FrontendView.ApplyKeepsValid | src/frontend-view.ts:107-289 | every callback keeps the runtime invariant |
| FrontendView.DeliverKeepsValid | src/frontend-view.ts:107-289 | the invariant holds along every sequence of callbacks |
| FrontendView.NeverBackToIdle | src/frontend-view.ts:157-289 | once the element has left idle, no callback brings it back to idle |
| FrontendView.EntranceStartsOnce | src/frontend-view.ts:115-136 | the entrance is started at most once, whatever callbacks follow |
| FrontendView.ContinuousIntersectionNeverScrolls | src/frontend-view.ts:225-247 | an element that never leaves the viewport never scrolls |
| FrontendView.NoScrollWhenDisabled | src/frontend-view.ts:187-197 | with scroll disabled, no leave watch is installed and no scroll animation starts |
| FrontendView.LeaveThenReturnSetsUpScroll | src/frontend-view.ts:225-247 | leaving and then returning sets up the scroll animation |
| FrontendView.FadeInWithScrollLifecycle | src/frontend-view.ts:31-289 | a fade-in element with scroll enabled that enters, finishes, leaves and returns ends scroll-active, holding both animations, with both observers disconnected |
| FrontendView.FadeInEntersAndWatches | src/frontend-view.ts:115-197 | a fade-in element that intersects and finishes its entrance is entry-complete, holds the entrance animation and has a fresh leave watch |
| FrontendView.FadeInLeavesAndReturns | src/frontend-view.ts:225-289 | a watched fade-in element that leaves and returns holds the scroll animation too, is scroll-active and has both observers disconnected |
| FrontendView.ElementMotion.constructor | src/frontend-view.ts:31-34 | an untouched element |
| FrontendView.ElementMotion.InitMotion | src/frontend-view.ts:31-67 | the runtime moves by InitMotionStep |
| FrontendView.ElementMotion.InitializeElementMotion | src/frontend-view.ts:77-98 | the runtime moves by InitializeElementMotionStep |
| FrontendView.ElementMotion.ObserveElementForAnimation | src/frontend-view.ts:107-148 | the runtime moves by ObserveElementStep |
| FrontendView.ElementMotion.OnEntranceIntersection | src/frontend-view.ts:115-136 | the runtime moves by EntranceSeenStep |
| FrontendView.ElementMotion.StartEntranceAnimation | src/frontend-view.ts:157-206 | the runtime moves by StartEntranceStep |
| FrontendView.ElementMotion.OnEntranceFinish | src/frontend-view.ts:187-197 | the runtime moves by EntranceFinishedStep |
| FrontendView.ElementMotion.OnEntranceCancel | src/frontend-view.ts:199-203 | the runtime moves by EntranceCancelledStep |
| FrontendView.ElementMotion.ObserveForElementToLeaveAndReturn | src/frontend-view.ts:220-250 | the runtime moves by ObserveLeaveStep |
| FrontendView.ElementMotion.OnLeaveWatchIntersection | src/frontend-view.ts:225-247 | the runtime moves by LeaveWatchSeenStep |
| FrontendView.ElementMotion.SetupScrollAnimation | src/frontend-view.ts:256-289 | the runtime moves by SetupScrollStep |
| AnimationHelpers.ParseAnimation | src/editor/utils/animation-helpers.ts:15-35 | nothing for "none" or ""; otherwise the style is the dash-free first field, followed by a dash when shorter; a dash-free name has the variant "default" |
| AnimationHelpers.ParseOther | src/editor/utils/animation-helpers.ts:30-34 | a name "style-rest" without "-in-" parses to the style and the whole rest after the first dash, e.g. "fade-enter-leave" to ("fade", "enter-leave") |
| AnimationHelpers.ParseInfixed | src/editor/utils/animation-helpers.ts:21-26 | "style-in-direction" parses to that style and direction |
| AnimationHelpers.ParseSuffixIn | src/editor/utils/animation-helpers.ts:30-34 | "style-in" parses to that style with the variant "in" |
| AnimationHelpers.DirectionsIn | src/editor/utils/animation-helpers.ts:40-44 | every preset of the form "style-in-d" contributes its suffix d, and every direction comes from such a preset |
| AnimationHelpers.FirstDirectionIsFirstMatch | src/editor/utils/animation-helpers.ts:40-44 | the first direction is the suffix of the first preset, in list order, that starts with "style-in-" |
| AnimationHelpers.DirectionsInAppend | src/editor/utils/animation-helpers.ts:40-44 | the directions keep the presets' order: those of a concatenation are the concatenated directions |
| AnimationHelpers.BuildEntranceAnimation | src/editor/utils/animation-helpers.ts:84-88 | an offered variant is kept; otherwise the first direction is used, or the plain "style-in" when there is none |
| AnimationHelpers.EntranceRoundTrip | src/editor/utils/animation-helpers.ts:15-44 | an entrance name built from an offered direction parses back to its style and direction |
| AnimationHelpers.DirectionlessGetsFirstDirection | src/editor/utils/animation-helpers.ts:84-88 | a style parsed from "style-in" is rebuilt with its first direction |
| AnimationHelpers.CapitalizeAll | src/editor/utils/animation-helpers.ts:77 | one word per word, each the word with its first character upper-cased |
| AnimationHelpers.FormatVariantLabel | src/editor/utils/animation-helpers.ts:74-79 | a known key shows its fixed label; any other key keeps its length, with dashes as spaces and the first letter of each word in upper case |
| AnimationHelpers.CharWiseAt | src/editor/utils/animation-helpers.ts:74-79 | the character-wise title case, position by position |
| AnimationHelpers.RetitledIsCharWise | src/editor/utils/animation-helpers.ts:76-78 | split, capitalize and join equals the character-wise title case |
| AnimationHelpers.TitleCaseByCharacter | src/editor/utils/animation-helpers.ts:76-78 | the title case of a key is its character-wise title case |
| AnimationHelpers.FirstIndexWithStyle | src/editor/utils/animation-helpers.ts:114 | the position of the first preset that starts with the style, if any |
| AnimationHelpers.BuildScrollAnimation | src/editor/utils/animation-helpers.ts:93-116 | always a scroll preset: the rebuilt name when valid, else the first preset of the style, else "fade-in-up" |
| AnimationHelpers.ScrollInfixedRoundTrip | src/editor/utils/animation-helpers.ts:93-116 | a "style-in-direction" scroll preset parses and rebuilds to itself |
| AnimationHelpers.ScrollPlainRoundTrip | src/editor/utils/animation-helpers.ts:93-116 | a "style-in" scroll preset parses and rebuilds to the first preset of its style |
| EditorStore.ToggleAnimationPreview | src/editor/store/index.ts:29-33 | the toggle action carries the toggle type |
| EditorStore.SetAnimationPreview | src/editor/store/index.ts:35-40 | the set action carries its flag |
| EditorStore.Reducer | src/editor/store/index.ts:51-68 | toggle flips the flag, set takes the action's flag, any other action keeps the state; a missing state is the initial one |
| EditorStore.ToggleTwiceRestores | src/editor/store/index.ts:53-58 | toggling twice restores the state |
| EditorStore.SetIsIdempotent | src/editor/store/index.ts:59-64 | setting the same flag twice equals setting it once |
| EditorStore.TogglesDecideTheFlag | src/editor/store/index.ts:19-68 | from the initial state, preview is enabled iff an odd number of toggles came in (with no set among them) |
| EditorStore.SetForgetsHistory | src/editor/store/index.ts:59-64 | a set action erases everything that came before it |
| CoreAnimation.Flatten | src/core/animations/entrance/keyframes/index.ts:31-39 | the preset list holds exactly the members of the groups |
| CoreAnimation.GetEntranceAnimationType | src/core/utils/animation.ts:30-36 | a value converts iff it is not "none" and it is an entrance preset, and it converts to itself |
| CoreAnimation.GetScrollAnimationType | src/core/utils/animation.ts:44-50 | a value converts iff it is not "none" and it is a scroll preset, and it converts to itself |
| CoreAnimation.ConversionIsIdempotent | src/core/utils/animation.ts:30-50 | converting a converted value gives it back |
| CoreDataBridge.Names | src/editor/adapters/core-data-bridge.ts:22-31 | the group names in order |
| CoreDataBridge.GroupIndex | src/editor/adapters/core-data-bridge.ts:37 | the position of a group with that name, absent iff no group has it |
| CoreDataBridge.Directions | src/editor/adapters/core-data-bridge.ts:36-47 | an unknown type has no directions; with distinct names, a group's directions are its members |
| CoreDataBridge.GetEntranceAnimationTypes | src/editor/adapters/core-data-bridge.ts:22-24 | throws iff the groups are undefined; otherwise the group names |
| CoreDataBridge.GetEntranceAnimationDirections | src/editor/adapters/core-data-bridge.ts:36-39 | throws iff the groups are undefined; otherwise the group's directions |
| CoreDataBridge.First | src/editor/adapters/core-data-bridge.ts:54 | undefined iff there is no direction, else the first one |
| CoreDataBridge.GetFirstEntranceAnimationDirection | src/editor/adapters/core-data-bridge.ts:52-55 | throws iff the groups are undefined; otherwise the first direction |
| CoreDataBridge.FirstGroupWith | src/editor/adapters/core-data-bridge.ts:70-74 | the position of the first group listing the animation, absent iff no group lists it |
| CoreDataBridge.GroupOf | src/editor/adapters/core-data-bridge.ts:68-84 | the first entrance group listing the animation, else the first scroll group, else undefined |
| CoreDataBridge.FindAnimationType | src/editor/adapters/core-data-bridge.ts:68-84 | the two loops throw iff the groups are undefined, and otherwise return GroupOf |
| CoreDataBridge.FoundGroupListsTheAnimation | src/editor/adapters/core-data-bridge.ts:68-84 | a group that is found lists the animation among its members |
| CoreDataBridge.CoreGroupNamesAreDistinct | src/core/animations/entrance/keyframes/index.ts:52-60 | the entrance and scroll group names are distinct |
| CoreDataBridge.EntranceOperationsThrowAsWritten | src/editor/adapters/core-data-bridge.ts:9-12 | as imported, every entrance operation throws a TypeError |
| CoreDataBridge.IntendedBridgeFindsEveryPreset | src/editor/adapters/core-data-bridge.ts:68-84 | with the groups exported, every entrance preset is found in its own group |
| CalculateTransform.RestingIsTheIdentityRender | src/utils/calculate-transform.js:53 | the in-view transform is the rendering of no move and scale 1 |
| CalculateTransform.RestingOnlyWhenUnmoved | src/utils/calculate-transform.js:53 | a rendering equals the resting transform iff its arguments are "0", "0" and "1" |
| CalculateTransform.Calculate | src/utils/calculate-transform.js:15-54 | in view: resting; slide: 20 px along the direction (up and left negative), or scale 0.95 for center; spring: scale 0.9; anything else: no move |
| ElementVisibility.VisibilityRatio | src/frontend/utils/element-visibility.ts:30-63 | the ratio lies in [0,1]; it is 0 without height or vertical overlap, and 1 when the element lies wholly inside the viewport height |
| ElementVisibility.FractionAtMostOne | src/frontend/utils/element-visibility.ts:30-63 | a part of a positive whole is a fraction in [0,1] |
| ElementVisibility.GetElementVisibility | src/frontend/utils/element-visibility.ts:30-63 | in-viewport and fully-visible by the bounds; partial iff in viewport and not full; the threshold defaults to 0.3 |
| ElementVisibility.FullyVisibleMeetsAnyThreshold | src/frontend/utils/element-visibility.ts:30-63 | a fully visible element meets any threshold of at most 1 |
| ElementVisibility.MeetingThresholdNeedsVerticalOverlap | src/frontend/utils/element-visibility.ts:30-63 | meeting a positive threshold requires a vertical overlap with the viewport |

## Left out

- The entrance group files under `src/core/animations/entrance/keyframes/{bounce,fade,rotate,slide,zoom}/` are not part of this model. Their member lists are taken from `src/core/animations/keyframes/*/index.ts`, which name the same presets in the same order.
- Number and string formatting of CSS values (`translate(…)`, `opacity`, transition strings) is not modelled. Values are datatypes; only the legacy `calculateTransform` keeps its string form.
- `UpperChar` covers ASCII letters only. JavaScript's `toUpperCase` maps all of Unicode.
- Keys inherited from `Object.prototype` (`"constructor"`, `"toString"`, …) are not modelled for `VARIANT_LABELS[key]` and `GROUPS[type]`. The model treats those lookups as plain maps.
- `getScrollVariants` (`src/editor/utils/animation-helpers.ts:49-69`) is not modelled: the editor uses it only for menu display.
- EditorStore.Reducer: a SET action without an `enabled` field (where JavaScript would store `undefined`) is not modelled. The action always carries a boolean.
- The frontend's shared `MotionContext` type lacks `motionScrollRange`. The model uses the shape of `src/types/index.ts`, which has it.
- FrontendView.InitMotionStep: the `catch` fallback of `initMotion` (`src/frontend-view.ts:60-66`), which sets opacity to 1, is not modelled. The only call inside the `try` that can throw is the construction of the platform's IntersectionObserver and its `observe` (`src/frontend-view.ts:107-148`), which the model assumes never throw.
- FrontendView: `src/frontend-view.ts:17` imports `createEntranceAnimation` and `createScrollAnimation` from `"./animations"`, which resolves to `src/animations.ts` (the `src/animations/` directory has no index file). The frontend therefore never calls ScrollAnimation.CreateScrollAnimation, which models `src/frontend/animations/create-scroll-animation.ts`; the frontend model takes the builders' results as inputs.
- FrontendView.ToAnimationType: `src/frontend-view.ts` imports `toAnimationType` from `"./types"`. Both `src/types.ts`, which has no such export, and `src/types/index.ts`, which defines it at line 85, exist. The model assumes the import resolves to `src/types/index.ts`. Under file-before-directory resolution it would resolve to `src/types.ts`, leaving `toAnimationType` undefined at `src/frontend-view.ts:166`.
- FrontendView.ElementMotion.InitMotion is modelled for one initialization per element (it requires that no context was set yet). Re-initializing an element would leak its earlier observers in the source.
- View.MotionBlocks: an element's inline style is recorded as the last patch applied, not as a merge of CSS properties.
- Registering the interactivity store, `supportsViewTimeline`, `prefers-reduced-motion`, the window size and the ViewTimeline platform are inputs, not models.
- Console logging, timers and the WordPress PHP side are not modelled.

## Findings

| source | as written | input that shows it | evidently intended | confidence | as-written member | corrected member |
|---|---|---|---|---|---|---|
| src/animations/base-animation.js:76-79 | one timing after the comma-joined properties, so in CSS only the last property (transform) is timed | any settings: `opacity, transform 600ms ease-out 0ms` gives opacity a 0 s transition | every supported property transitions with the configured timing, as `blur.js` writes it | medium, not executed | BaseAnimation.OpacityLosesItsTiming | BaseAnimation.PerPropertyTimesEveryProperty |
| src/frontend/animations/keyframes/scroll/index.ts:42-44 | keys `ScrollAnimationType.FADE_ENTER_LEAVE` and its two siblings, which the enum does not define, so all three computed keys are `"undefined"` | animation type `"fade-enter-leave"` finds no keyframes, and `"undefined"` finds the slide set | each enter-and-leave keyframe set under its own name | medium, not executed | ScrollAnimation.EnterLeaveKeysCollapse | ScrollAnimation.LookupFindsExactlyItsName |
| src/editor/adapters/core-data-bridge.ts:9-12 | imports `ENTRANCE_ANIMATION_GROUPS` from the entrance index, whose export is commented out (`src/core/animations/entrance/index.ts:12`) | `getEntranceAnimationTypes()` calls `Object.keys(undefined)` and throws a TypeError | the entrance groups are exported and every entrance operation answers from them | medium, not executed | CoreDataBridge.EntranceOperationsThrowAsWritten | CoreDataBridge.IntendedBridgeFindsEveryPreset |
