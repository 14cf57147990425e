/**
 * The frontend lifecycle of one motion block (src/frontend-view.ts): an
 * entrance animation when the element first becomes visible, then, when
 * scroll motion is enabled, a scroll-driven animation once the element has
 * left the viewport and come back.
 *
 * The runtime of an element is the value `Runtime`; the functions over it
 * specify each step and each callback, and the class `ElementMotion` holds
 * the same state in fields and updates it as the source does. The platform
 * is foreign: each IntersectionObserver callback and animation event is an
 * `Event`, builders' results and browser support are inputs, a new observer
 * takes the next identity and `disconnect()` is recorded in `disconnected`.
 */
module FrontendView {
  import opened Common
  import opened ElementState
  import opened MotionOptions

  /** The animation type names of the frontend runtime (src/types/index.ts). */
  const AnimationTypes: seq<string> := [
    "fade-in", "slide-in-up", "slide-in-down", "slide-in-left", "slide-in-right", "scale-in", "blur-in"]

  /** `toAnimationType`: the name itself when it is a known type, `null` otherwise. */
  function ToAnimationType(value: string): (t: Option<string>)
    ensures t.Some? <==> value in AnimationTypes
    ensures t.Some? ==> t.value == value
  {
    if value in AnimationTypes then Some(value) else None
  }

  /** Where the entrance animation is, as far as its `finish` and `cancel` listeners can tell. */
  datatype Playback = Running | Finished | Cancelled

  datatype Runtime = Runtime(
    // the element's own fields
    motionState: Option<MotionState>,
    animations: Option<map<string, AnimationId>>,
    observers: Option<seq<ObserverId>>,
    opacity: Option<real>,
    // the platform's side
    disconnected: set<ObserverId>,
    nextObserver: ObserverId,
    // what the callbacks close over
    context: Option<MotionContext>,
    options: Option<Options>,
    entranceWatcher: Option<ObserverId>,
    entrance: Option<AnimationId>,
    playback: Playback,
    leaveWatcher: Option<ObserverId>,
    hasLeftViewport: bool)

  /** An element the runtime has not touched. */
  const Untouched := Runtime(None, None, None, None, {}, 0, None, None, None, None, Running, None, false)

  /** The element's fields have been initialized and the callbacks have their configuration. */
  predicate Started(st: Runtime)
  {
    st.context.Some? && st.options.Some? && st.motionState.Some? && st.animations.Some? && st.observers.Some?
  }

  /** The observer exists and has not been disconnected, so the platform still calls it back. */
  predicate Connected(st: Runtime, watcher: Option<ObserverId>)
  {
    watcher.Some? && watcher.value !in st.disconnected
  }

  predicate IsScrolling(st: Runtime)
  {
    st.motionState == Some(ScrollReady) || st.motionState == Some(ScrollActive)
  }

  /** The runtime's invariant. */
  predicate Valid(st: Runtime)
  {
    (st.context.Some? ==> Started(st)) &&
    (st.entranceWatcher.Some? ==> st.entranceWatcher.value < st.nextObserver && st.context.Some?) &&
    (st.leaveWatcher.Some? ==> st.leaveWatcher.value < st.nextObserver && st.entranceWatcher.Some? &&
                               st.leaveWatcher != st.entranceWatcher && st.entrance.Some? && st.playback != Running) &&
    (forall o :: o in st.disconnected ==> o < st.nextObserver) &&
    (st.entrance.Some? ==> st.context.Some? && st.entranceWatcher.Some? && "entrance" in st.animations.value &&
                           st.animations.value["entrance"] == st.entrance.value) &&
    (st.motionState == Some(Idle) ==> st.entrance.None? && st.leaveWatcher.None?) &&
    (IsScrolling(st) ==> st.leaveWatcher.Some? && st.leaveWatcher.value in st.disconnected)
  }

  lemma UntouchedIsValid()
    ensures Valid(Untouched) && !Started(Untouched)
  {
  }

  // ------------------------------------------------------------ initialization

  /** The guards of `initMotion`: an element, motion enabled, no reduced-motion preference, a type other than none. */
  predicate ShouldAnimate(present: bool, ctx: Option<MotionContext>, reducedMotion: bool)
  {
    present && ctx.Some? && ctx.value.motionEnabled && !reducedMotion &&
    ctx.value.motionType != "" && ctx.value.motionType != "none"
  }

  /** A new IntersectionObserver watches the element and is appended to its observers. */
  function Watch(st: Runtime): (r: Runtime)
    ensures r.observers == Some(GetOr(st.observers, []) + [st.nextObserver])
    ensures r.nextObserver == st.nextObserver + 1 && r.disconnected == st.disconnected
  {
    st.(observers := Some(GetOr(st.observers, []) + [st.nextObserver]), nextObserver := st.nextObserver + 1)
  }

  /** `observeElementForAnimation`: a new, connected observer becomes the entrance trigger. */
  function ObserveElementStep(st: Runtime): (r: Runtime)
    ensures Connected(r, r.entranceWatcher) || st.nextObserver in st.disconnected
    ensures r.entranceWatcher == Some(st.nextObserver) && r.observers.Some? && st.nextObserver in r.observers.value
    ensures r.motionState == st.motionState && r.animations == st.animations && r.context == st.context
  {
    Watch(st).(entranceWatcher := Some(st.nextObserver))
  }

  /**
   * `initializeElementMotion`: the element is idle with no animations, the
   * options are resolved from the context, and an entrance observer is the
   * element's only observer.
   */
  function InitializeElementMotionStep(st: Runtime, ctx: MotionContext): (r: Runtime)
    ensures Started(r) && r.motionState == Some(Idle) && r.animations == Some(map[])
    ensures r.context == Some(ctx) && r.options == Some(CreateMotionOptions(ctx))
    ensures 0.1 <= r.options.value.threshold <= 1.0
    ensures r.observers == Some([st.nextObserver]) && r.entranceWatcher == Some(st.nextObserver)
    ensures Valid(st) && st.entrance.None? && st.leaveWatcher.None? ==> Valid(r) && Connected(r, r.entranceWatcher)
  {
    var fields := st.(motionState := Some(Idle), animations := Some(map[]), observers := Some([]),
                      context := Some(ctx), options := Some(CreateMotionOptions(ctx)));
    assert [] + [st.nextObserver] == [st.nextObserver];
    ObserveElementStep(fields)
  }

  /** `initMotion`: the element is set up only when every guard passes; otherwise nothing changes. */
  function InitMotionStep(st: Runtime, present: bool, ctx: Option<MotionContext>, reducedMotion: bool): (r: Runtime)
    requires st.context.None?
    ensures !ShouldAnimate(present, ctx, reducedMotion) ==> r == st
    ensures ShouldAnimate(present, ctx, reducedMotion) ==> r == InitializeElementMotionStep(st, ctx.value)
    ensures r.context.Some? <==> ShouldAnimate(present, ctx, reducedMotion)
    ensures Valid(st) ==> Valid(r)
  {
    if !present || ctx.None? || !ctx.value.motionEnabled then st
    else if reducedMotion then st
    else if ctx.value.motionType == "" || ctx.value.motionType == "none" then st
    else InitializeElementMotionStep(st, ctx.value)
  }

  // ------------------------------------------------------------ entrance

  /**
   * `startEntranceAnimation`, given what `createEntranceAnimation` returned:
   * an unknown type makes the element visible but leaves it playing; a
   * failed build makes it visible and complete; otherwise the animation is
   * stored under "entrance" and its listeners are attached.
   */
  function StartEntranceStep(st: Runtime, built: Option<AnimationId>): (r: Runtime)
    requires Started(st)
    ensures Started(r) && r.context == st.context && r.observers == st.observers && r.disconnected == st.disconnected
    ensures ToAnimationType(st.context.value.motionType).None? ==>
      r == st.(motionState := Some(EntryPlaying), opacity := Some(1.0))
    ensures ToAnimationType(st.context.value.motionType).Some? && built.None? ==>
      r == st.(motionState := Some(EntryComplete), opacity := Some(1.0))
    ensures ToAnimationType(st.context.value.motionType).Some? && built.Some? ==>
      && r.motionState == Some(EntryPlaying) && r.opacity == st.opacity
      && r.animations == Some(st.animations.value["entrance" := built.value])
      && r.entrance == built && r.playback == Running
  {
    var playing := st.(motionState := Some(EntryPlaying));
    if ToAnimationType(st.context.value.motionType).None? then
      playing.(opacity := Some(1.0))
    else if built.None? then
      playing.(opacity := Some(1.0), motionState := Some(EntryComplete))
    else
      playing.(animations := Some(st.animations.value["entrance" := built.value]), entrance := built, playback := Running)
  }

  /**
   * The entrance observer's callback: it acts only on an intersecting entry
   * while the element is idle, then starts the entrance and disconnects itself.
   */
  function EntranceSeenStep(st: Runtime, isIntersecting: bool, built: Option<AnimationId>): (r: Runtime)
    ensures !isIntersecting || st.motionState != Some(Idle) ==> r == st
    ensures !Started(st) || !Connected(st, st.entranceWatcher) ==> r == st
    ensures Started(st) && Connected(st, st.entranceWatcher) && isIntersecting && st.motionState == Some(Idle) ==>
      && r == StartEntranceStep(st, built).(disconnected := st.disconnected + {st.entranceWatcher.value})
      && !Connected(r, r.entranceWatcher) && r.motionState != Some(Idle)
    ensures Valid(st) ==> Valid(r)
  {
    if !Started(st) || !Connected(st, st.entranceWatcher) || !isIntersecting then st
    else if st.motionState != Some(Idle) then st
    else
      var started := StartEntranceStep(st, built);
      started.(disconnected := started.disconnected + {st.entranceWatcher.value})
  }

  /** `observeForElementToLeaveAndReturn`: a new observer, with its own "has left" flag unset. */
  function ObserveLeaveStep(st: Runtime): (r: Runtime)
    ensures r.leaveWatcher == Some(st.nextObserver) && !r.hasLeftViewport
    ensures r.observers.Some? && st.nextObserver in r.observers.value
    ensures r.motionState == st.motionState && r.animations == st.animations && r.disconnected == st.disconnected
  {
    Watch(st).(leaveWatcher := Some(st.nextObserver), hasLeftViewport := false)
  }

  /**
   * The entrance animation's `finish` listener: the entrance is complete and,
   * only when scroll motion is enabled, the element is watched for leaving and returning.
   */
  function EntranceFinishedStep(st: Runtime): (r: Runtime)
    ensures !Started(st) || st.entrance.None? || st.playback != Running ==> r == st
    ensures Started(st) && st.entrance.Some? && st.playback == Running ==>
      && r.motionState == Some(EntryComplete) && r.playback == Finished && r.opacity == st.opacity
      && (!st.context.value.motionScrollEnabled ==> r.leaveWatcher == st.leaveWatcher)
      && (st.context.value.motionScrollEnabled ==> r.leaveWatcher == Some(st.nextObserver) && !r.hasLeftViewport)
    ensures Valid(st) ==> Valid(r)
  {
    if !Started(st) || st.entrance.None? || st.playback != Running then st
    else
      var complete := st.(motionState := Some(EntryComplete), playback := Finished);
      if st.context.value.motionScrollEnabled then ObserveLeaveStep(complete) else complete
  }

  /** The entrance animation's `cancel` listener: the element is made visible and marked complete. */
  function EntranceCancelledStep(st: Runtime): (r: Runtime)
    ensures !Started(st) || st.entrance.None? || st.playback == Cancelled ==> r == st
    ensures Started(st) && st.entrance.Some? && st.playback != Cancelled ==>
      r == st.(opacity := Some(1.0), motionState := Some(EntryComplete), playback := Cancelled)
    ensures Valid(st) && st.leaveWatcher.None? ==> Valid(r)
  {
    if !Started(st) || st.entrance.None? || st.playback == Cancelled then st
    else st.(opacity := Some(1.0), motionState := Some(EntryComplete), playback := Cancelled)
  }

  // ------------------------------------------------------------ scroll

  /**
   * `setupScrollAnimation`, given ViewTimeline support and what
   * `createScrollAnimation` returned: no support or a failed build leaves the
   * element ready but static, an unknown type changes nothing, a built
   * animation is stored under "scroll" and makes it active.
   */
  function SetupScrollStep(st: Runtime, viewTimeline: bool, built: Option<AnimationId>): (r: Runtime)
    requires Started(st)
    ensures !viewTimeline ==> r == st.(motionState := Some(ScrollReady))
    ensures viewTimeline && ToAnimationType(st.context.value.motionType).None? ==> r == st
    ensures viewTimeline && ToAnimationType(st.context.value.motionType).Some? ==>
      if built.Some? then r == st.(motionState := Some(ScrollActive), animations := Some(st.animations.value["scroll" := built.value]))
      else r == st.(motionState := Some(ScrollReady))
  {
    if !viewTimeline then st.(motionState := Some(ScrollReady))
    else if ToAnimationType(st.context.value.motionType).None? then st
    else if built.Some? then
      st.(motionState := Some(ScrollActive), animations := Some(st.animations.value["scroll" := built.value]))
    else st.(motionState := Some(ScrollReady))
  }

  /**
   * The leave-and-return observer's callback: the first entry out of view
   * sets the flag; the first entry back in view after that disconnects the
   * observer and sets up the scroll animation; every other entry is ignored.
   */
  function LeaveWatchSeenStep(st: Runtime, isIntersecting: bool, viewTimeline: bool, built: Option<AnimationId>): (r: Runtime)
    ensures !Started(st) || !Connected(st, st.leaveWatcher) ==> r == st
    ensures isIntersecting && !st.hasLeftViewport ==> r == st
    ensures !isIntersecting && st.hasLeftViewport ==> r == st
    ensures Started(st) && Connected(st, st.leaveWatcher) && !isIntersecting && !st.hasLeftViewport ==>
      r == st.(hasLeftViewport := true)
    ensures Started(st) && Connected(st, st.leaveWatcher) && isIntersecting && st.hasLeftViewport ==>
      r == SetupScrollStep(st.(disconnected := st.disconnected + {st.leaveWatcher.value}), viewTimeline, built)
    ensures Valid(st) ==> Valid(r)
  {
    if !Started(st) || !Connected(st, st.leaveWatcher) then st
    else if !isIntersecting && !st.hasLeftViewport then st.(hasLeftViewport := true)
    else if isIntersecting && st.hasLeftViewport then
      SetupScrollStep(st.(disconnected := st.disconnected + {st.leaveWatcher.value}), viewTimeline, built)
    else st
  }

  // ------------------------------------------------------------ event traces

  /** What the platform delivers to the callbacks, with the foreign results each callback consumes. */
  datatype Event =
    | EntranceSeen(isIntersecting: bool, entranceBuilt: Option<AnimationId>)
    | EntranceFinished
    | EntranceCancelled
    | LeaveWatchSeen(isIntersecting: bool, viewTimeline: bool, scrollBuilt: Option<AnimationId>)

  function Apply(st: Runtime, e: Event): Runtime
  {
    match e
    case EntranceSeen(isIntersecting, built) => EntranceSeenStep(st, isIntersecting, built)
    case EntranceFinished => EntranceFinishedStep(st)
    case EntranceCancelled => EntranceCancelledStep(st)
    case LeaveWatchSeen(isIntersecting, viewTimeline, built) => LeaveWatchSeenStep(st, isIntersecting, viewTimeline, built)
  }

  function Deliver(st: Runtime, events: seq<Event>): Runtime
  {
    if |events| == 0 then st
    else Apply(Deliver(st, events[..|events| - 1]), events[|events| - 1])
  }

  /** One event keeps the invariant (a cancel after the leave watcher exists included). */
  lemma {:induction false} ApplyKeepsValid(st: Runtime, e: Event)
    requires Valid(st)
    ensures Valid(Apply(st, e))
  {
    if e.EntranceCancelled? && st.leaveWatcher.Some? && Started(st) && st.entrance.Some? && st.playback != Cancelled {
      var r := Apply(st, e);
      assert r == st.(opacity := Some(1.0), motionState := Some(EntryComplete), playback := Cancelled);
    }
  }

  lemma {:induction false} DeliverKeepsValid(st: Runtime, events: seq<Event>)
    requires Valid(st)
    ensures Valid(Deliver(st, events))
  {
    if |events| > 0 {
      DeliverKeepsValid(st, events[..|events| - 1]);
      ApplyKeepsValid(Deliver(st, events[..|events| - 1]), events[|events| - 1]);
    }
  }

  /** Once the element has left the idle state, no callback returns it there. */
  lemma {:induction false} NeverBackToIdle(st: Runtime, events: seq<Event>)
    requires st.motionState.Some? && st.motionState != Some(Idle)
    ensures Deliver(st, events).motionState.Some? && Deliver(st, events).motionState != Some(Idle)
  {
    if |events| > 0 {
      NeverBackToIdle(st, events[..|events| - 1]);
    }
  }

  /** The entrance animation is started at most once: once stored, it is never replaced. */
  lemma {:induction false} EntranceStartsOnce(st: Runtime, events: seq<Event>)
    requires Valid(st) && st.entrance.Some?
    ensures var r := Deliver(st, events);
      r.entrance == st.entrance && r.animations.Some? && "entrance" in r.animations.value &&
      r.animations.value["entrance"] == st.entrance.value
  {
    DeliverKeepsValid(st, events);
    if |events| > 0 {
      EntranceStartsOnce(st, events[..|events| - 1]);
      DeliverKeepsValid(st, events[..|events| - 1]);
    }
  }

  /** Only events out of view can open the leave-and-return gate. */
  predicate AlwaysIntersecting(events: seq<Event>)
  {
    forall i :: 0 <= i < |events| && events[i].LeaveWatchSeen? ==> events[i].isIntersecting
  }

  /**
   * An element that never leaves the viewport never gets a scroll animation:
   * the gate needs an entry out of view before an entry back in.
   */
  lemma {:induction false} ContinuousIntersectionNeverScrolls(st: Runtime, events: seq<Event>)
    requires Valid(st) && !IsScrolling(st) && !st.hasLeftViewport
    requires AlwaysIntersecting(events)
    ensures !IsScrolling(Deliver(st, events)) && !Deliver(st, events).hasLeftViewport
  {
    if |events| > 0 {
      var init := events[..|events| - 1];
      assert AlwaysIntersecting(init) by {
        forall i | 0 <= i < |init| && init[i].LeaveWatchSeen? ensures init[i].isIntersecting {
          assert init[i] == events[i];
        }
      }
      ContinuousIntersectionNeverScrolls(st, init);
    }
  }

  /** With scroll motion disabled the element never reaches a scroll state. */
  lemma {:induction false} NoScrollWhenDisabled(st: Runtime, events: seq<Event>)
    requires st.context.Some? && !st.context.value.motionScrollEnabled
    requires st.leaveWatcher.None? && !IsScrolling(st)
    ensures !IsScrolling(Deliver(st, events)) && Deliver(st, events).leaveWatcher.None?
    ensures Deliver(st, events).context == st.context
  {
    if |events| > 0 {
      NoScrollWhenDisabled(st, events[..|events| - 1]);
    }
  }

  /** Leaving and then returning to the viewport sets up the scroll animation and stops the watcher. */
  lemma {:induction false} LeaveThenReturnSetsUpScroll(st: Runtime, viewTimeline: bool, built: Option<AnimationId>, other: Option<AnimationId>)
    requires Started(st) && Connected(st, st.leaveWatcher) && !st.hasLeftViewport
    ensures var r := Deliver(st, [LeaveWatchSeen(false, viewTimeline, other), LeaveWatchSeen(true, viewTimeline, built)]);
      && r == SetupScrollStep(st.(hasLeftViewport := true, disconnected := st.disconnected + {st.leaveWatcher.value}), viewTimeline, built)
      && !Connected(r, r.leaveWatcher)
  {
    var events := [LeaveWatchSeen(false, viewTimeline, other), LeaveWatchSeen(true, viewTimeline, built)];
    assert events[..1][..0] == [];
    assert Deliver(st, events[..1]) == st.(hasLeftViewport := true);
  }

  /**
   * A fade-in block with scroll motion: it enters, finishes, scrolls out of
   * view and back, and ends with both animations stored and both observers
   * disconnected.
   */
  lemma {:induction false} FadeInWithScrollLifecycle()
    ensures var ctx := MotionContext(true, "fade-in", None, None, None, true, None);
      var r := Deliver(InitMotionStep(Untouched, true, Some(ctx), false),
                       [EntranceSeen(true, Some(1)), EntranceFinished, LeaveWatchSeen(false, true, None), LeaveWatchSeen(true, true, Some(2))]);
      && r.motionState == Some(ScrollActive)
      && r.animations == Some(map["entrance" := 1, "scroll" := 2])
      && r.observers == Some([0, 1]) && r.disconnected == {0, 1}
  {
    var ctx := MotionContext(true, "fade-in", None, None, None, true, None);
    var r0 := InitMotionStep(Untouched, true, Some(ctx), false);
    DeliverFour(r0, EntranceSeen(true, Some(1)), EntranceFinished, LeaveWatchSeen(false, true, None), LeaveWatchSeen(true, true, Some(2)));
    FadeInEntersAndWatches();
    FadeInLeavesAndReturns(EntranceFinishedStep(EntranceSeenStep(r0, true, Some(1))));
  }

  /** The second half of the fade-in lifecycle: out of view and back in, the scroll animation starts. */
  lemma FadeInLeavesAndReturns(r2: Runtime)
    requires Started(r2) && r2.context.value.motionType == "fade-in"
    requires r2.animations == Some(map["entrance" := 1])
    requires r2.leaveWatcher == Some(1) && r2.disconnected == {0} && !r2.hasLeftViewport
    ensures var r4 := LeaveWatchSeenStep(LeaveWatchSeenStep(r2, false, true, None), true, true, Some(2));
      && r4.motionState == Some(ScrollActive) && r4.observers == r2.observers
      && r4.animations == Some(map["entrance" := 1, "scroll" := 2]) && r4.disconnected == {0, 1}
  {
    var r3 := LeaveWatchSeenStep(r2, false, true, None);
    assert r3 == r2.(hasLeftViewport := true);
    assert ToAnimationType("fade-in") == Some("fade-in");
  }

  /** The first half of the fade-in lifecycle: the entrance runs, finishes, and a leave watch is installed. */
  lemma FadeInEntersAndWatches()
    ensures var ctx := MotionContext(true, "fade-in", None, None, None, true, None);
      var r2 := EntranceFinishedStep(EntranceSeenStep(InitMotionStep(Untouched, true, Some(ctx), false), true, Some(1)));
      && Started(r2) && r2.context == Some(ctx) && r2.motionState == Some(EntryComplete)
      && r2.animations == Some(map["entrance" := 1])
      && r2.observers == Some([0, 1]) && r2.disconnected == {0}
      && r2.leaveWatcher == Some(1) && !r2.hasLeftViewport
  {
    var ctx := MotionContext(true, "fade-in", None, None, None, true, None);
    var r0 := InitMotionStep(Untouched, true, Some(ctx), false);
    assert r0 == InitializeElementMotionStep(Untouched, ctx);
    assert Started(r0) && r0.motionState == Some(Idle) && r0.entranceWatcher == Some(0);
    assert r0.disconnected == {} && r0.nextObserver == 1 && r0.observers == Some([0]);
    assert ToAnimationType("fade-in") == Some("fade-in");
    var r1 := EntranceSeenStep(r0, true, Some(1));
    assert r1.motionState == Some(EntryPlaying) && r1.entrance == Some(1) && r1.disconnected == {0};
    assert r1.observers == Some([0]) && r1.nextObserver == 1;
    assert [0] + [1] == [0, 1];
  }

  /** Delivering four callbacks applies them in order. */
  lemma DeliverFour(st: Runtime, a: Event, b: Event, c: Event, d: Event)
    ensures Deliver(st, [a, b, c, d]) == Apply(Apply(Apply(Apply(st, a), b), c), d)
  {
    DeliverSnoc(st, [], a);
    DeliverSnoc(st, [a], b);
    DeliverSnoc(st, [a, b], c);
    DeliverSnoc(st, [a, b, c], d);
    assert [] + [a] == [a] && [a] + [b] == [a, b] && [a, b] + [c] == [a, b, c] && [a, b, c] + [d] == [a, b, c, d];
  }

  /** Delivering one more callback applies it to the state the earlier ones left. */
  lemma DeliverSnoc(st: Runtime, events: seq<Event>, e: Event)
    ensures Deliver(st, events + [e]) == Apply(Deliver(st, events), e)
  {
    assert (events + [e])[..|events|] == events;
  }

  // ------------------------------------------------------------ the class

  /** A motion element together with the state its callbacks close over. */
  class ElementMotion {
    var motionState: Option<MotionState>
    var animations: Option<map<string, AnimationId>>
    var observers: Option<seq<ObserverId>>
    var opacity: Option<real>
    var disconnected: set<ObserverId>
    var nextObserver: ObserverId
    var context: Option<MotionContext>
    var options: Option<Options>
    var entranceWatcher: Option<ObserverId>
    var entrance: Option<AnimationId>
    var playback: Playback
    var leaveWatcher: Option<ObserverId>
    var hasLeftViewport: bool

    function Model(): Runtime
      reads this
    {
      Runtime(motionState, animations, observers, opacity, disconnected, nextObserver,
              context, options, entranceWatcher, entrance, playback, leaveWatcher, hasLeftViewport)
    }

    constructor ()
      ensures Model() == Untouched
    {
      motionState, animations, observers, opacity := None, None, None, None;
      disconnected, nextObserver := {}, 0;
      context, options, entranceWatcher, entrance, playback := None, None, None, None, Running;
      leaveWatcher, hasLeftViewport := None, false;
    }

    method InitMotion(present: bool, ctx: Option<MotionContext>, reducedMotion: bool)
      requires context.None?
      modifies this
      ensures Model() == InitMotionStep(old(Model()), present, ctx, reducedMotion)
    {
      if !present || ctx.None? || !ctx.value.motionEnabled {
        return;
      }
      if reducedMotion {
        return;
      }
      if ctx.value.motionType == "" || ctx.value.motionType == "none" {
        return;
      }
      InitializeElementMotion(ctx.value);
    }

    method InitializeElementMotion(ctx: MotionContext)
      modifies this
      ensures Model() == InitializeElementMotionStep(old(Model()), ctx)
    {
      ghost var fields := Model().(motionState := Some(Idle), animations := Some(map[]), observers := Some([]),
                                   context := Some(ctx), options := Some(CreateMotionOptions(ctx)));
      motionState := Some(Idle);
      animations := Some(map[]);
      observers := Some([]);
      context := Some(ctx);
      options := Some(CreateMotionOptions(ctx));
      assert Model() == fields;
      ObserveElementForAnimation();
      assert Model() == ObserveElementStep(fields);
    }

    method ObserveElementForAnimation()
      modifies this
      ensures Model() == ObserveElementStep(old(Model()))
    {
      var observer := nextObserver;
      nextObserver := nextObserver + 1;
      entranceWatcher := Some(observer);
      if observers.None? {
        observers := Some([]);
      }
      observers := Some(observers.value + [observer]);
    }

    /** The entrance observer's callback. */
    method OnEntranceIntersection(isIntersecting: bool, built: Option<AnimationId>)
      modifies this
      ensures Model() == EntranceSeenStep(old(Model()), isIntersecting, built)
    {
      if !Started(Model()) || !Connected(Model(), entranceWatcher) {
        return;
      }
      if isIntersecting {
        if motionState != Some(Idle) {
          return;
        }
        var observer := entranceWatcher.value;
        StartEntranceAnimation(built);
        disconnected := disconnected + {observer};
      }
    }

    method StartEntranceAnimation(built: Option<AnimationId>)
      requires Started(Model())
      modifies this
      ensures Model() == StartEntranceStep(old(Model()), built)
    {
      motionState := Some(EntryPlaying);
      var kind := ToAnimationType(context.value.motionType);
      if kind.None? {
        opacity := Some(1.0);
        return;
      }
      if built.None? {
        opacity := Some(1.0);
        motionState := Some(EntryComplete);
        return;
      }
      animations := Some(animations.value["entrance" := built.value]);
      entrance := built;
      playback := Running;
    }

    /** The entrance animation's `finish` listener. */
    method OnEntranceFinish()
      modifies this
      ensures Model() == EntranceFinishedStep(old(Model()))
    {
      if !Started(Model()) || entrance.None? || playback != Running {
        return;
      }
      playback := Finished;
      motionState := Some(EntryComplete);
      if context.value.motionScrollEnabled {
        ObserveForElementToLeaveAndReturn();
      }
    }

    /** The entrance animation's `cancel` listener. */
    method OnEntranceCancel()
      modifies this
      ensures Model() == EntranceCancelledStep(old(Model()))
    {
      if !Started(Model()) || entrance.None? || playback == Cancelled {
        return;
      }
      playback := Cancelled;
      opacity := Some(1.0);
      motionState := Some(EntryComplete);
    }

    method ObserveForElementToLeaveAndReturn()
      modifies this
      ensures Model() == ObserveLeaveStep(old(Model()))
    {
      hasLeftViewport := false;
      var observer := nextObserver;
      nextObserver := nextObserver + 1;
      leaveWatcher := Some(observer);
      if observers.None? {
        observers := Some([]);
      }
      observers := Some(observers.value + [observer]);
    }

    /** The leave-and-return observer's callback. */
    method OnLeaveWatchIntersection(isIntersecting: bool, viewTimeline: bool, built: Option<AnimationId>)
      modifies this
      ensures Model() == LeaveWatchSeenStep(old(Model()), isIntersecting, viewTimeline, built)
    {
      if !Started(Model()) || !Connected(Model(), leaveWatcher) {
        return;
      }
      if !isIntersecting && !hasLeftViewport {
        hasLeftViewport := true;
      } else if isIntersecting && hasLeftViewport {
        disconnected := disconnected + {leaveWatcher.value};
        SetupScrollAnimation(viewTimeline, built);
      }
    }

    method SetupScrollAnimation(viewTimeline: bool, built: Option<AnimationId>)
      requires Started(Model())
      modifies this
      ensures Model() == SetupScrollStep(old(Model()), viewTimeline, built)
    {
      if !viewTimeline {
        motionState := Some(ScrollReady);
        return;
      }
      var kind := ToAnimationType(context.value.motionType);
      if kind.None? {
        return;
      }
      if built.Some? {
        motionState := Some(ScrollActive);
        animations := Some(animations.value["scroll" := built.value]);
      } else {
        motionState := Some(ScrollReady);
      }
    }
  }
}
