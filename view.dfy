/**
 * The runtime that binds intersection-driven animations to page elements
 * (src/view.js, class MotionBlocks).
 *
 * The store's state is the value `Store`; the functions over it are the
 * specification of each method, and the class `MotionBlocks` holds the same
 * state in fields and updates it step by step as the source does.
 * IntersectionObserver and the element's inline style are foreign: creating
 * an observer takes the next identity, `disconnect()` is recorded in
 * `disconnected`, and `styles` records the last patch written to each element.
 */
module View {
  import opened Common
  import opened BaseAnimation
  import opened Animations
  import AnimationFactory

  /** Identity of a page element (a DOM node reference). */
  datatype ElementRef = ElementRef(id: nat)

  /**
   * The `data-motion-*` attributes an element carries. Numeric attributes are
   * given as what `parseInt` / `parseFloat` read from them, `None` for NaN.
   */
  datatype Dataset = Dataset(
    motionEnabled: Option<string>,
    motionPreset: Option<string>,
    motionDelay: Option<int>,
    motionDuration: Option<int>,
    motionEasing: Option<string>,
    motionStartThreshold: Option<real>,
    motionEndThreshold: Option<real>,
    motionPlayOnce: Option<string>)

  /** The settings object `initializeElement` builds from the attributes. */
  datatype ElementSettings = ElementSettings(preset: string, values: Settings)

  /** What the store keeps per element. */
  datatype ElementData = ElementData(
    animation: Animation,
    settings: ElementSettings,
    hasAnimated: bool,
    isVisible: bool,
    lastProgress: real)

  datatype Store = Store(
    observers: map<ElementRef, ObserverId>,
    elements: map<ElementRef, ElementData>,
    isInitialized: bool,
    styles: map<ElementRef, StylePatch>,
    disconnected: set<ObserverId>,
    nextObserver: ObserverId)

  const EmptyStore := Store(map[], map[], false, map[], {}, 0)

  function IntOr(n: Option<int>, fallback: real): real
  {
    if n.Some? && n.value != 0 then n.value as real else fallback
  }

  /**
   * Attribute defaults use `||`, so an attribute that reads as 0 falls back
   * too: a start threshold of "0" becomes 0.1 and a duration of "0" becomes 600.
   */
  function SettingsFrom(ds: Dataset): (s: ElementSettings)
    ensures s.preset != "" && s.values.duration != 0.0
    ensures ds.motionPreset.None? || ds.motionPreset == Some("") ==> s.preset == "fade"
    ensures ds.motionPreset.Some? && ds.motionPreset.value != "" ==> s.preset == ds.motionPreset.value
    ensures ds.motionDelay.None? || ds.motionDelay == Some(0) ==> s.values.delay == 0.0
    ensures ds.motionDelay.Some? && ds.motionDelay.value != 0 ==> s.values.delay == ds.motionDelay.value as real
    ensures ds.motionDuration.None? || ds.motionDuration == Some(0) ==> s.values.duration == 600.0
    ensures ds.motionDuration.Some? && ds.motionDuration.value != 0 ==> s.values.duration == ds.motionDuration.value as real
    ensures ds.motionEasing.None? || ds.motionEasing == Some("") ==> s.values.easing == "ease-out"
    ensures ds.motionEasing.Some? && ds.motionEasing.value != "" ==> s.values.easing == ds.motionEasing.value
    ensures (ds.motionStartThreshold.None? || ds.motionStartThreshold == Some(0.0)) ==> s.values.startThreshold == 0.1
    ensures ds.motionStartThreshold.Some? && ds.motionStartThreshold.value != 0.0 ==> s.values.startThreshold == ds.motionStartThreshold.value
    ensures (ds.motionEndThreshold.None? || ds.motionEndThreshold == Some(0.0)) ==> s.values.endThreshold == 0.9
    ensures ds.motionEndThreshold.Some? && ds.motionEndThreshold.value != 0.0 ==> s.values.endThreshold == ds.motionEndThreshold.value
    ensures s.values.playOnce <==> ds.motionPlayOnce == Some("true")
  {
    ElementSettings(
      StringOr(ds.motionPreset, "fade"),
      Settings(
        IntOr(ds.motionDelay, 0.0),
        IntOr(ds.motionDuration, 600.0),
        StringOr(ds.motionEasing, "ease-out"),
        NumberOr(ds.motionStartThreshold, 0.1),
        NumberOr(ds.motionEndThreshold, 0.9),
        ds.motionPlayOnce == Some("true")))
  }

  /** The whole settings object is handed to the factory, so every base key is present. */
  function BagFrom(s: ElementSettings): SettingsBag
  {
    SettingsBag(
      Overrides(Some(s.values.delay), Some(s.values.duration), Some(s.values.easing),
                Some(s.values.startThreshold), Some(s.values.endThreshold), Some(s.values.playOnce)),
      None, None, None, None, None, None)
  }

  /** `animationFactory.create(settings.preset, settings)` for an element's attributes. */
  function AnimationFor(ds: Dataset): (r: Option<Animation>)
    ensures r.Some? ==> r.value.settings == SettingsFrom(ds).values
    ensures r.Some? ==> Animations.ValidateSettings(r.value) && SettingsFrom(ds).preset in AnimationFactory.Types
  {
    var s := SettingsFrom(ds);
    AnimationFactory.Create(s.preset, AnimationFactory.Given(BagFrom(s)))
  }

  function Abs(x: real): real { if x < 0.0 then -x else x }

  /** The store's invariant. */
  predicate Valid(st: Store)
  {
    (forall e :: e in st.observers ==> e in st.elements) &&
    (forall e :: e in st.observers ==> st.observers[e] < st.nextObserver && st.observers[e] !in st.disconnected) &&
    (forall o :: o in st.disconnected ==> o < st.nextObserver) &&
    (forall e1, e2 :: e1 in st.observers && e2 in st.observers && e1 != e2 ==> st.observers[e1] != st.observers[e2]) &&
    (forall e :: e in st.elements ==>
       0.0 <= st.elements[e].lastProgress <= 1.0 && e in st.styles &&
       Animations.ValidateSettings(st.elements[e].animation))
  }

  // ------------------------------------------------------------ operations

  /**
   * `initializeElement`: an element whose attributes give no animation is
   * left untouched; otherwise it is tracked afresh, set to its initial
   * snapshot without a transition, and watched by a new observer.
   */
  function InitializeElementStep(st: Store, el: ElementRef, ds: Dataset): (r: Store)
    ensures AnimationFor(ds).None? ==> r == st
    ensures AnimationFor(ds).Some? ==>
      && r.elements == st.elements[el := ElementData(AnimationFor(ds).value, SettingsFrom(ds), false, false, 0.0)]
      && r.styles == st.styles[el := PatchFor(AnimationFor(ds).value, 0.0, true)]
      && r.observers == st.observers[el := st.nextObserver]
      && r.nextObserver == st.nextObserver + 1
      && r.disconnected == st.disconnected && r.isInitialized == st.isInitialized
    ensures Valid(st) ==> Valid(r)
  {
    match AnimationFor(ds)
    case None => st
    case Some(animation) =>
      var tracked := st.(
        elements := st.elements[el := ElementData(animation, SettingsFrom(ds), false, false, 0.0)],
        styles := st.styles[el := PatchFor(animation, 0.0, true)]);
      CreateObserverStep(tracked, el)
  }

  /** `createObserver`: a new observer watches the element and replaces its map entry. */
  function CreateObserverStep(st: Store, el: ElementRef): (r: Store)
    ensures r.observers == st.observers[el := st.nextObserver] && r.nextObserver == st.nextObserver + 1
    ensures r.elements == st.elements && r.styles == st.styles && r.disconnected == st.disconnected
  {
    st.(observers := st.observers[el := st.nextObserver], nextObserver := st.nextObserver + 1)
  }

  /** Each matched element in document order, as `forEach` visits them. */
  function InitializeAll(st: Store, matched: seq<(ElementRef, Dataset)>): Store
  {
    if |matched| == 0 then st
    else
      var last := matched[|matched| - 1];
      InitializeElementStep(InitializeAll(st, matched[..|matched| - 1]), last.0, last.1)
  }

  /** A matched entry that initializes `el`. */
  predicate Adds(entry: (ElementRef, Dataset), el: ElementRef)
  {
    entry.0 == el && AnimationFor(entry.1).Some?
  }

  /** Some matched entry initializes `el`. */
  predicate Yields(matched: seq<(ElementRef, Dataset)>, el: ElementRef)
  {
    exists i :: 0 <= i < |matched| && Adds(matched[i], el)
  }

  /** After initializing a list, an element is tracked iff it was before or some entry for it yields an animation. */
  lemma {:induction false} InitializeAllTracks(st: Store, matched: seq<(ElementRef, Dataset)>, el: ElementRef)
    ensures el in InitializeAll(st, matched).elements <==> el in st.elements || Yields(matched, el)
  {
    if |matched| > 0 {
      var init := matched[..|matched| - 1];
      var last := matched[|matched| - 1];
      InitializeAllTracks(st, init, el);
      var prev := InitializeAll(st, init);
      assert InitializeAll(st, matched) == InitializeElementStep(prev, last.0, last.1);
      StepTracks(prev, last.0, last.1, el);
      assert (last.0, last.1) == last;
      assert matched == init + [last];
      YieldsSnoc(init, last, el);
    }
  }

  /** An entry appended to the list adds its own element to those the list yields. */
  lemma YieldsSnoc(init: seq<(ElementRef, Dataset)>, last: (ElementRef, Dataset), el: ElementRef)
    ensures Yields(init + [last], el) <==> Yields(init, el) || Adds(last, el)
  {
    var matched := init + [last];
    if Yields(init, el) {
      var i :| 0 <= i < |init| && Adds(init[i], el);
      assert matched[i] == init[i];
    }
    if Adds(last, el) {
      assert matched[|init|] == last;
    }
    if Yields(matched, el) {
      var i :| 0 <= i < |matched| && Adds(matched[i], el);
      if i < |init| {
        assert init[i] == matched[i];
      }
    }
  }

  /** One `initializeElement` adds its element exactly when the attributes yield an animation. */
  lemma StepTracks(st: Store, x: ElementRef, ds: Dataset, el: ElementRef)
    ensures el in InitializeElementStep(st, x, ds).elements <==> el in st.elements || Adds((x, ds), el)
  {
  }

  /** Initializing a list keeps the store invariant and touches neither the init flag nor the disconnected observers. */
  lemma {:induction false} InitializeAllKeepsValid(st: Store, matched: seq<(ElementRef, Dataset)>)
    ensures Valid(st) ==> Valid(InitializeAll(st, matched))
    ensures InitializeAll(st, matched).isInitialized == st.isInitialized
    ensures InitializeAll(st, matched).disconnected == st.disconnected
  {
    if |matched| > 0 {
      InitializeAllKeepsValid(st, matched[..|matched| - 1]);
    }
  }

  /**
   * `init`: runs once; with no matched elements it does nothing and the
   * store stays uninitialized, so a later call tries again.
   */
  function InitStep(st: Store, matched: seq<(ElementRef, Dataset)>): (r: Store)
    ensures st.isInitialized || |matched| == 0 ==> r == st
    ensures !st.isInitialized && |matched| > 0 ==> r.isInitialized
    ensures Valid(st) ==> Valid(r)
  {
    if st.isInitialized then st
    else if |matched| == 0 then st
    else
      InitializeAllKeepsValid(st, matched);
      InitializeAll(st, matched).(isInitialized := true)
  }

  /** `disconnectElement`: stop watching; the element's data stays. */
  function DisconnectElementStep(st: Store, el: ElementRef): (r: Store)
    ensures el !in r.observers && r.elements == st.elements && r.styles == st.styles
    ensures r.observers == st.observers - {el}
    ensures el in st.observers ==> r.disconnected == st.disconnected + {st.observers[el]}
    ensures el !in st.observers ==> r == st
    ensures forall e :: e != el ==> (e in r.observers <==> e in st.observers)
    ensures Valid(st) ==> Valid(r)
  {
    if el in st.observers then
      st.(observers := st.observers - {el}, disconnected := st.disconnected + {st.observers[el]})
    else st
  }

  /**
   * `animateElement`: progress from the ratio; a change under 0.01 is
   * skipped unless the last progress was 0 or the new one is 1; otherwise the
   * styles for the new progress are written with a transition.
   */
  function AnimateElementStep(st: Store, el: ElementRef, ratio: real): (r: Store)
    requires el in st.elements
    ensures el in r.elements && r.observers == st.observers && r.disconnected == st.disconnected
    ensures var d, p := st.elements[el], CalculateProgress(st.elements[el].animation.settings, ratio, st.elements[el].isVisible, st.elements[el].hasAnimated);
      if Abs(p - d.lastProgress) < 0.01 && d.lastProgress != 0.0 && p != 1.0 then r == st
      else (r.elements[el] == d.(hasAnimated := d.hasAnimated || p > 0.0, lastProgress := p)
            && r.styles == st.styles[el := PatchFor(d.animation, p, false)])
    ensures forall e :: e != el && e in st.elements ==> e in r.elements && r.elements[e] == st.elements[e]
    ensures st.elements[el].hasAnimated ==> r.elements[el].hasAnimated
    ensures Valid(st) ==> Valid(r)
  {
    var d := st.elements[el];
    var progress := CalculateProgress(d.animation.settings, ratio, d.isVisible, d.hasAnimated);
    if Abs(progress - d.lastProgress) < 0.01 && d.lastProgress != 0.0 && progress != 1.0 then st
    else
      var updated := d.(hasAnimated := if progress > 0.0 then true else d.hasAnimated, lastProgress := progress);
      st.(elements := st.elements[el := updated], styles := st.styles[el := PatchFor(d.animation, progress, false)])
  }

  /** The play-once stop condition: the animation has run to completion once. */
  predicate Completed(d: ElementData)
  {
    d.settings.values.playOnce && d.hasAnimated && d.lastProgress >= 1.0
  }

  /**
   * `handleIntersection`: untracked elements are ignored; visibility is
   * recorded; a completed play-once element is disconnected instead of animated.
   */
  function HandleIntersectionStep(st: Store, el: ElementRef, ratio: real): (r: Store)
    ensures el !in st.elements ==> r == st
    ensures el in st.elements ==> el in r.elements && r.elements[el].isVisible == (ratio >= st.elements[el].settings.values.startThreshold)
    ensures el in st.elements && Completed(st.elements[el]) ==>
      && el !in r.observers && r.styles == st.styles
      && r.elements[el] == st.elements[el].(isVisible := ratio >= st.elements[el].settings.values.startThreshold)
    ensures el in st.elements && !Completed(st.elements[el]) ==> r == AnimateElementStep(MarkSeen(st, el, ratio), el, ratio)
    ensures el in st.elements && Completed(st.elements[el]) ==> r == DisconnectElementStep(MarkSeen(st, el, ratio), el)
    ensures el in st.elements && st.elements[el].hasAnimated ==> r.elements[el].hasAnimated
    ensures forall e :: e != el && e in st.elements ==> e in r.elements && r.elements[e] == st.elements[e]
    ensures forall e :: e != el ==> (e in r.observers <==> e in st.observers) && (e in r.styles <==> e in st.styles)
    ensures forall e :: e != el && e in st.styles ==> r.styles[e] == st.styles[e]
    ensures Valid(st) ==> Valid(r)
  {
    if el !in st.elements then st
    else
      var st1 := MarkSeen(st, el, ratio);
      if Completed(st1.elements[el]) then DisconnectElementStep(st1, el)
      else AnimateElementStep(st1, el, ratio)
  }

  /** The first half of `handleIntersection`: only the element's visibility flag changes. */
  function MarkSeen(st: Store, el: ElementRef, ratio: real): (r: Store)
    requires el in st.elements
    ensures r.elements == st.elements[el := st.elements[el].(isVisible := ratio >= st.elements[el].settings.values.startThreshold)]
    ensures r.observers == st.observers && r.styles == st.styles && r.disconnected == st.disconnected
    ensures r.nextObserver == st.nextObserver && r.isInitialized == st.isInitialized
    ensures Valid(st) ==> Valid(r)
  {
    var d := st.elements[el];
    st.(elements := st.elements[el := d.(isVisible := ratio >= d.settings.values.startThreshold)])
  }

  /** `addElement`: only for an enabled element that is not tracked yet, so an element never gets a second observer here. */
  function AddElementStep(st: Store, el: ElementRef, ds: Dataset): (r: Store)
    ensures el in st.elements || ds.motionEnabled != Some("true") ==> r == st
    ensures ds.motionEnabled == Some("true") && el !in st.elements ==> r == InitializeElementStep(st, el, ds)
    ensures Valid(st) ==> Valid(r)
  {
    if ds.motionEnabled == Some("true") && el !in st.elements then InitializeElementStep(st, el, ds) else st
  }

  /** `removeElement`: stop watching and forget the element. */
  function RemoveElementStep(st: Store, el: ElementRef): (r: Store)
    ensures el !in r.observers && el !in r.elements
    ensures r.elements == st.elements - {el} && r.observers == st.observers - {el} && r.styles == st.styles
    ensures el in st.observers ==> r.disconnected == st.disconnected + {st.observers[el]}
    ensures el !in st.observers ==> r.disconnected == st.disconnected
    ensures forall e :: e != el ==> (e in r.elements <==> e in st.elements) && (e in r.observers <==> e in st.observers)
    ensures Valid(st) ==> Valid(r)
  {
    var st1 := DisconnectElementStep(st, el);
    st1.(elements := st1.elements - {el})
  }

  /** `destroy`: every observer is disconnected, both maps are cleared and a later `init` may run again. */
  function DestroyStep(st: Store): (r: Store)
    ensures r.observers == map[] && r.elements == map[] && !r.isInitialized
    ensures r.disconnected == st.disconnected + st.observers.Values
    ensures r.styles == st.styles && r.nextObserver == st.nextObserver
    ensures Valid(st) ==> Valid(r)
  {
    Store(map[], map[], false, st.styles, st.disconnected + st.observers.Values, st.nextObserver)
  }

  /** Initializing from an empty store tracks exactly the matched elements that yield an animation. */
  lemma InitFromEmptyTracks(st: Store, matched: seq<(ElementRef, Dataset)>)
    requires st.elements == map[] && !st.isInitialized
    ensures forall el :: el in InitStep(st, matched).elements <==>
      exists i :: 0 <= i < |matched| && matched[i].0 == el && AnimationFor(matched[i].1).Some?
  {
    forall el
      ensures el in InitStep(st, matched).elements <==>
        exists i :: 0 <= i < |matched| && matched[i].0 == el && AnimationFor(matched[i].1).Some?
    {
      InitializeAllTracks(st, matched, el);
    }
  }

  /** `refresh`: after it, exactly the matched elements whose attributes give an animation are tracked. */
  function RefreshStep(st: Store, matched: seq<(ElementRef, Dataset)>): (r: Store)
    ensures forall el :: el in r.elements <==>
      exists i :: 0 <= i < |matched| && matched[i].0 == el && AnimationFor(matched[i].1).Some?
    ensures st.observers.Values <= r.disconnected
    ensures Valid(st) ==> Valid(r)
  {
    var cleared := DestroyStep(st);
    InitFromEmptyTracks(cleared, matched);
    InitializeAllKeepsValid(cleared, matched);
    InitStep(cleared, matched)
  }

  // ------------------------------------------------------------ event traces

  /** The observer callbacks a store receives: one intersection ratio per event. */
  function Deliver(st: Store, events: seq<(ElementRef, real)>): Store
  {
    if |events| == 0 then st
    else
      var last := events[|events| - 1];
      HandleIntersectionStep(Deliver(st, events[..|events| - 1]), last.0, last.1)
  }

  /** Once an element has animated it stays marked as animated, whatever callbacks follow. */
  lemma {:induction false} HasAnimatedIsSticky(st: Store, events: seq<(ElementRef, real)>, el: ElementRef)
    requires el in st.elements && st.elements[el].hasAnimated
    ensures el in Deliver(st, events).elements && Deliver(st, events).elements[el].hasAnimated
  {
    if |events| > 0 {
      HasAnimatedIsSticky(st, events[..|events| - 1], el);
    }
  }

  /**
   * A play-once element that has run to completion is never animated again:
   * whatever callbacks follow, its written styles, progress and observer state stay put.
   */
  lemma {:induction false} CompletedPlayOnceIsFinal(st: Store, events: seq<(ElementRef, real)>, el: ElementRef)
    requires el in st.elements && Completed(st.elements[el]) && el in st.styles
    ensures var r := Deliver(st, events);
      && el in r.elements && Completed(r.elements[el])
      && r.elements[el].lastProgress == st.elements[el].lastProgress
      && el in r.styles && r.styles[el] == st.styles[el]
      && (|events| > 0 && events[|events| - 1].0 == el ==> el !in r.observers)
  {
    if |events| > 0 {
      CompletedPlayOnceIsFinal(st, events[..|events| - 1], el);
    }
  }

  /** The invariant holds along every sequence of callbacks. */
  lemma {:induction false} DeliverKeepsValid(st: Store, events: seq<(ElementRef, real)>)
    requires Valid(st)
    ensures Valid(Deliver(st, events))
  {
    if |events| > 0 {
      DeliverKeepsValid(st, events[..|events| - 1]);
    }
  }

  // ------------------------------------------------------------ the class

  class MotionBlocks {
    var observers: map<ElementRef, ObserverId>
    var elements: map<ElementRef, ElementData>
    var isInitialized: bool
    var styles: map<ElementRef, StylePatch>
    var disconnected: set<ObserverId>
    var nextObserver: ObserverId

    function Model(): Store
      reads this
    {
      Store(observers, elements, isInitialized, styles, disconnected, nextObserver)
    }

    constructor ()
      ensures Model() == EmptyStore && Valid(Model())
    {
      observers, elements, isInitialized := map[], map[], false;
      styles, disconnected, nextObserver := map[], {}, 0;
    }

    method Init(matched: seq<(ElementRef, Dataset)>)
      modifies this
      ensures Model() == InitStep(old(Model()), matched)
    {
      if isInitialized {
        return;
      }
      if |matched| == 0 {
        return;
      }
      ghost var start := Model();
      for i := 0 to |matched|
        invariant Model() == InitializeAll(start, matched[..i]).(isInitialized := false)
      {
        InitializeAllKeepsValid(start, matched[..i]);
        assert matched[..i + 1][..i] == matched[..i];
        InitializeElement(matched[i].0, matched[i].1);
      }
      assert matched[..|matched|] == matched;
      InitializeAllKeepsValid(start, matched);
      isInitialized := true;
    }

    method InitializeElement(el: ElementRef, ds: Dataset)
      modifies this
      ensures Model() == InitializeElementStep(old(Model()), el, ds)
    {
      var settings := SettingsFrom(ds);
      var animation := AnimationFactory.Create(settings.preset, AnimationFactory.Given(BagFrom(settings)));
      if animation.None? {
        return;
      }
      elements := elements[el := ElementData(animation.value, settings, false, false, 0.0)];
      styles := styles[el := PatchFor(animation.value, 0.0, true)];
      CreateObserver(el);
    }

    method CreateObserver(el: ElementRef)
      modifies this
      ensures Model() == CreateObserverStep(old(Model()), el)
    {
      observers := observers[el := nextObserver];
      nextObserver := nextObserver + 1;
    }

    method HandleIntersection(el: ElementRef, ratio: real)
      modifies this
      ensures Model() == HandleIntersectionStep(old(Model()), el, ratio)
    {
      if el !in elements {
        return;
      }
      var data := elements[el];
      data := data.(isVisible := ratio >= data.settings.values.startThreshold);
      elements := elements[el := data];
      if data.settings.values.playOnce && data.hasAnimated && data.lastProgress >= 1.0 {
        DisconnectElement(el);
        return;
      }
      AnimateElement(el, ratio);
    }

    method AnimateElement(el: ElementRef, ratio: real)
      requires el in elements
      modifies this
      ensures Model() == AnimateElementStep(old(Model()), el, ratio)
    {
      var data := elements[el];
      var progress := CalculateProgress(data.animation.settings, ratio, data.isVisible, data.hasAnimated);
      var progressDiff := Abs(progress - data.lastProgress);
      if progressDiff < 0.01 && data.lastProgress != 0.0 && progress != 1.0 {
        return;
      }
      if progress > 0.0 {
        data := data.(hasAnimated := true);
      }
      styles := styles[el := PatchFor(data.animation, progress, false)];
      data := data.(lastProgress := progress);
      elements := elements[el := data];
    }

    method Refresh(matched: seq<(ElementRef, Dataset)>)
      modifies this
      ensures Model() == RefreshStep(old(Model()), matched)
    {
      Destroy();
      Init(matched);
    }

    method AddElement(el: ElementRef, ds: Dataset)
      modifies this
      ensures Model() == AddElementStep(old(Model()), el, ds)
    {
      if ds.motionEnabled == Some("true") && el !in elements {
        InitializeElement(el, ds);
      }
    }

    method DisconnectElement(el: ElementRef)
      modifies this
      ensures Model() == DisconnectElementStep(old(Model()), el)
    {
      if el in observers {
        disconnected := disconnected + {observers[el]};
        observers := observers - {el};
      }
    }

    method RemoveElement(el: ElementRef)
      modifies this
      ensures Model() == RemoveElementStep(old(Model()), el)
    {
      if el in observers {
        disconnected := disconnected + {observers[el]};
        observers := observers - {el};
      }
      elements := elements - {el};
    }

    method Destroy()
      modifies this
      ensures Model() == DestroyStep(old(Model()))
    {
      var pending := observers.Keys;
      ghost var done: set<ElementRef> := {};
      while pending != {}
        invariant pending + done == observers.Keys && pending !! done
        invariant observers == old(observers) && styles == old(styles) && nextObserver == old(nextObserver)
        invariant disconnected == old(disconnected) + ImageOf(observers, done)
        decreases pending
      {
        var e :| e in pending;
        disconnected := disconnected + {observers[e]};
        ImageOfAdd(observers, done, e);
        pending := pending - {e};
        done := done + {e};
      }
      ImageOfKeys(observers, done);
      observers := map[];
      elements := map[];
      isInitialized := false;
    }
  }
}
