/**
 * The runtime fields the frontend keeps on a motion element
 * (src/frontend/utils/element-state.ts): its lifecycle state, the Web
 * Animations started for it keyed by role, and the IntersectionObservers
 * watching it. Cancelling an animation and disconnecting an observer are
 * foreign calls; the element records which handles received them.
 */
module ElementState {
  import opened Common

  /** The lifecycle of an element's motion. */
  datatype MotionState = Idle | EntryPlaying | EntryComplete | ScrollReady | ScrollActive

  /** The element's runtime fields (`None` while never set) and the handles stopped so far. */
  datatype Snapshot = Snapshot(
    motionState: Option<MotionState>,
    animations: Option<map<string, AnimationId>>,
    observers: Option<seq<ObserverId>>,
    cancelled: set<AnimationId>,
    disconnected: set<ObserverId>)

  /** The animations the element still holds. */
  function HeldAnimations(s: Snapshot): set<AnimationId>
  {
    if s.animations.Some? then s.animations.value.Values else {}
  }

  /** The observers the element still holds. */
  function HeldObservers(s: Snapshot): set<ObserverId>
  {
    if s.observers.Some? then set o | o in s.observers.value else {}
  }

  /** `initializeElementState`: idle, no animations, no observers; no handle is touched. */
  function Initialized(s: Snapshot): (r: Snapshot)
    ensures r.motionState == Some(Idle)
    ensures HeldAnimations(r) == {} && HeldObservers(r) == {}
    ensures r.animations.Some? && r.observers.Some?
    ensures r.cancelled == s.cancelled && r.disconnected == s.disconnected
  {
    s.(motionState := Some(Idle), animations := Some(map[]), observers := Some([]))
  }

  /**
   * `cleanupElementState`: every held animation is cancelled and every held
   * observer disconnected, nothing else; a collection that was never set
   * stays unset, one that was set is emptied; the state returns to idle.
   */
  function Cleanup(s: Snapshot): (r: Snapshot)
    ensures r.motionState == Some(Idle)
    ensures r.cancelled == s.cancelled + HeldAnimations(s)
    ensures r.disconnected == s.disconnected + HeldObservers(s)
    ensures HeldAnimations(r) == {} && HeldObservers(r) == {}
    ensures r.animations.Some? <==> s.animations.Some?
    ensures r.observers.Some? <==> s.observers.Some?
  {
    Snapshot(
      Some(Idle),
      if s.animations.Some? then Some(map[]) else None,
      if s.observers.Some? then Some([]) else None,
      s.cancelled + HeldAnimations(s),
      s.disconnected + HeldObservers(s))
  }

  /** Cleaning up twice is the same as once: the second call finds nothing left to stop. */
  lemma {:induction false} CleanupIdempotent(s: Snapshot)
    ensures Cleanup(Cleanup(s)) == Cleanup(s)
  {
    var r := Cleanup(s);
    assert HeldAnimations(r) == {} && HeldObservers(r) == {};
    assert r.cancelled + {} == r.cancelled && r.disconnected + {} == r.disconnected;
  }

  /** Cleaning up a freshly initialized element stops nothing and changes nothing. */
  lemma {:induction false} CleanupAfterInitializeIsNoOp(s: Snapshot)
    ensures Cleanup(Initialized(s)) == Initialized(s)
  {
    var r := Initialized(s);
    assert HeldAnimations(r) == {} && HeldObservers(r) == {};
    assert r.cancelled + {} == r.cancelled && r.disconnected + {} == r.disconnected;
  }

  /** A motion element's runtime fields, updated in place. */
  class MotionElement {
    var motionState: Option<MotionState>
    var animations: Option<map<string, AnimationId>>
    var observers: Option<seq<ObserverId>>
    var cancelled: set<AnimationId>
    var disconnected: set<ObserverId>

    function State(): Snapshot
      reads this
    {
      Snapshot(motionState, animations, observers, cancelled, disconnected)
    }

    /** A page element the engine has not touched yet. */
    constructor ()
      ensures State() == Snapshot(None, None, None, {}, {})
    {
      motionState, animations, observers := None, None, None;
      cancelled, disconnected := {}, {};
    }
  }

  method InitializeElementState(el: MotionElement)
    modifies el
    ensures el.State() == Initialized(old(el.State()))
  {
    el.motionState := Some(Idle);
    el.animations := Some(map[]);
    el.observers := Some([]);
  }

  method CleanupElementState(el: MotionElement)
    modifies el
    ensures el.State() == Cleanup(old(el.State()))
  {
    if el.animations.Some? {
      CancelAll(el, el.animations.value);
      el.animations := Some(map[]);
    }
    if el.observers.Some? {
      DisconnectAll(el, el.observers.value);
      el.observers := Some([]);
    }
    el.motionState := Some(Idle);
  }

  /** `Object.values(animations).forEach(a => a.cancel())`. */
  method CancelAll(el: MotionElement, held: map<string, AnimationId>)
    modifies el
    ensures el.cancelled == old(el.cancelled) + held.Values
    ensures el.animations == old(el.animations) && el.observers == old(el.observers)
    ensures el.disconnected == old(el.disconnected) && el.motionState == old(el.motionState)
  {
    var pending := held.Keys;
    ghost var done: set<string> := {};
    while pending != {}
      invariant pending + done == held.Keys && pending !! done
      invariant el.animations == old(el.animations) && el.observers == old(el.observers)
      invariant el.disconnected == old(el.disconnected) && el.motionState == old(el.motionState)
      invariant el.cancelled == old(el.cancelled) + ImageOf(held, done)
      decreases pending
    {
      var k :| k in pending;
      el.cancelled := el.cancelled + {held[k]};
      ImageOfAdd(held, done, k);
      pending := pending - {k};
      done := done + {k};
    }
    ImageOfKeys(held, done);
  }

  /** `observers.forEach(o => o.disconnect())`. */
  method DisconnectAll(el: MotionElement, watching: seq<ObserverId>)
    modifies el
    ensures el.disconnected == old(el.disconnected) + set o | o in watching
    ensures el.animations == old(el.animations) && el.observers == old(el.observers)
    ensures el.cancelled == old(el.cancelled) && el.motionState == old(el.motionState)
  {
    for i := 0 to |watching|
      invariant el.disconnected == old(el.disconnected) + set j | 0 <= j < i :: watching[j]
      invariant el.animations == old(el.animations) && el.observers == old(el.observers)
      invariant el.cancelled == old(el.cancelled) && el.motionState == old(el.motionState)
    {
      el.disconnected := el.disconnected + {watching[i]};
      assert (set j | 0 <= j < i + 1 :: watching[j]) == (set j | 0 <= j < i :: watching[j]) + {watching[i]};
    }
    forall o ensures o in (set j | 0 <= j < |watching| :: watching[j]) <==> o in watching {
      if o in watching {
        var j :| 0 <= j < |watching| && watching[j] == o;
      }
    }
    assert (set j | 0 <= j < |watching| :: watching[j]) == set o | o in watching;
  }
}
