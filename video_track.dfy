/**
 * A video track that wraps an engine-side video track and keeps the
 * registry of application renderers attached to it.
 *
 * The engine track is reduced to what this class uses of it: its id, read
 * once at construction, and the adapters attached to it through this track,
 * kept in the ghost multiset `engineAttached` (each `addRenderer` and
 * `removeRenderer` call on the engine track adds or removes one occurrence).
 * Each method is proved to move the state `State()` exactly as the matching
 * function of module RendererRegistry says.
 */
module VideoTracks {
  import opened RendererRegistry

  /**
   * The engine-side renderer created for one application renderer (by
   * `createWebRtcVideoRenderer`, through the callback adapter's constructor);
   * it forwards frames to that renderer.
   */
  class Adapter<R> {
    const renderer: R

    constructor (renderer: R)
      ensures this.renderer == renderer
    {
      this.renderer := renderer;
    }
  }

  class VideoTrack<R(==)> {
    const trackId: string
    var renderers: map<R, Adapter<R>>
    var enabled: bool
    var released: bool
    ghost var engineAttached: multiset<Adapter<R>>

    /** The abstract state of the track. */
    ghost function State(): Registry<R, Adapter<R>>
      reads this
    {
      Registry(trackId, renderers, engineAttached, enabled, released)
    }

    /**
     * The object invariant: the registry invariant, and every registered
     * adapter forwards to the renderer it is registered under.
     */
    ghost predicate Valid()
      reads this
    {
      && RendererRegistry.Valid(State())
      && forall r | r in renderers :: renderers[r].renderer == r
    }

    /** `getTrackId()`: the id of the engine track this track wraps, as the state records it. */
    function GetTrackId(): (id: string)
      ensures id == State().trackId
    {
      trackId
    }

    /** `isEnabled()`: the enabled flag of the state. */
    function IsEnabled(): (e: bool)
      reads this
      ensures e == State().enabled
    {
      enabled
    }

    /**
     * Wraps the engine track whose id is `engineTrackId`: no renderers, not
     * released, enabled as given.
     */
    constructor (engineTrackId: string, enabled: bool)
      ensures Valid()
      ensures State() == Registry(engineTrackId, map[], multiset{}, enabled, false)
      ensures GetTrackId() == engineTrackId && IsEnabled() == enabled
    {
      this.trackId := engineTrackId;
      this.renderers := map[];
      this.enabled := enabled;
      this.released := false;
      this.engineAttached := multiset{};
    }

    /**
     * Before release: creates a new adapter for `r`, puts it in the registry
     * under `r` (replacing any earlier entry for `r`) and attaches it to the
     * engine track. After release: does nothing, and fails in no way.
     */
    method AddRenderer(r: R)
      requires Valid()
      modifies this
      ensures Valid()
      ensures old(released) ==> State() == old(State())
      ensures !old(released) ==> r in renderers && fresh(renderers[r]) && renderers[r].renderer == r
      ensures !old(released) ==> State() == Attach(old(State()), r, renderers[r])
    {
      if !released {
        ghost var s := State();
        var adapter := new Adapter(r);
        assert adapter !in s.attached;
        AttachRegisters(s, r, adapter);
        renderers := renderers[r := adapter];
        engineAttached := engineAttached + multiset{adapter};
        assert State() == Attach(s, r, adapter);
      }
    }

    /**
     * Before release: takes `r` out of the registry and detaches its adapter
     * from the engine track, if `r` was registered. After release: does
     * nothing, and fails in no way.
     */
    method RemoveRenderer(r: R)
      requires Valid()
      modifies this
      ensures Valid()
      ensures State() == Detach(old(State()), r)
    {
      if !released {
        if r in renderers {
          var adapter := renderers[r];
          ghost var s := State();
          DetachUnregisters(s, r);
          renderers := renderers - {r};
          engineAttached := engineAttached - multiset{adapter};
          assert State() == Detach(s, r);
        }
      }
    }

    /**
     * The renderers in the registry, each exactly once, in no particular
     * order (the source copies the key set of a hash map).
     */
    method GetRenderers() returns (rs: seq<R>)
      ensures multiset(rs) == multiset(renderers.Keys)
      // follows from the line above (a set's multiset holds each element once); kept for the reader
      ensures forall i, j | 0 <= i < j < |rs| :: rs[i] != rs[j]
    {
      var pending := renderers.Keys;
      rs := [];
      while pending != {}
        invariant pending <= renderers.Keys
        invariant multiset(rs) + multiset(pending) == multiset(renderers.Keys)
        invariant forall i, j | 0 <= i < j < |rs| :: rs[i] != rs[j]
        invariant forall i | 0 <= i < |rs| :: rs[i] !in pending
        decreases pending
      {
        var r :| r in pending;
        rs := rs + [r];
        pending := pending - {r};
      }
    }

    /** Sets the enabled flag; nothing else changes, released or not. */
    method SetEnabled(e: bool)
      requires Valid()
      modifies this
      ensures Valid()
      ensures State() == WithEnabled(old(State()), e)
      ensures IsEnabled() == e
    {
      enabled := e;
    }

    /**
     * On a live track: detaches from the engine track every adapter the
     * registry holds, then empties the registry and marks the track
     * released. On a released track: does nothing.
     */
    method Release()
      requires Valid()
      modifies this
      ensures Valid()
      ensures State() == ReleaseAll(old(State()))
    {
      if !released {
        ghost var s := State();
        ReleaseDetachesHeld(s);
        DetachHeldAdapters();
        assert engineAttached == s.attached - Held(s);
        renderers := map[];
        released := true;
        assert State() == s.(renderers := map[], attached := s.attached - Held(s), released := true);
      }
    }

    /**
     * The loop of `release()`: detaches each adapter the registry holds from
     * the engine track, one at a time; the registry itself is left as it is.
     */
    method DetachHeldAdapters()
      modifies this`engineAttached
      ensures engineAttached == old(engineAttached) - multiset(renderers.Values)
    {
      var pending := renderers.Values;
      ghost var detached: multiset<Adapter<R>> := multiset{};
      while pending != {}
        invariant multiset(pending) + detached == multiset(renderers.Values)
        invariant engineAttached == old(engineAttached) - detached
        decreases pending
      {
        var adapter :| adapter in pending;
        DetachOneMore(old(engineAttached), detached, adapter);
        engineAttached := engineAttached - multiset{adapter};
        pending := pending - {adapter};
        detached := detached + multiset{adapter};
      }
    }
  }

  /** Detaching one more adapter from the engine track. */
  lemma DetachOneMore<A>(x: multiset<A>, done: multiset<A>, a: A)
    ensures x - done - multiset{a} == x - (done + multiset{a})
  {
  }

  /**
   * A renderer attached to a track that the engine then releases can still
   * be removed, or added again: both calls are silent no-ops.
   */
  method RemoveAfterReleaseScenario<R(==)>(r: R)
  {
    var track := new VideoTrack<R>("track", true);
    track.AddRenderer(r);
    track.Release();
    ghost var afterRelease := track.State();
    assert afterRelease.renderers == map[] && afterRelease.attached == multiset{};
    track.RemoveRenderer(r);
    track.AddRenderer(r);
    assert track.State() == afterRelease;
    var listed := track.GetRenderers();
    assert listed == [];
  }
}
