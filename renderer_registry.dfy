/**
 * The renderer attachment registry of a video track, as a value.
 *
 * A `Registry<R, A>` is the whole observable state of one video track:
 * the engine track's id, the map from application renderers (`R`) to the
 * engine-side adapters (`A`) created for them, the multiset of adapters this
 * track has attached to the engine track and not yet detached, and the
 * `enabled` and `released` flags. One function per public operation gives
 * the state after that operation; the class in module VideoTracks is proved
 * to follow these functions, and the lemmas below state what the operations
 * promise, one call at a time and over any sequence of calls.
 */
module RendererRegistry {

  datatype Registry<R, A> = Registry(
    trackId: string,
    renderers: map<R, A>,
    attached: multiset<A>,
    enabled: bool,
    released: bool)

  /** One call on the public surface of a video track: `addRenderer`, `removeRenderer`, `release` or `setEnabled`. */
  datatype Op<R, A> =
    | AddOp(renderer: R, adapter: A)   // `adapter` is the one the call creates
    | RemoveOp(renderer: R)
    | ReleaseOp
    | SetEnabledOp(enabled: bool)

  /** No two renderers share an adapter. */
  ghost predicate Injective<R, A>(m: map<R, A>)
  {
    forall r, q | r in m && q in m && r != q :: m[r] != m[q]
  }

  /** The adapters the registry holds, one per registered renderer. */
  ghost function Held<R, A>(s: Registry<R, A>): multiset<A>
  {
    multiset(s.renderers.Values)
  }

  /**
   * Adapters attached to the engine track that the registry no longer holds:
   * neither `removeRenderer` nor `release` can detach them.
   */
  ghost function Leaked<R, A>(s: Registry<R, A>): multiset<A>
  {
    s.attached - Held(s)
  }

  /**
   * The state invariant: each registered renderer has its own adapter, every
   * held adapter is attached to the engine track, and a released track
   * holds nothing.
   */
  ghost predicate Valid<R, A>(s: Registry<R, A>)
  {
    && Injective(s.renderers)
    && Held(s) <= s.attached
    && (s.released ==> s.renderers == map[])
  }

  /** `addRenderer(r)`, with `a` the adapter the call creates. */
  ghost function Attach<R, A>(s: Registry<R, A>, r: R, a: A): Registry<R, A>
  {
    if s.released then s
    else s.(renderers := s.renderers[r := a], attached := s.attached + multiset{a})
  }

  /** `removeRenderer(r)`. */
  ghost function Detach<R, A>(s: Registry<R, A>, r: R): Registry<R, A>
  {
    if s.released || r !in s.renderers then s
    else s.(renderers := s.renderers - {r}, attached := s.attached - multiset{s.renderers[r]})
  }

  /** `release()`. */
  ghost function ReleaseAll<R, A>(s: Registry<R, A>): Registry<R, A>
  {
    if s.released then s
    else s.(renderers := map[], attached := s.attached - Held(s), released := true)
  }

  /** `setEnabled(e)`. */
  ghost function WithEnabled<R, A>(s: Registry<R, A>, e: bool): Registry<R, A>
  {
    s.(enabled := e)
  }

  ghost function Step<R, A>(s: Registry<R, A>, op: Op<R, A>): Registry<R, A>
  {
    match op
    case AddOp(r, a) => Attach(s, r, a)
    case RemoveOp(r) => Detach(s, r)
    case ReleaseOp => ReleaseAll(s)
    case SetEnabledOp(e) => WithEnabled(s, e)
  }

  /** The state after the calls `ops`, in order, starting from `s`. */
  ghost function Run<R, A>(s: Registry<R, A>, ops: seq<Op<R, A>>): Registry<R, A>
    decreases |ops|
  {
    if ops == [] then s else Run(Step(s, ops[0]), ops[1..])
  }

  /** A call creates an adapter that is not attached to the engine track yet. */
  ghost predicate FreshFor<R, A>(s: Registry<R, A>, op: Op<R, A>)
  {
    op.AddOp? ==> op.adapter !in s.attached
  }

  /** Every `addRenderer` of the trace creates a new adapter. */
  ghost predicate FreshTrace<R, A>(s: Registry<R, A>, ops: seq<Op<R, A>>)
    decreases |ops|
  {
    ops == [] || (FreshFor(s, ops[0]) && FreshTrace(Step(s, ops[0]), ops[1..]))
  }

  /** The value of the last `setEnabled` in `ops`, or `e` if there is none. */
  ghost function LastEnabled<R, A>(e: bool, ops: seq<Op<R, A>>): bool
    decreases |ops|
  {
    if ops == [] then e
    else if ops[|ops| - 1].SetEnabledOp? then ops[|ops| - 1].enabled
    else LastEnabled(e, ops[..|ops| - 1])
  }

  // ---------------------------------------------------------------------
  // Map and multiset facts
  // ---------------------------------------------------------------------

  lemma HeldAfterPut<R, A>(m: map<R, A>, r: R, a: A)
    requires Injective(m) && a !in m.Values
    ensures Injective(m[r := a])
    ensures r in m ==> multiset(m[r := a].Values) == multiset(m.Values) - multiset{m[r]} + multiset{a}
    ensures r !in m ==> multiset(m[r := a].Values) == multiset(m.Values) + multiset{a}
  {
    var m' := m[r := a];
    if r in m {
      assert m'.Values == m.Values - {m[r]} + {a} by {
        forall b | b in m'.Values ensures b in m.Values - {m[r]} + {a} {
          var q :| q in m' && m'[q] == b;
        }
        forall b | b in m.Values - {m[r]} + {a} ensures b in m'.Values {
          if b != a {
            var q :| q in m && m[q] == b;
            assert q != r && m'[q] == b;
          } else {
            assert m'[r] == a;
          }
        }
      }
    } else {
      assert m'.Values == m.Values + {a} by {
        forall b | b in m.Values + {a} ensures b in m'.Values {
          if b != a {
            var q :| q in m && m[q] == b;
            assert m'[q] == b;
          } else {
            assert m'[r] == a;
          }
        }
      }
    }
  }

  lemma HeldAfterRemove<R, A>(m: map<R, A>, r: R)
    requires Injective(m) && r in m
    ensures Injective(m - {r})
    ensures multiset((m - {r}).Values) == multiset(m.Values) - multiset{m[r]}
  {
    var m' := m - {r};
    assert m'.Values == m.Values - {m[r]} by {
      forall b | b in m.Values - {m[r]} ensures b in m'.Values {
        var q :| q in m && m[q] == b;
        assert q != r && m'[q] == b;
      }
    }
  }

  lemma LeakOnReplace<A>(x: multiset<A>, h: multiset<A>, a: A, b: A)
    requires h <= x && a !in x && b in h
    ensures h - multiset{b} + multiset{a} <= x + multiset{a}
    ensures (x + multiset{a}) - (h - multiset{b} + multiset{a}) == (x - h) + multiset{b}
  {
  }

  lemma LeakOnInsert<A>(x: multiset<A>, h: multiset<A>, a: A)
    requires h <= x && a !in x
    ensures h + multiset{a} <= x + multiset{a}
    ensures (x + multiset{a}) - (h + multiset{a}) == x - h
  {
  }

  // ---------------------------------------------------------------------
  // One call at a time
  // ---------------------------------------------------------------------

  /**
   * `addRenderer(r)` on a live track registers `r` with the new adapter,
   * attaches exactly that adapter, and leaves every other entry and both
   * flags as they were. If `r` was registered already, its key is replaced,
   * not duplicated, and its previous adapter stays attached without being
   * held: it becomes leaked.
   */
  lemma AttachRegisters<R, A>(s: Registry<R, A>, r: R, a: A)
    requires Valid(s) && !s.released && a !in s.attached
    ensures var t := Attach(s, r, a);
      && Valid(t)
      && t.renderers.Keys == s.renderers.Keys + {r}
      && t.renderers[r] == a
      && (forall q | q in s.renderers && q != r :: t.renderers[q] == s.renderers[q])
      && t.attached == s.attached + multiset{a}
      && t.trackId == s.trackId && t.enabled == s.enabled && !t.released
      && Leaked(t) == Leaked(s) + (if r in s.renderers then multiset{s.renderers[r]} else multiset{})
  {
    var t := Attach(s, r, a);
    HeldAfterPut(s.renderers, r, a);
    if r in s.renderers {
      var b := s.renderers[r];
      LeakOnReplace(s.attached, Held(s), a, b);
    } else {
      LeakOnInsert(s.attached, Held(s), a);
    }
  }

  /** After release, `addRenderer` and `removeRenderer` change nothing. */
  lemma AttachDetachAfterRelease<R, A>(s: Registry<R, A>, r: R, a: A)
    requires s.released
    ensures Attach(s, r, a) == s && Detach(s, r) == s
  {
  }

  /**
   * `removeRenderer(r)` on a live track unregisters `r` and detaches exactly
   * its adapter; other entries, the flags and the leaked adapters stay. If
   * `r` is not registered, nothing changes.
   */
  lemma DetachUnregisters<R, A>(s: Registry<R, A>, r: R)
    requires Valid(s)
    ensures var t := Detach(s, r);
      && Valid(t)
      && (r in s.renderers && !s.released ==>
            && t.renderers.Keys == s.renderers.Keys - {r}
            && (forall q | q in t.renderers :: t.renderers[q] == s.renderers[q])
            && t.attached == s.attached - multiset{s.renderers[r]}
            && s.attached[s.renderers[r]] == t.attached[s.renderers[r]] + 1)
      && (r !in s.renderers ==> t == s)
      && Leaked(t) == Leaked(s)
  {
    if r in s.renderers && !s.released {
      HeldAfterRemove(s.renderers, r);
    }
  }

  /**
   * Removing a renderer that a live track did not hold undoes adding it: the
   * registry and the engine attachments are back as they were.
   */
  lemma DetachUndoesAttach<R, A>(s: Registry<R, A>, r: R, a: A)
    requires !s.released && r !in s.renderers
    ensures Detach(Attach(s, r, a), r) == s
  {
  }

  /**
   * `release()` on a live track detaches exactly the adapters the registry
   * holds, empties the registry and sets the released flag; leaked adapters
   * stay attached.
   */
  lemma ReleaseDetachesHeld<R, A>(s: Registry<R, A>)
    requires Valid(s) && !s.released
    ensures var t := ReleaseAll(s);
      && Valid(t)
      && t.attached + Held(s) == s.attached
      && t.renderers == map[] && t.released
      && t.trackId == s.trackId && t.enabled == s.enabled
      && Leaked(t) == Leaked(s)
  {
  }

  /** `release()` is idempotent. */
  lemma ReleaseIdempotent<R, A>(s: Registry<R, A>)
    ensures ReleaseAll(ReleaseAll(s)) == ReleaseAll(s)
    ensures s.released ==> ReleaseAll(s) == s
  {
  }

  /** `setEnabled(e)` sets the flag and touches nothing else. */
  lemma WithEnabledSetsOnlyFlag<R, A>(s: Registry<R, A>, e: bool)
    ensures WithEnabled(s, e).enabled == e
    ensures WithEnabled(s, e).(enabled := s.enabled) == s
  {
  }

  /** Every call keeps the invariant, given that `addRenderer` creates a new adapter. */
  lemma StepPreservesValid<R, A>(s: Registry<R, A>, op: Op<R, A>)
    requires Valid(s) && FreshFor(s, op)
    ensures Valid(Step(s, op))
    ensures Leaked(s) <= Leaked(Step(s, op))
    ensures Step(s, op).trackId == s.trackId
    ensures s.released ==> Step(s, op).released
  {
    match op
    case AddOp(r, a) =>
      if !s.released { AttachRegisters(s, r, a); }
    case RemoveOp(r) =>
      DetachUnregisters(s, r);
    case ReleaseOp =>
      if !s.released { ReleaseDetachesHeld(s); }
    case SetEnabledOp(e) =>
  }

  // ---------------------------------------------------------------------
  // Over any sequence of calls
  // ---------------------------------------------------------------------

  lemma {:induction false} RunAppend<R, A>(s: Registry<R, A>, ops: seq<Op<R, A>>, op: Op<R, A>)
    ensures Run(s, ops + [op]) == Step(Run(s, ops), op)
    decreases |ops|
  {
    if ops == [] {
      assert [op][1..] == [];
    } else {
      assert (ops + [op])[1..] == ops[1..] + [op];
      RunAppend(Step(s, ops[0]), ops[1..], op);
    }
  }

  /**
   * The invariant holds after any trace whose `addRenderer` calls each create
   * a new adapter, and no call ever detaches a leaked adapter: the leaked
   * multiset only grows.
   */
  lemma {:induction false} RunPreservesValid<R, A>(s: Registry<R, A>, ops: seq<Op<R, A>>)
    requires Valid(s) && FreshTrace(s, ops)
    ensures Valid(Run(s, ops))
    ensures Leaked(s) <= Leaked(Run(s, ops))
    decreases |ops|
  {
    if ops != [] {
      StepPreservesValid(s, ops[0]);
      RunPreservesValid(Step(s, ops[0]), ops[1..]);
    }
  }

  /**
   * Released is final: from a released track, any trace leaves it released
   * with an empty registry and the same engine attachments; only the enabled
   * flag can still change.
   */
  lemma {:induction false} ReleasedIsFinal<R, A>(s: Registry<R, A>, ops: seq<Op<R, A>>)
    requires Valid(s) && s.released
    ensures Run(s, ops) == s.(enabled := Run(s, ops).enabled)
    decreases |ops|
  {
    if ops != [] {
      ReleasedIsFinal(Step(s, ops[0]), ops[1..]);
    }
  }

  /** Once set, the released flag is never reset, whatever the calls. */
  lemma {:induction false} ReleasedIsMonotone<R, A>(s: Registry<R, A>, ops: seq<Op<R, A>>)
    requires s.released
    ensures Run(s, ops).released
    decreases |ops|
  {
    if ops != [] {
      ReleasedIsMonotone(Step(s, ops[0]), ops[1..]);
    }
  }

  /** The track id is the one the track was built with, after any calls. */
  lemma {:induction false} TrackIdIsFixed<R, A>(s: Registry<R, A>, ops: seq<Op<R, A>>)
    ensures Run(s, ops).trackId == s.trackId
    decreases |ops|
  {
    if ops != [] {
      TrackIdIsFixed(Step(s, ops[0]), ops[1..]);
    }
  }

  /**
   * `isEnabled()` answers the value of the most recent `setEnabled`, or the
   * value the track was built with when there was none.
   */
  lemma {:induction false} EnabledIsLastSet<R, A>(s: Registry<R, A>, ops: seq<Op<R, A>>)
    ensures Run(s, ops).enabled == LastEnabled(s.enabled, ops)
    decreases |ops|
  {
    if ops != [] {
      var init, last := ops[..|ops| - 1], ops[|ops| - 1];
      assert ops == init + [last];
      RunAppend(s, init, last);
      EnabledIsLastSet(s, init);
    }
  }

  /**
   * Adding the same renderer twice keeps one registry entry, but the first
   * adapter is never detached: it is still attached to the engine track
   * after the renderer is removed and after the track is released.
   */
  lemma ReAddLeavesFirstAdapterAttached<R, A>(trackId: string, enabled: bool, r: R, first: A, second: A)
    requires first != second
    ensures var s := Run(Registry(trackId, map[], multiset{}, enabled, false),
                         [AddOp(r, first), AddOp(r, second), RemoveOp(r), ReleaseOp]);
      s.renderers == map[] && s.released && s.attached == multiset{first}
  {
    var s0 := Registry(trackId, map[], multiset{}, enabled, false);
    var s1 := Registry(trackId, map[r := first], multiset{first}, enabled, false);
    var s2 := Registry(trackId, map[r := second], multiset{first, second}, enabled, false);
    var s3 := Registry(trackId, map[], multiset{first}, enabled, false);
    var s4 := Registry(trackId, map[], multiset{first}, enabled, true);
    assert Attach(s0, r, first) == s1;
    assert Attach(s1, r, second) == s2 by { assert map[r := first][r := second] == map[r := second]; }
    assert Detach(s2, r) == s3 by {
      assert map[r := second] - {r} == map[];
      assert multiset{first, second} - multiset{second} == multiset{first};
    }
    assert ReleaseAll(s3) == s4 by { assert Held(s3) == multiset{}; }
    var ops3: seq<Op<R, A>> := [ReleaseOp];
    var ops2 := [RemoveOp(r)] + ops3;
    var ops1 := [AddOp(r, second)] + ops2;
    var ops0 := [AddOp(r, first)] + ops1;
    assert Run(s3, ops3) == s4 by { assert ops3[1..] == []; }
    assert Run(s2, ops2) == s4 by { assert ops2[1..] == ops3; }
    assert Run(s1, ops1) == s4 by { assert ops1[1..] == ops2; }
    assert Run(s0, ops0) == s4 by { assert ops0[1..] == ops1; }
    assert ops0 == [AddOp(r, first), AddOp(r, second), RemoveOp(r), ReleaseOp];
  }
}
