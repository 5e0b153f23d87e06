/**
 * What the zoom controller promises, proved about the `ZoomModel` functions: the
 * scroll-lock round trip, the phases reached by each handler and its deferred step,
 * the full open/close cycle, the invariants every event sequence keeps, and what
 * unmounting leaves behind.
 */
module ZoomProperties {
  import opened Wrappers
  import opened ZoomModel

  // ---------------------------------------------------------------------------
  // Body scroll lock (Controlled.tsx:690-710)

  /** Locking then unlocking gives the body back its style and forgets the saved copy. */
  lemma ScrollLockRoundTrip(s: Snapshot, lockWidth: string)
    ensures BodyScrollEnable(BodyScrollDisable(s, lockWidth)).body == s.body
    ensures BodyScrollEnable(BodyScrollDisable(s, lockWidth)).prevBodyAttrs == DefaultBodyAttrs
    ensures BodyScrollEnable(BodyScrollDisable(s, lockWidth)) == s.(prevBodyAttrs := DefaultBodyAttrs)
  {
  }

  /** Unlocking with no lock taken writes the default, empty attributes to the body. */
  lemma EnableWithoutDisable(s: Snapshot)
    requires s.prevBodyAttrs == DefaultBodyAttrs
    ensures BodyScrollEnable(s).body == BodyAttrs("", "")
    ensures BodyScrollEnable(s) == s.(body := DefaultBodyAttrs)
  {
  }

  // ---------------------------------------------------------------------------
  // Edge detection on `isZoomed` (Controlled.tsx:386-389, 446-454)

  /**
   * Delivering the same props twice acts once: the second update sees no edge. So a
   * zoom or an unzoom happens only when `isZoomed` actually flips.
   */
  lemma RepeatedPropsUpdateIsNoOp(s: Snapshot, next: Props, lockWidth: string)
    ensures ComponentDidUpdate(ComponentDidUpdate(s, next, lockWidth), next, lockWidth)
            == ComponentDidUpdate(s, next, lockWidth)
  {
  }

  /** A props update that flips `isZoomed` on zooms; one that flips it off unzooms. */
  lemma PropsUpdateEdges(s: Snapshot, next: Props, lockWidth: string)
    ensures !s.props.isZoomed && next.isZoomed ==>
              ComponentDidUpdate(s, next, lockWidth) == Zoom(s.(props := next), lockWidth)
    ensures s.props.isZoomed && !next.isZoomed ==>
              ComponentDidUpdate(s, next, lockWidth) == Unzoom(s.(props := next))
    ensures s.props.isZoomed == next.isZoomed ==>
              ComponentDidUpdate(s, next, lockWidth) == s.(props := next)
  {
  }

  // ---------------------------------------------------------------------------
  // Opening and closing, each with its deferred step (Controlled.tsx:611-683)

  /** Nothing is armed or pending: the component rests. */
  predicate Quiet(s: Snapshot)
  {
    s.mounted && s.hasModalImg && s.armed == [] && s.timers == []
  }

  /**
   * From a quiet state, `zoom` enters LOADING with the gesture listeners and only the
   * zoom-end handler armed; the `transitionend` then schedules exactly the zoom-end
   * timer, whose callback enters LOADED and adds the resize listener.
   */
  lemma ZoomThenZoomEnd(s: Snapshot, lockWidth: string)
    requires Quiet(s)
    ensures Zoom(s, lockWidth).modalState == Loading
    ensures Zoom(s, lockWidth).armed == [ZoomEnd]
    ensures GestureEvents <= Zoom(s, lockWidth).listeners
    ensures FireTransitionEnd(Zoom(s, lockWidth)).timers == [ZoomEnd]
    ensures RunNextTimer(FireTransitionEnd(Zoom(s, lockWidth))).modalState == Loaded
    ensures RunNextTimer(FireTransitionEnd(Zoom(s, lockWidth))).listeners
            == s.listeners + GestureEvents + {Resize}
    ensures RunNextTimer(FireTransitionEnd(Zoom(s, lockWidth))).armed == []
    ensures RunNextTimer(FireTransitionEnd(Zoom(s, lockWidth))).timers == []
  {
    var z := Zoom(s, lockWidth);
    var f := FireTransitionEnd(z);
    assert f.timers == [ZoomEnd];
  }

  /**
   * From a quiet state, `unzoom` enters UNLOADING, drops the four gesture listeners and
   * leaves resize alone; after its `transitionend` and timer the modal is UNLOADED, no
   * refresh is pending, resize is gone and the saved body style is back on the body.
   */
  lemma UnzoomThenUnzoomEnd(s: Snapshot)
    requires Quiet(s)
    ensures Unzoom(s).modalState == Unloading
    ensures Unzoom(s).listeners == s.listeners - GestureEvents
    ensures (Resize in Unzoom(s).listeners) == (Resize in s.listeners)
    ensures Unzoom(s).armed == [UnzoomEnd]
    ensures FireTransitionEnd(Unzoom(s)).timers == [UnzoomEnd]
    ensures RunNextTimer(FireTransitionEnd(Unzoom(s))).modalState == Unloaded
    ensures !RunNextTimer(FireTransitionEnd(Unzoom(s))).shouldRefresh
    ensures RunNextTimer(FireTransitionEnd(Unzoom(s))).listeners == s.listeners - AllWindowEvents
    ensures RunNextTimer(FireTransitionEnd(Unzoom(s))).body == s.prevBodyAttrs
    ensures RunNextTimer(FireTransitionEnd(Unzoom(s))).prevBodyAttrs == DefaultBodyAttrs
  {
    var f := FireTransitionEnd(Unzoom(s));
    assert f.timers == [UnzoomEnd];
    var u := UnzoomEndTimeout(f.(timers := []));
    assert RunNextTimer(f) == u;
    assert u.listeners == f.listeners - {Resize} == s.listeners - AllWindowEvents;
  }

  // ---------------------------------------------------------------------------
  // Touch gestures (Controlled.tsx:562-595)

  /**
   * The touch-end handler reports unzooming exactly when there is a start point, the
   * touch moved more than the threshold and swipe dismissal is enabled; when it
   * reports, both points are cleared; otherwise it reports nothing; without a start
   * point it changes nothing.
   */
  lemma SwipeDismissal(s: Snapshot, screenYs: seq<real>)
    ensures HandleTouchMove(s, screenYs).reports == s.reports + [false] <==> SwipeDismisses(s, screenYs)
    ensures !SwipeDismisses(s, screenYs) ==> HandleTouchMove(s, screenYs).reports == s.reports
    ensures SwipeDismisses(s, screenYs) ==>
              HandleTouchMove(s, screenYs).touchYStart == None && HandleTouchMove(s, screenYs).touchYEnd == None
    ensures s.touchYStart == None ==> HandleTouchMove(s, screenYs) == s
  {
  }

  /** A vertical move of exactly 10 does not dismiss; a move of 11 does, in either direction. */
  lemma SwipeThresholdIsStrict(s: Snapshot, y: real)
    requires s.touchYStart == Some(y) && !s.props.disableModalCloseOnTouchMove
    ensures !SwipeDismisses(s, [y + 10.0]) && !SwipeDismisses(s, [y - 10.0])
    ensures SwipeDismisses(s, [y + 11.0]) && SwipeDismisses(s, [y - 11.0])
  {
  }

  /** With swipe dismissal disabled, no touch ever reports. */
  lemma SwipeDisabledNeverReports(s: Snapshot, screenYs: seq<real>)
    requires s.props.disableModalCloseOnTouchMove
    ensures HandleTouchMove(s, screenYs).reports == s.reports
  {
  }

  // ---------------------------------------------------------------------------
  // Running events

  /** Running two event lists one after the other is running their concatenation. */
  lemma {:induction false} RunAppend(s: Snapshot, a: seq<Event>, b: seq<Event>)
    ensures Run(s, a + b) == Run(Run(s, a), b)
    decreases |a|
  {
    if a == [] {
      assert a + b == b;
    } else {
      assert (a + b)[0] == a[0];
      assert (a + b)[1..] == a[1..] + b;
      RunAppend(Step(s, a[0]), a[1..], b);
    }
  }

  lemma RunOne(s: Snapshot, e: Event)
    ensures Run(s, [e]) == Step(s, e)
  {
    assert [e][1..] == [];
  }

  /** The component is mounted, at rest, closed and not zoomed, and has no saved body style. */
  predicate Idle(s: Snapshot)
  {
    && Quiet(s)
    && s.modalState == Unloaded
    && s.listeners == {}
    && s.prevBodyAttrs == DefaultBodyAttrs
    && !s.props.isZoomed
  }

  lemma RunThree(s: Snapshot, a: Event, b: Event, c: Event)
    ensures Run(s, [a, b, c]) == Step(Step(Step(s, a), b), c)
  {
    assert [a, b, c][1..] == [b, c];
    assert [b, c][1..] == [c];
    RunOne(Step(Step(s, a), b), c);
  }

  /** `isZoomed` flipped on, followed by the modal image's transition and the timer. */
  function OpenEvents(s: Snapshot, lockWidth: string): seq<Event>
  {
    [PropsUpdate(s.props.(isZoomed := true), lockWidth), TransitionEndFired, TimerFired]
  }

  /** `isZoomed` flipped off, followed by the modal image's transition and the timer. */
  function CloseEvents(s: Snapshot, lockWidth: string): seq<Event>
  {
    [PropsUpdate(s.props.(isZoomed := false), lockWidth), TransitionEndFired, TimerFired]
  }

  /** Opening from idle: LOADING after the props update, LOADED with resize after the timer. */
  lemma OpenFromIdle(s: Snapshot, lockWidth: string)
    requires Idle(s)
    ensures Step(s, OpenEvents(s, lockWidth)[0]).modalState == Loading
    ensures var t := Run(s, OpenEvents(s, lockWidth));
      && Quiet(t) && t.modalState == Loaded && t.props.isZoomed
      && t.listeners == GestureEvents + {Resize}
      && t.prevBodyAttrs == s.body && t.reports == s.reports
  {
    var evs := OpenEvents(s, lockWidth);
    RunThree(s, evs[0], evs[1], evs[2]);
    var s1 := Zoom(s.(props := s.props.(isZoomed := true)), lockWidth);
    assert Step(s, evs[0]) == s1;
    var s2 := FireTransitionEnd(s1);
    assert Step(s1, evs[1]) == s2;
    assert s2.timers == [ZoomEnd];
  }

  /** Closing from open: UNLOADING after the props update, UNLOADED and idle after the timer. */
  lemma CloseFromOpen(t: Snapshot, lockWidth: string)
    requires Quiet(t) && t.modalState == Loaded && t.props.isZoomed
    requires t.listeners == GestureEvents + {Resize}
    ensures Step(t, CloseEvents(t, lockWidth)[0]).modalState == Unloading
    ensures var u := Run(t, CloseEvents(t, lockWidth));
      && Idle(u) && u.body == t.prevBodyAttrs && u.reports == t.reports
  {
    var evs := CloseEvents(t, lockWidth);
    RunThree(t, evs[0], evs[1], evs[2]);
    var s1 := Unzoom(t.(props := t.props.(isZoomed := false)));
    assert Step(t, evs[0]) == s1;
    assert s1.listeners == {Resize};
    var s2 := FireTransitionEnd(s1);
    assert Step(s1, evs[1]) == s2;
    assert s2.timers == [UnzoomEnd];
    var s3 := RunNextTimer(s2);
    assert s3.listeners == {};
  }

  /**
   * The full cycle passes through LOADING, LOADED, UNLOADING and back to UNLOADED, and
   * ends idle again: no window listener, nothing armed or pending, no saved body style, and
   * the body style it started with.
   */
  lemma FullZoomCycle(s: Snapshot, lockWidth: string)
    requires Idle(s)
    ensures Step(s, OpenEvents(s, lockWidth)[0]).modalState == Loading
    ensures Run(s, OpenEvents(s, lockWidth)).modalState == Loaded
    ensures var t := Run(s, OpenEvents(s, lockWidth));
      Step(t, CloseEvents(t, lockWidth)[0]).modalState == Unloading
    ensures var t := Run(s, OpenEvents(s, lockWidth));
      var u := Run(t, CloseEvents(t, lockWidth));
      Idle(u) && u.body == s.body && u.reports == s.reports
  {
    OpenFromIdle(s, lockWidth);
    CloseFromOpen(Run(s, OpenEvents(s, lockWidth)), lockWidth);
  }

  // ---------------------------------------------------------------------------
  // Invariants kept by every event sequence

  /**
   * An end point is only ever recorded after a start point; the four gesture listeners
   * are registered all together or not at all; no `transitionend` handler is armed
   * twice; while UNLOADED no body style is saved; and once unmounted nothing is armed,
   * no gesture listener remains and no body style is saved.
   */
  predicate Inv(s: Snapshot)
  {
    && (s.touchYEnd.Some? ==> s.touchYStart.Some?)
    && (GestureEvents <= s.listeners || GestureEvents !! s.listeners)
    && NoDuplicates(s.armed)
    && (s.modalState == Unloaded ==> s.prevBodyAttrs == DefaultBodyAttrs)
    && (!s.mounted ==> s.armed == [] && GestureEvents !! s.listeners
                       && s.prevBodyAttrs == DefaultBodyAttrs)
  }

  lemma InitialInv(props: Props, hasDialog: bool, hasModalImg: bool, body: BodyAttrs)
    ensures Inv(Initial(props, hasDialog, hasModalImg, body))
  {
  }

  lemma ZoomInv(s: Snapshot, lockWidth: string)
    requires Inv(s) && s.mounted
    ensures Inv(Zoom(s, lockWidth))
  {
    var r := Zoom(s, lockWidth);
    assert GestureEvents <= r.listeners;
  }

  lemma UnzoomInv(s: Snapshot)
    requires Inv(s) && s.mounted
    ensures Inv(Unzoom(s))
  {
    var r := Unzoom(s);
    assert GestureEvents !! r.listeners;
  }

  lemma PropsUpdateInv(s: Snapshot, next: Props, lockWidth: string)
    requires Inv(s) && s.mounted
    ensures Inv(ComponentDidUpdate(s, next, lockWidth))
  {
    var s1 := s.(props := next);
    assert Inv(s1);
    if !s.props.isZoomed && next.isZoomed {
      ZoomInv(s1, lockWidth);
    } else if s.props.isZoomed && !next.isZoomed {
      UnzoomInv(s1);
    }
  }

  lemma ZoomEndTimeoutInv(s: Snapshot)
    requires Inv(s)
    ensures Inv(ZoomEndTimeout(s))
  {
    var r := ZoomEndTimeout(s);
    assert r.listeners == s.listeners + {Resize};
    assert r.armed == s.armed && r.prevBodyAttrs == s.prevBodyAttrs && r.mounted == s.mounted;
  }

  lemma UnzoomEndTimeoutInv(s: Snapshot)
    requires Inv(s)
    ensures Inv(UnzoomEndTimeout(s))
  {
    var r := UnzoomEndTimeout(s);
    assert r.listeners == s.listeners - {Resize};
  }

  lemma TimerInv(s: Snapshot)
    requires Inv(s)
    ensures Inv(RunNextTimer(s))
  {
    if s.timers != [] {
      var rest := s.(timers := s.timers[1..]);
      if s.timers[0] == ZoomEnd {
        ZoomEndTimeoutInv(rest);
      } else {
        UnzoomEndTimeoutInv(rest);
      }
    }
  }

  lemma WindowInv(s: Snapshot, kind: WindowEvent, ys: seq<real>)
    requires Inv(s)
    ensures Inv(DispatchWindow(s, kind, ys))
  {
  }

  lemma UnmountInv(s: Snapshot)
    requires Inv(s) && s.mounted
    ensures Inv(ComponentWillUnmount(s))
  {
  }

  lemma StepInv(s: Snapshot, e: Event)
    requires Inv(s)
    ensures Inv(Step(s, e))
  {
    match e
    case PropsUpdate(next, w) => if s.mounted { PropsUpdateInv(s, next, w); }
    case TransitionEndFired =>
    case TimerFired => TimerInv(s);
    case MicrotaskRun =>
    case ZoomImgDecoded =>
    case WindowDispatch(kind, ys) => WindowInv(s, kind, ys);
    case DialogClicked(t) =>
    case DialogKey(k, c) =>
    case DialogClosed =>
    case ZoomClicked =>
    case UnzoomClicked =>
    case Unmount => if s.mounted { UnmountInv(s); }
  }

  lemma {:induction false} RunInv(s: Snapshot, events: seq<Event>)
    requires Inv(s)
    ensures Inv(Run(s, events))
    decreases |events|
  {
    if events != [] {
      StepInv(s, events[0]);
      RunInv(Step(s, events[0]), events[1..]);
    }
  }

  /** Every state the component reaches from its first render satisfies `Inv`. */
  lemma ReachableInv(props: Props, hasDialog: bool, hasModalImg: bool, body: BodyAttrs, events: seq<Event>)
    ensures Inv(Run(Initial(props, hasDialog, hasModalImg, body), events))
  {
    InitialInv(props, hasDialog, hasModalImg, body);
    RunInv(Initial(props, hasDialog, hasModalImg, body), events);
  }

  // ---------------------------------------------------------------------------
  // Unmounting (Controlled.tsx:361-382)

  /**
   * Unmounting while the modal is loading ends the lock with the pre-zoom body style and
   * leaves no window listener and no armed handler.
   */
  lemma UnmountWhileLoading(s: Snapshot, lockWidth: string)
    requires Idle(s)
    ensures Run(s, [PropsUpdate(s.props.(isZoomed := true), lockWidth), Unmount]).body == s.body
    ensures Run(s, [PropsUpdate(s.props.(isZoomed := true), lockWidth), Unmount]).listeners == {}
    ensures Run(s, [PropsUpdate(s.props.(isZoomed := true), lockWidth), Unmount]).armed == []
    ensures Run(s, [PropsUpdate(s.props.(isZoomed := true), lockWidth), Unmount]).prevBodyAttrs
            == DefaultBodyAttrs
  {
    var e0 := PropsUpdate(s.props.(isZoomed := true), lockWidth);
    var s1 := Step(s, e0);
    assert s1.modalState == Loading;
    RunOne(s1, Unmount);
    RunAppend(s, [e0], [Unmount]);
    RunOne(s, e0);
    assert [e0] + [Unmount] == [e0, Unmount];
  }

  /** The part of the state that `setState` writes, with whether the component is mounted. */
  predicate SameReactState(a: Snapshot, b: Snapshot)
  {
    a.mounted == b.mounted && a.modalState == b.modalState
    && a.shouldRefresh == b.shouldRefresh && a.isZoomImgLoaded == b.isZoomImgLoaded
  }

  lemma TimerAfterUnmount(s: Snapshot)
    requires !s.mounted
    ensures SameReactState(RunNextTimer(s), s)
  {
    if s.timers != [] {
      var rest := s.(timers := s.timers[1..]);
      if s.timers[0] == ZoomEnd {
        assert SameReactState(ZoomEndTimeout(rest), rest);
      } else {
        assert SameReactState(UnzoomEndTimeout(rest), rest);
      }
    }
  }

  lemma WindowAfterUnmount(s: Snapshot, kind: WindowEvent, ys: seq<real>)
    requires !s.mounted
    ensures SameReactState(DispatchWindow(s, kind, ys), s)
  {
    match kind
    case Wheel =>
    case TouchStart =>
    case TouchEnd =>
    case TouchCancel =>
    case Resize =>
  }

  /** One event after unmounting leaves the React state alone. */
  lemma StepAfterUnmount(s: Snapshot, e: Event)
    requires !s.mounted
    ensures SameReactState(Step(s, e), s)
  {
    match e
    case TimerFired => TimerAfterUnmount(s);
    case MicrotaskRun =>
    case ZoomImgDecoded =>
    case WindowDispatch(kind, ys) => if kind in s.listeners { WindowAfterUnmount(s, kind, ys); }
    case PropsUpdate(_, _) =>
    case TransitionEndFired =>
    case DialogClicked(_) =>
    case DialogKey(_, _) =>
    case DialogClosed =>
    case ZoomClicked =>
    case UnzoomClicked =>
    case Unmount =>
  }

  /**
   * After unmounting, no event changes the React state any more, nothing is ever armed
   * again, no gesture listener comes back and no body style is ever saved.
   */
  lemma {:induction false} QuietAfterUnmount(s: Snapshot, events: seq<Event>)
    requires Inv(s) && !s.mounted
    ensures !Run(s, events).mounted
    ensures Run(s, events).modalState == s.modalState
    ensures Run(s, events).shouldRefresh == s.shouldRefresh
    ensures Run(s, events).isZoomImgLoaded == s.isZoomImgLoaded
    ensures Run(s, events).armed == []
    ensures Run(s, events).listeners <= {Resize}
    ensures Run(s, events).prevBodyAttrs == DefaultBodyAttrs
    decreases |events|
  {
    if events == [] {
      EveryWindowEventIsKnown(s.listeners);
    } else {
      StepInv(s, events[0]);
      StepAfterUnmount(s, events[0]);
      QuietAfterUnmount(Step(s, events[0]), events[1..]);
    }
  }
}
