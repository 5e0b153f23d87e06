/**
 * Two behaviours of the code as written that break what the component evidently
 * means to guarantee, each shown on the model of the code and paired with a corrected
 * definition that is proved to keep the intended property.
 */
module ZoomFindings {
  import opened ZoomModel
  import opened ZoomProperties

  // ---------------------------------------------------------------------------
  // 1. `bodyScrollDisable` is not re-entrant (Controlled.tsx:611-612, 690-710)

  /**
   * Two locks before one unlock: the second lock saves the locked style over the
   * original one, so the unlock leaves the body locked.
   */
  lemma DoubleDisableKeepsBodyLocked(s: Snapshot, w1: string, w2: string)
    ensures BodyScrollEnable(BodyScrollDisable(BodyScrollDisable(s, w1), w2)).body
            == BodyAttrs("hidden", w1)
  {
  }

  /** `isZoomed` flips on, off and on again before the modal image ends its transition. */
  function RapidToggleUpdates(s: Snapshot, lockWidth: string): seq<Event>
  {
    [PropsUpdate(s.props.(isZoomed := true), lockWidth),
     PropsUpdate(s.props.(isZoomed := false), lockWidth),
     PropsUpdate(s.props.(isZoomed := true), lockWidth)]
  }

  /** The toggle followed by its deferred work: the `transitionend` and both timers. */
  function RapidToggle(s: Snapshot, lockWidth: string): seq<Event>
  {
    RapidToggleUpdates(s, lockWidth) + [TransitionEndFired, TimerFired, TimerFired]
  }

  /** The three props updates: LOADING again, both handlers armed, the locked style saved. */
  lemma RapidTogglePropsUpdates(s: Snapshot, lockWidth: string)
    requires Idle(s)
    ensures var r := Run(s, RapidToggleUpdates(s, lockWidth));
      && r.mounted && r.hasModalImg && r.modalState == Loading && r.props.isZoomed
      && r.armed == [ZoomEnd, UnzoomEnd] && r.timers == []
      && r.listeners == GestureEvents
      && r.prevBodyAttrs == BodyAttrs("hidden", lockWidth)
      && r.hasDialog == s.hasDialog && r.reports == s.reports
  {
    var evs := RapidToggleUpdates(s, lockWidth);
    var s1 := Zoom(s.(props := s.props.(isZoomed := true)), lockWidth);
    assert Step(s, evs[0]) == s1;
    var s2 := Unzoom(s1.(props := s.props.(isZoomed := false)));
    assert Step(s1, evs[1]) == s2;
    assert s2.armed == [ZoomEnd, UnzoomEnd];
    assert s2.hasDialog == s.hasDialog && s2.reports == s.reports;
    var s3 := Zoom(s2.(props := s.props.(isZoomed := true)), lockWidth);
    assert Step(s2, evs[2]) == s3;
    RunThree(s, evs[0], evs[1], evs[2]);
  }

  /** The deferred work of the toggle: both timers run, zoom-end first. */
  lemma RapidToggleDeferred(t: Snapshot, lockWidth: string)
    requires t.mounted && t.hasModalImg && t.modalState == Loading
    requires t.armed == [ZoomEnd, UnzoomEnd] && t.timers == [] && t.listeners == GestureEvents
    requires t.prevBodyAttrs == BodyAttrs("hidden", lockWidth)
    ensures var r := Run(t, [TransitionEndFired, TimerFired, TimerFired]);
      && r.modalState == Unloaded && r.props == t.props
      && r.armed == [] && r.timers == []
      && GestureEvents <= r.listeners
      && r.body == BodyAttrs("hidden", lockWidth)
      && r.mounted && r.hasModalImg && r.hasDialog == t.hasDialog
      && r.prevBodyAttrs == DefaultBodyAttrs && r.reports == t.reports
      && (t.hasDialog ==> !r.dialogOpen)
  {
    var s4 := FireTransitionEnd(t);
    assert Step(t, TransitionEndFired) == s4;
    assert s4.timers == [ZoomEnd, UnzoomEnd];
    var s5 := RunNextTimer(s4);
    assert s5.timers == [UnzoomEnd] && s5.listeners == GestureEvents + {Resize};
    RunThree(t, TransitionEndFired, TimerFired, TimerFired);
  }

  /**
   * The component reaches the double lock: after the rapid toggle, its `transitionend`
   * and both timers, the modal is UNLOADED although `isZoomed` is true, nothing is armed
   * and no timer is pending, the gesture listeners are still registered, and the body
   * stays overflow "hidden" whatever its style was before. The unzoom-end timer has
   * also closed the dialog, whose `close` event is still to come (see
   * `RapidToggleCloseEventKeepsLock`).
   */
  lemma RapidToggleLeavesBodyLocked(s: Snapshot, lockWidth: string)
    requires Idle(s)
    ensures var r := Run(s, RapidToggle(s, lockWidth));
      && r.modalState == Unloaded && r.props.isZoomed
      && r.armed == [] && r.timers == []
      && GestureEvents <= r.listeners
      && r.body == BodyAttrs("hidden", lockWidth)
      && r.mounted && r.hasModalImg && r.hasDialog == s.hasDialog
      && r.prevBodyAttrs == DefaultBodyAttrs && r.reports == s.reports
      && (s.hasDialog ==> !r.dialogOpen)
  {
    var updates := RapidToggleUpdates(s, lockWidth);
    RapidTogglePropsUpdates(s, lockWidth);
    RapidToggleDeferred(Run(s, updates), lockWidth);
    RunAppend(s, updates, [TransitionEndFired, TimerFired, TimerFired]);
  }

  /**
   * What follows the double lock: the dialog is closed, and its `close` event reports
   * unzooming with the body still locked. If the parent answers by turning `isZoomed`
   * off, the modal goes to UNLOADING and arms the unzoom-end handler, with the dialog
   * still closed and the body still locked. A closed dialog is not displayed, so the
   * modal image runs no transition that could fire that handler: the body stays
   * locked until the next zoom or the unmount.
   */
  lemma DoubleLockAfterClose(t: Snapshot, lockWidth: string)
    requires t.mounted && t.hasDialog && t.hasModalImg && t.modalState == Unloaded
    requires t.props.isZoomed && t.armed == [] && t.timers == [] && !t.dialogOpen
    requires t.body == BodyAttrs("hidden", lockWidth) && t.prevBodyAttrs == DefaultBodyAttrs
    ensures var c := Step(t, DialogClosed);
      && c.reports == t.reports + [false]
      && c.body == BodyAttrs("hidden", lockWidth) && !c.dialogOpen
    ensures var c := Step(t, DialogClosed);
      var u := Step(c, PropsUpdate(c.props.(isZoomed := false), lockWidth));
      && u.modalState == Unloading && GestureEvents !! u.listeners
      && u.armed == [UnzoomEnd] && u.timers == []
      && u.body == BodyAttrs("hidden", lockWidth) && !u.dialogOpen
  {
    var c := HandleUnzoom(t);
    assert Step(t, DialogClosed) == c;
    var u := Unzoom(c.(props := c.props.(isZoomed := false)));
    assert Step(c, PropsUpdate(c.props.(isZoomed := false), lockWidth)) == u;
  }

  /**
   * The rapid toggle with a rendered dialog: the unzoom-end timer has closed the
   * dialog, its `close` event reports unzooming, and the body stays locked whichever
   * way the parent reacts. Ignoring the report keeps the lock in UNLOADED; turning
   * `isZoomed` off keeps it in UNLOADING, waiting on a transition that a closed dialog
   * does not run.
   */
  lemma RapidToggleCloseEventKeepsLock(s: Snapshot, lockWidth: string)
    requires Idle(s) && s.hasDialog
    ensures var r := Run(s, RapidToggle(s, lockWidth));
      var c := Step(r, DialogClosed);
      && !r.dialogOpen
      && c.reports == s.reports + [false]
      && c.body == BodyAttrs("hidden", lockWidth)
    ensures var r := Run(s, RapidToggle(s, lockWidth));
      var c := Step(r, DialogClosed);
      var u := Step(c, PropsUpdate(c.props.(isZoomed := false), lockWidth));
      && u.modalState == Unloading && GestureEvents !! u.listeners
      && u.armed == [UnzoomEnd] && u.timers == []
      && u.body == BodyAttrs("hidden", lockWidth) && !u.dialogOpen
  {
    RapidToggleLeavesBodyLocked(s, lockWidth);
    DoubleLockAfterClose(Run(s, RapidToggle(s, lockWidth)), lockWidth);
  }

  /**
   * The corrected lock: it remembers whether it is held, a second lock keeps the saved
   * style, and an unlock without a lock leaves the body alone.
   */
  datatype ScrollLock = ScrollLock(body: BodyAttrs, saved: BodyAttrs, held: bool)

  datatype LockOp = Lock(width: string) | Unlock

  function LockBody(l: ScrollLock, width: string): (r: ScrollLock)
    ensures r.held && r.body == BodyAttrs("hidden", width)
    ensures r.saved == if l.held then l.saved else l.body
  {
    if l.held then l.(body := BodyAttrs("hidden", width))
    else ScrollLock(BodyAttrs("hidden", width), l.body, true)
  }

  function UnlockBody(l: ScrollLock): (r: ScrollLock)
    ensures !r.held && r.saved == DefaultBodyAttrs
    ensures r.body == if l.held then l.saved else l.body
  {
    if l.held then ScrollLock(l.saved, DefaultBodyAttrs, false) else l.(saved := DefaultBodyAttrs)
  }

  function ApplyLockOps(l: ScrollLock, ops: seq<LockOp>): ScrollLock
    decreases |ops|
  {
    if ops == [] then l
    else
      var next := match ops[0] case Lock(w) => LockBody(l, w) case Unlock => UnlockBody(l);
      ApplyLockOps(next, ops[1..])
  }

  /**
   * Whatever the order and number of locks and unlocks, the corrected lock keeps the
   * body's original style: it is on the body whenever the lock is free, and saved
   * whenever it is held.
   */
  lemma {:induction false} CorrectedLockRestoresBody(l: ScrollLock, original: BodyAttrs, ops: seq<LockOp>)
    requires if l.held then l.saved == original else l.body == original
    ensures var r := ApplyLockOps(l, ops);
      if r.held then r.saved == original else r.body == original
    decreases |ops|
  {
    if ops != [] {
      var next := match ops[0] case Lock(w) => LockBody(l, w) case Unlock => UnlockBody(l);
      CorrectedLockRestoresBody(next, original, ops[1..]);
    }
  }

  /** The corrected lock on the double lock of the rapid toggle: the body gets its style back. */
  lemma CorrectedDoubleLock(original: BodyAttrs, w1: string, w2: string)
    ensures UnlockBody(LockBody(LockBody(ScrollLock(original, DefaultBodyAttrs, false), w1), w2)).body
            == original
  {
  }

  // ---------------------------------------------------------------------------
  // 2. Timers pending at unmount still run (Controlled.tsx:361-382, 639-683)

  /**
   * Unmounting between the zoom-end `transitionend` and its timer: the timer later
   * registers the resize listener on the window again, and nothing removes it.
   */
  lemma ZoomEndTimerAfterUnmountAddsResize(s: Snapshot, lockWidth: string)
    requires Idle(s)
    ensures var u := Run(s, [PropsUpdate(s.props.(isZoomed := true), lockWidth), TransitionEndFired, Unmount]);
      && u.listeners == {} && !u.mounted
      && Step(u, TimerFired).listeners == {Resize}
  {
    var e0 := PropsUpdate(s.props.(isZoomed := true), lockWidth);
    var s1 := Zoom(s.(props := s.props.(isZoomed := true)), lockWidth);
    assert Step(s, e0) == s1;
    assert ModalImgLive(s1) && s1.armed == [ZoomEnd] && s1.timers == [];
    var s2 := FireTransitionEnd(s1);
    assert s2.timers == [ZoomEnd];
    var s3 := ComponentWillUnmount(s2);
    RunThree(s, e0, TransitionEndFired, Unmount);
    PendingZoomEndAfterUnmount(s3);
  }

  lemma PendingZoomEndAfterUnmount(u: Snapshot)
    requires !u.mounted && u.listeners == {} && u.timers == [ZoomEnd]
    ensures Step(u, TimerFired).listeners == {Resize}
  {
    assert Step(u, TimerFired) == ZoomEndTimeout(u.(timers := []));
  }

  /**
   * Unmounting between the unzoom-end `transitionend` and its timer: unmounting puts
   * the pre-zoom body style back, then the timer overwrites it with empty attributes.
   */
  lemma UnzoomEndTimerAfterUnmountClobbersBody(s: Snapshot, lockWidth: string)
    requires Idle(s)
    ensures var t := Run(s, OpenEvents(s, lockWidth));
      var u := Run(t, [PropsUpdate(t.props.(isZoomed := false), lockWidth), TransitionEndFired, Unmount]);
      && u.body == s.body
      && Step(u, TimerFired).body == DefaultBodyAttrs
  {
    OpenFromIdle(s, lockWidth);
    var t := Run(s, OpenEvents(s, lockWidth));
    var e0 := PropsUpdate(t.props.(isZoomed := false), lockWidth);
    var s1 := Unzoom(t.(props := t.props.(isZoomed := false)));
    assert Step(t, e0) == s1;
    var s2 := FireTransitionEnd(s1);
    assert s2.timers == [UnzoomEnd];
    var s3 := ComponentWillUnmount(s2);
    assert Step(s2, Unmount) == s3;
    RunThree(t, e0, TransitionEndFired, Unmount);
    PendingUnzoomEndAfterUnmount(s3);
  }

  lemma PendingUnzoomEndAfterUnmount(u: Snapshot)
    requires !u.mounted && u.timers == [UnzoomEnd] && u.prevBodyAttrs == DefaultBodyAttrs
    ensures Step(u, TimerFired).body == DefaultBodyAttrs
  {
    assert Step(u, TimerFired) == UnzoomEndTimeout(u.(timers := []));
  }

  /** The corrected unmount also cancels the pending timers (`clearTimeout`). */
  function UnmountCancellingTimers(s: Snapshot): (r: Snapshot)
    ensures r.timers == [] && r.listeners == {} && r.armed == [] && !r.mounted
    ensures r == ComponentWillUnmount(s).(timers := [])
  {
    ComponentWillUnmount(s).(timers := [])
  }

  /** Nothing left that could reach the window, the body or the React state. */
  predicate Detached(s: Snapshot)
  {
    !s.mounted && s.listeners == {} && s.armed == [] && s.timers == []
  }

  lemma StepDetached(s: Snapshot, e: Event)
    requires Detached(s)
    ensures Detached(Step(s, e))
    ensures Step(s, e).body == s.body && Step(s, e).prevBodyAttrs == s.prevBodyAttrs
    ensures SameReactState(Step(s, e), s)
  {
    match e
    case MicrotaskRun =>
    case ZoomImgDecoded =>
    case _ =>
  }

  /**
   * After the corrected unmount, no sequence of events registers a window listener,
   * arms a handler, touches the body's style or changes the React state.
   */
  lemma {:induction false} CorrectedUnmountIsFinal(s: Snapshot, events: seq<Event>)
    ensures var u := UnmountCancellingTimers(s);
      var r := Run(u, events);
      && r.listeners == {} && r.armed == [] && r.timers == []
      && r.body == u.body && SameReactState(r, u)
  {
    var u := UnmountCancellingTimers(s);
    DetachedRun(u, events);
  }

  lemma {:induction false} DetachedRun(s: Snapshot, events: seq<Event>)
    requires Detached(s)
    ensures Detached(Run(s, events))
    ensures Run(s, events).body == s.body
    ensures SameReactState(Run(s, events), s)
    decreases |events|
  {
    if events != [] {
      StepDetached(s, events[0]);
      DetachedRun(Step(s, events[0]), events[1..]);
    }
  }
}
