/**
 * The zoom lifecycle controller of `ControlledBase` (source/Controlled.tsx) as values:
 * a snapshot of every field the handlers read or write, one function per handler,
 * and a step function that delivers one browser or React event to the component.
 *
 * Conventions of the model:
 *  - `setState` is a direct assignment, and it is ignored once the component is
 *    unmounted (React drops state updates of an unmounted component);
 *  - the window's listener registry is the set of event types whose handler is
 *    registered (each type has exactly one handler in the source);
 *  - the one-shot `transitionend` listeners of the modal image are kept in
 *    registration order, and adding one that is already registered does nothing;
 *  - `setTimeout(…, 0)` callbacks wait in a FIFO queue, wheel microtasks in a counter;
 *  - every call of `onZoomChange` is appended to `reports`.
 */
module ZoomModel {
  import opened Wrappers

  /** The four phases of the modal. */
  datatype ModalState = Loaded | Loading | Unloaded | Unloading

  /** The window events the component subscribes to. */
  datatype WindowEvent = Wheel | TouchStart | TouchEnd | TouchCancel | Resize

  /**
   * The two one-shot `transitionend` handlers of the modal image. Each of them
   * schedules a zero-delay timer, whose callback is named by the same value.
   */
  datatype EndHandler = ZoomEnd | UnzoomEnd

  /** The scroll-affecting style attributes of the document body. */
  datatype BodyAttrs = BodyAttrs(overflow: string, width: string)

  /** What `prevBodyAttrs` holds when no lock has been taken. */
  const DefaultBodyAttrs := BodyAttrs("", "")

  /** The listeners that `zoom` adds and `unzoom` removes. */
  const GestureEvents: set<WindowEvent> := {Wheel, TouchStart, TouchEnd, TouchCancel}

  /** Every window listener the component ever registers. */
  const AllWindowEvents: set<WindowEvent> := {Wheel, TouchStart, TouchEnd, TouchCancel, Resize}

  /** A vertical swipe dismisses the modal when it moves strictly more than this. */
  const SwipeThreshold: real := 10.0

  /** The legacy key code of the Escape key. */
  const EscapeKeyCode: int := 27

  /**
   * The props the handlers read. An empty `zoomImgSrc` stands for a missing
   * `zoomImg` or a missing `zoomImg.src` (both are falsy).
   */
  datatype Props = Props(isZoomed: bool, disableModalCloseOnTouchMove: bool, zoomImgSrc: string)

  /** What a click on the dialog landed on. */
  datatype ClickTarget = ModalContent | ModalImg | Elsewhere

  /** What a handler did to the DOM event it received. */
  datatype EventEffect = EventEffect(preventDefault: bool, stopPropagation: bool)

  /**
   * Everything the handlers read or write.
   * `hasDialog` / `hasModalImg`: whether the dialog element and the modal image were
   * rendered (the refs are set); they are null once the component is unmounted.
   */
  datatype Snapshot = Snapshot(
    props: Props,
    mounted: bool,
    hasDialog: bool,
    hasModalImg: bool,
    modalState: ModalState,
    shouldRefresh: bool,
    isZoomImgLoaded: bool,
    zoomImgLoads: nat,
    prevBodyAttrs: BodyAttrs,
    body: BodyAttrs,
    touchYStart: Option<real>,
    touchYEnd: Option<real>,
    listeners: set<WindowEvent>,
    armed: seq<EndHandler>,
    timers: seq<EndHandler>,
    microtasks: nat,
    dialogOpen: bool,
    reports: seq<bool>)

  /** The state right after construction: the initial React state and empty registries. */
  function Initial(props: Props, hasDialog: bool, hasModalImg: bool, body: BodyAttrs): (r: Snapshot)
    ensures r.mounted && r.modalState == Unloaded && !r.shouldRefresh && !r.isZoomImgLoaded
    ensures r.prevBodyAttrs == DefaultBodyAttrs && r.body == body
    ensures r.touchYStart == None && r.touchYEnd == None
    ensures r.listeners == {} && r.armed == [] && r.timers == [] && r.microtasks == 0
    ensures r.reports == []
  {
    Snapshot(props, true, hasDialog, hasModalImg, Unloaded, false, false, 0,
             DefaultBodyAttrs, body, None, None, {}, [], [], 0, false, [])
  }

  predicate NoDuplicates(hs: seq<EndHandler>)
  {
    forall i, j :: 0 <= i < j < |hs| ==> hs[i] != hs[j]
  }

  /** The refs to the modal image and the dialog are only set while mounted. */
  predicate ModalImgLive(s: Snapshot) { s.mounted && s.hasModalImg }
  predicate DialogLive(s: Snapshot) { s.mounted && s.hasDialog }

  // ---------------------------------------------------------------------------
  // Small state updates shared by the handlers

  /** `setState({ modalState: m })`. */
  function WithModalState(s: Snapshot, m: ModalState): (r: Snapshot)
    ensures r.modalState == (if s.mounted then m else s.modalState)
    ensures r.(modalState := s.modalState) == s
  {
    if s.mounted then s.(modalState := m) else s
  }

  /** `addEventListener("transitionend", h, { once: true })` on the modal image. */
  function Arm(s: Snapshot, h: EndHandler): (r: Snapshot)
    ensures h in r.armed
    ensures r.armed == if h in s.armed then s.armed else s.armed + [h]
    ensures NoDuplicates(s.armed) ==> NoDuplicates(r.armed)
    ensures r.(armed := s.armed) == s
  {
    if h in s.armed then s else s.(armed := s.armed + [h])
  }

  // ---------------------------------------------------------------------------
  // Body scroll lock (Controlled.tsx:690-710)

  /**
   * Saves the body's overflow and width, then locks it: overflow "hidden" and the
   * width fixed at `lockWidth` (the body's client width formatted in pixels).
   */
  function BodyScrollDisable(s: Snapshot, lockWidth: string): (r: Snapshot)
    ensures r.prevBodyAttrs == s.body
    ensures r.body == BodyAttrs("hidden", lockWidth)
    ensures r.(prevBodyAttrs := s.prevBodyAttrs, body := s.body) == s
  {
    s.(prevBodyAttrs := s.body, body := BodyAttrs("hidden", lockWidth))
  }

  /** Writes the saved attributes back to the body and forgets them. */
  function BodyScrollEnable(s: Snapshot): (r: Snapshot)
    ensures r.body == s.prevBodyAttrs
    ensures r.prevBodyAttrs == DefaultBodyAttrs
    ensures r.(prevBodyAttrs := s.prevBodyAttrs, body := s.body) == s
  {
    s.(body := BodyAttrs(s.prevBodyAttrs.overflow, s.prevBodyAttrs.width),
       prevBodyAttrs := DefaultBodyAttrs)
  }

  // ---------------------------------------------------------------------------
  // Zooming (Controlled.tsx:611-644, 717-744)

  /** Starts loading `zoomImg` when it has a source; the load completes later. */
  function LoadZoomImg(s: Snapshot): (r: Snapshot)
    ensures r.zoomImgLoads == if s.props.zoomImgSrc != "" then s.zoomImgLoads + 1 else s.zoomImgLoads
    ensures r.(zoomImgLoads := s.zoomImgLoads) == s
  {
    if s.props.zoomImgSrc != "" then s.(zoomImgLoads := s.zoomImgLoads + 1) else s
  }

  /**
   * `zoom`: lock the body, open the dialog, enter LOADING, start loading the zoom
   * image, subscribe the gesture listeners and arm the zoom-end handler. There is
   * no phase guard.
   */
  function Zoom(s: Snapshot, lockWidth: string): (r: Snapshot)
    ensures r.prevBodyAttrs == s.body && r.body == BodyAttrs("hidden", lockWidth)
    ensures s.mounted ==> r.modalState == Loading
    ensures r.listeners == s.listeners + GestureEvents
    ensures ModalImgLive(s) ==> ZoomEnd in r.armed
    ensures r.armed == if ModalImgLive(s) && ZoomEnd !in s.armed then s.armed + [ZoomEnd] else s.armed
    ensures r.dialogOpen == (s.dialogOpen || DialogLive(s))
    ensures r.timers == s.timers && r.microtasks == s.microtasks && r.reports == s.reports
    ensures r.touchYStart == s.touchYStart && r.touchYEnd == s.touchYEnd
    ensures r.shouldRefresh == s.shouldRefresh && r.isZoomImgLoaded == s.isZoomImgLoaded
    ensures r.props == s.props && r.mounted == s.mounted
    ensures r.hasDialog == s.hasDialog && r.hasModalImg == s.hasModalImg
    ensures r.zoomImgLoads == LoadZoomImg(s).zoomImgLoads
  {
    var s1 := BodyScrollDisable(s, lockWidth);
    var s2 := if DialogLive(s1) then s1.(dialogOpen := true) else s1;
    var s3 := WithModalState(s2, Loading);
    var s4 := LoadZoomImg(s3);
    var s5 := s4.(listeners := s4.listeners + GestureEvents);
    if ModalImgLive(s5) then Arm(s5, ZoomEnd) else s5
  }

  /** The zoom-end `transitionend` handler: it only schedules a zero-delay timer. */
  function HandleZoomEnd(s: Snapshot): (r: Snapshot)
    ensures r.timers == s.timers + [ZoomEnd]
    ensures r.(timers := s.timers) == s
  {
    s.(timers := s.timers + [ZoomEnd])
  }

  /** The zoom-end timer callback: enter LOADED and subscribe to window resizing. */
  function ZoomEndTimeout(s: Snapshot): (r: Snapshot)
    ensures s.mounted ==> r.modalState == Loaded
    ensures r.listeners == s.listeners + {Resize}
    ensures r.(modalState := s.modalState, listeners := s.listeners) == s
  {
    var s1 := WithModalState(s, Loaded);
    s1.(listeners := s1.listeners + {Resize})
  }

  // ---------------------------------------------------------------------------
  // Unzooming (Controlled.tsx:651-683)

  /**
   * `unzoom`: enter UNLOADING, unsubscribe the gesture listeners (resize stays) and arm
   * the unzoom-end handler. There is no phase guard.
   */
  function Unzoom(s: Snapshot): (r: Snapshot)
    ensures s.mounted ==> r.modalState == Unloading
    ensures r.listeners == s.listeners - GestureEvents
    ensures (Resize in r.listeners) == (Resize in s.listeners)
    ensures ModalImgLive(s) ==> UnzoomEnd in r.armed
    ensures r.armed == if ModalImgLive(s) && UnzoomEnd !in s.armed then s.armed + [UnzoomEnd] else s.armed
    ensures r.(modalState := s.modalState, listeners := s.listeners, armed := s.armed) == s
  {
    var s1 := WithModalState(s, Unloading);
    var s2 := s1.(listeners := s1.listeners - GestureEvents);
    if ModalImgLive(s2) then Arm(s2, UnzoomEnd) else s2
  }

  /** The unzoom-end `transitionend` handler: it only schedules a zero-delay timer. */
  function HandleUnzoomEnd(s: Snapshot): (r: Snapshot)
    ensures r.timers == s.timers + [UnzoomEnd]
    ensures r.(timers := s.timers) == s
  {
    s.(timers := s.timers + [UnzoomEnd])
  }

  /**
   * The unzoom-end timer callback: unsubscribe from resizing, clear `shouldRefresh`,
   * enter UNLOADED, close the dialog and release the body scroll lock.
   */
  function UnzoomEndTimeout(s: Snapshot): (r: Snapshot)
    ensures Resize !in r.listeners && r.listeners == s.listeners - {Resize}
    ensures s.mounted ==> r.modalState == Unloaded && !r.shouldRefresh
    ensures !s.mounted ==> r.modalState == s.modalState && r.shouldRefresh == s.shouldRefresh
    ensures r.dialogOpen == (s.dialogOpen && !DialogLive(s))
    ensures r.body == s.prevBodyAttrs && r.prevBodyAttrs == DefaultBodyAttrs
    ensures r.armed == s.armed && r.timers == s.timers && r.reports == s.reports
    ensures r.mounted == s.mounted && r.props == s.props
    ensures r.hasDialog == s.hasDialog && r.hasModalImg == s.hasModalImg
    ensures r.isZoomImgLoaded == s.isZoomImgLoaded && r.zoomImgLoads == s.zoomImgLoads
    ensures r.touchYStart == s.touchYStart && r.touchYEnd == s.touchYEnd && r.microtasks == s.microtasks
  {
    var s1 := s.(listeners := s.listeners - {Resize});
    var s2 := if s1.mounted then s1.(shouldRefresh := false, modalState := Unloaded) else s1;
    var s3 := if DialogLive(s2) then s2.(dialogOpen := false) else s2;
    BodyScrollEnable(s3)
  }

  // ---------------------------------------------------------------------------
  // Deferred work: the `transitionend` event, timers and microtasks

  /** Runs one armed `transitionend` handler. */
  function RunEndHandler(s: Snapshot, h: EndHandler): (r: Snapshot)
    ensures r == s.(timers := s.timers + [h])
  {
    match h
    case ZoomEnd => HandleZoomEnd(s)
    case UnzoomEnd => HandleUnzoomEnd(s)
  }

  /** Runs the given handlers in order. */
  function FireHandlers(s: Snapshot, hs: seq<EndHandler>): (r: Snapshot)
    ensures r == s.(timers := s.timers + hs)
    decreases |hs|
  {
    if hs == [] then s
    else
      var s1 := RunEndHandler(s, hs[0]);
      assert s1.timers + hs[1..] == s.timers + hs;
      FireHandlers(s1, hs[1..])
  }

  /**
   * The modal image fires `transitionend`: every armed one-shot handler is removed
   * and then run, in registration order, each scheduling its timer.
   */
  function FireTransitionEnd(s: Snapshot): (r: Snapshot)
    ensures r.armed == []
    ensures r.timers == s.timers + s.armed
    ensures r.(armed := s.armed, timers := s.timers) == s
    ensures r.hasDialog == s.hasDialog && r.hasModalImg == s.hasModalImg
  {
    FireHandlers(s.(armed := []), s.armed)
  }

  /** The oldest pending zero-delay timer runs its callback; with none pending nothing happens. */
  function RunNextTimer(s: Snapshot): (r: Snapshot)
    ensures s.timers == [] ==> r == s
    ensures s.timers != [] && s.timers[0] == ZoomEnd ==> r == ZoomEndTimeout(s.(timers := s.timers[1..]))
    ensures s.timers != [] && s.timers[0] == UnzoomEnd ==> r == UnzoomEndTimeout(s.(timers := s.timers[1..]))
    ensures r.hasDialog == s.hasDialog && r.hasModalImg == s.hasModalImg
  {
    if s.timers == [] then s
    else
      var rest := s.(timers := s.timers[1..]);
      match s.timers[0]
      case ZoomEnd => ZoomEndTimeout(rest)
      case UnzoomEnd => UnzoomEndTimeout(rest)
  }

  // ---------------------------------------------------------------------------
  // Reports to the parent (Controlled.tsx:500-509)

  /** `handleZoom`: report that zooming should occur. */
  function HandleZoom(s: Snapshot): (r: Snapshot)
    ensures r.reports == s.reports + [true]
    ensures r.(reports := s.reports) == s
  {
    s.(reports := s.reports + [true])
  }

  /** `handleUnzoom`: report that unzooming should occur. */
  function HandleUnzoom(s: Snapshot): (r: Snapshot)
    ensures r.reports == s.reports + [false]
    ensures r.(reports := s.reports) == s
  {
    s.(reports := s.reports + [false])
  }

  // ---------------------------------------------------------------------------
  // Window and dialog handlers (Controlled.tsx:516-604)

  /** `handleWheel`: stop the event and queue a microtask that reports unzooming. */
  function HandleWheel(s: Snapshot): (r: Snapshot)
    ensures r.microtasks == s.microtasks + 1
    ensures r.(microtasks := s.microtasks) == s
  {
    s.(microtasks := s.microtasks + 1)
  }

  /** What `handleWheel` does to the wheel event. */
  function WheelEffect(): (e: EventEffect)
    ensures !e.preventDefault && e.stopPropagation
  {
    EventEffect(false, true)
  }

  /** A queued wheel microtask runs: it reports unzooming. */
  function RunNextMicrotask(s: Snapshot): (r: Snapshot)
    ensures s.microtasks == 0 ==> r == s
    ensures s.microtasks > 0 ==> r == s.(microtasks := s.microtasks - 1, reports := s.reports + [false])
    ensures r.hasDialog == s.hasDialog && r.hasModalImg == s.hasModalImg
  {
    if s.microtasks == 0 then s else HandleUnzoom(s.(microtasks := s.microtasks - 1))
  }

  /** `handleTouchStart`: record the start point only for exactly one changed touch. */
  function HandleTouchStart(s: Snapshot, screenYs: seq<real>): (r: Snapshot)
    ensures |screenYs| == 1 ==> r.touchYStart == Some(screenYs[0])
    ensures |screenYs| != 1 ==> r == s
    ensures r.(touchYStart := s.touchYStart) == s
  {
    if |screenYs| == 1 then s.(touchYStart := Some(screenYs[0])) else s
  }

  /** `Math.abs(Math.max(a, b) - Math.min(a, b))`. */
  function TouchDelta(a: real, b: real): (d: real)
    ensures d >= 0.0
    ensures d == a - b || d == b - a
  {
    var max := if a >= b then a else b;
    var min := if a <= b then a else b;
    if max - min >= 0.0 then max - min else min - max
  }

  /** Whether a touch that ends at `screenYs[0]` is a dismissing swipe. */
  predicate SwipeDismisses(s: Snapshot, screenYs: seq<real>)
  {
    && s.touchYStart.Some?
    && |screenYs| > 0
    && TouchDelta(s.touchYStart.value, screenYs[0]) > SwipeThreshold
    && !s.props.disableModalCloseOnTouchMove
  }

  /**
   * `handleTouchMove` (the `touchend` listener): with a start point, record the end
   * point; if it lies more than the threshold away and swipe dismissal is enabled,
   * clear both points and report unzooming.
   */
  function HandleTouchMove(s: Snapshot, screenYs: seq<real>): (r: Snapshot)
    ensures SwipeDismisses(s, screenYs) ==>
              r == s.(touchYStart := None, touchYEnd := None, reports := s.reports + [false])
    ensures s.touchYStart.Some? && |screenYs| > 0 && !SwipeDismisses(s, screenYs) ==>
              r == s.(touchYEnd := Some(screenYs[0]))
    ensures s.touchYStart.None? || |screenYs| == 0 ==> r == s
  {
    if s.touchYStart.Some? && |screenYs| > 0 then
      var s1 := s.(touchYEnd := Some(screenYs[0]));
      if TouchDelta(s.touchYStart.value, screenYs[0]) > SwipeThreshold
         && !s.props.disableModalCloseOnTouchMove
      then HandleUnzoom(s1.(touchYStart := None, touchYEnd := None))
      else s1
    else s
  }

  /** `handleTouchCancel`: forget both tracking points, report nothing. */
  function HandleTouchCancel(s: Snapshot): (r: Snapshot)
    ensures r.touchYStart == None && r.touchYEnd == None
    ensures r.reports == s.reports
    ensures r.(touchYStart := s.touchYStart, touchYEnd := s.touchYEnd) == s
  {
    s.(touchYStart := None, touchYEnd := None)
  }

  /** `handleResize`: ask for a geometry refresh. */
  function HandleResize(s: Snapshot): (r: Snapshot)
    ensures s.mounted ==> r.shouldRefresh
    ensures r.(shouldRefresh := s.shouldRefresh) == s
  {
    if s.mounted then s.(shouldRefresh := true) else s
  }

  /** `handleDialogClick`: only a click on the modal content or the modal image reports unzooming. */
  function HandleDialogClick(s: Snapshot, target: ClickTarget): (r: Snapshot)
    ensures (target == ModalContent || target == ModalImg) <==> r.reports == s.reports + [false]
    ensures target == Elsewhere ==> r == s
    ensures r.(reports := s.reports) == s
  {
    if target == ModalContent || target == ModalImg then HandleUnzoom(s) else s
  }

  predicate IsEscape(key: string, keyCode: int)
  {
    key == "Escape" || keyCode == EscapeKeyCode
  }

  /** `handleDialogKeyDown`: Escape reports unzooming; any other key does nothing. */
  function HandleDialogKeyDown(s: Snapshot, key: string, keyCode: int): (r: Snapshot)
    ensures IsEscape(key, keyCode) <==> r.reports == s.reports + [false]
    ensures !IsEscape(key, keyCode) ==> r == s
    ensures r.(reports := s.reports) == s
  {
    if IsEscape(key, keyCode) then HandleUnzoom(s) else s
  }

  /** What `handleDialogKeyDown` does to the key event: Escape is prevented and stopped. */
  function DialogKeyDownEffect(key: string, keyCode: int): (e: EventEffect)
    ensures e.preventDefault <==> IsEscape(key, keyCode)
    ensures e.stopPropagation <==> IsEscape(key, keyCode)
  {
    if IsEscape(key, keyCode) then EventEffect(true, true) else EventEffect(false, false)
  }

  /** What `handleDialogCancel` does to the dialog's cancel event. */
  function DialogCancelEffect(): (e: EventEffect)
    ensures e.preventDefault && !e.stopPropagation
  {
    EventEffect(true, false)
  }

  /** One loaded `zoomImg` decode: `setState({ isZoomImgLoaded: true })`. */
  function ZoomImgLoadComplete(s: Snapshot): (r: Snapshot)
    ensures s.zoomImgLoads == 0 ==> r == s
    ensures s.zoomImgLoads > 0 ==> r.zoomImgLoads == s.zoomImgLoads - 1
    ensures s.zoomImgLoads > 0 && s.mounted ==> r.isZoomImgLoaded
    ensures r.(zoomImgLoads := s.zoomImgLoads, isZoomImgLoaded := s.isZoomImgLoaded) == s
  {
    if s.zoomImgLoads == 0 then s
    else
      var s1 := s.(zoomImgLoads := s.zoomImgLoads - 1);
      if s1.mounted then s1.(isZoomImgLoaded := true) else s1
  }

  // ---------------------------------------------------------------------------
  // Lifecycle (Controlled.tsx:361-389, 446-454)

  /**
   * `handleIfZoomChanged`: zoom on a false-to-true edge of `isZoomed`, unzoom on a
   * true-to-false edge, and do nothing when the value did not change.
   */
  function HandleIfZoomChanged(s: Snapshot, prevIsZoomed: bool, lockWidth: string): (r: Snapshot)
    ensures !prevIsZoomed && s.props.isZoomed ==> r == Zoom(s, lockWidth)
    ensures prevIsZoomed && !s.props.isZoomed ==> r == Unzoom(s)
    ensures prevIsZoomed == s.props.isZoomed ==> r == s
    ensures r.hasDialog == s.hasDialog && r.hasModalImg == s.hasModalImg
  {
    if !prevIsZoomed && s.props.isZoomed then Zoom(s, lockWidth)
    else if prevIsZoomed && !s.props.isZoomed then Unzoom(s)
    else s
  }

  /** React commits new props, then calls `componentDidUpdate` with the previous ones. */
  function ComponentDidUpdate(s: Snapshot, next: Props, lockWidth: string): (r: Snapshot)
    ensures r.props == next
    ensures s.props.isZoomed == next.isZoomed ==> r == s.(props := next)
    ensures r.hasDialog == s.hasDialog && r.hasModalImg == s.hasModalImg
  {
    HandleIfZoomChanged(s.(props := next), s.props.isZoomed, lockWidth)
  }

  /**
   * `componentWillUnmount` followed by React detaching the component: release the
   * scroll lock unless UNLOADED, disarm both `transitionend` handlers and remove all
   * five window listeners. Pending timers and microtasks are not cancelled.
   */
  function ComponentWillUnmount(s: Snapshot): (r: Snapshot)
    ensures s.modalState != Unloaded ==> r.body == s.prevBodyAttrs && r.prevBodyAttrs == DefaultBodyAttrs
    ensures s.modalState == Unloaded ==> r.body == s.body && r.prevBodyAttrs == s.prevBodyAttrs
    ensures r.listeners == {} && r.armed == [] && !r.mounted
    ensures r.timers == s.timers && r.microtasks == s.microtasks && r.modalState == s.modalState
    ensures r.reports == s.reports
    ensures r.hasDialog == s.hasDialog && r.hasModalImg == s.hasModalImg
  {
    var s1 := if s.modalState != Unloaded then BodyScrollEnable(s) else s;
    var s2 := s1.(listeners := s1.listeners - AllWindowEvents, armed := []);
    assert s2.listeners == {} by { EveryWindowEventIsKnown(s1.listeners); }
    s2.(mounted := false)
  }

  /** The component registers no window listener besides the five named ones. */
  lemma EveryWindowEventIsKnown(ws: set<WindowEvent>)
    ensures ws - AllWindowEvents == {}
  {
    forall w | w in ws ensures w in AllWindowEvents {
      match w
      case Wheel =>
      case TouchStart =>
      case TouchEnd =>
      case TouchCancel =>
      case Resize =>
    }
  }

  // ---------------------------------------------------------------------------
  // The environment: one event delivered to the component

  datatype Event =
    | PropsUpdate(next: Props, lockWidth: string)   // new props committed
    | TransitionEndFired                            // the modal image ends a CSS transition
    | TimerFired                                    // the oldest zero-delay timeout runs
    | MicrotaskRun                                  // the oldest wheel microtask runs
    | ZoomImgDecoded                                // one `zoomImg` load completes
    | WindowDispatch(kind: WindowEvent, screenYs: seq<real>)
    | DialogClicked(target: ClickTarget)
    | DialogKey(key: string, keyCode: int)
    | DialogClosed                                  // the dialog's `close` event (onClose)
    | ZoomClicked                                   // the zoom button or the tracked image
    | UnzoomClicked                                 // the unzoom button
    | Unmount

  /** The window calls the handler registered for `kind`. */
  function DispatchWindow(s: Snapshot, kind: WindowEvent, screenYs: seq<real>): (r: Snapshot)
    ensures kind == Wheel ==> r == HandleWheel(s)
    ensures kind == TouchStart ==> r == HandleTouchStart(s, screenYs)
    ensures kind == TouchEnd ==> r == HandleTouchMove(s, screenYs)
    ensures kind == TouchCancel ==> r == HandleTouchCancel(s)
    ensures kind == Resize ==> r == HandleResize(s)
    ensures r.hasDialog == s.hasDialog && r.hasModalImg == s.hasModalImg
  {
    match kind
    case Wheel => HandleWheel(s)
    case TouchStart => HandleTouchStart(s, screenYs)
    case TouchEnd => HandleTouchMove(s, screenYs)
    case TouchCancel => HandleTouchCancel(s)
    case Resize => HandleResize(s)
  }

  /**
   * Delivers one event. React and the DOM deliver component events only while the
   * component is mounted; window events reach a handler only while it is registered;
   * timers and microtasks run whatever the component's state.
   */
  function Step(s: Snapshot, e: Event): (r: Snapshot)
    ensures e.PropsUpdate? && !s.mounted ==> r == s
    ensures e.WindowDispatch? && e.kind !in s.listeners ==> r == s
    ensures e.DialogClosed? ==> r == if DialogLive(s) then HandleUnzoom(s) else s
    ensures e.ZoomClicked? ==> r == if s.mounted then HandleZoom(s) else s
    ensures e.UnzoomClicked? ==> r == if s.mounted then HandleUnzoom(s) else s
  {
    match e
    case PropsUpdate(next, w) => if s.mounted then ComponentDidUpdate(s, next, w) else s
    case TransitionEndFired => if ModalImgLive(s) then FireTransitionEnd(s) else s
    case TimerFired => RunNextTimer(s)
    case MicrotaskRun => RunNextMicrotask(s)
    case ZoomImgDecoded => ZoomImgLoadComplete(s)
    case WindowDispatch(kind, ys) => if kind in s.listeners then DispatchWindow(s, kind, ys) else s
    case DialogClicked(t) => if DialogLive(s) then HandleDialogClick(s, t) else s
    case DialogKey(k, c) => if DialogLive(s) then HandleDialogKeyDown(s, k, c) else s
    case DialogClosed => if DialogLive(s) then HandleUnzoom(s) else s
    case ZoomClicked => if s.mounted then HandleZoom(s) else s
    case UnzoomClicked => if s.mounted then HandleUnzoom(s) else s
    case Unmount => if s.mounted then ComponentWillUnmount(s) else s
  }

  /**
   * No event changes which elements were rendered, and no event mounts the component
   * again once it is unmounted.
   */
  lemma StepKeepsRefs(s: Snapshot, e: Event)
    ensures Step(s, e).hasDialog == s.hasDialog && Step(s, e).hasModalImg == s.hasModalImg
    ensures !s.mounted ==> !Step(s, e).mounted
  {
    match e
    case PropsUpdate(next, w) =>
    case TransitionEndFired =>
    case TimerFired =>
    case MicrotaskRun =>
    case ZoomImgDecoded =>
    case WindowDispatch(kind, ys) =>
    case DialogClicked(_) =>
    case DialogKey(_, _) =>
    case DialogClosed =>
    case ZoomClicked =>
    case UnzoomClicked =>
    case Unmount =>
  }

  /** Delivers the events in order. */
  function Run(s: Snapshot, events: seq<Event>): (r: Snapshot)
    ensures r.hasDialog == s.hasDialog && r.hasModalImg == s.hasModalImg
    ensures !s.mounted ==> !r.mounted
    decreases |events|
  {
    if events == [] then s
    else
      StepKeepsRefs(s, events[0]);
      Run(Step(s, events[0]), events[1..])
  }
}
