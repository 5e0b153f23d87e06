# Zoom lifecycle of `ControlledBase`

This project models the zoom lifecycle controller of `react-medium-image-zoom`. That
controller is the `ControlledBase` component in `source/Controlled.tsx`. The parent
drives it through the `isZoomed` prop. The component reports zoom requests back
through `onZoomChange`.

A zoom runs through four modal phases: UNLOADED, LOADING, LOADED and UNLOADING.
Along the way the component does the following:

- It locks the document body's scrolling and later restores the body's saved style.
- It opens and closes the dialog.
- It subscribes the window's wheel and touch listeners while zoomed. It subscribes the
  resize listener from LOADED until the unzoom-end timer.
- It arms a one-shot `transitionend` handler on the modal image. Each handler defers
  the phase change to a zero-delay timer.
- It turns wheel events, swipes, Escape, clicks on the modal and the dialog's
  `close` event into unzoom reports.

The project has five modules:

- `ZoomModel` (`zoom_model.dfy`) is the model as values.
  - A `Snapshot` holds everything the handlers read or write: the props, the React
    state (`modalState`, `shouldRefresh`, `isZoomImgLoaded`), the instance fields
    (`prevBodyAttrs`, `touchYStart`, `touchYEnd`), the body's style, the window's
    listener registry, the armed `transitionend` handlers, pending timers and
    microtasks, whether the dialog is open, and the log of `onZoomChange` calls.
  - There is one function per handler.
  - `Step` delivers one browser or React event to the component, and `Run` delivers
    a list of events.
  - `setState` takes effect immediately, and it is dropped once the component is
    unmounted.
- `Controlled` (`controlled.dfy`) holds the class `ControlledBase`. The same state
  lives in mutable fields, and every handler is a method. Each method is proved to
  leave the object in the state that the matching `ZoomModel` function computes.
  `FireTransitionEnd` is a loop over the armed handlers, proved by a loop invariant.
- `ZoomProperties` (`zoom_properties.dfy`) proves what the component promises: the
  scroll-lock round trip, edge-triggered props handling, the swipe rule, the full
  open and close cycle, an invariant kept by every event sequence, and what unmounting
  leaves behind.
- `Render` (`render.dfy`) holds the values `render` derives from the modal phase and
  the button label.
- `ZoomFindings` (`findings.dfy`) holds two defects of the code as written, each with
  a corrected definition and its proved property.

Three behaviours of the code that a reader might not expect:

- `zoom` and `unzoom` have no phase guard. A call in any phase runs in full.
- `isZoomImgLoaded` is never reset to false. The unzoom-end timer (lines 674-677)
  only clears `shouldRefresh` and `modalState`.
- Mounting with `isZoomed` already true does not zoom. `componentDidMount` (lines
  354-359) does not call `handleIfZoomChanged`, so only a later false-to-true edge
  opens the modal.

## Model

| member | source | states |
|---|---|---|
| ZoomModel.Initial | source/Controlled.tsx:136-142 | the first state is mounted and UNLOADED, with `shouldRefresh` and `isZoomImgLoaded` false, no saved body style, no touch points and nothing registered or pending |
| ZoomModel.WithModalState | source/Controlled.tsx:614 | `setState({ modalState })` sets the phase while mounted, is dropped once unmounted, and changes nothing else |
| ZoomModel.Arm | source/Controlled.tsx:626-630 | adding a `transitionend` listener registers it once: one already armed is not added twice, so the armed list stays free of duplicates |
| ZoomModel.BodyScrollDisable | source/Controlled.tsx:690-701 | the body's current overflow and width are saved, then overflow becomes "hidden" and the width is fixed; nothing else changes |
| ZoomModel.BodyScrollEnable | source/Controlled.tsx:706-710 | the saved attributes go back onto the body and the saved copy is reset to the empty defaults |
| ZoomModel.LoadZoomImg | source/Controlled.tsx:717-744 | a load starts only when `zoomImg` has a source; nothing else changes |
| ZoomModel.Zoom | source/Controlled.tsx:611-633 | zoom locks the body, opens the dialog when it is rendered, enters LOADING while mounted, adds the four gesture listeners, and arms the zoom-end handler once when the modal image exists, and starts one `zoomImg` load exactly when `zoomImg` has a source; timers, touches, reports and props are untouched |
| ZoomModel.HandleZoomEnd | source/Controlled.tsx:639-644 | the zoom-end handler only queues its zero-delay timer |
| ZoomModel.ZoomEndTimeout | source/Controlled.tsx:640-643 | the zoom-end timer enters LOADED while mounted and subscribes resize |
| ZoomModel.Unzoom | source/Controlled.tsx:651-664 | unzoom enters UNLOADING while mounted, removes exactly the four gesture listeners (resize stays as it was), and arms the unzoom-end handler once |
| ZoomModel.HandleUnzoomEnd | source/Controlled.tsx:670-683 | the unzoom-end handler only queues its zero-delay timer |
| ZoomModel.UnzoomEndTimeout | source/Controlled.tsx:671-682 | the unzoom-end timer removes resize, sets UNLOADED and clears `shouldRefresh` while mounted (and leaves them once unmounted), closes a live dialog, and writes the saved body style back; the image-load state, the touch points, the microtasks, the armed handlers, the timers and the reports are untouched |
| ZoomModel.Step | source/Controlled.tsx:311-345 | one event reaches its handler: the zoom button runs `handleZoom` and the dialog's `close` event `handleUnzoom` (the latter only while the dialog is mounted), a props update after unmount and a window event nobody listens to change nothing |
| ZoomModel.StepKeepsRefs | source/Controlled.tsx:323-345 | no event changes whether the dialog and the modal image are rendered, and none remounts an unmounted component |
| ZoomModel.Run | source/Controlled.tsx:122-767 | a list of events is delivered one at a time, in order; the rendered dialog and modal image stay as they were, and an unmounted component stays unmounted |
| ZoomModel.RunEndHandler | source/Controlled.tsx:639-644 | either `transitionend` handler adds exactly its own timer to the queue |
| ZoomModel.FireHandlers | source/Controlled.tsx:626-630 | running a list of handlers in order queues their timers in the same order and changes nothing else |
| ZoomModel.FireTransitionEnd | source/Controlled.tsx:626-630 | a `transitionend` removes every one-shot handler and queues their timers in registration order |
| ZoomModel.RunNextTimer | source/Controlled.tsx:640-643 | the oldest pending timer runs its callback (zoom-end or unzoom-end); with none pending nothing happens |
| ZoomModel.HandleZoom | source/Controlled.tsx:500-502 | `onZoomChange(true)` is reported; nothing else changes |
| ZoomModel.HandleUnzoom | source/Controlled.tsx:507-509 | `onZoomChange(false)` is reported; nothing else changes |
| ZoomModel.HandleWheel | source/Controlled.tsx:552-557 | a wheel event queues one microtask and changes nothing else |
| ZoomModel.WheelEffect | source/Controlled.tsx:553 | the wheel event is stopped from propagating but not prevented |
| ZoomModel.RunNextMicrotask | source/Controlled.tsx:554-556 | a queued wheel microtask reports unzooming; with none queued nothing happens |
| ZoomModel.HandleTouchStart | source/Controlled.tsx:562-566 | the start point is recorded only when exactly one touch changed; otherwise the state is unchanged |
| ZoomModel.TouchDelta | source/Controlled.tsx:579-581 | the distance between two screen positions is non-negative and is their difference in one order or the other |
| ZoomModel.HandleTouchMove | source/Controlled.tsx:572-587 | with a start point and a touch, the end point is recorded; a dismissing swipe instead clears both points and reports unzooming; without a start point or a touch nothing changes |
| ZoomModel.HandleTouchCancel | source/Controlled.tsx:592-595 | both tracking points are cleared and nothing is reported |
| ZoomModel.HandleResize | source/Controlled.tsx:602-604 | a resize sets `shouldRefresh` while mounted and changes nothing else |
| ZoomModel.HandleDialogClick | source/Controlled.tsx:525-532 | a click reports unzooming if and only if it landed on the modal content or the modal image; any other click changes nothing |
| ZoomModel.HandleDialogKeyDown | source/Controlled.tsx:539-545 | a key reports unzooming if and only if its key is "Escape" or its key code is 27; any other key changes nothing |
| ZoomModel.DialogKeyDownEffect | source/Controlled.tsx:540-543 | the key event is prevented and stopped if and only if it is Escape |
| ZoomModel.DialogCancelEffect | source/Controlled.tsx:516-518 | the dialog's cancel event is prevented, so the browser does not close the dialog itself |
| ZoomModel.ZoomImgLoadComplete | source/Controlled.tsx:733-743 | a finished `zoomImg` load sets `isZoomImgLoaded` while mounted; with no load pending nothing happens |
| ZoomModel.HandleIfZoomChanged | source/Controlled.tsx:446-454 | a false-to-true edge of `isZoomed` zooms, a true-to-false edge unzooms, and no edge changes nothing |
| ZoomModel.ComponentDidUpdate | source/Controlled.tsx:386-389 | new props are committed, and props whose `isZoomed` did not change do nothing else |
| ZoomModel.ComponentWillUnmount | source/Controlled.tsx:361-382 | unmounting releases the body lock unless UNLOADED, disarms both handlers and removes all five window listeners; pending timers and microtasks survive |
| ZoomModel.EveryWindowEventIsKnown | source/Controlled.tsx:377-381 | helper: the five event types of the `WindowEvent` datatype are all the window events the model has, so removing the five listeners at unmount leaves the registry empty |
| ZoomModel.DispatchWindow | source/Controlled.tsx:616-625 | each window event type reaches the handler registered for it; `touchend` reaches `handleTouchMove` |
| Controlled.ControlledBase.constructor | source/Controlled.tsx:136-153 | the new object holds the initial state |
| Controlled.ControlledBase.SetModalState | source/Controlled.tsx:614 | the object's new state is `WithModalState` of the old one |
| Controlled.ControlledBase.AddTransitionEnd | source/Controlled.tsx:626-630 | the object's new state is `Arm` of the old one |
| Controlled.ControlledBase.BodyScrollDisable | source/Controlled.tsx:690-701 | the object's new state is `BodyScrollDisable` of the old one |
| Controlled.ControlledBase.BodyScrollEnable | source/Controlled.tsx:706-710 | the object's new state is `BodyScrollEnable` of the old one |
| Controlled.ControlledBase.LoadZoomImg | source/Controlled.tsx:717-744 | the object's new state is `LoadZoomImg` of the old one |
| Controlled.ControlledBase.Zoom | source/Controlled.tsx:611-633 | the object's new state is `Zoom` of the old one: LOADING while mounted, with the gesture listeners added |
| Controlled.ControlledBase.HandleZoomEnd | source/Controlled.tsx:639-644 | the object's new state is `HandleZoomEnd` of the old one |
| Controlled.ControlledBase.ZoomEndTimeout | source/Controlled.tsx:640-643 | the object's new state is `ZoomEndTimeout` of the old one |
| Controlled.ControlledBase.Unzoom | source/Controlled.tsx:651-664 | the object's new state is `Unzoom` of the old one: UNLOADING while mounted, with the gesture listeners removed |
| Controlled.ControlledBase.HandleUnzoomEnd | source/Controlled.tsx:670-683 | the object's new state is `HandleUnzoomEnd` of the old one |
| Controlled.ControlledBase.UnzoomEndTimeout | source/Controlled.tsx:671-682 | the object's new state is `UnzoomEndTimeout` of the old one |
| Controlled.ControlledBase.RunEndHandler | source/Controlled.tsx:639-644 | the object's new state is `RunEndHandler` of the old one |
| Controlled.ControlledBase.FireTransitionEnd | source/Controlled.tsx:626-630 | the loop over the armed handlers leaves the state `FireTransitionEnd` computes: nothing armed, their timers queued in order |
| Controlled.ControlledBase.RunNextTimer | source/Controlled.tsx:640-643 | the object's new state is `RunNextTimer` of the old one |
| Controlled.ControlledBase.RunNextMicrotask | source/Controlled.tsx:554-556 | the object's new state is `RunNextMicrotask` of the old one |
| Controlled.ControlledBase.CompleteZoomImgLoad | source/Controlled.tsx:733-743 | the object's new state is `ZoomImgLoadComplete` of the old one |
| Controlled.ControlledBase.HandleZoom | source/Controlled.tsx:500-502 | the object's new state is `HandleZoom` of the old one |
| Controlled.ControlledBase.HandleUnzoom | source/Controlled.tsx:507-509 | the object's new state is `HandleUnzoom` of the old one |
| Controlled.ControlledBase.HandleWheel | source/Controlled.tsx:552-557 | the object's new state is `HandleWheel` of the old one, and the event is stopped |
| Controlled.ControlledBase.HandleTouchStart | source/Controlled.tsx:562-566 | the object's new state is `HandleTouchStart` of the old one |
| Controlled.ControlledBase.HandleTouchMove | source/Controlled.tsx:572-587 | the object's new state is `HandleTouchMove` of the old one |
| Controlled.ControlledBase.HandleTouchCancel | source/Controlled.tsx:592-595 | the object's new state is `HandleTouchCancel` of the old one |
| Controlled.ControlledBase.HandleResize | source/Controlled.tsx:602-604 | the object's new state is `HandleResize` of the old one |
| Controlled.ControlledBase.HandleDialogClick | source/Controlled.tsx:525-532 | the object's new state is `HandleDialogClick` of the old one |
| Controlled.ControlledBase.HandleDialogKeyDown | source/Controlled.tsx:539-545 | the object's new state is `HandleDialogKeyDown` of the old one, and Escape is prevented and stopped |
| Controlled.ControlledBase.HandleDialogCancel | source/Controlled.tsx:516-518 | the cancel event is prevented and the object is unchanged |
| Controlled.ControlledBase.HandleIfZoomChanged | source/Controlled.tsx:446-454 | the object's new state is `HandleIfZoomChanged` of the old one |
| Controlled.ControlledBase.ComponentDidUpdate | source/Controlled.tsx:386-389 | the object's new state is `ComponentDidUpdate` of the old one |
| Controlled.ControlledBase.ComponentWillUnmount | source/Controlled.tsx:361-382 | the object's new state is `ComponentWillUnmount` of the old one: no window listener and nothing armed |
| ZoomProperties.ScrollLockRoundTrip | source/Controlled.tsx:690-710 | locking then unlocking gives the body back its exact style and leaves no saved copy |
| ZoomProperties.EnableWithoutDisable | source/Controlled.tsx:706-710 | unlocking without a lock writes the empty default attributes onto the body |
| ZoomProperties.RepeatedPropsUpdateIsNoOp | source/Controlled.tsx:446-454 | delivering the same props twice acts once: the second update changes nothing |
| ZoomProperties.PropsUpdateEdges | source/Controlled.tsx:446-454 | a props update that turns `isZoomed` on zooms, one that turns it off unzooms, and otherwise only the props change |
| ZoomProperties.ZoomThenZoomEnd | source/Controlled.tsx:611-644 | from rest, zoom enters LOADING with the gesture listeners and only the zoom-end handler armed; its `transitionend` queues exactly the zoom-end timer, which enters LOADED with resize subscribed and nothing left pending |
| ZoomProperties.UnzoomThenUnzoomEnd | source/Controlled.tsx:651-683 | from rest, unzoom enters UNLOADING without the gesture listeners; after its `transitionend` and timer the modal is UNLOADED, no refresh is pending, no window listener is left and the saved body style is back |
| ZoomProperties.SwipeDismissal | source/Controlled.tsx:572-587 | the touch-end handler reports unzooming if and only if there is a start point and a touch, the move exceeds the threshold and swipe dismissal is enabled; a report clears both points; without a start point nothing changes |
| ZoomProperties.SwipeThresholdIsStrict | source/Controlled.tsx:579-581 | a move of exactly 10 does not dismiss and a move of 11 does, upwards or downwards |
| ZoomProperties.SwipeDisabledNeverReports | source/Controlled.tsx:581 | with `disableModalCloseOnTouchMove` no touch ever reports |
| ZoomProperties.RunAppend | source/Controlled.tsx:122-767 | delivering two event lists one after the other is the same as delivering their concatenation |
| ZoomProperties.OpenFromIdle | source/Controlled.tsx:611-644 | from idle, turning `isZoomed` on gives LOADING; after the transition and the timer the modal is LOADED with all five listeners and nothing pending |
| ZoomProperties.CloseFromOpen | source/Controlled.tsx:651-683 | from open, turning `isZoomed` off gives UNLOADING; after the transition and the timer the modal is UNLOADED, there is no listener, nothing is pending and the saved style is back |
| ZoomProperties.FullZoomCycle | source/Controlled.tsx:611-710 | a full zoom and unzoom passes through LOADING, LOADED, UNLOADING and UNLOADED and ends idle with the body style it started with |
| ZoomProperties.InitialInv | source/Controlled.tsx:136-153 | the first state satisfies the invariant |
| ZoomProperties.ZoomInv | source/Controlled.tsx:611-633 | zoom keeps the invariant |
| ZoomProperties.UnzoomInv | source/Controlled.tsx:651-664 | unzoom keeps the invariant |
| ZoomProperties.PropsUpdateInv | source/Controlled.tsx:386-389 | a props update keeps the invariant |
| ZoomProperties.ZoomEndTimeoutInv | source/Controlled.tsx:640-643 | the zoom-end timer keeps the invariant |
| ZoomProperties.UnzoomEndTimeoutInv | source/Controlled.tsx:671-682 | the unzoom-end timer keeps the invariant |
| ZoomProperties.TimerInv | source/Controlled.tsx:639-683 | running any pending timer keeps the invariant |
| ZoomProperties.WindowInv | source/Controlled.tsx:552-604 | every window handler keeps the invariant |
| ZoomProperties.UnmountInv | source/Controlled.tsx:361-382 | unmounting keeps the invariant |
| ZoomProperties.StepInv | source/Controlled.tsx:122-767 | every single event keeps the invariant |
| ZoomProperties.RunInv | source/Controlled.tsx:122-767 | every event sequence keeps the invariant |
| ZoomProperties.ReachableInv | source/Controlled.tsx:122-767 | in every reachable state an end point implies a start point, the gesture listeners are all registered or none are, no handler is armed twice, no body style is saved while UNLOADED, and after unmounting nothing is armed, no gesture listener remains and no body style is saved |
| ZoomProperties.UnmountWhileLoading | source/Controlled.tsx:361-382 | unmounting during LOADING puts the pre-zoom body style back and leaves no listener, nothing armed and no saved copy |
| ZoomProperties.TimerAfterUnmount | source/Controlled.tsx:639-683 | a timer that runs after unmounting does not change the React state |
| ZoomProperties.WindowAfterUnmount | source/Controlled.tsx:552-604 | a window handler that runs after unmounting does not change the React state |
| ZoomProperties.StepAfterUnmount | source/Controlled.tsx:361-382 | after unmounting, a single event does not change the React state |
| ZoomProperties.QuietAfterUnmount | source/Controlled.tsx:361-382 | after unmounting, no event sequence changes the modal phase, `shouldRefresh` or `isZoomImgLoaded`, arms a handler, brings back a gesture listener or saves a body style |
| Render.IsModalActive | source/Controlled.tsx:212-213 | the modal is active exactly when it is in neither closed phase, UNLOADED or UNLOADING |
| Render.OverlayState | source/Controlled.tsx:217-220 | the overlay attribute is "hidden" exactly in UNLOADED and UNLOADING, otherwise "visible" |
| Render.ContentVisibility | source/Controlled.tsx:224-226 | the inline content is visible exactly while UNLOADED |
| Render.LabelBtnZoom | source/Controlled.tsx:208-210 | the zoom button's label starts with the button name; without alt text it is the name alone, with alt text the name is followed by ": " and the alt text |
| Render.LabelBtnZoomRecoversAlt | source/Controlled.tsx:208-210 | the alt text can be read back out of every label, so building the label loses nothing |
| Render.ZoomImgApplied | source/Controlled.tsx:256-258 | the `zoomImg` attributes are never applied before the zoom image has loaded, and once it has they are applied exactly in LOADED, never while LOADING or closed |
| Render.JoinSuffixed | source/Controlled.tsx:45-47 | the suffixed join of no parts is empty, and of some parts is at least as long as the first suffixed part |
| Render.JoinSuffixedLength | source/Controlled.tsx:45-47 | the suffixed join ends exactly where the last suffixed part ends, so no separator trails it |
| Render.JoinSuffixedHead | source/Controlled.tsx:45-47 | with two or more parts, the join opens with the first suffixed part and the separator follows it |
| Render.ImageQuery | source/Controlled.tsx:45-47 | `IMAGE_QUERY` is 136 characters long: four selectors, each with the 26-character suffix, and three commas |
| Render.JoinSuffixedHoldsEveryPart | source/Controlled.tsx:45-47 | in `parts.map(x => x + suffix).join(sep)` every part appears at its offset followed by the suffix, and every part but the last is then followed by the separator |
| Render.ImageQueryCoversEverySelector | source/Controlled.tsx:45-47 | `IMAGE_QUERY` contains each of the four selectors followed by `:not([aria-hidden="true"])`, with a comma after each but the last and nothing after the last |
| Render.DerivationsAgree | source/Controlled.tsx:212-226 | the overlay is hidden exactly when the modal is not active, the inline content shows only while the overlay is hidden, and the `zoomImg` attributes apply only while the modal is active and visible |
| ZoomFindings.DoubleDisableKeepsBodyLocked | source/Controlled.tsx:690-710 | two locks before one unlock leave the body locked with the first lock's style |
| ZoomFindings.RapidTogglePropsUpdates | source/Controlled.tsx:611-664 | turning `isZoomed` on, off and on before a transition ends leaves LOADING with both handlers armed and a locked style saved as "previous" |
| ZoomFindings.RapidToggleDeferred | source/Controlled.tsx:639-683 | the queued zoom-end and unzoom-end timers then end in UNLOADED, with the gesture listeners still registered and the body still locked |
| ZoomFindings.RapidToggleLeavesBodyLocked | source/Controlled.tsx:611-710 | after the rapid toggle, its `transitionend` and both timers, the modal is UNLOADED although `isZoomed` is true, nothing is armed, no timer is pending, the gesture listeners are still registered and the body stays overflow "hidden"; the dialog's `close` event queued by the unzoom-end timer is still to come |
| ZoomFindings.DoubleLockAfterClose | source/Controlled.tsx:333-335 | from that state the dialog's `close` event reports unzooming with the body still locked; if the parent then turns `isZoomed` off, the modal enters UNLOADING with the unzoom-end handler armed, the gesture listeners gone, the dialog closed and the body still locked |
| ZoomFindings.RapidToggleCloseEventKeepsLock | source/Controlled.tsx:670-683 | with a rendered dialog, the `close` event after the rapid toggle reports unzooming, and the body stays locked whichever way the parent reacts: in UNLOADED if it ignores the report, in UNLOADING with only the unzoom-end handler armed if it turns `isZoomed` off |
| ZoomFindings.LockBody | source/Controlled.tsx:690-701 | the corrected lock saves the body's style only when it is not already held |
| ZoomFindings.UnlockBody | source/Controlled.tsx:706-710 | the corrected unlock restores the saved style only when the lock is held |
| ZoomFindings.CorrectedLockRestoresBody | source/Controlled.tsx:690-710 | under any sequence of locks and unlocks the corrected lock keeps the original style: on the body when free, saved when held |
| ZoomFindings.CorrectedDoubleLock | source/Controlled.tsx:690-710 | with the corrected lock, two locks and one unlock give the body its original style back |
| ZoomFindings.ZoomEndTimerAfterUnmountAddsResize | source/Controlled.tsx:361-382 | a zoom-end timer pending at unmount registers the resize listener again after the component has removed every listener |
| ZoomFindings.PendingUnzoomEndAfterUnmount | source/Controlled.tsx:671-682 | an unzoom-end timer that runs after unmount, with no style saved, writes the empty defaults onto the body |
| ZoomFindings.PendingZoomEndAfterUnmount | source/Controlled.tsx:640-643 | a zoom-end timer that runs after unmount, when no listener is registered, registers the resize listener |
| ZoomFindings.UnzoomEndTimerAfterUnmountClobbersBody | source/Controlled.tsx:361-382 | an unzoom-end timer pending at unmount overwrites the restored body style with empty attributes |
| ZoomFindings.UnmountCancellingTimers | source/Controlled.tsx:361-382 | the corrected unmount also cancels pending timers, leaving no listener, nothing armed and nothing pending |
| ZoomFindings.StepDetached | source/Controlled.tsx:361-382 | a detached component stays detached under any event, and its body style and React state do not change |
| ZoomFindings.DetachedRun | source/Controlled.tsx:361-382 | a detached component stays detached under any event sequence, and its body style and React state do not change |
| ZoomFindings.CorrectedUnmountIsFinal | source/Controlled.tsx:361-382 | after the corrected unmount no event sequence registers a listener, arms a handler, touches the body or changes the React state |

## Left out

- The lock width is an arbitrary string. The model does not read `document.body.clientWidth` or format it in pixels.
- `clientWidth` and other layout are outside the model. So are `getStyleModalImg`, `getStyleGhost` and the `shouldRefresh`-driven geometry.
- `handleImgLoad`, `loadedImgEl`, `setAndTrackImg` and the mutation and resize observers are not modelled. These are the source-image tracking paths. The model fixes at construction whether the modal image and the dialog are rendered.
- `setId` and its random id are not modelled.
- `UNSAFE_handleSvg` is not modelled. It is SVG cloning in the DOM.
- The JSX render tree, the dialog portal container and the public `Controlled` wrapper are not modelled. Only the values listed under `Render` are.
- `dist/index.d.ts` is not part of this model. It holds type declarations only.
- The exact text of `IMAGE_QUERY` is not stated as one string literal. `Render.ImageQueryCoversEverySelector` states its selectors and separators instead.
- `showModal` and `close` are a boolean `dialogOpen`. The exceptions `showModal` raises on an already open dialog are not modelled.
- The dialog's `close` event is a separate `DialogClosed` event. The model does not queue it by itself when the unzoom-end timer closes the dialog; the lemmas about the rapid toggle deliver it explicitly.
- `TransitionEndFired` is delivered whenever the modal image is mounted and a handler is armed, even where the browser would run no transition (a closed dialog, an unchanged style). The lemmas about the rapid toggle deliver it only where a transition runs.
- The model allows a modal image without a dialog (`hasModalImg && !hasDialog`). The source cannot produce that state, because it renders the modal image inside the dialog (source/Controlled.tsx:323-345).
- Every `onZoomChange` call is logged in `reports`. Whether the prop is present is not modelled.
- `screenY` is a real number. Floating-point rounding is not modelled.
- React's batching and re-render timing are not modelled. Each `setState` takes effect at once.
- The `zoomImg` decode and its `onload` fallback are one `ZoomImgDecoded` event per started load. Decoding failures that never finish are not modelled.
- Only one `changedTouches` coordinate is read, matching the code. Multi-touch geometry is not modelled.
- The browser's event loop is reduced to a FIFO timer queue, a microtask counter and an explicit `transitionend` event. Real timing is not modelled.

## Findings

| source | as written | input that shows it | evidently intended | confidence | as-written member | corrected member |
|---|---|---|---|---|---|---|
| source/Controlled.tsx:690-701 | `bodyScrollDisable` overwrites `prevBodyAttrs` with the body's current style even when the body is already locked by an unfinished zoom | from idle, `isZoomed` goes true, false, true before the modal image's transition ends; then the `transitionend` and both timers run: the modal is UNLOADED with the body still locked, and the dialog's pending `close` event reports unzooming, after which the body stays locked: in UNLOADED if the parent ignores it, in UNLOADING if the parent unzooms, because the closed dialog runs no transition to fire the unzoom-end handler; it stays so until the next zoom or the unmount | a second lock keeps the original style, so the final unlock restores the body | not executed | ZoomFindings.RapidToggleLeavesBodyLocked | ZoomFindings.CorrectedLockRestoresBody |
| source/Controlled.tsx:361-382 | `componentWillUnmount` removes the listeners but does not cancel the zero-delay timers queued by `handleZoomEnd` / `handleUnzoomEnd` | zoom or unzoom, let the `transitionend` fire, then unmount before the timer runs | after unmount no callback registers a window listener or writes the body style | not executed | ZoomFindings.ZoomEndTimerAfterUnmountAddsResize | ZoomFindings.CorrectedUnmountIsFinal |
