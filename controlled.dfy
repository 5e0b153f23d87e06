/**
 * `ControlledBase` (source/Controlled.tsx:122-767) as a class: the React state, the
 * instance fields, the document body's style and the window's listener registry are
 * fields, and every handler is a method. Each method is proved to leave the object in
 * the state that the matching `ZoomModel` function computes from the old state, so
 * everything proved about those functions holds of the object.
 */
module Controlled {
  import opened Wrappers
  import M = ZoomModel

  class ControlledBase {
    var props: M.Props
    var mounted: bool
    /** Whether render produced the dialog element and the modal image. */
    const hasDialog: bool
    const hasModalImg: bool

    // React state
    var modalState: M.ModalState
    var shouldRefresh: bool
    var isZoomImgLoaded: bool

    // instance fields
    var prevBodyAttrs: M.BodyAttrs
    var touchYStart: Option<real>
    var touchYEnd: Option<real>

    // the environment the handlers act on
    var bodyOverflow: string
    var bodyWidth: string
    var windowListeners: set<M.WindowEvent>
    /** The `transitionend` listeners on the modal image, in registration order. */
    var armed: seq<M.EndHandler>
    /** Pending zero-delay timer callbacks, oldest first. */
    var timers: seq<M.EndHandler>
    /** Pending wheel microtasks. */
    var microtasks: nat
    /** Pending `zoomImg` loads. */
    var zoomImgLoads: nat
    var dialogOpen: bool
    /** Every value passed to `onZoomChange`, oldest first. */
    var reports: seq<bool>

    /** The object's state as a `ZoomModel` value. */
    ghost function Snap(): M.Snapshot
      reads this
    {
      M.Snapshot(props, mounted, hasDialog, hasModalImg, modalState, shouldRefresh,
                 isZoomImgLoaded, zoomImgLoads, prevBodyAttrs, M.BodyAttrs(bodyOverflow, bodyWidth),
                 touchYStart, touchYEnd, windowListeners, armed, timers, microtasks,
                 dialogOpen, reports)
    }

    /** The component as first rendered, on a body with the given style. */
    constructor (props: M.Props, hasDialog: bool, hasModalImg: bool, overflow: string, width: string)
      ensures Snap() == M.Initial(props, hasDialog, hasModalImg, M.BodyAttrs(overflow, width))
    {
      this.props := props;
      this.hasDialog := hasDialog;
      this.hasModalImg := hasModalImg;
      mounted := true;
      modalState := M.Unloaded;
      shouldRefresh := false;
      isZoomImgLoaded := false;
      prevBodyAttrs := M.DefaultBodyAttrs;
      touchYStart := None;
      touchYEnd := None;
      bodyOverflow := overflow;
      bodyWidth := width;
      windowListeners := {};
      armed := [];
      timers := [];
      microtasks := 0;
      zoomImgLoads := 0;
      dialogOpen := false;
      reports := [];
    }

    /** `setState({ modalState: m })`, dropped once unmounted. */
    method SetModalState(m: M.ModalState)
      modifies this
      ensures Snap() == M.WithModalState(old(Snap()), m)
    {
      if mounted {
        modalState := m;
      }
    }

    /** `refModalImg.current.addEventListener("transitionend", h, { once: true })`. */
    method AddTransitionEnd(h: M.EndHandler)
      modifies this
      ensures Snap() == M.Arm(old(Snap()), h)
    {
      if h !in armed {
        armed := armed + [h];
      }
    }

    // -------------------------------------------------------------------------
    // Body scroll lock

    method BodyScrollDisable(lockWidth: string)
      modifies this
      ensures Snap() == M.BodyScrollDisable(old(Snap()), lockWidth)
    {
      prevBodyAttrs := M.BodyAttrs(bodyOverflow, bodyWidth);
      bodyOverflow := "hidden";
      bodyWidth := lockWidth;
    }

    method BodyScrollEnable()
      modifies this
      ensures Snap() == M.BodyScrollEnable(old(Snap()))
    {
      bodyWidth := prevBodyAttrs.width;
      bodyOverflow := prevBodyAttrs.overflow;
      prevBodyAttrs := M.DefaultBodyAttrs;
    }

    // -------------------------------------------------------------------------
    // Zooming and unzooming

    method LoadZoomImg()
      modifies this
      ensures Snap() == M.LoadZoomImg(old(Snap()))
    {
      if props.zoomImgSrc != "" {
        zoomImgLoads := zoomImgLoads + 1;
      }
    }

    method Zoom(lockWidth: string)
      modifies this
      ensures Snap() == M.Zoom(old(Snap()), lockWidth)
      ensures mounted ==> modalState == M.Loading
      ensures windowListeners == old(windowListeners) + M.GestureEvents
    {
      BodyScrollDisable(lockWidth);
      if mounted && hasDialog {
        dialogOpen := true;
      }
      SetModalState(M.Loading);
      LoadZoomImg();
      windowListeners := windowListeners + M.GestureEvents;
      if mounted && hasModalImg {
        AddTransitionEnd(M.ZoomEnd);
      }
    }

    method HandleZoomEnd()
      modifies this
      ensures Snap() == M.HandleZoomEnd(old(Snap()))
    {
      timers := timers + [M.ZoomEnd];
    }

    /** The timer that `handleZoomEnd` scheduled. */
    method ZoomEndTimeout()
      modifies this
      ensures Snap() == M.ZoomEndTimeout(old(Snap()))
    {
      SetModalState(M.Loaded);
      windowListeners := windowListeners + {M.Resize};
    }

    method Unzoom()
      modifies this
      ensures Snap() == M.Unzoom(old(Snap()))
      ensures mounted ==> modalState == M.Unloading
      ensures windowListeners == old(windowListeners) - M.GestureEvents
    {
      SetModalState(M.Unloading);
      windowListeners := windowListeners - M.GestureEvents;
      if mounted && hasModalImg {
        AddTransitionEnd(M.UnzoomEnd);
      }
    }

    method HandleUnzoomEnd()
      modifies this
      ensures Snap() == M.HandleUnzoomEnd(old(Snap()))
    {
      timers := timers + [M.UnzoomEnd];
    }

    /** The timer that `handleUnzoomEnd` scheduled. */
    method UnzoomEndTimeout()
      modifies this
      ensures Snap() == M.UnzoomEndTimeout(old(Snap()))
    {
      windowListeners := windowListeners - {M.Resize};
      if mounted {
        shouldRefresh := false;
        modalState := M.Unloaded;
      }
      if mounted && hasDialog {
        dialogOpen := false;
      }
      BodyScrollEnable();
    }

    // -------------------------------------------------------------------------
    // Deferred work, each an explicit step

    /** Runs one `transitionend` handler. */
    method RunEndHandler(h: M.EndHandler)
      modifies this
      ensures Snap() == M.RunEndHandler(old(Snap()), h)
    {
      match h
      case ZoomEnd => HandleZoomEnd();
      case UnzoomEnd => HandleUnzoomEnd();
    }

    /** The modal image fires `transitionend`: each armed handler is removed, then run. */
    method FireTransitionEnd()
      modifies this
      ensures Snap() == M.FireTransitionEnd(old(Snap()))
    {
      var handlers := armed;
      armed := [];
      ghost var start := Snap();
      var i := 0;
      while i < |handlers|
        invariant 0 <= i <= |handlers|
        invariant Snap() == start.(timers := start.timers + handlers[..i])
      {
        RunEndHandler(handlers[i]);
        assert handlers[..i + 1] == handlers[..i] + [handlers[i]];
        i := i + 1;
      }
      assert handlers[..i] == handlers;
    }

    /** The oldest pending timer runs. */
    method RunNextTimer()
      modifies this
      ensures Snap() == M.RunNextTimer(old(Snap()))
    {
      if timers != [] {
        var callback := timers[0];
        timers := timers[1..];
        if callback == M.ZoomEnd {
          ZoomEndTimeout();
        } else {
          UnzoomEndTimeout();
        }
      }
    }

    /** The oldest pending wheel microtask runs. */
    method RunNextMicrotask()
      modifies this
      ensures Snap() == M.RunNextMicrotask(old(Snap()))
    {
      if microtasks > 0 {
        microtasks := microtasks - 1;
        HandleUnzoom();
      }
    }

    /** One pending `zoomImg` load completes. */
    method CompleteZoomImgLoad()
      modifies this
      ensures Snap() == M.ZoomImgLoadComplete(old(Snap()))
    {
      if zoomImgLoads > 0 {
        zoomImgLoads := zoomImgLoads - 1;
        if mounted {
          isZoomImgLoaded := true;
        }
      }
    }

    // -------------------------------------------------------------------------
    // Reports and event handlers

    method HandleZoom()
      modifies this
      ensures Snap() == M.HandleZoom(old(Snap()))
    {
      reports := reports + [true];
    }

    method HandleUnzoom()
      modifies this
      ensures Snap() == M.HandleUnzoom(old(Snap()))
    {
      reports := reports + [false];
    }

    method HandleWheel() returns (effect: M.EventEffect)
      modifies this
      ensures Snap() == M.HandleWheel(old(Snap()))
      ensures effect == M.WheelEffect()
    {
      effect := M.EventEffect(false, true);
      microtasks := microtasks + 1;
    }

    method HandleTouchStart(screenYs: seq<real>)
      modifies this
      ensures Snap() == M.HandleTouchStart(old(Snap()), screenYs)
    {
      if |screenYs| == 1 {
        touchYStart := Some(screenYs[0]);
      }
    }

    method HandleTouchMove(screenYs: seq<real>)
      modifies this
      ensures Snap() == M.HandleTouchMove(old(Snap()), screenYs)
    {
      if touchYStart.Some? && |screenYs| > 0 {
        touchYEnd := Some(screenYs[0]);
        var delta := M.TouchDelta(touchYStart.value, touchYEnd.value);
        if delta > M.SwipeThreshold && !props.disableModalCloseOnTouchMove {
          touchYStart := None;
          touchYEnd := None;
          HandleUnzoom();
        }
      }
    }

    method HandleTouchCancel()
      modifies this
      ensures Snap() == M.HandleTouchCancel(old(Snap()))
    {
      touchYStart := None;
      touchYEnd := None;
    }

    method HandleResize()
      modifies this
      ensures Snap() == M.HandleResize(old(Snap()))
    {
      if mounted {
        shouldRefresh := true;
      }
    }

    method HandleDialogClick(target: M.ClickTarget)
      modifies this
      ensures Snap() == M.HandleDialogClick(old(Snap()), target)
    {
      if target == M.ModalContent || target == M.ModalImg {
        HandleUnzoom();
      }
    }

    method HandleDialogKeyDown(key: string, keyCode: int) returns (effect: M.EventEffect)
      modifies this
      ensures Snap() == M.HandleDialogKeyDown(old(Snap()), key, keyCode)
      ensures effect == M.DialogKeyDownEffect(key, keyCode)
    {
      effect := M.EventEffect(false, false);
      if key == "Escape" || keyCode == M.EscapeKeyCode {
        effect := M.EventEffect(true, true);
        HandleUnzoom();
      }
    }

    /** `handleDialogCancel` changes no state; it only prevents the cancel event's default. */
    method HandleDialogCancel() returns (effect: M.EventEffect)
      ensures effect == M.DialogCancelEffect()
    {
      effect := M.EventEffect(true, false);
    }

    // -------------------------------------------------------------------------
    // Lifecycle

    method HandleIfZoomChanged(prevIsZoomed: bool, lockWidth: string)
      modifies this
      ensures Snap() == M.HandleIfZoomChanged(old(Snap()), prevIsZoomed, lockWidth)
    {
      if !prevIsZoomed && props.isZoomed {
        Zoom(lockWidth);
      } else if prevIsZoomed && !props.isZoomed {
        Unzoom();
      }
    }

    /** React commits `next` as the props, then runs `componentDidUpdate(prevProps)`. */
    method ComponentDidUpdate(next: M.Props, lockWidth: string)
      modifies this
      ensures Snap() == M.ComponentDidUpdate(old(Snap()), next, lockWidth)
    {
      var prevProps := props;
      props := next;
      HandleIfZoomChanged(prevProps.isZoomed, lockWidth);
    }

    /** `componentWillUnmount`, after which React detaches the component. */
    method ComponentWillUnmount()
      modifies this
      ensures Snap() == M.ComponentWillUnmount(old(Snap()))
      ensures windowListeners == {} && armed == []
    {
      if modalState != M.Unloaded {
        BodyScrollEnable();
      }
      armed := [];
      windowListeners := windowListeners - M.AllWindowEvents;
      M.EveryWindowEventIsKnown(old(windowListeners));
      mounted := false;
    }
  }
}
