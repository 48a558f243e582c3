/** The window manager of `src/windows/manager.ts`: bring to front,
 *  maximize/restore, dragging with animation-frame batching and momentum,
 *  edge resizing and the cursor hint. The module's `let` variables are the
 *  fields of `Manager`, grouped into one record per concern (drag, resize,
 *  animation frame), and `activeWindows` with the parts of each element the
 *  manager writes is its `windows` map. The pointer, the layout
 *  rectangles, the clock, the viewport width and the reduced-motion setting
 *  are parameters. A scheduled animation frame and the 50ms cursor
 *  throttle are flags that `AnimationFrame` and `ThrottleExpired` clear.
 *
 *  Every method is first a function on a `Snapshot` of the fields; the
 *  method changes the fields to match it. */
module WindowManager {
  import opened Wrappers
  import opened WindowGeometry
  import State

  /** A pointer event with its coordinates already taken from the mouse or
   *  from the first touch. */
  datatype Pointer = Pointer(x: real, y: real, touch: bool)

  /** Which callback the pending `requestAnimationFrame` runs. */
  datatype FrameKind = MoveFrame | ResizeFrame

  /** The drag variables: `isDragging`, `dragOffset`, `dragId` and the
   *  velocity tracking. */
  datatype Drag = Drag(
    isDragging: bool, dragOffset: Point, dragId: Option<string>,
    dragVelocity: Point, lastDragPos: Point, lastDragTime: real)

  /** The resize variables; `resizeWin` names the window by its id. */
  datatype Resize = Resize(
    resizeDir: Option<string>, isResizing: bool, resizeWin: Option<string>,
    startResizeRect: Option<Rect>, startResizePos: Option<Point>)

  /** The animation-frame batching: whether a frame is scheduled and for
   *  which callback, and the pointer positions waiting for it. */
  datatype Batch = Batch(frame: Option<FrameKind>, pendingMove: Option<Point>, pendingResize: Option<Point>)

  /** The module's state; `cursorThrottled` is `cursorThrottleId != null`. */
  datatype Snapshot = Snapshot(windows: map<string, Win>, drag: Drag, resize: Resize, batch: Batch, cursorThrottled: bool)

  /** The minimum size of the resize handler. */
  const MinWidth: real := 400.0
  const MinHeight: real := 200.0

  /** A window as `openWindow` registers it: not maximized, nothing saved. */
  predicate Fresh(w: Win)
  {
    !w.maximized && w.prevRect.None?
  }

  /** Every maximized window has a saved style to go back to. */
  predicate SavedWhenMaximized(ws: map<string, Win>)
  {
    forall id :: id in ws ==> ws[id].maximized ==> ws[id].prevRect.Some?
  }

  /** The state the handlers keep: the drag flag and the dragged id are set
   *  and cleared together, and maximized windows have a saved style. */
  predicate Valid(m: Snapshot)
  {
    SavedWhenMaximized(m.windows) && (m.drag.isDragging <==> m.drag.dragId.Some?)
  }

  // ---------------------------------------------------------------------------
  // The handlers as functions

  /** Every window without the `active-window` class. */
  function Deactivated(ws: map<string, Win>): (r: map<string, Win>)
    ensures r.Keys == ws.Keys
  {
    map k | k in ws :: ws[k].(active := false)
  }

  /** `bringToFront` on the windows: `z` on the window, the
   *  `active-window` class taken from every window and given to it. */
  function Front(ws: map<string, Win>, id: string, z: int): (r: map<string, Win>)
    requires id in ws
    ensures r.Keys == ws.Keys
  {
    var d := Deactivated(ws[id := ws[id].(zIndex := z)]);
    d[id := d[id].(active := true)]
  }

  function Fronted(m: Snapshot, id: string, z: int): Snapshot
  {
    if id in m.windows then m.(windows := Front(m.windows, id, z)) else m
  }

  /** `toggleMaximize(id)`; `mobile` is `window.innerWidth < 768`. */
  function ToggledIn(m: Snapshot, id: string, mobile: bool): (r: Snapshot)
    ensures r.windows.Keys == m.windows.Keys
  {
    if id in m.windows then m.(windows := m.windows[id := Toggled(m.windows[id], mobile)]) else m
  }

  /** Whether `startDrag` goes ahead: not on a maximized window, and, for the
   *  mouse, not in the 10px strip at the top that belongs to resizing. */
  predicate DragBegins(w: Win, p: Pointer, rect: Rect)
  {
    !w.maximized && (p.touch || p.y - rect.top >= Border)
  }

  /** The drag state `startDrag` sets up before it brings the window to
   *  front: `rect` is the window's bounding box and `now` the clock. */
  function DragArmed(m: Snapshot, id: string, p: Pointer, rect: Rect, now: real): Snapshot
    requires id in m.windows
  {
    m.(drag := Drag(true, Point(p.x - rect.left, p.y - rect.top), Some(id), Point(0.0, 0.0), Point(p.x, p.y), now),
       windows := m.windows[id := m.windows[id].(dragging := true)])
  }

  /** `startDrag`; `z` is the value `incrementZIndex` returns. */
  function DragStarted(m: Snapshot, id: string, p: Pointer, rect: Rect, now: real, z: int): Snapshot
    requires id in m.windows
  {
    if !DragBegins(m.windows[id], p, rect) then m
    else Fronted(DragArmed(m, id, p, rect, now), id, z)
  }

  /** `handleMove`: the velocity since the last event, when time has
   *  passed, and the pointer kept for the next frame, which is scheduled
   *  unless one already is. */
  function Moved(m: Snapshot, p: Point, now: real): Snapshot
  {
    var d := m.drag;
    if !d.isDragging || d.dragId.None? then m
    else
      var dt := now - d.lastDragTime;
      var v := if dt > 0.0 then Point((p.x - d.lastDragPos.x) / dt, (p.y - d.lastDragPos.y) / dt) else d.dragVelocity;
      m.(drag := d.(dragVelocity := v, lastDragPos := p, lastDragTime := now),
         batch := m.batch.(pendingMove := Some(p), frame := if m.batch.frame.Some? then m.batch.frame else Some(MoveFrame)))
  }

  /** `handleResize`: the pointer kept for the next frame, which is
   *  scheduled unless one already is. */
  function ResizeMoved(m: Snapshot, p: Point): Snapshot
  {
    var r := m.resize;
    if !r.isResizing || r.resizeWin.None? || r.startResizeRect.None? || r.startResizePos.None? then m
    else m.(batch := m.batch.(pendingResize := Some(p), frame := if m.batch.frame.Some? then m.batch.frame else Some(ResizeFrame)))
  }

  /** The `mousemove` listener: the drag first, otherwise the resize. */
  function MouseMoved(m: Snapshot, p: Point, now: real): Snapshot
  {
    if m.drag.isDragging then Moved(m, p, now)
    else if m.resize.isResizing then ResizeMoved(m, p)
    else m
  }

  /** The windows after the drag callback of a frame; `container` is the
   *  bounding box of the dragged window's offset parent. */
  function DragDrawn(ws: map<string, Win>, d: Drag, pending: Option<Point>, container: Rect): map<string, Win>
  {
    if pending.Some? && d.dragId.Some? && d.dragId.value in ws then
      var w := ws[d.dragId.value];
      ws[d.dragId.value := w.(style := Dragged(w.style, pending.value, d.dragOffset, container))]
    else ws
  }

  /** The windows after the resize callback of a frame. */
  function ResizeDrawn(ws: map<string, Win>, r: Resize, pending: Option<Point>): map<string, Win>
  {
    if pending.Some? && r.resizeWin.Some? && r.resizeWin.value in ws
       && r.startResizeRect.Some? && r.startResizePos.Some? && r.resizeDir.Some? then
      var w := ws[r.resizeWin.value];
      ws[r.resizeWin.value := w.(style := Resized(w.style, r.startResizeRect.value,
        r.startResizePos.value, pending.value, r.resizeDir.value, MinWidth, MinHeight))]
    else ws
  }

  /** The scheduled animation frame runs the callback it was scheduled
   *  with. */
  function FrameRan(m: Snapshot, container: Rect): Snapshot
  {
    match m.batch.frame
    case None => m
    case Some(MoveFrame) =>
      m.(windows := DragDrawn(m.windows, m.drag, m.batch.pendingMove, container),
         batch := m.batch.(frame := None, pendingMove := None))
    case Some(ResizeFrame) =>
      m.(windows := ResizeDrawn(m.windows, m.resize, m.batch.pendingResize),
         batch := m.batch.(frame := None, pendingResize := None))
  }

  /** The windows after `handleEnd`: the dragged window loses `dragging`
   *  and is thrown by `applyMomentum` (`offset` is its offset box,
   *  `container` its offset parent's box). */
  function Thrown(ws: map<string, Win>, d: Drag, reducedMotion: bool, offset: Rect, container: Rect): map<string, Win>
  {
    if d.isDragging && d.dragId.Some? && d.dragId.value in ws then
      var w := ws[d.dragId.value].(dragging := false);
      var target := Momentum(d.dragVelocity, reducedMotion, offset, container);
      ws[d.dragId.value :=
        if target.Some? then w.(style := w.style.(left := Px(target.value.x), top := Px(target.value.y))) else w]
    else ws
  }

  /** `handleEnd`: the window thrown, the drag state reset and any frame
   *  cancelled. */
  function Ended(m: Snapshot, reducedMotion: bool, offset: Rect, container: Rect): Snapshot
  {
    m.(windows := Thrown(m.windows, m.drag, reducedMotion, offset, container),
       drag := m.drag.(isDragging := false, dragId := None, dragVelocity := Point(0.0, 0.0)),
       batch := Batch(None, None, None))
  }

  /** The `mouseup` listener: `handleEnd`, then the resize ends. The
   *  direction and the start rectangle and position are left as they are. */
  function MouseUp(m: Snapshot, reducedMotion: bool, offset: Rect, container: Rect): Snapshot
  {
    var e := Ended(m, reducedMotion, offset, container);
    var r := e.resize;
    var ws :=
      if r.isResizing && r.resizeWin.Some? && r.resizeWin.value in e.windows then
        e.windows[r.resizeWin.value := e.windows[r.resizeWin.value].(resizing := false)]
      else e.windows;
    e.(windows := ws, resize := r.(isResizing := false, resizeWin := None))
  }

  /** `updateWindowCursor` over the window `id` with bounding box `rect`. */
  function CursorUpdated(m: Snapshot, id: string, p: Point, rect: Rect): Snapshot
  {
    if m.resize.isResizing || m.drag.isDragging || m.cursorThrottled then m
    else
      var ws :=
        if id in m.windows then
          m.windows[id := m.windows[id].(cursor := Cursor(p.x - rect.left, p.y - rect.top, rect.width, rect.height))]
        else m.windows;
      m.(windows := ws, cursorThrottled := true)
  }

  /** `handleResizeStart` on window `id` with bounding box `rect` and offset
   *  box `offset`. */
  function ResizeStarted(m: Snapshot, id: string, p: Point, rect: Rect, offset: Rect): Snapshot
    requires id in m.windows
  {
    var dir := ResizeDir(p.x - rect.left, p.y - rect.top, rect.width, rect.height);
    if dir == "" || m.windows[id].maximized then m
    else
      m.(resize := Resize(Some(dir), true, Some(id), Some(offset), Some(p)),
         windows := m.windows[id := m.windows[id].(resizing := true)])
  }

  // ---------------------------------------------------------------------------
  // The module state

  /** The module's variables, grouped as the source groups them: the
   *  windows, the drag state, the resize state, the animation-frame state
   *  and the cursor throttle. */
  class Manager {
    var windows: map<string, Win>
    var drag: Drag
    var resize: Resize
    var batch: Batch
    var cursorThrottled: bool

    function Snap(): Snapshot
      reads this
    {
      Snapshot(windows, drag, resize, batch, cursorThrottled)
    }

    /** The initial values of the module's variables. */
    constructor ()
      ensures Snap() == Snapshot(map[], Drag(false, Point(0.0, 0.0), None, Point(0.0, 0.0), Point(0.0, 0.0), 0.0),
        Resize(None, false, None, None, None), Batch(None, None, None), false)
      ensures Valid(Snap())
    {
      windows := map[];
      drag := Drag(false, Point(0.0, 0.0), None, Point(0.0, 0.0), Point(0.0, 0.0), 0.0);
      resize := Resize(None, false, None, None, None);
      batch := Batch(None, None, None);
      cursorThrottled := false;
    }

    /** `activeWindows[id] = {…, maximized: false, prevRect: null}` when
     *  `openWindow` creates a window. */
    method Register(id: string, w: Win)
      requires Fresh(w)
      modifies this`windows
      ensures windows == old(windows)[id := w]
      ensures Valid(old(Snap())) ==> Valid(Snap())
    {
      windows := windows[id := w];
    }

    /** The `querySelectorAll('.window').forEach` loop. */
    static method DeactivateAll(ws: map<string, Win>) returns (r: map<string, Win>)
      ensures r == Deactivated(ws)
    {
      r := ws;
      var rest := ws.Keys;
      while rest != {}
        invariant rest <= ws.Keys && r.Keys == ws.Keys
        invariant forall k :: k in r ==> r[k] == if k in rest then ws[k] else ws[k].(active := false)
        decreases rest
      {
        var k :| k in rest;
        r := r[k := r[k].(active := false)];
        rest := rest - {k};
      }
    }

    /** `bringToFront(id)`: the window gets the next z-index; every window
     *  loses `active-window` and this one gets it back. */
    method BringToFront(app: State.AppState, id: string)
      modifies this`windows, app`zIndexCounter
      ensures id in old(windows) ==> windows == Front(old(windows), id, app.zIndexCounter)
      ensures id !in old(windows) ==> windows == old(windows)
      ensures app.zIndexCounter == old(app.zIndexCounter) + (if id in old(windows) then 1 else 0)
    {
      if id in windows {
        var z := app.IncrementZIndex();
        windows := windows[id := windows[id].(zIndex := z)];
        windows := DeactivateAll(windows);
        windows := windows[id := windows[id].(active := true)];
      }
    }

    method ToggleMaximize(id: string, mobile: bool)
      modifies this`windows
      ensures Snap() == ToggledIn(old(Snap()), id, mobile)
    {
      if id in windows {
        var w := windows[id];
        if !w.maximized {
          w := w.(prevRect := Some(w.style));
          w := w.(style := MaximizedStyle(mobile));
          w := w.(maximized := true);
        } else {
          var prev := w.prevRect;
          if prev.Some? {
            w := w.(style := prev.value);
          }
          w := w.(maximized := false);
        }
        windows := windows[id := w];
      }
    }

    /** `startDrag(e, id)`; the window must be open, as the source reads
     *  `activeWindows[id]` unguarded. */
    method StartDrag(app: State.AppState, id: string, p: Pointer, rect: Rect, now: real)
      requires id in windows
      modifies this`windows, this`drag, app`zIndexCounter
      ensures Snap() == DragStarted(old(Snap()), id, p, rect, now, app.zIndexCounter)
      ensures app.zIndexCounter == old(app.zIndexCounter) + (if DragBegins(old(windows)[id], p, rect) then 1 else 0)
    {
      // a maximized window does not move, and a mouse press in the top
      // strip is left to the resize handler
      if !windows[id].maximized && (p.touch || p.y - rect.top >= Border) {
        drag := drag.(isDragging := true, dragId := Some(id));
        drag := drag.(dragOffset := Point(p.x - rect.left, p.y - rect.top));
        drag := drag.(dragVelocity := Point(0.0, 0.0), lastDragPos := Point(p.x, p.y), lastDragTime := now);
        windows := windows[id := windows[id].(dragging := true)];
        BringToFront(app, id);
      }
    }

    method HandleMove(p: Point, now: real)
      modifies this`drag, this`batch
      ensures Snap() == Moved(old(Snap()), p, now)
    {
      if drag.isDragging && drag.dragId.Some? {
        var dt := now - drag.lastDragTime;
        if dt > 0.0 {
          drag := drag.(dragVelocity := Point((p.x - drag.lastDragPos.x) / dt, (p.y - drag.lastDragPos.y) / dt));
        }
        drag := drag.(lastDragPos := p, lastDragTime := now);
        batch := batch.(pendingMove := Some(p));
        if batch.frame.None? {
          batch := batch.(frame := Some(MoveFrame));
        }
      }
    }

    method HandleResize(p: Point)
      modifies this`batch
      ensures Snap() == ResizeMoved(old(Snap()), p)
    {
      if resize.isResizing && resize.resizeWin.Some? && resize.startResizeRect.Some? && resize.startResizePos.Some? {
        batch := batch.(pendingResize := Some(p));
        if batch.frame.None? {
          batch := batch.(frame := Some(ResizeFrame));
        }
      }
    }

    method MouseMove(p: Point, now: real)
      modifies this`drag, this`batch
      ensures Snap() == MouseMoved(old(Snap()), p, now)
    {
      if drag.isDragging {
        HandleMove(p, now);
      } else if resize.isResizing {
        HandleResize(p);
      }
    }

    /** The browser runs the scheduled frame callback. */
    method AnimationFrame(container: Rect)
      modifies this`windows, this`batch
      ensures Snap() == FrameRan(old(Snap()), container)
    {
      if batch.frame == Some(MoveFrame) {
        var id := drag.dragId;
        if batch.pendingMove.Some? && id.Some? && id.value in windows {
          var w := windows[id.value];
          var newX := batch.pendingMove.value.x - drag.dragOffset.x - container.left;
          var newY := batch.pendingMove.value.y - drag.dragOffset.y - container.top;
          // keep the header reachable
          if newY < 0.0 {
            newY := 0.0;
          }
          windows := windows[id.value := w.(style := w.style.(left := Px(newX), top := Px(newY)))];
        }
        batch := batch.(frame := None, pendingMove := None);
      } else if batch.frame == Some(ResizeFrame) {
        var r := resize;
        if batch.pendingResize.Some? && r.resizeWin.Some? && r.resizeWin.value in windows
           && r.startResizeRect.Some? && r.startResizePos.Some? && r.resizeDir.Some? {
          var w := windows[r.resizeWin.value];
          var s := Resized(w.style, r.startResizeRect.value, r.startResizePos.value, batch.pendingResize.value,
            r.resizeDir.value, MinWidth, MinHeight);
          windows := windows[r.resizeWin.value := w.(style := s)];
        }
        batch := batch.(frame := None, pendingResize := None);
      }
    }

    method HandleEnd(reducedMotion: bool, offset: Rect, container: Rect)
      modifies this`windows, this`drag, this`batch
      ensures Snap() == Ended(old(Snap()), reducedMotion, offset, container)
    {
      var id := drag.dragId;
      if drag.isDragging && id.Some? && id.value in windows {
        var w := windows[id.value].(dragging := false);
        var target := Momentum(drag.dragVelocity, reducedMotion, offset, container);
        if target.Some? {
          w := w.(style := w.style.(left := Px(target.value.x), top := Px(target.value.y)));
        }
        windows := windows[id.value := w];
      }
      drag := drag.(isDragging := false, dragId := None, dragVelocity := Point(0.0, 0.0));
      // cancel any pending frame
      batch := Batch(None, None, None);
    }

    method HandleMouseUp(reducedMotion: bool, offset: Rect, container: Rect)
      modifies this`windows, this`drag, this`batch, this`resize
      ensures Snap() == MouseUp(old(Snap()), reducedMotion, offset, container)
    {
      HandleEnd(reducedMotion, offset, container);
      var id := resize.resizeWin;
      if resize.isResizing && id.Some? && id.value in windows {
        windows := windows[id.value := windows[id.value].(resizing := false)];
      }
      resize := resize.(isResizing := false, resizeWin := None);
    }

    method UpdateWindowCursor(id: string, p: Point, rect: Rect)
      modifies this`windows, this`cursorThrottled
      ensures Snap() == CursorUpdated(old(Snap()), id, p, rect)
    {
      if !resize.isResizing && !drag.isDragging && !cursorThrottled {
        cursorThrottled := true;
        if id in windows {
          windows := windows[id := windows[id].(cursor := Cursor(p.x - rect.left, p.y - rect.top, rect.width, rect.height))];
        }
      }
    }

    /** The 50ms throttle timer fires. */
    method ThrottleExpired()
      modifies this`cursorThrottled
      ensures !cursorThrottled
    {
      cursorThrottled := false;
    }

    /** `handleResizeStart(e, win, id)` for an open window. */
    method HandleResizeStart(id: string, p: Point, rect: Rect, offset: Rect)
      requires id in windows
      modifies this`windows, this`resize
      ensures Snap() == ResizeStarted(old(Snap()), id, p, rect, offset)
    {
      var dir := ResizeDir(p.x - rect.left, p.y - rect.top, rect.width, rect.height);
      if dir != "" && !windows[id].maximized {
        resize := resize.(isResizing := true, resizeWin := Some(id), resizeDir := Some(dir));
        windows := windows[id := windows[id].(resizing := true)];
        resize := resize.(startResizeRect := Some(offset), startResizePos := Some(p));
      }
    }
  }

  // ---------------------------------------------------------------------------
  // Properties

  /** When no window is above the counter `c`, the window brought to front
   *  with the next value is strictly above every other, and it alone is
   *  active. */
  lemma FrontIsOnTop(ws: map<string, Win>, id: string, c: int)
    requires id in ws
    requires forall k :: k in ws ==> ws[k].zIndex <= c
    ensures var r := Front(ws, id, c + 1);
      id in r && r[id].zIndex == c + 1
      && (forall k :: k in r ==> r[k].zIndex <= c + 1 && (k != id ==> r[k].zIndex < r[id].zIndex))
      && (forall k :: k in r ==> (r[k].active <==> k == id))
  {
  }

  /** A maximized window starts neither a drag nor a resize. */
  lemma MaximizedStaysPut(m: Snapshot, id: string, p: Pointer, rect: Rect, offset: Rect, now: real, z: int)
    requires id in m.windows && m.windows[id].maximized
    ensures DragStarted(m, id, p, rect, now, z) == m
    ensures ResizeStarted(m, id, Point(p.x, p.y), rect, offset) == m
  {
  }

  /** Bringing to front, maximizing and restoring keep the state valid. */
  lemma FrontAndToggleKeepValid(m: Snapshot, id: string, z: int, mobile: bool)
    requires Valid(m)
    ensures Valid(Fronted(m, id, z)) && Valid(ToggledIn(m, id, mobile))
  {
    var t := ToggledIn(m, id, mobile);
    forall k | k in t.windows && t.windows[k].maximized
      ensures t.windows[k].prevRect.Some?
    {
      if k == id {
        assert t.windows[k] == Toggled(m.windows[id], mobile);
      }
    }
  }

  /** Starting a drag or a resize keeps the state valid. */
  lemma StartsKeepValid(m: Snapshot, id: string, p: Pointer, rect: Rect, offset: Rect, now: real, z: int)
    requires Valid(m) && id in m.windows
    ensures Valid(DragStarted(m, id, p, rect, now, z))
    ensures Valid(ResizeStarted(m, id, Point(p.x, p.y), rect, offset))
  {
  }

  /** Moving, the frame, releasing and the cursor hint keep the state
   *  valid. */
  lemma EventsKeepValid(m: Snapshot, id: string, p: Point, rect: Rect, offset: Rect, container: Rect,
                        now: real, reducedMotion: bool)
    requires Valid(m)
    ensures Valid(MouseMoved(m, p, now)) && Valid(FrameRan(m, container))
    ensures Valid(MouseUp(m, reducedMotion, offset, container)) && Valid(CursorUpdated(m, id, p, rect))
  {
  }

  /** A drag frame never puts the window's top above its container. */
  lemma DragKeepsHeaderReachable(m: Snapshot, container: Rect)
    requires m.batch.frame == Some(MoveFrame) && m.batch.pendingMove.Some? && m.drag.dragId.Some? && m.drag.dragId.value in m.windows
    ensures var w := FrameRan(m, container).windows[m.drag.dragId.value];
      w.style.top.Px? && w.style.top.v >= 0.0
  {
  }

  /** Only the latest pointer position of a drag reaches the screen: two
   *  moves before a frame draw exactly what the second alone would. */
  lemma LatestMoveWins(m: Snapshot, p1: Point, t1: real, p2: Point, t2: real, container: Rect)
    requires m.drag.isDragging
    ensures FrameRan(MouseMoved(MouseMoved(m, p1, t1), p2, t2), container).windows
         == FrameRan(MouseMoved(m, p2, t2), container).windows
  {
  }

  /** A resize frame depends only on the rectangle and pointer captured at
   *  the start and the latest pointer: the window's size is never below
   *  400 by 200 along a dragged edge, and a west or north edge moves
   *  while the opposite one stays. */
  lemma ResizeFromStart(m: Snapshot, p1: Point, p2: Point, now: real, container: Rect)
    requires !m.drag.isDragging && m.batch.frame.None?
    requires m.resize.isResizing && m.resize.resizeWin.Some? && m.resize.resizeWin.value in m.windows
    requires m.resize.startResizeRect.Some? && m.resize.startResizePos.Some? && m.resize.resizeDir.Some?
    ensures var r := m.resize;
      var id, dir, start := r.resizeWin.value, r.resizeDir.value, r.startResizeRect.value;
      var s := FrameRan(MouseMoved(MouseMoved(m, p1, now), p2, now), container).windows[id].style;
      s == Resized(m.windows[id].style, start, r.startResizePos.value, p2, dir, MinWidth, MinHeight)
      && (('e' in dir || 'w' in dir) ==> s.width.Px? && s.width.v >= MinWidth)
      && (('s' in dir || 'n' in dir) ==> s.height.Px? && s.height.v >= MinHeight)
      && ('w' in dir ==> s.left.Px? && s.left.v + s.width.v == start.left + start.width)
      && ('n' in dir ==> s.top.Px? && s.top.v + s.height.v == start.top + start.height)
  {
  }

  /** Releasing a drag ends it and cancels the pending frame: nothing of
   *  the drag is left to draw. */
  lemma ReleaseCancels(m: Snapshot, reducedMotion: bool, offset: Rect, container: Rect)
    ensures var r := MouseUp(m, reducedMotion, offset, container);
      !r.drag.isDragging && !r.resize.isResizing && r.batch == Batch(None, None, None)
      && FrameRan(r, container) == r
  {
  }

  /** The cursor hint is not touched while a drag or resize is under way,
   *  nor twice within the throttle. */
  lemma CursorQuietWhileBusy(m: Snapshot, id: string, p1: Point, r1: Rect, p2: Point, r2: Rect)
    ensures (m.drag.isDragging || m.resize.isResizing) ==> CursorUpdated(m, id, p1, r1) == m
    ensures var once := CursorUpdated(m, id, p1, r1); CursorUpdated(once, id, p2, r2) == once
  {
  }

  /** A window maximized and restored (with any viewport widths) gets its
   *  style back. */
  lemma MaximizeRoundTrip(m: Snapshot, id: string, mobile1: bool, mobile2: bool)
    requires id in m.windows && !m.windows[id].maximized
    ensures var r := ToggledIn(ToggledIn(m, id, mobile1), id, mobile2);
      r.windows == m.windows[id := m.windows[id].(prevRect := Some(m.windows[id].style))]
  {
    ToggleTwice(m.windows[id], mobile1, mobile2);
  }
}
