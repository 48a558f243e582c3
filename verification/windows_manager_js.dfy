/** The older JavaScript window manager `src/windows/manager.js`. It has no
 *  animation-frame batching, no momentum and no cursor throttle; the drag
 *  and the resize each have their own `mousemove` and `mouseup` listener,
 *  and the resize minimum is 300px wide. Three reads are unguarded: the
 *  saved style on restore, and the dragged window in `handleMove` and
 *  `handleEnd`. A handler that throws there has changed nothing yet; it is
 *  a `None` result here, and the browser still runs the next listener. */
module WindowManagerJs {
  import opened Wrappers
  import opened WindowGeometry
  import WindowManager
  import State

  /** The drag variables of this version. */
  datatype Drag = Drag(isDragging: bool, dragOffset: Point, dragId: Option<string>)

  /** The module's state; the resize variables are those of `manager.ts`. */
  datatype Snapshot = Snapshot(windows: map<string, Win>, drag: Drag, resize: WindowManager.Resize)

  const MinWidth: real := 300.0
  const MinHeight: real := 200.0

  /** The handlers never leave a half-set state behind: the drag flag and
   *  id go together, a resize target comes with its start rectangle,
   *  position and direction, and every maximized window has a saved
   *  style. */
  predicate Valid(m: Snapshot)
  {
    WindowManager.SavedWhenMaximized(m.windows)
    && (m.drag.isDragging <==> m.drag.dragId.Some?)
    && (m.resize.resizeWin.Some? ==>
          m.resize.startResizeRect.Some? && m.resize.startResizePos.Some? && m.resize.resizeDir.Some?)
  }

  // ---------------------------------------------------------------------------
  // The handlers as functions

  /** `toggleMaximize(id)`; restoring reads `prev.left` with no check, so a
   *  window maximized without a saved style throws. */
  function Toggle(m: Snapshot, id: string, mobile: bool): (r: Option<Snapshot>)
    ensures r.None? <==> id in m.windows && m.windows[id].maximized && m.windows[id].prevRect.None?
  {
    if id !in m.windows then Some(m)
    else
      var w := m.windows[id];
      if !w.maximized then Some(m.(windows := m.windows[id := Toggled(w, mobile)]))
      else if w.prevRect.None? then None
      else Some(m.(windows := m.windows[id := w.(style := w.prevRect.value, maximized := false)]))
  }

  /** `startDrag(e, id)`: as in `manager.ts`, without the velocity
   *  tracking; `z` is the value `incrementZIndex` returns. */
  function DragStarted(m: Snapshot, id: string, p: WindowManager.Pointer, rect: Rect, z: int): Snapshot
    requires id in m.windows
  {
    if !WindowManager.DragBegins(m.windows[id], p, rect) then m
    else
      var ws := m.windows[id := m.windows[id].(dragging := true)];
      m.(drag := Drag(true, Point(p.x - rect.left, p.y - rect.top), Some(id)),
         windows := WindowManager.Front(ws, id, z))
  }

  /** `handleMove(e)`: the window moves at once; it throws when the dragged
   *  id is no longer open. */
  function Moved(m: Snapshot, p: Point, container: Rect): (r: Option<Snapshot>)
    ensures r.None? <==> m.drag.isDragging && m.drag.dragId.Some? && m.drag.dragId.value !in m.windows
  {
    if !m.drag.isDragging || m.drag.dragId.None? then Some(m)
    else if m.drag.dragId.value !in m.windows then None
    else
      var id := m.drag.dragId.value;
      var w := m.windows[id];
      Some(m.(windows := m.windows[id := w.(style := Dragged(w.style, p, m.drag.dragOffset, container))]))
  }

  /** `handleEnd()`: throws, before clearing anything, when the dragged id
   *  is no longer open. */
  function Ended(m: Snapshot): (r: Option<Snapshot>)
    ensures r.None? <==> m.drag.isDragging && m.drag.dragId.Some? && m.drag.dragId.value !in m.windows
  {
    if m.drag.isDragging && m.drag.dragId.Some? then
      var id := m.drag.dragId.value;
      if id !in m.windows then None
      else Some(m.(windows := m.windows[id := m.windows[id].(dragging := false)], drag := m.drag.(isDragging := false, dragId := None)))
    else Some(m.(drag := m.drag.(isDragging := false, dragId := None)))
  }

  /** The resize `mousemove` listener. It reads the start position and the
   *  direction with no check. */
  function ResizeListener(m: Snapshot, p: Point): (r: Option<Snapshot>)
  {
    var rs := m.resize;
    if !rs.isResizing || rs.resizeWin.None? then Some(m)
    else if rs.startResizePos.None? || rs.startResizeRect.None? || rs.resizeDir.None? then None
    else if rs.resizeWin.value !in m.windows then Some(m)
    else
      var id := rs.resizeWin.value;
      var w := m.windows[id];
      Some(m.(windows := m.windows[id := w.(style := Resized(w.style, rs.startResizeRect.value,
        rs.startResizePos.value, p, rs.resizeDir.value, MinWidth, MinHeight))]))
  }

  /** A `mousemove`: the drag listener, then the resize listener, each
   *  leaving the state as it was when it throws. */
  function MouseMoved(m: Snapshot, p: Point, container: Rect): Snapshot
  {
    var a := Moved(m, p, container).GetOr(m);
    ResizeListener(a, p).GetOr(a)
  }

  /** A `mouseup`: `handleEnd`, then the resize listener. */
  function Released(m: Snapshot): Snapshot
  {
    var e := Ended(m).GetOr(m);
    var rs := e.resize;
    var ws :=
      if rs.isResizing && rs.resizeWin.Some? && rs.resizeWin.value in e.windows then
        e.windows[rs.resizeWin.value := e.windows[rs.resizeWin.value].(resizing := false)]
      else e.windows;
    e.(windows := ws, resize := rs.(isResizing := false, resizeWin := None))
  }

  /** `updateWindowCursor`: skipped only while resizing. */
  function CursorUpdated(m: Snapshot, id: string, p: Point, rect: Rect): Snapshot
  {
    if m.resize.isResizing || id !in m.windows then m
    else m.(windows := m.windows[id := m.windows[id].(cursor := Cursor(p.x - rect.left, p.y - rect.top, rect.width, rect.height))])
  }

  /** `handleResizeStart`: as in `manager.ts`. */
  function ResizeStarted(m: Snapshot, id: string, p: Point, rect: Rect, offset: Rect): Snapshot
    requires id in m.windows
  {
    var dir := ResizeDir(p.x - rect.left, p.y - rect.top, rect.width, rect.height);
    if dir == "" || m.windows[id].maximized then m
    else
      m.(resize := WindowManager.Resize(Some(dir), true, Some(id), Some(offset), Some(p)),
         windows := m.windows[id := m.windows[id].(resizing := true)])
  }

  // ---------------------------------------------------------------------------
  // The module state

  class ManagerJs {
    var windows: map<string, Win>
    var drag: Drag
    var resize: WindowManager.Resize

    function Snap(): Snapshot
      reads this
    {
      Snapshot(windows, drag, resize)
    }

    constructor ()
      ensures Snap() == Snapshot(map[], Drag(false, Point(0.0, 0.0), None), WindowManager.Resize(None, false, None, None, None))
      ensures Valid(Snap())
    {
      windows := map[];
      drag := Drag(false, Point(0.0, 0.0), None);
      resize := WindowManager.Resize(None, false, None, None, None);
    }

    /** A window registered by `openWindow`. */
    method Register(id: string, w: Win)
      requires WindowManager.Fresh(w)
      modifies this`windows
      ensures windows == old(windows)[id := w]
      ensures Valid(old(Snap())) ==> Valid(Snap())
    {
      windows := windows[id := w];
    }

    /** `bringToFront(id)`, the same as in `manager.ts`. */
    method BringToFront(app: State.AppState, id: string)
      modifies this`windows, app`zIndexCounter
      ensures id in old(windows) ==> windows == WindowManager.Front(old(windows), id, app.zIndexCounter)
      ensures id !in old(windows) ==> windows == old(windows)
      ensures app.zIndexCounter == old(app.zIndexCounter) + (if id in old(windows) then 1 else 0)
    {
      if id in windows {
        var z := app.IncrementZIndex();
        windows := windows[id := windows[id].(zIndex := z)];
        windows := WindowManager.Manager.DeactivateAll(windows);
        windows := windows[id := windows[id].(active := true)];
      }
    }

    /** `toggleMaximize(id)`; `threw` when the restore finds nothing saved. */
    method ToggleMaximize(id: string, mobile: bool) returns (threw: bool)
      modifies this`windows
      ensures threw ==> Snap() == old(Snap())
      ensures (if threw then None else Some(Snap())) == Toggle(old(Snap()), id, mobile)
    {
      threw := false;
      if id in windows {
        var w := windows[id];
        if !w.maximized {
          w := w.(prevRect := Some(w.style), style := MaximizedStyle(mobile), maximized := true);
          windows := windows[id := w];
        } else if w.prevRect.None? {
          threw := true;
        } else {
          windows := windows[id := w.(style := w.prevRect.value, maximized := false)];
        }
      }
    }

    method StartDrag(app: State.AppState, id: string, p: WindowManager.Pointer, rect: Rect)
      requires id in windows
      modifies this`windows, this`drag, app`zIndexCounter
      ensures Snap() == DragStarted(old(Snap()), id, p, rect, app.zIndexCounter)
      ensures app.zIndexCounter == old(app.zIndexCounter) + (if WindowManager.DragBegins(old(windows)[id], p, rect) then 1 else 0)
    {
      if !windows[id].maximized && (p.touch || p.y - rect.top >= Border) {
        drag := Drag(true, Point(p.x - rect.left, p.y - rect.top), Some(id));
        windows := windows[id := windows[id].(dragging := true)];
        BringToFront(app, id);
      }
    }

    /** `handleMove(e)`; `container` is the offset parent's box. */
    method HandleMove(p: Point, container: Rect) returns (threw: bool)
      modifies this`windows
      ensures threw ==> Snap() == old(Snap())
      ensures (if threw then None else Some(Snap())) == Moved(old(Snap()), p, container)
    {
      threw := false;
      if drag.isDragging && drag.dragId.Some? {
        var id := drag.dragId.value;
        if id !in windows {
          threw := true;
        } else {
          var w := windows[id];
          var newX := p.x - drag.dragOffset.x - container.left;
          var newY := p.y - drag.dragOffset.y - container.top;
          if newY < 0.0 {
            newY := 0.0;
          }
          windows := windows[id := w.(style := w.style.(left := Px(newX), top := Px(newY)))];
        }
      }
    }

    method HandleEnd() returns (threw: bool)
      modifies this`windows, this`drag
      ensures threw ==> Snap() == old(Snap())
      ensures (if threw then None else Some(Snap())) == Ended(old(Snap()))
    {
      threw := false;
      if drag.isDragging && drag.dragId.Some? {
        var id := drag.dragId.value;
        if id !in windows {
          return true;
        }
        windows := windows[id := windows[id].(dragging := false)];
      }
      drag := drag.(isDragging := false, dragId := None);
    }

    /** The resize `mousemove` listener. */
    method ResizeMove(p: Point) returns (threw: bool)
      modifies this`windows
      ensures threw ==> Snap() == old(Snap())
      ensures (if threw then None else Some(Snap())) == ResizeListener(old(Snap()), p)
    {
      threw := false;
      var rs := resize;
      if rs.isResizing && rs.resizeWin.Some? {
        if rs.startResizePos.None? || rs.startResizeRect.None? || rs.resizeDir.None? {
          threw := true;
        } else if rs.resizeWin.value in windows {
          var id := rs.resizeWin.value;
          var w := windows[id];
          var s := Resized(w.style, rs.startResizeRect.value, rs.startResizePos.value, p, rs.resizeDir.value,
            MinWidth, MinHeight);
          windows := windows[id := w.(style := s)];
        }
      }
    }

    /** Both `mousemove` listeners, in the order they were added. */
    method MouseMove(p: Point, container: Rect)
      modifies this`windows
      ensures Snap() == MouseMoved(old(Snap()), p, container)
    {
      var _ := HandleMove(p, container);
      var _ := ResizeMove(p);
    }

    /** Both `mouseup` listeners, in the order they were added. */
    method MouseUp()
      modifies this`windows, this`drag, this`resize
      ensures Snap() == Released(old(Snap()))
    {
      var _ := HandleEnd();
      var id := resize.resizeWin;
      if resize.isResizing && id.Some? && id.value in windows {
        windows := windows[id.value := windows[id.value].(resizing := false)];
      }
      resize := resize.(isResizing := false, resizeWin := None);
    }

    method UpdateWindowCursor(id: string, p: Point, rect: Rect)
      modifies this`windows
      ensures Snap() == CursorUpdated(old(Snap()), id, p, rect)
    {
      if !resize.isResizing && id in windows {
        windows := windows[id := windows[id].(cursor := Cursor(p.x - rect.left, p.y - rect.top, rect.width, rect.height))];
      }
    }

    method HandleResizeStart(id: string, p: Point, rect: Rect, offset: Rect)
      requires id in windows
      modifies this`windows, this`resize
      ensures Snap() == ResizeStarted(old(Snap()), id, p, rect, offset)
    {
      var dir := ResizeDir(p.x - rect.left, p.y - rect.top, rect.width, rect.height);
      if dir != "" && !windows[id].maximized {
        resize := resize.(isResizing := true, resizeWin := Some(id), resizeDir := Some(dir));
        windows := windows[id := windows[id].(resizing := true)];
        resize := resize.(startResizeRect := Some(offset), startResizePos := Some(p));
      }
    }
  }

  // ---------------------------------------------------------------------------
  // Properties

  /** The unguarded restore never throws on a valid state, and then it does
   *  what the guarded `manager.ts` version does. */
  lemma RestoreNeverThrows(m: Snapshot, id: string, mobile: bool)
    requires Valid(m)
    ensures Toggle(m, id, mobile).Some?
    ensures Toggle(m, id, mobile).value.windows == WindowManager.ToggledIn(
      WindowManager.Snapshot(m.windows, WindowManager.Drag(false, Point(0.0, 0.0), None, Point(0.0, 0.0), Point(0.0, 0.0), 0.0),
        m.resize, WindowManager.Batch(None, None, None), false), id, mobile).windows
  {
  }

  /** Maximizing and restoring gives the window its style back. */
  lemma MaximizeRoundTrip(m: Snapshot, id: string, mobile1: bool, mobile2: bool)
    requires id in m.windows && !m.windows[id].maximized
    ensures Toggle(m, id, mobile1).Some?
    ensures var once := Toggle(m, id, mobile1).value;
      Toggle(once, id, mobile2) == Some(m.(windows := m.windows[id := m.windows[id].(prevRect := Some(m.windows[id].style))]))
  {
    var w := m.windows[id];
    var t := Toggled(w, mobile1);
    assert Toggle(m, id, mobile1) == Some(m.(windows := m.windows[id := t]));
    assert t.(style := t.prevRect.value, maximized := false) == w.(prevRect := Some(w.style));
    assert m.windows[id := t][id := w.(prevRect := Some(w.style))] == m.windows[id := w.(prevRect := Some(w.style))];
  }

  /** A maximized window starts neither a drag nor a resize. */
  lemma MaximizedStaysPut(m: Snapshot, id: string, p: WindowManager.Pointer, rect: Rect, offset: Rect, z: int)
    requires id in m.windows && m.windows[id].maximized
    ensures DragStarted(m, id, p, rect, z) == m
    ensures ResizeStarted(m, id, Point(p.x, p.y), rect, offset) == m
  {
  }

  /** A drag never puts the window's top above its container. */
  lemma DragKeepsHeaderReachable(m: Snapshot, p: Point, container: Rect)
    requires m.drag.isDragging && m.drag.dragId.Some? && m.drag.dragId.value in m.windows
    ensures var w := MouseMoved(m, p, container).windows[m.drag.dragId.value];
      m.resize.resizeWin != m.drag.dragId ==> w.style.top.Px? && w.style.top.v >= 0.0
  {
  }

  /** A resize never makes a window narrower than 300 or lower than 200
   *  along a dragged edge and keeps the opposite edge of a west or north
   *  resize; it depends only on the start and the current pointer. */
  lemma ResizeBounds(m: Snapshot, p: Point)
    requires Valid(m) && m.resize.isResizing && m.resize.resizeWin.Some? && m.resize.resizeWin.value in m.windows
    ensures ResizeListener(m, p).Some?
    ensures var id, dir, start := m.resize.resizeWin.value, m.resize.resizeDir.value, m.resize.startResizeRect.value;
      var s := ResizeListener(m, p).value.windows[id].style;
      s == Resized(m.windows[id].style, start, m.resize.startResizePos.value, p, dir, MinWidth, MinHeight)
      && (('e' in dir || 'w' in dir) ==> s.width.Px? && s.width.v >= MinWidth)
      && (('s' in dir || 'n' in dir) ==> s.height.Px? && s.height.v >= MinHeight)
      && ('w' in dir ==> s.left.Px? && s.left.v + s.width.v == start.left + start.width)
      && ('n' in dir ==> s.top.Px? && s.top.v + s.height.v == start.top + start.height)
  {
  }

  /** Above the larger minimum of `manager.ts` the two versions resize
   *  alike. */
  lemma ResizeAgreesAboveMinimum(s: Style, start: Rect, from: Point, to: Point, dir: string)
    requires start.width + (to.x - from.x) >= WindowManager.MinWidth
    requires start.width - (to.x - from.x) >= WindowManager.MinWidth
    ensures Resized(s, start, from, to, dir, MinWidth, MinHeight)
         == Resized(s, start, from, to, dir, WindowManager.MinWidth, WindowManager.MinHeight)
  {
  }

  /** Maximizing and restoring keep the state valid and never throw on
   *  it. */
  lemma ToggleKeepsValid(m: Snapshot, id: string, mobile: bool)
    requires Valid(m)
    ensures Toggle(m, id, mobile).Some? && Valid(Toggle(m, id, mobile).value)
  {
    var t := Toggle(m, id, mobile).value;
    forall k | k in t.windows && t.windows[k].maximized
      ensures t.windows[k].prevRect.Some?
    {
      if k == id {
        assert t.windows[k] == Toggled(m.windows[id], mobile);
      }
    }
  }

  /** Starting a drag or a resize keeps the state valid. */
  lemma StartsKeepValid(m: Snapshot, id: string, p: WindowManager.Pointer, rect: Rect, offset: Rect, z: int)
    requires Valid(m) && id in m.windows
    ensures Valid(DragStarted(m, id, p, rect, z)) && Valid(ResizeStarted(m, id, Point(p.x, p.y), rect, offset))
  {
  }

  /** The pointer events keep the state valid, and while the dragged
   *  window is open neither drag handler throws. */
  lemma EventsKeepValid(m: Snapshot, id: string, p: Point, rect: Rect, container: Rect)
    requires Valid(m)
    ensures Valid(MouseMoved(m, p, container)) && Valid(Released(m)) && Valid(CursorUpdated(m, id, p, rect))
    ensures m.drag.dragId.Some? ==> m.drag.dragId.value in m.windows ==>
      Moved(m, p, container).Some? && Ended(m).Some?
  {
  }

  /** Unlike `manager.ts`, the cursor hint follows the pointer during a
   *  drag. */
  lemma CursorDuringDrag(m: Snapshot, id: string, p: Point, rect: Rect)
    requires m.drag.isDragging && !m.resize.isResizing && id in m.windows
    ensures CursorUpdated(m, id, p, rect).windows[id].cursor == Cursor(p.x - rect.left, p.y - rect.top, rect.width, rect.height)
  {
  }
}
