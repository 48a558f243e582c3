/** The geometry both window managers share (`src/windows/manager.ts` and its
 *  older JavaScript copy `src/windows/manager.js`): which edges a pointer is
 *  on, the cursor hint, the edge-resize arithmetic, the drag position and
 *  maximize/restore. Positions are CSS pixels as `real`; a style value is a
 *  pixel length or a piece of CSS text such as "100%". */
module WindowGeometry {
  import opened Wrappers

  datatype Point = Point(x: real, y: real)

  datatype Rect = Rect(left: real, top: real, width: real, height: real)

  /** An inline style value. */
  datatype Length = Px(v: real) | Css(text: string)

  /** `left`, `top`, `width` and `height` of a window's inline style. */
  datatype Style = Style(left: Length, top: Length, width: Length, height: Length)

  /** An entry of `activeWindows` together with the parts of its element
   *  the managers write: the inline style, the cursor, the z-index and the
   *  `active-window`, `dragging` and `resizing` classes. */
  datatype Win = Win(
    style: Style, cursor: string, zIndex: int, active: bool,
    maximized: bool, prevRect: Option<Style>, dragging: bool, resizing: bool)

  /** The width of the edge zones. */
  const Border: real := 10.0

  /** The edge zones a point lies in. */
  datatype Edges = Edges(n: bool, s: bool, w: bool, e: bool)

  /** The zones of the point (x, y), relative to the window's top-left
   *  corner, for a window of the given size. */
  function EdgesAt(x: real, y: real, width: real, height: real): Edges
  {
    Edges(y < Border, y > height - Border, x < Border, x > width - Border)
  }

  /** The position of an edge letter in "nswe". */
  function Rank(c: char): int
  {
    if c == 'n' then 0 else if c == 's' then 1 else if c == 'w' then 2 else if c == 'e' then 3 else 4
  }

  /** The letters of the zones, in the order n, s, w, e. */
  function Letters(d: Edges): string
  {
    Pair(d.n, 'n', d.s, 's') + Pair(d.w, 'w', d.e, 'e')
  }

  /** `getResizeDir`: the edges the point (x, y), relative to the window's
   *  top-left corner, lies on. */
  function ResizeDir(x: real, y: real, width: real, height: real): string
  {
    Letters(EdgesAt(x, y, width, height))
  }

  /** The two letters of one axis: the first zone's letter before the
   *  second's. */
  function Pair(a: bool, ca: char, b: bool, cb: char): string
  {
    (if a then [ca] else []) + (if b then [cb] else [])
  }

  /** Which letters a pair holds, and in which order. */
  lemma PairLetters(a: bool, ca: char, b: bool, cb: char)
    ensures var r := Pair(a, ca, b, cb);
      (ca in r <==> a || (b && ca == cb)) && (cb in r <==> b || (a && ca == cb))
      && |r| <= 2 && (|r| == 2 ==> r == [ca, cb])
  {
  }

  /** A zone's letter is in the direction exactly when the point is in
   *  the zone. */
  lemma LettersExact(d: Edges)
    ensures var dir := Letters(d);
      ('n' in dir <==> d.n) && ('s' in dir <==> d.s) && ('w' in dir <==> d.w) && ('e' in dir <==> d.e)
  {
    var v, h := Pair(d.n, 'n', d.s, 's'), Pair(d.w, 'w', d.e, 'e');
    PairLetters(d.n, 'n', d.s, 's');
    PairLetters(d.w, 'w', d.e, 'e');
    assert Letters(d) == v + h;
  }

  /** The letters come in the order n, s, w, e, each at most once. */
  lemma LettersOrdered(d: Edges)
    ensures var dir := Letters(d);
      forall i, j :: 0 <= i < j < |dir| ==> Rank(dir[i]) < Rank(dir[j])
  {
    var v, h := Pair(d.n, 'n', d.s, 's'), Pair(d.w, 'w', d.e, 'e');
    PairLetters(d.n, 'n', d.s, 's');
    PairLetters(d.w, 'w', d.e, 'e');
    var dir := v + h;
    assert Letters(d) == dir;
    forall i, j | 0 <= i < j < |dir|
      ensures Rank(dir[i]) < Rank(dir[j])
    {
      if j < |v| {
        assert v == ['n', 's'];
      } else if i < |v| {
        assert dir[i] in v && dir[j] in h;
      } else {
        assert h == ['w', 'e'];
      }
    }
  }

  /** `updateWindowCursor`'s choice: corners before edges, "default" off
   *  every edge. */
  function CursorOf(d: Edges): string
  {
    if d.n && d.w then "nw-resize"
    else if d.n && d.e then "ne-resize"
    else if d.s && d.w then "sw-resize"
    else if d.s && d.e then "se-resize"
    else if d.n then "n-resize"
    else if d.s then "s-resize"
    else if d.w then "w-resize"
    else if d.e then "e-resize"
    else "default"
  }

  function Cursor(x: real, y: real, width: real, height: real): string
  {
    CursorOf(EdgesAt(x, y, width, height))
  }

  /** Where no point is in two opposite zones, the cursor hint names
   *  exactly the zones' letters. */
  lemma CursorNamesLetters(d: Edges)
    requires !(d.n && d.s) && !(d.w && d.e)
    ensures CursorOf(d) == if Letters(d) == "" then "default" else Letters(d) + "-resize"
  {
    if d.n && d.w {
      assert Letters(d) == "nw";
    } else if d.n && d.e {
      assert Letters(d) == "ne";
    } else if d.s && d.w {
      assert Letters(d) == "sw";
    } else if d.s && d.e {
      assert Letters(d) == "se";
    } else if d.n {
      assert Letters(d) == "n";
    } else if d.s {
      assert Letters(d) == "s";
    } else if d.w {
      assert Letters(d) == "w";
    } else if d.e {
      assert Letters(d) == "e";
    } else {
      assert Letters(d) == "";
    }
  }

  /** On a window at least two edge zones wide and high, the cursor hint
   *  names exactly the edges a press there would resize. */
  lemma CursorNamesResizeDir(x: real, y: real, width: real, height: real)
    requires width >= 2.0 * Border && height >= 2.0 * Border
    ensures var dir := ResizeDir(x, y, width, height);
      Cursor(x, y, width, height) == if dir == "" then "default" else dir + "-resize"
  {
    CursorNamesLetters(EdgesAt(x, y, width, height));
  }

  /** `Math.max(a, b)`. */
  function Max(a: real, b: real): real
  {
    if a >= b then a else b
  }

  /** `Math.min(a, b)`. */
  function Min(a: real, b: real): real
  {
    if a <= b then a else b
  }

  /** One resize step: the style after dragging the edges `dir` from `from`
   *  to `to`, starting from the window's rectangle `start`; the width and
   *  height never go below `minW` and `minH`. The four `if`s run in the
   *  order e, s, w, n, so a later one overwrites an earlier one. */
  function Resized(s: Style, start: Rect, from: Point, to: Point, dir: string, minW: real, minH: real): (r: Style)
    ensures ('e' in dir || 'w' in dir) ==> r.width.Px? && r.width.v >= minW
    ensures ('s' in dir || 'n' in dir) ==> r.height.Px? && r.height.v >= minH
    ensures 'e' !in dir && 'w' !in dir ==> r.width == s.width
    ensures 's' !in dir && 'n' !in dir ==> r.height == s.height
    ensures 'w' in dir ==> r.left.Px? && r.left.v + r.width.v == start.left + start.width
    ensures 'n' in dir ==> r.top.Px? && r.top.v + r.height.v == start.top + start.height
    ensures 'w' !in dir ==> r.left == s.left
    ensures 'n' !in dir ==> r.top == s.top
  {
    var dx, dy := to.x - from.x, to.y - from.y;
    var s1 := if 'e' in dir then s.(width := Px(Max(minW, start.width + dx))) else s;
    var s2 := if 's' in dir then s1.(height := Px(Max(minH, start.height + dy))) else s1;
    var newW := Max(minW, start.width - dx);
    var s3 := if 'w' in dir then s2.(width := Px(newW), left := Px(start.left + (start.width - newW))) else s2;
    var newH := Max(minH, start.height - dy);
    if 'n' in dir then s3.(height := Px(newH), top := Px(start.top + (start.height - newH))) else s3
  }

  /** Away from the minimum, an east or south resize follows the pointer
   *  exactly, and a west or north one moves the edge with the pointer. */
  lemma ResizeFollowsPointer(s: Style, start: Rect, from: Point, to: Point, dir: string, minW: real, minH: real)
    ensures var r := Resized(s, start, from, to, dir, minW, minH);
      ('e' in dir && 'w' !in dir && start.width + (to.x - from.x) >= minW ==> r.width == Px(start.width + (to.x - from.x)))
      && ('w' in dir && start.width - (to.x - from.x) >= minW ==> r.left == Px(start.left + (to.x - from.x)))
      && ('s' in dir && 'n' !in dir && start.height + (to.y - from.y) >= minH ==> r.height == Px(start.height + (to.y - from.y)))
      && ('n' in dir && start.height - (to.y - from.y) >= minH ==> r.top == Px(start.top + (to.y - from.y)))
  {
  }

  /** The drag position: the pointer less the grab offset, relative to the
   *  container, never above its top edge. */
  function Dragged(s: Style, pointer: Point, offset: Point, container: Rect): (r: Style)
    ensures r.top.Px? && r.top.v >= 0.0
    ensures r.left == Px(pointer.x - offset.x - container.left)
    ensures pointer.y - offset.y - container.top >= 0.0 ==> r.top == Px(pointer.y - offset.y - container.top)
    ensures r.width == s.width && r.height == s.height
  {
    var newX := pointer.x - offset.x - container.left;
    var newY := pointer.y - offset.y - container.top;
    s.(left := Px(newX), top := Px(if newY < 0.0 then 0.0 else newY))
  }

  /** The inline style of a maximized window: the full width, and the full
   *  height less the room for the dock, or, on a narrow screen, less 85px
   *  of the viewport. */
  function MaximizedStyle(mobile: bool): Style
  {
    Style(Px(0.0), Px(0.0), Css("100%"), Css(if mobile then "calc(100vh - 85px)" else "calc(100% - 90px)"))
  }

  /** `toggleMaximize` in `manager.ts`: maximizing saves the inline style;
   *  restoring puts a saved one back (when there is none the style stays)
   *  and clears the flag. `mobile` is `window.innerWidth < 768`. */
  function Toggled(w: Win, mobile: bool): (r: Win)
    ensures r.maximized == !w.maximized
    ensures !w.maximized ==> r.style == MaximizedStyle(mobile) && r.prevRect == Some(w.style)
  {
    if !w.maximized then w.(prevRect := Some(w.style), style := MaximizedStyle(mobile), maximized := true)
    else if w.prevRect.Some? then w.(style := w.prevRect.value, maximized := false)
    else w.(maximized := false)
  }

  /** Maximizing and then restoring gives back the window as it was, except
   *  that the style it had is now also the saved one. */
  lemma ToggleTwice(w: Win, mobile1: bool, mobile2: bool)
    requires !w.maximized
    ensures Toggled(Toggled(w, mobile1), mobile2) == w.(prevRect := Some(w.style))
  {
  }

  /** `applyMomentum`: the target position after a release with velocity
   *  `v` (pixels per millisecond), or `None` when the window stays. The
   *  speed test `sqrt(vx² + vy²) < 0.2` is written on the squares. */
  function Momentum(v: Point, reducedMotion: bool, offset: Rect, container: Rect): (r: Option<Point>)
    ensures r.None? <==> v.x * v.x + v.y * v.y < 0.04 || reducedMotion
    ensures r.Some? ==> 0.0 <= r.value.y && (container.height - 100.0 >= 0.0 ==> r.value.y <= container.height - 100.0)
    ensures r.Some? ==> r.value.y == Max(0.0, Min(container.height - 100.0, offset.top + Max(-80.0, Min(80.0, v.y * 120.0))))
  {
    if v.x * v.x + v.y * v.y < 0.04 || reducedMotion then None
    else
      var mx, my := Max(-80.0, Min(80.0, v.x * 120.0)), Max(-80.0, Min(80.0, v.y * 120.0));
      var tx := Max(-offset.width + 100.0, Min(container.width - 100.0, offset.left + mx));
      var ty := Max(0.0, Min(container.height - 100.0, offset.top + my));
      Some(Point(tx, ty))
  }

  /** The throw never moves a window more than 80px along either axis
   *  unless the clamp to the container pulls it back further. */
  lemma MomentumBounded(v: Point, reducedMotion: bool, offset: Rect, container: Rect)
    requires Momentum(v, reducedMotion, offset, container).Some?
    requires 0.0 <= offset.top <= container.height - 100.0
    requires -offset.width + 100.0 <= offset.left <= container.width - 100.0
    ensures var p := Momentum(v, reducedMotion, offset, container).value;
      -80.0 <= p.x - offset.left <= 80.0 && -80.0 <= p.y - offset.top <= 80.0
  {
  }
}
