/** The 2048 engine of `src/games/game-2048.ts`: a 4×4 board indexed
 *  `board[x][y]`, a slide/merge traversal from the far side of the move,
 *  the random tile, and the moves-available test. A tile's `mergedFrom` list
 *  is kept only as the flag `merged` (whether it is non-null). */
module Game2048 {
  import opened Wrappers

  const Size: int := 4

  /** A move vector: `{x: 0, y: -1}` is up, `{x: 1, y: 0}` right and so on. */
  datatype Vector = Vector(x: int, y: int)

  predicate IsUnit(v: Vector)
  {
    v == Vector(0, -1) || v == Vector(1, 0) || v == Vector(0, 1) || v == Vector(-1, 0)
  }

  datatype Tile = Tile(value: int, x: int, y: int, merged: bool)

  type Cell = (int, int)

  type Board = seq<seq<Option<Tile>>>

  predicate IsBoard(b: Board)
  {
    |b| == Size && forall x :: 0 <= x < Size ==> |b[x]| == Size
  }

  /** `withinBounds`. */
  predicate WithinBounds(c: Cell)
  {
    0 <= c.0 < Size && 0 <= c.1 < Size
  }

  function Get(b: Board, c: Cell): Option<Tile>
    requires IsBoard(b) && WithinBounds(c)
  {
    b[c.0][c.1]
  }

  /** `board[c.x][c.y] = t`. */
  function Set(b: Board, c: Cell, t: Option<Tile>): (r: Board)
    requires IsBoard(b) && WithinBounds(c)
    ensures IsBoard(r) && Get(r, c) == t
    ensures forall d :: WithinBounds(d) && d != c ==> Get(r, d) == Get(b, d)
  {
    b[c.0 := b[c.0][c.1 := t]]
  }

  /** Every tile on the board records the cell it sits on. */
  ghost predicate Positioned(b: Board)
    requires IsBoard(b)
  {
    forall c :: WithinBounds(c) && Get(b, c).Some? ==> Get(b, c).value.x == c.0 && Get(b, c).value.y == c.1
  }

  /** `createEmptyBoard`. */
  function EmptyBoard(): (b: Board)
    ensures IsBoard(b) && Positioned(b)
    ensures forall c :: WithinBounds(c) ==> Get(b, c).None?
  {
    seq(Size, x => seq(Size, y => None))
  }

  // ---------------------------------------------------------------------------
  // Walking along a vector

  /** The neighbour of `c` in the direction of `v`. */
  function Next(c: Cell, v: Vector): Cell
  {
    (c.0 + v.x, c.1 + v.y)
  }

  /** How many steps along `v` stay on the board. */
  function Reach(c: Cell, v: Vector): int
  {
    if v.x == 1 then Size - c.0
    else if v.x == -1 then c.0 + 1
    else if v.y == 1 then Size - c.1
    else c.1 + 1
  }

  /** The `farthest` cell `findFarthestPosition` returns: the walk from `c`
   *  along `v` continues while the next cell is on the board and empty. */
  function Farthest(b: Board, c: Cell, v: Vector): (f: Cell)
    requires IsBoard(b) && IsUnit(v) && WithinBounds(c)
    ensures WithinBounds(f)
    decreases Reach(c, v)
  {
    var n := Next(c, v);
    if WithinBounds(n) && Get(b, n).None? then Farthest(b, n, v) else c
  }

  /** The slide ends on the cell it started from or on an empty cell. */
  lemma {:induction false} FarthestLands(b: Board, c: Cell, v: Vector)
    requires IsBoard(b) && IsUnit(v) && WithinBounds(c)
    ensures Farthest(b, c, v) == c || Get(b, Farthest(b, c, v)).None?
    decreases Reach(c, v)
  {
    var n := Next(c, v);
    if WithinBounds(n) && Get(b, n).None? {
      FarthestLands(b, n, v);
    }
  }

  /** The slide stops at the edge or in front of an occupied cell. */
  lemma {:induction false} FarthestStops(b: Board, c: Cell, v: Vector)
    requires IsBoard(b) && IsUnit(v) && WithinBounds(c)
    ensures WithinBounds(Next(Farthest(b, c, v), v)) ==> Get(b, Next(Farthest(b, c, v), v)).Some?
    decreases Reach(c, v)
  {
    var n := Next(c, v);
    if WithinBounds(n) && Get(b, n).None? {
      FarthestStops(b, n, v);
    }
  }

  /** The slide stays on the line through `c` along `v`, never going back. */
  lemma {:induction false} FarthestInLine(b: Board, c: Cell, v: Vector)
    requires IsBoard(b) && IsUnit(v) && WithinBounds(c)
    ensures var f := Farthest(b, c, v);
      (v.x == 0 ==> f.0 == c.0) && (v.y == 0 ==> f.1 == c.1)
      && (v.x == 1 ==> f.0 >= c.0) && (v.x == -1 ==> f.0 <= c.0)
      && (v.y == 1 ==> f.1 >= c.1) && (v.y == -1 ==> f.1 <= c.1)
    decreases Reach(c, v)
  {
    var n := Next(c, v);
    if WithinBounds(n) && Get(b, n).None? {
      FarthestInLine(b, n, v);
    }
  }

  // ---------------------------------------------------------------------------
  // Traversal order

  function Reverse(s: seq<int>): (r: seq<int>)
    ensures |r| == |s| && forall i :: 0 <= i < |s| ==> r[i] == s[|s| - 1 - i]
  {
    if s == [] then [] else Reverse(s[1..]) + [s[0]]
  }

  /** `buildTraversals` for one axis: from the far side of the move. */
  function Trav(d: int): (r: seq<int>)
    ensures |r| == Size
  {
    if d == 1 then [3, 2, 1, 0] else [0, 1, 2, 3]
  }

  /** The cells in the order the two nested `forEach` loops visit them. */
  function Order(v: Vector): (r: seq<Cell>)
    ensures |r| == Size * Size
    ensures forall k :: 0 <= k < Size * Size ==> WithinBounds(r[k])
  {
    forall k | 0 <= k < Size * Size
      ensures 0 <= k / Size < Size && 0 <= k % Size < Size
      ensures 0 <= Trav(v.x)[k / Size] < Size && 0 <= Trav(v.y)[k % Size] < Size
    {
      TravPos(v.x, k / Size);
      TravPos(v.y, k % Size);
    }
    seq(Size * Size, k requires 0 <= k < Size * Size => (Trav(v.x)[k / Size], Trav(v.y)[k % Size]))
  }

  function Pos(d: int, t: int): int
  {
    if d == 1 then 3 - t else t
  }

  /** How many cells the traversal visits before `c`. */
  function Rank(v: Vector, c: Cell): int
  {
    Pos(v.x, c.0) * Size + Pos(v.y, c.1)
  }

  lemma TravPos(d: int, i: int)
    requires 0 <= i < Size
    ensures Pos(d, Trav(d)[i]) == i && 0 <= Trav(d)[i] < Size
  {
  }

  lemma RankOfOrder(v: Vector, k: int)
    requires 0 <= k < Size * Size
    ensures WithinBounds(Order(v)[k]) && Rank(v, Order(v)[k]) == k
  {
    TravPos(v.x, k / Size);
    TravPos(v.y, k % Size);
  }

  /** A cell further along the move comes earlier in the traversal. */
  lemma RankNext(v: Vector, c: Cell)
    requires IsUnit(v)
    ensures Rank(v, Next(c, v)) < Rank(v, c)
  {
  }

  /** The farthest cell, and the one after it, come no later than `c`. */
  lemma {:induction false} RankFarthest(b: Board, c: Cell, v: Vector)
    requires IsBoard(b) && IsUnit(v) && WithinBounds(c)
    ensures Rank(v, Farthest(b, c, v)) <= Rank(v, c)
    ensures Rank(v, Next(Farthest(b, c, v), v)) < Rank(v, c)
    decreases Reach(c, v)
  {
    var n := Next(c, v);
    RankNext(v, c);
    if WithinBounds(n) && Get(b, n).None? {
      RankFarthest(b, n, v);
    }
    RankNext(v, Farthest(b, c, v));
  }

  // ---------------------------------------------------------------------------
  // One cell of `move`

  /** The state the traversal threads through: the board, `score`, `won`,
   *  the local `moved`, and whether a `TypeError` has aborted the move. */
  datatype Play = Play(board: Board, score: int, won: bool, moved: bool, crashed: bool)

  /** `moveTile(tile, cell)`: the cell the tile records is cleared, then the
   *  tile is put on `cell` with its coordinates updated. */
  function MoveTile(b: Board, tile: Tile, cell: Cell): (r: Board)
    requires IsBoard(b) && WithinBounds((tile.x, tile.y)) && WithinBounds(cell)
    ensures IsBoard(r) && Get(r, cell) == Some(tile.(x := cell.0, y := cell.1))
    ensures (tile.x, tile.y) != cell ==> Get(r, (tile.x, tile.y)).None?
    ensures forall d :: WithinBounds(d) && d != cell && d != (tile.x, tile.y) ==> Get(r, d) == Get(b, d)
  {
    Set(Set(b, (tile.x, tile.y), None), cell, Some(tile.(x := cell.0, y := cell.1)))
  }

  /** The merge branch of `move`: the tile on `c` and the equal tile on
   *  `next` become one merged tile of twice the value on `next`; the score
   *  grows by that value and `won` is set when it is 2048. */
  function Merged(p: Play, c: Cell, next: Cell): (r: Play)
    requires IsBoard(p.board) && WithinBounds(c) && WithinBounds(next)
    requires Get(p.board, c).Some?
    ensures IsBoard(r.board)
  {
    var value := Get(p.board, c).value.value * 2;
    Play(Set(Set(p.board, c, None), next, Some(Tile(value, next.0, next.1, true))),
         p.score + value, p.won || value == 2048, true, false)
  }

  /** The `moveTile` branch of `move`: the tile on `c` moves to `far`, and
   *  `moved` is set when `far` differs from `c`. The cell cleared is `c`,
   *  the cell the tile records (`SlidIsMoveTile`). */
  function Slid(p: Play, c: Cell, far: Cell): (r: Play)
    requires IsBoard(p.board) && WithinBounds(c) && WithinBounds(far)
    requires Get(p.board, c).Some?
    ensures IsBoard(r.board)
  {
    var tile := Get(p.board, c).value;
    p.(board := Set(Set(p.board, c, None), far, Some(tile.(x := far.0, y := far.1))),
       moved := p.moved || far != c)
  }

  /** What the inner `forEach` does with an occupied cell: abort on the
   *  out-of-range neighbour read, merge into the neighbour `next`, or move
   *  the tile to the farthest free cell `far`. */
  datatype Action = Crash | MergeInto(next: Cell) | SlideTo(far: Cell)

  /** The decision `move` makes for the tile on `c`. With `checked` false it
   *  is the code as written: the neighbour read `board[next.x][next.y]`
   *  throws when `next.x` is off the board. With `checked` true the read is
   *  bounds-checked like the one in `tileMatchesAvailable`. */
  function Decide(b: Board, c: Cell, v: Vector, checked: bool): Action
    requires IsBoard(b) && IsUnit(v) && WithinBounds(c) && Get(b, c).Some?
  {
    var far := Farthest(b, c, v);
    var next := Next(far, v);
    if !checked && !(0 <= next.0 < Size) then Crash
    else
      var nt := if WithinBounds(next) then Get(b, next) else None;
      if nt.Some? && nt.value.value == Get(b, c).value.value && !nt.value.merged then MergeInto(next)
      else SlideTo(far)
  }

  /** A merge joins two equal, unmerged tiles on distinct cells, the target
   *  coming earlier in the traversal; a slide lands on the tile's own cell
   *  or on an empty one; only the unchecked read crashes. */
  lemma DecideFacts(b: Board, c: Cell, v: Vector, checked: bool)
    requires IsBoard(b) && IsUnit(v) && WithinBounds(c) && Get(b, c).Some?
    ensures Decide(b, c, v, checked).Crash? ==> !checked && v.x != 0
    ensures Decide(b, c, v, checked).MergeInto? ==>
      var n := Decide(b, c, v, checked).next;
      WithinBounds(n) && n != c && Rank(v, n) < Rank(v, c) && Get(b, n).Some?
      && Get(b, n).value.value == Get(b, c).value.value && !Get(b, n).value.merged
    ensures Decide(b, c, v, checked).SlideTo? ==>
      var f := Decide(b, c, v, checked).far;
      WithinBounds(f) && (f == c || Get(b, f).None?)
  {
    RankFarthest(b, c, v);
    FarthestLands(b, c, v);
  }

  /** The body of the inner `forEach` for cell `c`: empty cells and an
   *  aborted move are left alone. */
  function Step(p: Play, c: Cell, v: Vector, checked: bool): (r: Play)
    requires IsBoard(p.board) && IsUnit(v) && WithinBounds(c)
    ensures IsBoard(r.board)
  {
    if p.crashed || Get(p.board, c).None? then p
    else
      DecideFacts(p.board, c, v, checked);
      match Decide(p.board, c, v, checked)
      case Crash => p.(crashed := true)
      case MergeInto(next) => Merged(p, c, next)
      case SlideTo(far) => Slid(p, c, far)
  }

  /** The traversal over the first `n` cells of the order for `v`. */
  function Run(p: Play, v: Vector, checked: bool, n: int): (r: Play)
    requires IsBoard(p.board) && IsUnit(v) && 0 <= n <= Size * Size
    ensures IsBoard(r.board)
    decreases n
  {
    if n == 0 then p else Step(Run(p, v, checked, n - 1), Order(v)[n - 1], v, checked)
  }

  /** A cell with its tile's `mergedFrom` reset. */
  function ClearMark(o: Option<Tile>): Option<Tile>
  {
    if o.None? then None else Some(o.value.(merged := false))
  }

  /** `prepareTiles`: every `mergedFrom` is reset. */
  function Cleared(b: Board): (r: Board)
    requires IsBoard(b)
    ensures IsBoard(r)
    ensures forall c :: WithinBounds(c) ==>
      Get(r, c) == if Get(b, c).None? then None else Some(Get(b, c).value.(merged := false))
  {
    seq(Size, x requires 0 <= x < Size => seq(Size, y requires 0 <= y < Size => ClearMark(b[x][y])))
  }

  /** The state the traversal of `move` starts from. */
  function Start(b: Board, score: int, won: bool): Play
    requires IsBoard(b)
  {
    Play(Cleared(b), score, won, false, false)
  }

  /** The slide/merge phase of `move(v)`. */
  function Traversal(b: Board, score: int, won: bool, v: Vector, checked: bool): (r: Play)
    requires IsBoard(b) && IsUnit(v)
    ensures IsBoard(r.board)
  {
    Run(Start(b, score, won), v, checked, Size * Size)
  }

  // ---------------------------------------------------------------------------
  // Totals over the board

  /** What a board total adds up: tile values, the values of tiles made by a
   *  merge in this move, or the number of such tiles that are 2048. */
  datatype Measure = Values | MergedValues | MergedWins

  function Weight(o: Option<Tile>, m: Measure): int
  {
    match o
    case None => 0
    case Some(t) =>
      match m
      case Values => t.value
      case MergedValues => if t.merged then t.value else 0
      case MergedWins => if t.merged && t.value == 2048 then 1 else 0
  }

  function ColumnTotal(col: seq<Option<Tile>>, m: Measure): int
  {
    if col == [] then 0 else ColumnTotal(col[..|col| - 1], m) + Weight(col[|col| - 1], m)
  }

  function Total(b: Board, m: Measure): int
  {
    if b == [] then 0 else Total(b[..|b| - 1], m) + ColumnTotal(b[|b| - 1], m)
  }

  lemma {:induction false} ColumnTotalUpdate(col: seq<Option<Tile>>, y: int, t: Option<Tile>, m: Measure)
    requires 0 <= y < |col|
    ensures ColumnTotal(col[y := t], m) == ColumnTotal(col, m) - Weight(col[y], m) + Weight(t, m)
    decreases |col|
  {
    var n := |col| - 1;
    if y == n {
      assert col[y := t][..n] == col[..n];
    } else {
      ColumnTotalUpdate(col[..n], y, t, m);
      assert col[y := t][..n] == col[..n][y := t];
    }
  }

  lemma {:induction false} TotalUpdate(b: Board, x: int, col: seq<Option<Tile>>, m: Measure)
    requires 0 <= x < |b|
    ensures Total(b[x := col], m) == Total(b, m) - ColumnTotal(b[x], m) + ColumnTotal(col, m)
    decreases |b|
  {
    var n := |b| - 1;
    if x == n {
      assert b[x := col][..n] == b[..n];
    } else {
      TotalUpdate(b[..n], x, col, m);
      assert b[x := col][..n] == b[..n][x := col];
    }
  }

  /** Setting one cell changes a total by the difference of the two weights. */
  lemma SetTotal(b: Board, c: Cell, t: Option<Tile>, m: Measure)
    requires IsBoard(b) && WithinBounds(c)
    ensures Total(Set(b, c, t), m) == Total(b, m) - Weight(Get(b, c), m) + Weight(t, m)
  {
    ColumnTotalUpdate(b[c.0], c.1, t, m);
    TotalUpdate(b, c.0, b[c.0][c.1 := t], m);
  }

  lemma {:induction false} ColumnTotalPointwise(a: seq<Option<Tile>>, b: seq<Option<Tile>>, m: Measure)
    requires |a| == |b|
    requires forall y :: 0 <= y < |a| ==> Weight(a[y], m) == Weight(b[y], m)
    ensures ColumnTotal(a, m) == ColumnTotal(b, m)
    decreases |a|
  {
    if a != [] {
      ColumnTotalPointwise(a[..|a| - 1], b[..|b| - 1], m);
    }
  }

  lemma {:induction false} TotalPointwise(a: Board, b: Board, m: Measure)
    requires |a| == |b|
    requires forall x :: 0 <= x < |a| ==> |a[x]| == |b[x]|
    requires forall x, y :: 0 <= x < |a| && 0 <= y < |a[x]| ==> Weight(a[x][y], m) == Weight(b[x][y], m)
    ensures Total(a, m) == Total(b, m)
    decreases |a|
  {
    if a != [] {
      var n := |a| - 1;
      ColumnTotalPointwise(a[n], b[n], m);
      TotalPointwise(a[..n], b[..n], m);
    }
  }

  lemma {:induction false} ColumnTotalNonNegative(col: seq<Option<Tile>>, m: Measure)
    requires forall y :: 0 <= y < |col| ==> Weight(col[y], m) >= 0
    ensures ColumnTotal(col, m) >= 0
    decreases |col|
  {
    if col != [] {
      ColumnTotalNonNegative(col[..|col| - 1], m);
    }
  }

  lemma {:induction false} TotalNonNegative(b: Board, m: Measure)
    requires forall x, y :: 0 <= x < |b| && 0 <= y < |b[x]| ==> Weight(b[x][y], m) >= 0
    ensures Total(b, m) >= 0
    decreases |b|
  {
    if b != [] {
      var n := |b| - 1;
      ColumnTotalNonNegative(b[n], m);
      TotalNonNegative(b[..n], m);
    }
  }

  /** Tile values are positive (they start at 2 or 4 and only double). */
  ghost predicate Positive(b: Board)
    requires IsBoard(b)
  {
    forall c :: WithinBounds(c) && Get(b, c).Some? ==> Get(b, c).value.value > 0
  }

  /** `prepareTiles` keeps every value and leaves no merged tile. */
  lemma ClearedTotals(b: Board)
    requires IsBoard(b)
    ensures Total(Cleared(b), Values) == Total(b, Values)
    ensures Total(Cleared(b), MergedValues) == 0 && Total(Cleared(b), MergedWins) == 0
  {
    assert forall x, y :: 0 <= x < Size && 0 <= y < Size ==> Get(Cleared(b), (x, y)) == Cleared(b)[x][y];
    TotalPointwise(Cleared(b), b, Values);
    TotalZero(Cleared(b), MergedValues);
    TotalZero(Cleared(b), MergedWins);
  }

  lemma {:induction false} ColumnTotalZero(col: seq<Option<Tile>>, m: Measure)
    requires forall y :: 0 <= y < |col| ==> Weight(col[y], m) == 0
    ensures ColumnTotal(col, m) == 0
    decreases |col|
  {
    if col != [] {
      ColumnTotalZero(col[..|col| - 1], m);
    }
  }

  lemma {:induction false} TotalZero(b: Board, m: Measure)
    requires forall x, y :: 0 <= x < |b| && 0 <= y < |b[x]| ==> Weight(b[x][y], m) == 0
    ensures Total(b, m) == 0
    decreases |b|
  {
    if b != [] {
      var n := |b| - 1;
      ColumnTotalZero(b[n], m);
      TotalZero(b[..n], m);
    }
  }

  // ---------------------------------------------------------------------------
  // What the traversal keeps

  /** After the first `k` cells: the total value is unchanged, the score has
   *  grown by the values of the tiles merges made, `won` is set iff one of
   *  them is 2048, and merged tiles sit only on cells already visited (so
   *  they are neither moved nor merged again). */
  ghost predicate Inv(p0: Play, q: Play, v: Vector, k: int)
    requires IsBoard(p0.board) && IsBoard(q.board)
  {
    Positive(q.board)
    && Total(q.board, Values) == Total(p0.board, Values)
    && q.score == p0.score + Total(q.board, MergedValues)
    && q.won == (p0.won || Total(q.board, MergedWins) > 0)
    && forall c :: WithinBounds(c) && Get(q.board, c).Some? && Get(q.board, c).value.merged ==> Rank(v, c) < k
  }

  /** The merge branch keeps `Inv`: the unmerged tile on `c` and the
   *  unmerged equal tile on `next` become one merged tile on `next`. */
  lemma MergeInv(p0: Play, q: Play, c: Cell, next: Cell, v: Vector, k: int)
    requires IsBoard(p0.board) && IsBoard(q.board) && IsUnit(v)
    requires WithinBounds(c) && WithinBounds(next) && c != next
    requires Rank(v, c) == k && Rank(v, next) < k && Inv(p0, q, v, k)
    requires Get(q.board, c).Some? && Get(q.board, next).Some?
    requires !Get(q.board, next).value.merged
    requires Get(q.board, next).value.value == Get(q.board, c).value.value
    ensures Inv(p0, Merged(q, c, next), v, k + 1)
  {
    var tile := Get(q.board, c).value;
    var merged := Tile(tile.value * 2, next.0, next.1, true);
    var b1 := Set(q.board, c, None);
    SetTotal(q.board, c, None, Values);
    SetTotal(q.board, c, None, MergedValues);
    SetTotal(q.board, c, None, MergedWins);
    assert Get(b1, next) == Get(q.board, next);
    SetTotal(b1, next, Some(merged), Values);
    SetTotal(b1, next, Some(merged), MergedValues);
    SetTotal(b1, next, Some(merged), MergedWins);
    TotalNonNegative(q.board, MergedWins);
  }

  /** The `moveTile` branch keeps `Inv`: an unmerged tile moves from `c` to
   *  `far`, which is `c` itself or an empty cell. */
  lemma MoveInv(p0: Play, q: Play, c: Cell, far: Cell, v: Vector, k: int)
    requires IsBoard(p0.board) && IsBoard(q.board) && IsUnit(v)
    requires WithinBounds(c) && WithinBounds(far)
    requires Rank(v, c) == k && Inv(p0, q, v, k)
    requires Get(q.board, c).Some? && (far == c || Get(q.board, far).None?)
    ensures Inv(p0, Slid(q, c, far), v, k + 1)
  {
    var tile := Get(q.board, c).value;
    var b1 := Set(q.board, c, None);
    SetTotal(q.board, c, None, Values);
    SetTotal(q.board, c, None, MergedValues);
    SetTotal(q.board, c, None, MergedWins);
    var t := tile.(x := far.0, y := far.1);
    assert Get(b1, far).None?;
    SetTotal(b1, far, Some(t), Values);
    SetTotal(b1, far, Some(t), MergedValues);
    SetTotal(b1, far, Some(t), MergedWins);
  }

  /** One cell of the traversal keeps `Inv`, one cell further on. */
  lemma StepInv(p0: Play, q: Play, c: Cell, v: Vector, checked: bool, k: int)
    requires IsBoard(p0.board) && IsBoard(q.board) && IsUnit(v) && WithinBounds(c)
    requires Rank(v, c) == k && Inv(p0, q, v, k)
    ensures Inv(p0, Step(q, c, v, checked), v, k + 1)
  {
    if !q.crashed && Get(q.board, c).Some? {
      DecideFacts(q.board, c, v, checked);
      match Decide(q.board, c, v, checked)
      case Crash =>
      case MergeInto(next) =>
        MergeInv(p0, q, c, next, v, k);
        assert Step(q, c, v, checked) == Merged(q, c, next);
      case SlideTo(far) =>
        MoveInv(p0, q, c, far, v, k);
        assert Step(q, c, v, checked) == Slid(q, c, far);
    }
  }

  /** `Inv` holds after every prefix of the traversal. */
  lemma {:induction false} RunInv(p0: Play, v: Vector, checked: bool, n: int)
    requires IsBoard(p0.board) && IsUnit(v) && 0 <= n <= Size * Size
    requires Inv(p0, p0, v, 0)
    ensures Inv(p0, Run(p0, v, checked, n), v, n)
  {
    if n > 0 {
      RunInv(p0, v, checked, n - 1);
      RankOfOrder(v, n - 1);
      StepInv(p0, Run(p0, v, checked, n - 1), Order(v)[n - 1], v, checked, n - 1);
    }
  }

  /** The traversal starts from a state that satisfies `Inv` at rank 0. */
  lemma StartInv(b: Board, score: int, won: bool, v: Vector)
    requires IsBoard(b) && Positive(b)
    ensures Inv(Start(b, score, won), Start(b, score, won), v, 0)
  {
    ClearedTotals(b);
  }

  /** What a move's traversal promises: the sum of the tile values is kept,
   *  the score grows by exactly the values of the tiles merges made (so it
   *  never falls), `won` is set iff a merge made 2048 or it was set, and
   *  every tile value stays positive. */
  lemma TraversalFacts(b: Board, score: int, won: bool, v: Vector, checked: bool)
    requires IsBoard(b) && Positive(b) && IsUnit(v)
    ensures var r := Traversal(b, score, won, v, checked);
      Total(r.board, Values) == Total(b, Values)
      && r.score == score + Total(r.board, MergedValues) && r.score >= score
      && r.won == (won || Total(r.board, MergedWins) > 0)
      && Positive(r.board)
  {
    var p0 := Start(b, score, won);
    StartInv(b, score, won, v);
    ClearedTotals(b);
    RunInv(p0, v, checked, Size * Size);
    var r := Traversal(b, score, won, v, checked);
    assert forall x, y :: 0 <= x < Size && 0 <= y < Size ==> Weight(r.board[x][y], MergedValues) >= 0 by {
      forall x, y | 0 <= x < Size && 0 <= y < Size
        ensures Weight(r.board[x][y], MergedValues) >= 0
      {
        assert Get(r.board, (x, y)) == r.board[x][y];
      }
    }
    TotalNonNegative(r.board, MergedValues);
  }

  // ---------------------------------------------------------------------------
  // When the neighbour read throws

  /** Once aborted, the rest of the traversal changes nothing. */
  lemma {:induction false} RunCrashed(p0: Play, v: Vector, checked: bool, n: int, m: int)
    requires IsBoard(p0.board) && IsUnit(v) && 0 <= n <= m <= Size * Size
    requires Run(p0, v, checked, n).crashed
    ensures Run(p0, v, checked, m) == Run(p0, v, checked, n)
    decreases m
  {
    if m > n {
      RunCrashed(p0, v, checked, n, m - 1);
    }
  }

  /** One more cell of the traversal is one more `Step`. */
  lemma RunSnoc(p0: Play, v: Vector, checked: bool, n: int)
    requires IsBoard(p0.board) && IsUnit(v) && 0 <= n < Size * Size
    ensures Run(p0, v, checked, n + 1) == Step(Run(p0, v, checked, n), Order(v)[n], v, checked)
  {
  }

  /** An abort ends the traversal: its result is the state at the abort. */
  lemma CrashIsFinal(p0: Play, v: Vector, checked: bool, n: int)
    requires IsBoard(p0.board) && IsUnit(v) && 0 <= n <= Size * Size
    requires Run(p0, v, checked, n).crashed
    ensures Run(p0, v, checked, Size * Size) == Run(p0, v, checked, n)
  {
    RunCrashed(p0, v, checked, n, Size * Size);
  }

  /** With the bounds-checked read, or in a vertical move, no step aborts. */
  lemma {:induction false} RunNeverCrashes(p0: Play, v: Vector, checked: bool, n: int)
    requires IsBoard(p0.board) && IsUnit(v) && 0 <= n <= Size * Size
    requires !p0.crashed && (checked || v.x == 0)
    ensures !Run(p0, v, checked, n).crashed
  {
    if n > 0 {
      RunNeverCrashes(p0, v, checked, n - 1);
      RankOfOrder(v, n - 1);
      var q := Run(p0, v, checked, n - 1);
      if Get(q.board, Order(v)[n - 1]).Some? {
        DecideFacts(q.board, Order(v)[n - 1], v, checked);
      }
    }
  }

  /** Empty cells are skipped without any change. */
  lemma {:induction false} RunEmptyPrefix(p0: Play, v: Vector, checked: bool, n: int)
    requires IsBoard(p0.board) && IsUnit(v) && 0 <= n <= Size * Size
    requires forall i :: 0 <= i < n ==> Get(p0.board, Order(v)[i]).None?
    ensures Run(p0, v, checked, n) == p0
  {
    if n > 0 {
      RunEmptyPrefix(p0, v, checked, n - 1);
    }
  }

  /** The `j`-th pass of the inner loop in the `i`-th pass of the outer one
   *  visits the cell `(traversals.x[i], traversals.y[j])`. */
  lemma OrderAt(v: Vector, i: int, j: int)
    requires 0 <= i < Size && 0 <= j < Size
    ensures 0 <= i * Size + j < Size * Size
    ensures Order(v)[i * Size + j] == (Trav(v.x)[i], Trav(v.y)[j])
  {
    var k := i * Size + j;
    assert k / Size == i && k % Size == j;
  }

  lemma OrderOfRank(v: Vector, c: Cell)
    requires WithinBounds(c)
    ensures 0 <= Rank(v, c) < Size * Size && Order(v)[Rank(v, c)] == c
  {
    var k := Rank(v, c);
    assert k / Size == Pos(v.x, c.0) && k % Size == Pos(v.y, c.1);
    assert Order(v)[k] == (Trav(v.x)[k / Size], Trav(v.y)[k % Size]);
  }

  /** When every cell before the `k`-th is empty, the tile on it slides
   *  past the edge: the cell after its farthest position is off the board. */
  lemma SlidesOffBoard(b: Board, v: Vector, k: int)
    requires IsBoard(b) && IsUnit(v) && 0 <= k < Size * Size
    requires forall i :: 0 <= i < k ==> Get(b, Order(v)[i]).None?
    ensures var c := Order(v)[k]; !WithinBounds(Next(Farthest(b, c, v), v))
    ensures var c := Order(v)[k]; v.y == 0 ==> !(0 <= Next(Farthest(b, c, v), v).0 < Size)
  {
    RankOfOrder(v, k);
    var c := Order(v)[k];
    var next := Next(Farthest(b, c, v), v);
    FarthestStops(b, c, v);
    if WithinBounds(next) {
      RankFarthest(b, c, v);
      OrderOfRank(v, next);
      assert false;
    }
  }

  lemma DecideCrash(b: Board, c: Cell, v: Vector)
    requires IsBoard(b) && IsUnit(v) && WithinBounds(c) && Get(b, c).Some?
    requires !(0 <= Next(Farthest(b, c, v), v).0 < Size)
    ensures Decide(b, c, v, false) == Crash
  {
  }

  /** The first occupied cell of a left or right move aborts it. */
  lemma FirstTileCrashesHere(p0: Play, v: Vector, k: int)
    requires IsBoard(p0.board) && IsUnit(v) && v.y == 0 && !p0.crashed
    requires 0 <= k < Size * Size && Get(p0.board, Order(v)[k]).Some?
    requires forall i :: 0 <= i < k ==> Get(p0.board, Order(v)[i]).None?
    ensures Run(p0, v, false, k + 1) == p0.(crashed := true)
  {
    var c := Order(v)[k];
    assert Run(p0, v, false, k) == p0 by {
      RunEmptyPrefix(p0, v, false, k);
    }
    assert WithinBounds(c) && Decide(p0.board, c, v, false) == Crash by {
      SlidesOffBoard(p0.board, v, k);
      RankOfOrder(v, k);
      DecideCrash(p0.board, c, v);
    }
    assert Run(p0, v, false, k + 1) == Step(p0, c, v, false);
  }

  /** As written, the first tile met on a left or right move slides to the
   *  edge column, so its `next.x` is -1 or 4 and the read aborts the move. */
  lemma {:induction false} FirstTileCrashes(p0: Play, v: Vector, k: int)
    requires IsBoard(p0.board) && IsUnit(v) && v.y == 0 && !p0.crashed
    requires 0 <= k < Size * Size && Get(p0.board, Order(v)[k]).Some?
    ensures Run(p0, v, false, Size * Size) == p0.(crashed := true)
    decreases k
  {
    if i :| 0 <= i < k && Get(p0.board, Order(v)[i]).Some? {
      FirstTileCrashes(p0, v, i);
    } else {
      FirstTileCrashesHere(p0, v, k);
      RunCrashed(p0, v, false, k + 1, Size * Size);
    }
  }

  /** A left or right move on a board holding any tile aborts with a
   *  `TypeError`, before any tile has moved. */
  lemma SidewaysMoveCrashes(b: Board, score: int, won: bool, v: Vector, c: Cell)
    requires IsBoard(b) && IsUnit(v) && v.x != 0
    requires WithinBounds(c) && Get(b, c).Some?
    ensures Traversal(b, score, won, v, false) == Play(Cleared(b), score, won, false, true)
  {
    OrderOfRank(v, c);
    FirstTileCrashes(Start(b, score, won), v, Rank(v, c));
  }

  /** With the bounds check, and in any vertical move, the traversal runs to
   *  the end. */
  lemma TraversalCompletes(b: Board, score: int, won: bool, v: Vector, checked: bool)
    requires IsBoard(b) && IsUnit(v) && (checked || v.x == 0)
    ensures !Traversal(b, score, won, v, checked).crashed
  {
    RunNeverCrashes(Start(b, score, won), v, checked, Size * Size);
  }

  /** In a vertical move `next.x` is the tile's own column, so the bounds
   *  check changes nothing. */
  lemma DecideUnchecked(b: Board, c: Cell, v: Vector)
    requires IsBoard(b) && IsUnit(v) && v.x == 0 && WithinBounds(c) && Get(b, c).Some?
    ensures Decide(b, c, v, false) == Decide(b, c, v, true)
  {
  }

  lemma {:induction false} RunUnchecked(p0: Play, v: Vector, n: int)
    requires IsBoard(p0.board) && IsUnit(v) && v.x == 0 && 0 <= n <= Size * Size
    ensures Run(p0, v, false, n) == Run(p0, v, true, n)
  {
    if n > 0 {
      RunUnchecked(p0, v, n - 1);
      var q := Run(p0, v, true, n - 1);
      RankOfOrder(v, n - 1);
      if !q.crashed && Get(q.board, Order(v)[n - 1]).Some? {
        DecideUnchecked(q.board, Order(v)[n - 1], v);
      }
    }
  }

  /** Up and down moves are the same with and without the bounds check. */
  lemma VerticalMoveUnchanged(b: Board, score: int, won: bool, v: Vector)
    requires IsBoard(b) && IsUnit(v) && v.x == 0
    ensures Traversal(b, score, won, v, false) == Traversal(b, score, won, v, true)
  {
    RunUnchecked(Start(b, score, won), v, Size * Size);
  }

  // ---------------------------------------------------------------------------
  // Tiles keep recording their own cells

  /** On a board whose tiles record their cells, `Slid` is `moveTile`. */
  lemma SlidIsMoveTile(p: Play, c: Cell, far: Cell)
    requires IsBoard(p.board) && Positioned(p.board) && WithinBounds(c) && WithinBounds(far)
    requires Get(p.board, c).Some?
    ensures Slid(p, c, far).board == MoveTile(p.board, Get(p.board, c).value, far)
  {
  }

  lemma StepPositioned(p: Play, c: Cell, v: Vector, checked: bool)
    requires IsBoard(p.board) && Positioned(p.board) && IsUnit(v) && WithinBounds(c)
    ensures Positioned(Step(p, c, v, checked).board)
  {
    if !p.crashed && Get(p.board, c).Some? {
      match Decide(p.board, c, v, checked)
      case Crash =>
      case MergeInto(next) =>
        assert Step(p, c, v, checked) == Merged(p, c, next);
      case SlideTo(far) =>
        assert Step(p, c, v, checked) == Slid(p, c, far);
    }
  }

  lemma {:induction false} RunPositioned(p0: Play, v: Vector, checked: bool, n: int)
    requires IsBoard(p0.board) && Positioned(p0.board) && IsUnit(v) && 0 <= n <= Size * Size
    ensures Positioned(Run(p0, v, checked, n).board)
  {
    if n > 0 {
      RunPositioned(p0, v, checked, n - 1);
      StepPositioned(Run(p0, v, checked, n - 1), Order(v)[n - 1], v, checked);
    }
  }

  /** After a move every tile still records the cell it sits on. */
  lemma TraversalPositioned(b: Board, score: int, won: bool, v: Vector, checked: bool)
    requires IsBoard(b) && Positioned(b) && IsUnit(v)
    ensures Positioned(Traversal(b, score, won, v, checked).board)
  {
    RunPositioned(Start(b, score, won), v, checked, Size * Size);
  }

  // ---------------------------------------------------------------------------
  // The random tile and the moves-available test

  /** The cell the `k`-th pass of the nested `x`/`y` loops looks at. */
  function CellAt(k: int): Cell
  {
    (k / Size, k % Size)
  }

  /** The empty cells among the first `k` the loops of `addRandomTile`
   *  visit, in the order they are pushed. */
  function EmptyCellsUpTo(b: Board, k: int): (r: seq<Cell>)
    requires IsBoard(b) && 0 <= k <= Size * Size
    ensures forall i :: 0 <= i < |r| ==> WithinBounds(r[i]) && Get(b, r[i]).None?
    decreases k
  {
    if k == 0 then []
    else
      var c := CellAt(k - 1);
      EmptyCellsUpTo(b, k - 1) + (if Get(b, c).None? then [c] else [])
  }

  lemma CellAtOf(x: int, y: int)
    requires 0 <= x < Size && 0 <= y < Size
    ensures 0 <= x * Size + y < Size * Size && CellAt(x * Size + y) == (x, y)
  {
  }

  function EmptyCells(b: Board): seq<Cell>
    requires IsBoard(b)
  {
    EmptyCellsUpTo(b, Size * Size)
  }

  lemma {:induction false} EmptyCellsUpToComplete(b: Board, k: int, c: Cell)
    requires IsBoard(b) && 0 <= k <= Size * Size
    requires WithinBounds(c) && c.0 * Size + c.1 < k && Get(b, c).None?
    ensures c in EmptyCellsUpTo(b, k)
    decreases k
  {
    if c.0 * Size + c.1 < k - 1 {
      EmptyCellsUpToComplete(b, k - 1, c);
    } else {
      assert CellAt(k - 1) == c;
    }
  }

  /** `emptyCells` lists exactly the empty cells of the board. */
  lemma EmptyCellsExactly(b: Board, c: Cell)
    requires IsBoard(b)
    ensures c in EmptyCells(b) <==> WithinBounds(c) && Get(b, c).None?
  {
    if WithinBounds(c) && Get(b, c).None? {
      EmptyCellsUpToComplete(b, Size * Size, c);
    }
  }

  /** `Math.random() < 0.9 ? 2 : 4`, the draw standing for `choice % 10`. */
  function NewValue(choice: nat): (r: int)
    ensures r == 2 || r == 4
  {
    if choice % 10 < 9 then 2 else 4
  }

  /** The board has an empty cell (`cellsAvailable`). */
  predicate HasEmpty(b: Board)
    requires IsBoard(b)
  {
    exists x, y :: 0 <= x < Size && 0 <= y < Size && b[x][y].None?
  }

  /** `addRandomTile`: a new unmerged tile of value 2 or 4 on the
   *  `cellChoice % n`-th of the `n` empty cells; no change on a full board. */
  function AddTile(b: Board, cellChoice: nat, valueChoice: nat): (r: Board)
    requires IsBoard(b)
    ensures IsBoard(r)
  {
    var cells := EmptyCells(b);
    if |cells| == 0 then b
    else
      Placed(b, cells[cellChoice % |cells|], valueChoice)
  }

  /** `b` with a new tile of the value drawn by `valueChoice` on cell `c`. */
  function Placed(b: Board, c: Cell, valueChoice: nat): (r: Board)
    requires IsBoard(b) && WithinBounds(c)
    ensures IsBoard(r) && Get(r, c) == Some(Tile(NewValue(valueChoice), c.0, c.1, false))
    ensures forall d :: WithinBounds(d) && d != c ==> Get(r, d) == Get(b, d)
  {
    Set(b, c, Some(Tile(NewValue(valueChoice), c.0, c.1, false)))
  }

  /** A full board is left as it is; otherwise one empty cell receives a
   *  tile of value 2 or 4 that records that cell, and nothing else changes. */
  lemma AddTileFacts(b: Board, cellChoice: nat, valueChoice: nat)
    requires IsBoard(b)
    ensures !HasEmpty(b) ==> AddTile(b, cellChoice, valueChoice) == b
    ensures HasEmpty(b) ==> (exists c ::
      WithinBounds(c) && Get(b, c).None?
      && AddTile(b, cellChoice, valueChoice) == Placed(b, c, valueChoice))
  {
    var cells := EmptyCells(b);
    if HasEmpty(b) {
      var x, y :| 0 <= x < Size && 0 <= y < Size && b[x][y].None?;
      EmptyCellsExactly(b, (x, y));
      var c := cells[cellChoice % |cells|];
      assert WithinBounds(c) && Get(b, c).None?;
    }
  }

  /** Every empty cell is a possible place for the new tile. */
  lemma AddTileReachesEvery(b: Board, c: Cell, valueChoice: nat)
    requires IsBoard(b) && WithinBounds(c) && Get(b, c).None?
    ensures exists cellChoice: nat ::
      AddTile(b, cellChoice, valueChoice) == Placed(b, c, valueChoice)
  {
    var cells := EmptyCells(b);
    assert c in cells by { EmptyCellsExactly(b, c); }
    var i :| 0 <= i < |cells| && cells[i] == c;
    AddTileAt(b, i, valueChoice);
  }

  /** A draw below the number of empty cells picks that empty cell. */
  lemma AddTileAt(b: Board, i: nat, valueChoice: nat)
    requires IsBoard(b) && i < |EmptyCells(b)|
    ensures AddTile(b, i, valueChoice) == Placed(b, EmptyCells(b)[i], valueChoice)
  {
    assert i % |EmptyCells(b)| == i;
  }

  /** The new tile keeps tiles on their cells and values positive, and adds
   *  its value to the total. */
  lemma AddTileKeepsValid(b: Board, cellChoice: nat, valueChoice: nat)
    requires IsBoard(b) && Positioned(b) && Positive(b)
    ensures Positioned(AddTile(b, cellChoice, valueChoice)) && Positive(AddTile(b, cellChoice, valueChoice))
    ensures Total(AddTile(b, cellChoice, valueChoice), Values)
      == Total(b, Values) + (if HasEmpty(b) then NewValue(valueChoice) else 0)
  {
    AddTileFacts(b, cellChoice, valueChoice);
    if HasEmpty(b) {
      var c :| WithinBounds(c) && Get(b, c).None?
        && AddTile(b, cellChoice, valueChoice) == Placed(b, c, valueChoice);
      SetTotal(b, c, Some(Tile(NewValue(valueChoice), c.0, c.1, false)), Values);
    }
  }

  /** The directions `tileMatchesAvailable` looks in: up, right, down, left. */
  const Directions: seq<Vector> := [Vector(0, -1), Vector(1, 0), Vector(0, 1), Vector(-1, 0)]

  /** The tile on `(x, y)` has an equal neighbour in direction `d`; a
   *  neighbour off the board reads as `undefined` through `?.`. */
  predicate MatchAt(b: Board, x: int, y: int, d: Vector)
    requires IsBoard(b) && 0 <= x < Size && 0 <= y < Size
  {
    b[x][y].Some? && 0 <= x + d.x < Size && 0 <= y + d.y < Size
    && b[x + d.x][y + d.y].Some? && b[x + d.x][y + d.y].value.value == b[x][y].value.value
  }

  /** Some tile has an equal neighbour (`tileMatchesAvailable`). */
  predicate HasMatch(b: Board)
    requires IsBoard(b)
  {
    exists x, y, i :: 0 <= x < Size && 0 <= y < Size && 0 <= i < |Directions| && MatchAt(b, x, y, Directions[i])
  }

  /** `movesAvailable`. */
  predicate MovesLeft(b: Board)
    requires IsBoard(b)
  {
    HasEmpty(b) || HasMatch(b)
  }

  // ---------------------------------------------------------------------------
  // The game object

  /** What the overlay layer shows: nothing, the "You Win!" message (with
   *  its Keep Playing button), or "Game Over!". */
  datatype Overlay = NoOverlay | WinMessage | GameOverMessage

  function Max(a: int, b: int): int
  {
    if a > b then a else b
  }

  /** The keys `handleKeyDown` maps to directions: the arrow keys and
   *  `w`, `d`, `s`, `a`, in the order up, right, down, left. */
  const ArrowKeys: seq<string> := ["ArrowUp", "ArrowRight", "ArrowDown", "ArrowLeft"]
  const LetterKeys: seq<string> := ["w", "d", "s", "a"]

  /** The direction a key stands for, if any. */
  function KeyVector(key: string): (r: Option<Vector>)
    ensures r.Some? <==> key in ArrowKeys || key in LetterKeys
    ensures r.Some? ==> r.value in Directions && IsUnit(r.value)
  {
    if key == "ArrowUp" || key == "w" then Some(Directions[0])
    else if key == "ArrowRight" || key == "d" then Some(Directions[1])
    else if key == "ArrowDown" || key == "s" then Some(Directions[2])
    else if key == "ArrowLeft" || key == "a" then Some(Directions[3])
    else None
  }

  /** Both spellings of each direction lead to the same vector, and each of
   *  the four directions has its keys. */
  lemma KeysCoverDirections(k: int)
    requires 0 <= k < 4
    ensures KeyVector(ArrowKeys[k]) == KeyVector(LetterKeys[k]) == Some(Directions[k])
  {
  }

  class Game2048 {
    var board: Board
    var score: int
    var bestScore: int
    var gameOver: bool
    var won: bool
    var overlay: Overlay

    /** Every tile sits on the cell it records and has a positive value. */
    ghost predicate Valid()
      reads this
    {
      IsBoard(board) && Positioned(board) && Positive(board)
    }

    /** `new Game2048(container)`: `saved` is the stored best score, and the
     *  two `restart` draws place the first two tiles. */
    constructor (saved: Option<int>, cell1: nat, value1: nat, cell2: nat, value2: nat)
      ensures Valid()
      ensures board == AddTile(AddTile(EmptyBoard(), cell1, value1), cell2, value2)
      ensures score == 0 && !gameOver && !won && overlay == NoOverlay
      ensures bestScore == Max(0, saved.GetOr(0))
    {
      score := 0;
      bestScore := saved.GetOr(0);
      gameOver := false;
      won := false;
      board := EmptyBoard();
      overlay := NoOverlay;
      new;
      Restart(cell1, value1, cell2, value2);
    }

    /** `restart`: an empty board with two random tiles, score 0. */
    method Restart(cell1: nat, value1: nat, cell2: nat, value2: nat)
      modifies this
      ensures Valid()
      ensures board == AddTile(AddTile(EmptyBoard(), cell1, value1), cell2, value2)
      ensures score == 0 && !gameOver && !won && overlay == NoOverlay
      ensures bestScore == Max(old(bestScore), 0)
    {
      board := EmptyBoard();
      score := 0;
      gameOver := false;
      won := false;
      overlay := NoOverlay;
      AddTileKeepsValid(board, cell1, value1);
      AddRandomTile(cell1, value1);
      AddTileKeepsValid(board, cell2, value2);
      AddRandomTile(cell2, value2);
      UpdateScore();
    }

    /** `addRandomTile`, with the empty cells collected by the nested loops. */
    method AddRandomTile(cellChoice: nat, valueChoice: nat)
      requires IsBoard(board)
      modifies this`board
      ensures board == AddTile(old(board), cellChoice, valueChoice)
    {
      var b := board;
      var emptyCells: seq<Cell> := [];
      ghost var k := 0;
      var x := 0;
      while x < Size
        invariant 0 <= x <= Size && k == x * Size && board == b
        invariant emptyCells == EmptyCellsUpTo(b, k)
      {
        var y := 0;
        while y < Size
          invariant 0 <= y <= Size && k == x * Size + y && board == b
          invariant emptyCells == EmptyCellsUpTo(b, k)
        {
          CellAtOf(x, y);
          if b[x][y].None? {
            emptyCells := emptyCells + [(x, y)];
          }
          y := y + 1;
          k := k + 1;
        }
        x := x + 1;
      }
      assert emptyCells == EmptyCells(b);
      if |emptyCells| > 0 {
        var c := emptyCells[cellChoice % |emptyCells|];
        board := Set(b, c, Some(Tile(NewValue(valueChoice), c.0, c.1, false)));
      }
    }

    /** `updateScore`: the best score follows the score upwards. */
    method UpdateScore()
      modifies this`bestScore
      ensures bestScore == Max(old(bestScore), score)
      ensures bestScore >= score && bestScore >= old(bestScore)
    {
      if score > bestScore {
        bestScore := score;
      }
    }

    /** The Keep Playing button: hides the message and clears `won`. */
    method KeepPlaying()
      requires overlay == WinMessage
      modifies this`overlay, this`won
      ensures overlay == NoOverlay && !won
    {
      overlay := NoOverlay;
      won := false;
    }
  
    /** `findFarthestPosition`: the do-while loop walks from `cell` along
     *  `vector` while the next cell is on the board and empty. */
    static method FindFarthestPosition(board: Board, cell: Cell, vector: Vector) returns (farthest: Cell, next: Cell)
      requires IsBoard(board) && IsUnit(vector) && WithinBounds(cell)
      ensures farthest == Farthest(board, cell, vector) && next == Next(farthest, vector)
    {
      var previous := cell;
      var current := Next(previous, vector);
      while WithinBounds(current) && board[current.0][current.1].None?
        invariant WithinBounds(previous) && current == Next(previous, vector)
        invariant Farthest(board, previous, vector) == Farthest(board, cell, vector)
        decreases Reach(previous, vector)
      {
        previous := current;
        current := Next(previous, vector);
      }
      farthest, next := previous, current;
    }

    /** `buildTraversals`: `0..3` on each axis, reversed on an axis whose
     *  component of the vector is 1. */
    static method BuildTraversals(vector: Vector) returns (xs: seq<int>, ys: seq<int>)
      ensures xs == Trav(vector.x) && ys == Trav(vector.y)
    {
      xs, ys := [], [];
      var pos := 0;
      while pos < Size
        invariant 0 <= pos <= Size && |xs| == pos && xs == ys
        invariant forall i :: 0 <= i < pos ==> xs[i] == i
      {
        xs := xs + [pos];
        ys := ys + [pos];
        pos := pos + 1;
      }
      assert xs == [0, 1, 2, 3];
      if vector.x == 1 {
        xs := Reverse(xs);
      }
      if vector.y == 1 {
        ys := Reverse(ys);
      }
    }

    /** `prepareTiles`: resets the merge mark of every tile. */
    method PrepareTiles()
      requires IsBoard(board)
      modifies this`board
      ensures board == Cleared(old(board))
    {
      ghost var b := board;
      var x := 0;
      while x < Size
        invariant 0 <= x <= Size && IsBoard(board)
        invariant forall i, j :: 0 <= i < Size && 0 <= j < Size ==>
          board[i][j] == if i < x then ClearMark(b[i][j]) else b[i][j]
      {
        var y := 0;
        while y < Size
          invariant 0 <= y <= Size && IsBoard(board)
          invariant forall i, j :: 0 <= i < Size && 0 <= j < Size ==>
            board[i][j] == if i < x || (i == x && j < y) then ClearMark(b[i][j]) else b[i][j]
        {
          if board[x][y].Some? {
            board := Set(board, (x, y), Some(board[x][y].value.(merged := false)));
          }
          y := y + 1;
        }
        x := x + 1;
      }
      assert forall i :: 0 <= i < Size ==> board[i] == Cleared(b)[i];
    }
  
    /** The body of the inner `forEach` for `cell`, on the state `p` the
     *  loops thread through. With `checked` false the neighbour read aborts
     *  as the source's does. */
    static method ProcessCell(p: Play, cell: Cell, vector: Vector, checked: bool) returns (r: Play)
      requires IsBoard(p.board) && Positioned(p.board) && IsUnit(vector) && WithinBounds(cell) && !p.crashed
      ensures r == Step(p, cell, vector, checked)
    {
      r := p;
      var tile := p.board[cell.0][cell.1];
      if tile.Some? {
        var farthest, next := FindFarthestPosition(p.board, cell, vector);
        if !checked && !(0 <= next.0 < Size) {
          assert Decide(p.board, cell, vector, checked) == Crash;
          r := p.(crashed := true);
          return;
        }
        var nextTile := if WithinBounds(next) then p.board[next.0][next.1] else None;
        if nextTile.Some? && nextTile.value.value == tile.value.value && !nextTile.value.merged {
          assert Decide(p.board, cell, vector, checked) == MergeInto(next);
          r := MergeTiles(p, cell, next);
        } else {
          assert Decide(p.board, cell, vector, checked) == SlideTo(farthest);
          r := MoveTileTo(p, cell, farthest);
        }
      }
    }

    /** `ProcessCell` on the `n`-th cell of the traversal order. */
    static method VisitCell(p: Play, cell: Cell, vector: Vector, checked: bool, ghost n: int, ghost start: Play)
      returns (r: Play)
      requires IsUnit(vector) && 0 <= n < Size * Size && Order(vector)[n] == cell
      requires IsBoard(start.board) && IsBoard(p.board) && Positioned(p.board) && !p.crashed
      requires p == Run(start, vector, checked, n)
      ensures r == Run(start, vector, checked, n + 1)
      ensures IsBoard(r.board) && Positioned(r.board)
    {
      RunSnoc(start, vector, checked, n);
      StepPositioned(p, cell, vector, checked);
      r := ProcessCell(p, cell, vector, checked);
    }

    /** The merge branch of the inner `forEach`, on the state `p`. */
    static method MergeTiles(p: Play, cell: Cell, next: Cell) returns (r: Play)
      requires IsBoard(p.board) && WithinBounds(cell) && WithinBounds(next) && Get(p.board, cell).Some?
      ensures r == Merged(p, cell, next)
    {
      var tile := p.board[cell.0][cell.1].value;
      var merged := Tile(tile.value * 2, next.0, next.1, true);
      var board := Set(p.board, cell, None);
      board := Set(board, next, Some(merged));
      var score := p.score + merged.value;
      var won := p.won;
      if merged.value == 2048 {
        won := true;
      }
      r := Play(board, score, won, true, false);
    }

    /** The `moveTile` branch of the inner `forEach`, on the state `p`. */
    static method MoveTileTo(p: Play, cell: Cell, farthest: Cell) returns (r: Play)
      requires IsBoard(p.board) && Positioned(p.board) && WithinBounds(cell) && WithinBounds(farthest)
      requires Get(p.board, cell).Some?
      ensures r == Slid(p, cell, farthest)
    {
      var tile := p.board[cell.0][cell.1].value;
      SlidIsMoveTile(p, cell, farthest);
      var board := MoveTile(p.board, tile, farthest);
      var moved := p.moved;
      if cell != farthest {
        moved := true;
      }
      r := p.(board := board, moved := moved);
    }
  
    /** The slide/merge phase of `move`: `prepareTiles`, then the two nested
     *  `forEach` loops over the traversal order. An abort leaves the board
     *  as it is at that point. */
    method Traverse(vector: Vector, checked: bool) returns (moved: bool, crashed: bool)
      requires IsBoard(board) && Positioned(board) && IsUnit(vector)
      modifies this`board, this`score, this`won
      ensures IsBoard(board)
      ensures Play(board, score, won, moved, crashed)
        == Traversal(old(board), old(score), old(won), vector, checked)
    {
      var xs, ys := BuildTraversals(vector);
      PrepareTiles();
      var p := Play(board, score, won, false, false);
      ghost var start := p;
      assert start == Start(old(board), old(score), old(won));
      var i := 0;
      while i < Size && !p.crashed
        invariant 0 <= i <= Size && IsBoard(p.board) && Positioned(p.board)
        invariant !p.crashed ==> p == Run(start, vector, checked, i * Size)
        invariant p.crashed ==> p == Run(start, vector, checked, Size * Size)
      {
        p := TraverseColumn(p, xs[i], ys, vector, checked, i, start);
        i := i + 1;
      }
      board, score, won, moved, crashed := p.board, p.score, p.won, p.moved, p.crashed;
    }

    /** The inner `forEach` over `traversals.y` for the `i`-th `x`. */
    static method TraverseColumn(p: Play, x: int, ys: seq<int>, vector: Vector, checked: bool, i: int, ghost start: Play)
      returns (r: Play)
      requires 0 <= i < Size && IsUnit(vector) && x == Trav(vector.x)[i] && ys == Trav(vector.y)
      requires IsBoard(p.board) && Positioned(p.board) && IsBoard(start.board) && !p.crashed
      requires p == Run(start, vector, checked, i * Size)
      ensures IsBoard(r.board) && Positioned(r.board)
      ensures r.crashed ==> r == Run(start, vector, checked, Size * Size)
      ensures !r.crashed ==> r == Run(start, vector, checked, (i + 1) * Size)
    {
      r := p;
      ghost var n := i * Size;
      var j := 0;
      while j < Size
        invariant 0 <= j <= Size && n == i * Size + j && IsBoard(r.board) && Positioned(r.board) && !r.crashed
        invariant r == Run(start, vector, checked, n)
      {
        OrderAt(vector, i, j);
        r := VisitCell(r, (x, ys[j]), vector, checked, n, start);
        if r.crashed {
          CrashIsFinal(start, vector, checked, n + 1);
          return;
        }
        j := j + 1;
        n := n + 1;
      }
    }
  
    /** `cellsAvailable`: the loops return at the first empty cell. */
    method CellsAvailable() returns (r: bool)
      requires IsBoard(board)
      ensures r == HasEmpty(board)
    {
      var x := 0;
      while x < Size
        invariant 0 <= x <= Size
        invariant forall i, j :: 0 <= i < x && 0 <= j < Size ==> board[i][j].Some?
      {
        var y := 0;
        while y < Size
          invariant 0 <= y <= Size
          invariant forall j :: 0 <= j < y ==> board[x][j].Some?
        {
          if board[x][y].None? {
            return true;
          }
          y := y + 1;
        }
        x := x + 1;
      }
      return false;
    }

    /** `tileMatchesAvailable`: the loops return at the first tile with an
     *  equal neighbour in one of the four directions. */
    method TileMatchesAvailable() returns (r: bool)
      requires IsBoard(board)
      ensures r == HasMatch(board)
    {
      var x := 0;
      while x < Size
        invariant 0 <= x <= Size
        invariant forall i, j, k :: 0 <= i < x && 0 <= j < Size && 0 <= k < |Directions| ==> !MatchAt(board, i, j, Directions[k])
      {
        var y := 0;
        while y < Size
          invariant 0 <= y <= Size
          invariant forall j, k :: 0 <= j < y && 0 <= k < |Directions| ==> !MatchAt(board, x, j, Directions[k])
        {
          var tile := board[x][y];
          if tile.Some? {
            var k := 0;
            while k < |Directions|
              invariant 0 <= k <= |Directions|
              invariant forall m :: 0 <= m < k ==> !MatchAt(board, x, y, Directions[m])
            {
              var d := Directions[k];
              var other := if 0 <= x + d.x < Size && 0 <= y + d.y < Size then board[x + d.x][y + d.y] else None;
              if other.Some? && other.value.value == tile.value.value {
                assert MatchAt(board, x, y, Directions[k]);
                return true;
              }
              k := k + 1;
            }
          }
          y := y + 1;
        }
        x := x + 1;
      }
      return false;
    }

    /** `movesAvailable`: an empty cell, or else two equal neighbours. */
    method MovesAvailable() returns (r: bool)
      requires IsBoard(board)
      ensures r == MovesLeft(board)
    {
      r := CellsAvailable();
      if !r {
        r := TileMatchesAvailable();
      }
    }

    /** `move(direction)`. Nothing happens once the game is over. Otherwise
     *  the tiles are traversed; a move that changed something adds a random
     *  tile, updates the best score and then shows the game-over message if
     *  no move is left, or the win message if 2048 was reached and it is not
     *  already showing. `crashed` is the TypeError the traversal raises when
     *  `checked` is false and a tile looks past the left or right edge: the
     *  method stops there, keeping what the traversal had changed. */
    method Move(vector: Vector, checked: bool, cellChoice: nat, valueChoice: nat) returns (crashed: bool)
      requires Valid() && IsUnit(vector)
      modifies this`board, this`score, this`won, this`bestScore, this`gameOver, this`overlay
      ensures Valid()
      ensures old(gameOver) ==> !crashed && unchanged(this)
      ensures !old(gameOver) ==>
        var t := Traversal(old(board), old(score), old(won), vector, checked);
        crashed == t.crashed && score == t.score && won == t.won
        && (crashed || !t.moved ==>
              board == t.board && bestScore == old(bestScore)
              && gameOver == old(gameOver) && overlay == old(overlay))
        && (!crashed && t.moved ==>
              board == AddTile(t.board, cellChoice, valueChoice)
              && bestScore == Max(old(bestScore), t.score)
              && gameOver == !MovesLeft(board)
              && overlay == (if !MovesLeft(board) then GameOverMessage
                             else if won && old(overlay) != WinMessage then WinMessage
                             else old(overlay)))
    {
      crashed := false;
      if gameOver {
        return;
      }
      ghost var b0, s0, w0 := board, score, won;
      TraversalFacts(b0, s0, w0, vector, checked);
      TraversalPositioned(b0, s0, w0, vector, checked);
      var moved;
      moved, crashed := Traverse(vector, checked);
      if crashed || !moved {
        return;
      }
      AddTileKeepsValid(board, cellChoice, valueChoice);
      AddRandomTile(cellChoice, valueChoice);
      UpdateScore();
      var available := MovesAvailable();
      if !available {
        gameOver := true;
        overlay := GameOverMessage;
      } else if won && overlay != WinMessage {
        overlay := WinMessage;
      }
    }

    /** `handleKeyDown`: a key of the map moves the tiles while the game has
     *  the focus, exactly as Move does with the key's vector and the
     *  unchecked read; any other key, or a key while the focus is elsewhere,
     *  does nothing. */
    method HandleKeyDown(key: string, focused: bool, cellChoice: nat, valueChoice: nat) returns (crashed: bool)
      requires Valid()
      modifies this`board, this`score, this`won, this`bestScore, this`gameOver, this`overlay
      ensures Valid()
      ensures (!focused || KeyVector(key).None?) ==> !crashed && unchanged(this)
      ensures crashed ==> focused && KeyVector(key).Some? && KeyVector(key).value.x != 0
      ensures focused && KeyVector(key).Some? && old(gameOver) ==> !crashed && unchanged(this)
      ensures focused && KeyVector(key).Some? && !old(gameOver) ==>
        var t := Traversal(old(board), old(score), old(won), KeyVector(key).value, false);
        crashed == t.crashed && score == t.score && won == t.won
        && (crashed || !t.moved ==>
              board == t.board && bestScore == old(bestScore)
              && gameOver == old(gameOver) && overlay == old(overlay))
        && (!crashed && t.moved ==>
              board == AddTile(t.board, cellChoice, valueChoice)
              && bestScore == Max(old(bestScore), t.score)
              && gameOver == !MovesLeft(board)
              && overlay == (if !MovesLeft(board) then GameOverMessage
                             else if won && old(overlay) != WinMessage then WinMessage
                             else old(overlay)))
    {
      crashed := false;
      if !focused {
        return;
      }
      var direction := KeyVector(key);
      if direction.Some? {
        crashed := Move(direction.value, false, cellChoice, valueChoice);
        if direction.value.x == 0 {
          TraversalCompletes(old(board), old(score), old(won), direction.value, false);
        }
      }
    }
  }
}
