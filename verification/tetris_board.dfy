/** Geometry shared by the two Tetris games (`src/games/tetris.ts`, the canvas
 *  game, and `tetris.ts`, the React component): a 22 x 10 board whose top two
 *  rows are a hidden buffer, shapes as rows of 0/1 numbers, the clockwise
 *  rotation with its wall kicks, the collision rule, the landing row of a
 *  drop and the writing of a piece into the board. */
module TetrisBoard {
  import opened Wrappers

  const Width: int := 10
  const VisibleHeight: int := 20
  const BufferRows: int := 2
  const Height: int := 22

  /** A board cell: `0` or the colour of the piece that locked there. */
  datatype Cell = Blank | Color(color: string)

  type Row = seq<Cell>
  type Board = seq<Row>
  type Shape = seq<seq<int>>

  /** A piece kind's shape and colour. The canvas game copies the shape rows
   *  before use and the React game hands out the table's own entry, but
   *  neither writes to it, so the table itself is never changed. */
  datatype Tetromino = Tetromino(shape: Shape, color: string)

  /** The falling piece: the board column and row of its top-left corner. */
  datatype Piece = Piece(x: int, y: int, tetromino: Tetromino)

  /** The shapes of `TETROMINOS` in key order I, J, L, O, S, T, Z, the same
   *  in both games. */
  function ShapeOf(k: int): (s: Shape)
    ensures IsShape(s) && HasCell(s)
  {
    var s :=
      if k == 0 then [[1, 1, 1, 1]]
      else if k == 1 then [[1, 0, 0], [1, 1, 1]]
      else if k == 2 then [[0, 0, 1], [1, 1, 1]]
      else if k == 3 then [[1, 1], [1, 1]]
      else if k == 4 then [[0, 1, 1], [1, 1, 0]]
      else if k == 5 then [[0, 1, 0], [1, 1, 1]]
      else [[1, 1, 0], [0, 1, 1]];
    assert Filled(s, |s| - 1, 1);
    s
  }

  /** A usable piece shape: rectangular with a filled cell. */
  predicate IsTetromino(t: Tetromino)
  {
    IsShape(t.shape) && HasCell(t.shape)
  }

  /** Rotation keeps a shape usable. */
  lemma RotatedIsTetromino(t: Tetromino)
    requires IsTetromino(t)
    ensures IsTetromino(t.(shape := Rotated(t.shape)))
  {
    var r, c :| Filled(t.shape, r, c);
    RotateFilled(t.shape, r, c);
  }

  predicate IsBoard(b: Board)
  {
    |b| == Height && forall y :: 0 <= y < |b| ==> |b[y]| == Width
  }

  function BlankRow(): (r: Row)
    ensures |r| == Width && forall x :: 0 <= x < Width ==> r[x] == Blank
  {
    seq(Width, _ => Blank)
  }

  /** `createEmptyBoard()`. */
  function EmptyBoard(): (b: Board)
    ensures IsBoard(b)
    ensures forall y, x :: 0 <= y < Height && 0 <= x < Width ==> b[y][x] == Blank
  {
    seq(Height, _ => BlankRow())
  }

  /** A rectangular shape with at least one row and one column. */
  predicate IsShape(s: Shape)
  {
    |s| > 0 && |s[0]| > 0 && forall r :: 0 <= r < |s| ==> |s[r]| == |s[0]|
  }

  /** Shape cell (r, c) exists and holds a non-zero number. */
  predicate Filled(s: Shape, r: int, c: int)
  {
    0 <= r < |s| && 0 <= c < |s[r]| && s[r][c] != 0
  }

  predicate HasCell(s: Shape)
  {
    exists r, c | 0 <= r < |s| && 0 <= c < |s[r]| :: Filled(s, r, c)
  }

  // ---------------------------------------------------------------------------
  // Rotation

  /** `shape[0].map((_, i) => shape.map(row => row[i]).reverse())`: row `i`
   *  of the result is column `i` read from the bottom up. */
  function Rotated(s: Shape): (t: Shape)
    requires IsShape(s)
    ensures IsShape(t) && |t| == |s[0]| && |t[0]| == |s|
    ensures forall i, j :: 0 <= i < |t| && 0 <= j < |t[i]| ==> t[i][j] == s[|s| - 1 - j][i]
  {
    seq(|s[0]|, i requires 0 <= i < |s[0]| => seq(|s|, j requires 0 <= j < |s| => s[|s| - 1 - j][i]))
  }

  /** Two rotations turn the shape upside down. */
  lemma RotateTwice(s: Shape)
    requires IsShape(s)
    ensures |Rotated(Rotated(s))| == |s| && IsShape(Rotated(Rotated(s)))
    ensures forall i, j :: 0 <= i < |s| && 0 <= j < |s[0]| ==>
      Rotated(Rotated(s))[i][j] == s[|s| - 1 - i][|s[0]| - 1 - j]
  {
    var t := Rotated(s);
    var u := Rotated(t);
    forall i, j | 0 <= i < |s| && 0 <= j < |s[0]|
      ensures u[i][j] == s[|s| - 1 - i][|s[0]| - 1 - j]
    {
      assert u[i][j] == t[|t| - 1 - j][i];
    }
  }

  /** Four clockwise rotations give back the shape. */
  lemma RotateFour(s: Shape)
    requires IsShape(s)
    ensures Rotated(Rotated(Rotated(Rotated(s)))) == s
  {
    var h := Rotated(Rotated(s));
    RotateTwice(s);
    RotateTwice(h);
    var f := Rotated(Rotated(h));
    assert |f| == |s|;
    forall i | 0 <= i < |s|
      ensures f[i] == s[i]
    {
      assert |f[i]| == |s[i]|;
      forall j | 0 <= j < |s[0]|
        ensures f[i][j] == s[i][j]
      {
        assert f[i][j] == h[|h| - 1 - i][|h[0]| - 1 - j];
      }
    }
  }

  /** Rotation moves every filled cell to a filled cell and back: cell (r, c)
   *  of the shape is cell (c, rows - 1 - r) of the rotated shape. */
  lemma RotateFilled(s: Shape, r: int, c: int)
    requires IsShape(s)
    ensures Filled(s, r, c) <==> Filled(Rotated(s), c, |s| - 1 - r)
  {
  }

  // ---------------------------------------------------------------------------
  // Collision

  /** The board position (X, Y) is outside the side walls, below the floor,
   *  or on a non-empty cell; positions above the top row are free. */
  predicate Blocked(b: Board, X: int, Y: int)
    requires IsBoard(b)
  {
    X < 0 || X >= Width || Y >= Height || (Y >= 0 && b[Y][X] != Blank)
  }

  /** `checkCollision(x, y, shape)`: some filled cell of the shape, placed
   *  with its top-left corner at (x, y), is blocked. */
  predicate Collides(b: Board, x: int, y: int, s: Shape)
    requires IsBoard(b)
  {
    exists r, c | 0 <= r < |s| && 0 <= c < |s[r]| :: Filled(s, r, c) && Blocked(b, x + c, y + r)
  }

  /** The nested loops of `checkCollision`, stopping at the first blocked
   *  filled cell. */
  method CheckCollision(b: Board, x: int, y: int, s: Shape) returns (hit: bool)
    requires IsBoard(b)
    ensures hit == Collides(b, x, y, s)
  {
    var row := 0;
    while row < |s|
      invariant 0 <= row <= |s|
      invariant forall r, c :: 0 <= r < row && Filled(s, r, c) ==> !Blocked(b, x + c, y + r)
    {
      var col := 0;
      while col < |s[row]|
        invariant 0 <= col <= |s[row]|
        invariant forall r, c :: 0 <= r < row && Filled(s, r, c) ==> !Blocked(b, x + c, y + r)
        invariant forall c :: 0 <= c < col && Filled(s, row, c) ==> !Blocked(b, x + c, y + row)
      {
        if s[row][col] != 0 {
          var newX := x + col;
          var newY := y + row;
          if newX < 0 || newX >= Width || newY >= Height {
            assert Filled(s, row, col) && Blocked(b, x + col, y + row);
            return true;
          }
          if newY >= 0 && b[newY][newX] != Blank {
            assert Filled(s, row, col) && Blocked(b, x + col, y + row);
            return true;
          }
        }
        col := col + 1;
      }
      row := row + 1;
    }
    return false;
  }

  /** A piece whose filled cells all lie between the walls and above the top
   *  row never collides. */
  lemma AboveTopIsFree(b: Board, x: int, y: int, s: Shape)
    requires IsBoard(b)
    requires forall r, c :: Filled(s, r, c) ==> 0 <= x + c < Width && y + r < 0
    ensures !Collides(b, x, y, s)
  {
  }

  /** A piece that does not collide has every filled cell above the floor. */
  lemma FreeIsAboveFloor(b: Board, x: int, y: int, s: Shape, r: int, c: int)
    requires IsBoard(b) && !Collides(b, x, y, s) && Filled(s, r, c)
    ensures y + r < Height && 0 <= x + c < Width
  {
  }

  // ---------------------------------------------------------------------------
  // Wall kicks

  datatype Offset = Offset(dx: int, dy: int)

  /** The six kick offsets `rotate` tries, in order. */
  const Kicks: seq<Offset> := [Offset(0, 0), Offset(-1, 0), Offset(1, 0), Offset(0, -1), Offset(-1, -1), Offset(1, -1)]

  /** The kick offset number `i` fits the rotated shape at (x, y). */
  predicate KickFits(b: Board, x: int, y: int, t: Shape, i: int)
    requires IsBoard(b) && 0 <= i < |Kicks|
  {
    !Collides(b, x + Kicks[i].dx, y + Kicks[i].dy, t)
  }

  /** The index of the first kick offset from `k` on that fits, or
   *  `|Kicks|` when none does: the offset `rotate` applies. */
  function FirstFit(b: Board, x: int, y: int, t: Shape, k: nat): (i: nat)
    requires IsBoard(b) && k <= |Kicks|
    ensures k <= i <= |Kicks|
    decreases |Kicks| - k
  {
    if k == |Kicks| then k
    else if KickFits(b, x, y, t, k) then k
    else FirstFit(b, x, y, t, k + 1)
  }

  /** The offset found fits, and every offset tried before it collides. */
  lemma {:induction false} FirstFitIsFirst(b: Board, x: int, y: int, t: Shape, k: nat)
    requires IsBoard(b) && k <= |Kicks|
    ensures var i := FirstFit(b, x, y, t, k);
      (i < |Kicks| ==> KickFits(b, x, y, t, i))
      && forall j :: k <= j < i ==> !KickFits(b, x, y, t, j)
    decreases |Kicks| - k
  {
    if k < |Kicks| && !KickFits(b, x, y, t, k) {
      FirstFitIsFirst(b, x, y, t, k + 1);
    }
  }

  /** One step of the search: a fitting offset is the answer, a colliding
   *  one passes the search on to the next. */
  lemma FirstFitStep(b: Board, x: int, y: int, t: Shape, k: nat)
    requires IsBoard(b) && k < |Kicks|
    ensures !Collides(b, x + Kicks[k].dx, y + Kicks[k].dy, t) ==> FirstFit(b, x, y, t, k) == k
    ensures Collides(b, x + Kicks[k].dx, y + Kicks[k].dy, t) ==> FirstFit(b, x, y, t, k) == FirstFit(b, x, y, t, k + 1)
  {
  }

  /** Piece `p` turned clockwise and moved by kick offset `i`. */
  function Kicked(p: Piece, i: int): Piece
    requires IsShape(p.tetromino.shape) && 0 <= i < |Kicks|
  {
    Piece(p.x + Kicks[i].dx, p.y + Kicks[i].dy, p.tetromino.(shape := Rotated(p.tetromino.shape)))
  }

  /** The turned piece at the first kick offset that fits, if one does. */
  function RotatedPiece(b: Board, p: Piece): Option<Piece>
    requires IsBoard(b) && IsShape(p.tetromino.shape)
  {
    var i := FirstFit(b, p.x, p.y, Rotated(p.tetromino.shape), 0);
    if i == |Kicks| then None else Some(Kicked(p, i))
  }

  /** The `for` loop over the kick offsets in `rotate`. */
  method TurnPiece(b: Board, p: Piece) returns (r: Option<Piece>)
    requires IsBoard(b) && IsShape(p.tetromino.shape)
    ensures r == RotatedPiece(b, p)
  {
    var rotated := Rotated(p.tetromino.shape);
    var i := 0;
    while i < |Kicks|
      invariant 0 <= i <= |Kicks|
      invariant FirstFit(b, p.x, p.y, rotated, i) == FirstFit(b, p.x, p.y, rotated, 0)
    {
      var hit := CheckCollision(b, p.x + Kicks[i].dx, p.y + Kicks[i].dy, rotated);
      FirstFitStep(b, p.x, p.y, rotated, i);
      if !hit {
        return Some(Kicked(p, i));
      }
      i := i + 1;
    }
    return None;
  }

  // ---------------------------------------------------------------------------
  // Dropping

  /** The row a `while (!collides(x, y + 1)) y++` loop stops at. */
  function Landing(b: Board, x: int, y: int, s: Shape): (ly: int)
    requires IsBoard(b) && HasCell(s)
    ensures ly >= y && Collides(b, x, ly + 1, s)
    decreases Height - y
  {
    if Collides(b, x, y + 1, s) then y
    else
      var r, c :| Filled(s, r, c);
      FreeIsAboveFloor(b, x, y + 1, s, r, c);
      Landing(b, x, y + 1, s)
  }

  /** Every row from just below `y` down to the landing row is free, so the
   *  landing row is the lowest one reachable by single steps. */
  lemma {:induction false} LandingReachable(b: Board, x: int, y: int, s: Shape)
    requires IsBoard(b) && HasCell(s)
    ensures forall z :: y < z <= Landing(b, x, y, s) ==> !Collides(b, x, z, s)
    decreases Height - y
  {
    if !Collides(b, x, y + 1, s) {
      var r, c :| Filled(s, r, c);
      FreeIsAboveFloor(b, x, y + 1, s, r, c);
      LandingReachable(b, x, y + 1, s);
    }
  }

  /** The landing row of a piece that has reached it is where it is. */
  lemma LandingStays(b: Board, x: int, y: int, s: Shape)
    requires IsBoard(b) && HasCell(s) && Collides(b, x, y + 1, s)
    ensures Landing(b, x, y, s) == y
  {
  }

  /** The `while (!checkCollision(x, y + 1, shape)) y++` loop of
   *  `hardDrop` and `getGhostY`. */
  method LandingRow(b: Board, x: int, y0: int, s: Shape) returns (y: int)
    requires IsBoard(b) && HasCell(s)
    ensures y == Landing(b, x, y0, s)
  {
    y := y0;
    var hit := CheckCollision(b, x, y + 1, s);
    while !hit
      invariant Landing(b, x, y, s) == Landing(b, x, y0, s)
      invariant hit == Collides(b, x, y + 1, s)
      decreases Height - y
    {
      ghost var r, c :| Filled(s, r, c);
      FreeIsAboveFloor(b, x, y + 1, s, r, c);
      y := y + 1;
      hit := CheckCollision(b, x, y + 1, s);
    }
  }

  // ---------------------------------------------------------------------------
  // Writing a piece into the board

  /** Board cell (X, Y) is covered by the piece with its top-left corner at
   *  (x, y). */
  predicate Covers(s: Shape, x: int, y: int, X: int, Y: int)
  {
    Filled(s, Y - y, X - x)
  }

  /** The board with the colour written into every in-bounds cell the piece
   *  covers; the rest of the board as it was. */
  function Stamp(b: Board, x: int, y: int, s: Shape, color: string): (r: Board)
    requires IsBoard(b)
    ensures IsBoard(r)
    ensures forall Y, X :: 0 <= Y < Height && 0 <= X < Width ==>
      r[Y][X] == (if Covers(s, x, y, X, Y) then Color(color) else b[Y][X])
  {
    seq(Height, Y requires 0 <= Y < Height =>
      seq(Width, X requires 0 <= X < Width => if Covers(s, x, y, X, Y) then Color(color) else b[Y][X]))
  }

  /** Row `BUFFER_ROWS`, the top visible row, holds a non-empty cell. */
  predicate TopRowFilled(b: Board)
    requires IsBoard(b)
  {
    exists X :: 0 <= X < Width && b[BufferRows][X] != Blank
  }

  /** The `for (let x = 0; x < BOARD_WIDTH; x++)` scan of row `BUFFER_ROWS`
   *  for a locked cell (`checkGameOver` in the React game, the game-over
   *  test of `lockPiece` in the canvas game). */
  method CheckTopRow(b: Board) returns (over: bool)
    requires IsBoard(b)
    ensures over == TopRowFilled(b)
  {
    var x := 0;
    while x < Width
      invariant 0 <= x <= Width
      invariant forall X :: 0 <= X < x ==> b[BufferRows][X] == Blank
    {
      if b[BufferRows][x] != Blank {
        return true;
      }
      x := x + 1;
    }
    return false;
  }

  // ---------------------------------------------------------------------------
  // Full rows

  predicate Full(row: Row)
  {
    forall X :: 0 <= X < |row| ==> row[X] != Blank
  }

  /** `row.every(cell => cell !== 0)`. */
  method RowIsFull(row: Row) returns (full: bool)
    ensures full == Full(row)
  {
    var x := 0;
    while x < |row|
      invariant 0 <= x <= |row|
      invariant forall X :: 0 <= X < x ==> row[X] != Blank
    {
      if row[x] == Blank {
        return false;
      }
      x := x + 1;
    }
    return true;
  }

  lemma BlankRowNotFull()
    ensures !Full(BlankRow())
  {
    assert BlankRow()[0] == Blank;
  }

  /** `n` blank rows. */
  function Blanks(n: nat): (r: seq<Row>)
    ensures |r| == n && forall i :: 0 <= i < n ==> r[i] == BlankRow()
  {
    seq(n, _ => BlankRow())
  }

  /** The rows of `rows` that are not full, in order. */
  function NotFull(rows: seq<Row>): (r: seq<Row>)
    ensures |r| <= |rows|
  {
    if rows == [] then [] else NotFull(rows[..|rows| - 1]) + (if Full(rows[|rows| - 1]) then [] else [rows[|rows| - 1]])
  }

  /** Without full rows nothing is dropped. */
  lemma {:induction false} NotFullKeepsAll(rows: seq<Row>)
    requires forall i :: 0 <= i < |rows| ==> !Full(rows[i])
    ensures NotFull(rows) == rows
  {
    if rows != [] {
      NotFullKeepsAll(rows[..|rows| - 1]);
    }
  }

  /** Dropping the full rows of `[x] + xs` is dropping them from `xs` after
   *  `x`. */
  lemma {:induction false} NotFullCons(x: Row, xs: seq<Row>)
    ensures NotFull([x] + xs) == (if Full(x) then [] else [x]) + NotFull(xs)
    decreases |xs|
  {
    if xs != [] {
      var ys := [x] + xs;
      assert ys[..|ys| - 1] == [x] + xs[..|xs| - 1];
      NotFullCons(x, xs[..|xs| - 1]);
    }
  }

  /** The number of full rows among `rows`. */
  function FullCount(rows: seq<Row>): nat
  {
    |rows| - |NotFull(rows)|
  }

  // ---------------------------------------------------------------------------
  // The canvas game's `clearLines` loop

  /** The board the loop leaves and the number of rows it removed. */
  datatype Swept = Swept(board: Board, count: nat)

  /** `board.splice(row, 1)` followed by `board.unshift(blank row)`. */
  function DropRow(b: Board, row: int): (r: Board)
    requires IsBoard(b) && 0 <= row < Height
    ensures IsBoard(r) && r[0] == BlankRow()
    ensures forall Y :: 0 < Y <= row ==> r[Y] == b[Y - 1]
    ensures forall Y :: row < Y < Height ==> r[Y] == b[Y]
  {
    [BlankRow()] + b[..row] + b[row + 1..]
  }

  /** Removing a full row at or above index `row` lowers the number of full
   *  rows in the first `row + 1` rows by one. */
  lemma DropRowCount(b: Board, row: int)
    requires IsBoard(b) && 0 <= row < Height && Full(b[row])
    ensures FullCount(DropRow(b, row)[..row + 1]) < FullCount(b[..row + 1])
  {
    var d := DropRow(b, row);
    assert d[..row + 1] == [BlankRow()] + b[..row];
    NotFullCons(BlankRow(), b[..row]);
    BlankRowNotFull();
    assert b[..row + 1][..row] == b[..row];
  }

  /** The loop `for (row = 21; row >= BUFFER_ROWS; row--)` from `row` on: a
   *  full row is removed, a blank row is put on top and the same index is
   *  checked again. */
  function Sweep(b: Board, row: int): (r: Swept)
    requires IsBoard(b) && BufferRows - 1 <= row < Height
    ensures IsBoard(r.board)
    decreases FullCount(b[..row + 1]), row
  {
    if row < BufferRows then Swept(b, 0)
    else if Full(b[row]) then
      DropRowCount(b, row);
      var s := Sweep(DropRow(b, row), row);
      Swept(s.board, s.count + 1)
    else
      assert b[..row + 1][..row] == b[..row];
      Sweep(b, row - 1)
  }

  /** After the loop no row below the buffer is full. */
  lemma {:induction false} SweepLeavesNoFullRow(b: Board, row: int)
    requires IsBoard(b) && BufferRows - 1 <= row < Height
    requires forall Y :: row < Y < Height ==> !Full(b[Y])
    ensures forall Y :: BufferRows <= Y < Height ==> !Full(Sweep(b, row).board[Y])
    decreases FullCount(b[..row + 1]), row
  {
    if row >= BufferRows {
      if Full(b[row]) {
        DropRowCount(b, row);
        SweepLeavesNoFullRow(DropRow(b, row), row);
      } else {
        assert b[..row + 1][..row] == b[..row];
        SweepLeavesNoFullRow(b, row - 1);
      }
    }
  }

  /** Sweeping from `row` keeps the rows above it that are not full, in
   *  their order, pads the top with one blank row per full row removed, and
   *  leaves the rows below `row` alone. */
  predicate Compacts(b: Board, row: int)
    requires IsBoard(b) && BufferRows - 1 <= row < Height
  {
    var k := FullCount(b[..row + 1]);
    Sweep(b, row) == Swept(Blanks(k) + NotFull(b[..row + 1]) + b[row + 1..], k)
  }

  /** Removing a full row `row` keeps the compaction of the rest. */
  lemma CompactsDrop(b: Board, row: int)
    requires IsBoard(b) && BufferRows <= row < Height && Full(b[row])
    requires Compacts(DropRow(b, row), row)
    ensures Compacts(b, row)
  {
    var d := DropRow(b, row);
    assert d[..row + 1] == [BlankRow()] + b[..row];
    NotFullCons(BlankRow(), b[..row]);
    BlankRowNotFull();
    assert b[..row + 1][..row] == b[..row];
    var k := FullCount(d[..row + 1]);
    assert Blanks(k) + [BlankRow()] == Blanks(k + 1);
    assert d[row + 1..] == b[row + 1..];
  }

  /** Moving past a row that is not full keeps it after the kept rows above. */
  lemma CompactsKeep(b: Board, row: int)
    requires IsBoard(b) && BufferRows <= row < Height && !Full(b[row])
    requires Compacts(b, row - 1)
    ensures Compacts(b, row)
  {
    var pre := b[..row + 1];
    assert pre[..row] == b[..row];
    var kept := NotFull(b[..row]);
    assert NotFull(pre) == kept + [b[row]];
    var k := FullCount(b[..row]);
    assert FullCount(pre) == k;
    assert Sweep(b, row) == Sweep(b, row - 1);
    assert b[row..] == [b[row]] + b[row + 1..] by {
      assert b[row..][0] == b[row] && b[row..][1..] == b[row + 1..];
    }
    assert Blanks(k) + (kept + [b[row]]) + b[row + 1..] == Blanks(k) + kept + b[row..];
  }

  /** With no full row in the buffer, the loop compacts the board. */
  lemma {:induction false} SweepCompacts(b: Board, row: int)
    requires IsBoard(b) && BufferRows - 1 <= row < Height
    requires !Full(b[0]) && !Full(b[1])
    ensures Compacts(b, row)
    decreases FullCount(b[..row + 1]), row
  {
    if row < BufferRows {
      var pre := b[..row + 1];
      assert !Full(pre[0]) && !Full(pre[1]);
      NotFullKeepsAll(pre);
      assert b == pre + b[row + 1..];
    } else if Full(b[row]) {
      DropRowCount(b, row);
      BlankRowNotFull();
      SweepCompacts(DropRow(b, row), row);
      CompactsDrop(b, row);
    } else {
      assert b[..row + 1][..row] == b[..row];
      SweepCompacts(b, row - 1);
      CompactsKeep(b, row);
    }
  }

  // ---------------------------------------------------------------------------
  // The React game's `clearLines`

  /** The rows among the first `n` that the loop copies into `updatedBoard`:
   *  buffer rows always, other rows when they are not full. */
  function Kept(b: Board, n: int): (r: seq<Row>)
    requires IsBoard(b) && 0 <= n <= Height
    ensures |r| <= n && forall i :: 0 <= i < |r| ==> |r[i]| == Width
  {
    if n == 0 then []
    else Kept(b, n - 1) + (if n - 1 >= BufferRows && Full(b[n - 1]) then [] else [b[n - 1]])
  }

  /** `updatedBoard` padded with blank rows on top back to 22 rows. */
  function Compact(b: Board): (r: Board)
    requires IsBoard(b)
    ensures IsBoard(r)
  {
    var k := Kept(b, Height);
    Blanks(Height - |k|) + k
  }

  /** With no full row in the buffer, the rows the React loop keeps are the
   *  rows that are not full. */
  lemma {:induction false} KeptIsNotFull(b: Board, n: int)
    requires IsBoard(b) && 0 <= n <= Height && !Full(b[0]) && !Full(b[1])
    ensures Kept(b, n) == NotFull(b[..n])
  {
    if n > 0 {
      KeptIsNotFull(b, n - 1);
      assert b[..n][..n - 1] == b[..n - 1];
    }
  }

  /** The two games clear lines alike when the buffer holds no full row: the
   *  same board, and as many cleared rows as the React game counts. */
  lemma ClearingAgrees(b: Board)
    requires IsBoard(b) && !Full(b[0]) && !Full(b[1])
    ensures Sweep(b, Height - 1).board == Compact(b)
    ensures Sweep(b, Height - 1).count == Height - |Kept(b, Height)|
  {
    SweepCompacts(b, Height - 1);
    KeptIsNotFull(b, Height);
    assert b[..Height] == b;
    assert b[Height..] == [];
  }
}
