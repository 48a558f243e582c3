/** The React Tetris component of `tetris.ts`. Its state lives in `useState`
 *  hooks, so a `Game` value is one render's state. Every handler reads the
 *  state of the render that created it and applies its setters in order;
 *  it is a method from that state to the next one, proved equal to a
 *  function that the lemmas below are about. The second half of
 *  `clearLines` runs in a timer 500 ms later, with the values it captured. */
module TetrisReact {
  import opened Wrappers
  import opened TetrisBoard

  /** The colours of `TETROMINOS`, in key order I, J, L, O, S, T, Z. */
  function ColorOf(k: int): string
  {
    if k == 0 then "cyan-500"
    else if k == 1 then "blue-500"
    else if k == 2 then "orange-500"
    else if k == 3 then "yellow-500"
    else if k == 4 then "green-500"
    else if k == 5 then "purple-500"
    else "red-500"
  }

  function TetrominoOf(k: int): (t: Tetromino)
    ensures IsTetromino(t)
  {
    Tetromino(ShapeOf(k), ColorOf(k))
  }

  /** `randomTetromino()`; `choice` stands for the random draw. */
  function RandomTetromino(choice: nat): (t: Tetromino)
    ensures IsTetromino(t)
    ensures t == TetrominoOf(choice % 7)
  {
    TetrominoOf(choice % 7)
  }

  /** `generateNextPieces()`, one draw per piece. */
  function GenerateNextPieces(choices: seq<nat>): (r: seq<Tetromino>)
    ensures |r| == |choices|
    ensures forall i :: 0 <= i < |r| ==> r[i] == RandomTetromino(choices[i])
  {
    seq(|choices|, i requires 0 <= i < |choices| => RandomTetromino(choices[i]))
  }

  /** The column `spawnNewPiece` and `holdPiece` put a new piece at. */
  const SpawnX := Width / 2 - 1

  /** What a timer set by `clearLines` holds: the rows it kept, how many
   *  rows it cleared, and score, lines and level as the placing render saw
   *  them. */
  datatype Pending = Pending(kept: seq<Row>, cleared: nat, score: int, lines: int, level: int)

  /** The component's state, plus the timers `clearLines` has set and that
   *  have not fired yet, oldest first. */
  datatype Game = Game(
    board: Board,
    current: Option<Piece>,
    next: seq<Tetromino>,
    held: Option<Tetromino>,
    canHold: bool,
    score: int,
    highScore: int,
    lines: int,
    gameOver: bool,
    paused: bool,
    level: int,
    completedRows: seq<int>,
    timers: seq<Pending>)

  predicate ValidPending(t: Pending)
  {
    |t.kept| <= Height && (forall i :: 0 <= i < |t.kept| ==> |t.kept[i]| == Width)
    && t.score >= 0 && t.lines >= 0
  }

  /** Three usable pieces wait in the queue. */
  predicate QueueOk(next: seq<Tetromino>)
  {
    |next| == 3 && forall i :: 0 <= i < |next| ==> IsTetromino(next[i])
  }

  predicate PieceOk(p: Option<Piece>)
  {
    p.Some? ==> IsTetromino(p.value.tetromino)
  }

  predicate TimersOk(timers: seq<Pending>)
  {
    forall i :: 0 <= i < |timers| ==> ValidPending(timers[i])
  }

  predicate Valid(g: Game)
  {
    IsBoard(g.board) && QueueOk(g.next) && PieceOk(g.current)
    && (g.held.Some? ==> IsTetromino(g.held.value))
    && g.score >= 0 && g.lines >= 0 && TimersOk(g.timers)
  }

  // ---------------------------------------------------------------------------
  // Placing a piece

  /** A board cell that exists and is empty. */
  predicate Free(b: Board, X: int, Y: int)
    requires IsBoard(b)
  {
    0 <= Y < Height && 0 <= X < Width && b[Y][X] == Blank
  }

  /** Every filled cell of the piece lands on a free board cell. */
  predicate Placeable(b: Board, p: Piece)
    requires IsBoard(b)
  {
    var s := p.tetromino.shape;
    forall r, c | 0 <= r < |s| && 0 <= c < |s[r]| :: Filled(s, r, c) ==> Free(b, p.x + c, p.y + r)
  }

  /** A piece can be placed exactly when it does not collide and no filled
   *  cell is above the top row, where `checkCollision` lets cells be. */
  lemma PlaceableIff(b: Board, p: Piece)
    requires IsBoard(b)
    ensures Placeable(b, p) <==>
      !Collides(b, p.x, p.y, p.tetromino.shape)
      && forall r, c :: Filled(p.tetromino.shape, r, c) ==> p.y + r >= 0
  {
    var s := p.tetromino.shape;
    if !Placeable(b, p) && !Collides(b, p.x, p.y, s) {
      var r, c :| 0 <= r < |s| && 0 <= c < |s[r]| && Filled(s, r, c) && !Free(b, p.x + c, p.y + r);
      assert !(Filled(s, r, c) && Blocked(b, p.x + c, p.y + r));
      assert p.y + r < 0;
    }
  }

  /** The cells of the shape before (`row`, `col`) in reading order. */
  predicate Before(r: int, c: int, row: int, col: int)
  {
    r < row || (r == row && c < col)
  }

  /** The placement checks so far all passed. */
  ghost predicate CheckedUpTo(b: Board, p: Piece, row: int, col: int)
    requires IsBoard(b)
  {
    forall r, c :: Filled(p.tetromino.shape, r, c) && Before(r, c, row, col) ==> Free(b, p.x + c, p.y + r)
  }

  /** The copy holds the colour in every cell visited so far that was empty;
   *  everything else is as on `b`. */
  ghost predicate CopiedUpTo(nb: Board, b: Board, p: Piece, row: int, col: int)
    requires IsBoard(b)
  {
    IsBoard(nb)
    && forall Y, X :: 0 <= Y < Height && 0 <= X < Width ==>
         nb[Y][X] == (if Covers(p.tetromino.shape, p.x, p.y, X, Y) && Before(Y - p.y, X - p.x, row, col)
                         && b[Y][X] == Blank
                      then Color(p.tetromino.color) else b[Y][X])
  }

  /** Checking one more cell of the shape. */
  lemma CheckedStep(b: Board, p: Piece, row: int, col: int)
    requires IsBoard(b) && 0 <= row < |p.tetromino.shape| && 0 <= col < |p.tetromino.shape[row]|
    ensures CheckedUpTo(b, p, row, col + 1) <==>
      CheckedUpTo(b, p, row, col) && (Filled(p.tetromino.shape, row, col) ==> Free(b, p.x + col, p.y + row))
  {
  }

  /** At the end of a shape row the check moves on to the next row. */
  lemma CheckedNextRow(b: Board, p: Piece, row: int)
    requires IsBoard(b) && 0 <= row < |p.tetromino.shape|
    ensures CheckedUpTo(b, p, row, |p.tetromino.shape[row]|) <==> CheckedUpTo(b, p, row + 1, 0)
  {
  }

  /** The cell about to be visited still holds what `b` holds; writing the
   *  colour there when it is empty, or skipping it otherwise, extends the
   *  copy by one cell. */
  lemma CopiedStep(nb: Board, b: Board, p: Piece, row: int, col: int)
    requires IsBoard(b) && CopiedUpTo(nb, b, p, row, col)
    requires 0 <= row < |p.tetromino.shape| && 0 <= col < |p.tetromino.shape[row]|
    ensures var Y, X := p.y + row, p.x + col;
      (0 <= Y < Height && 0 <= X < Width ==> nb[Y][X] == b[Y][X])
      && (p.tetromino.shape[row][col] != 0 && 0 <= Y < Height && 0 <= X < Width && nb[Y][X] == Blank ==>
            CopiedUpTo(nb[Y := nb[Y][X := Color(p.tetromino.color)]], b, p, row, col + 1))
      && (!(p.tetromino.shape[row][col] != 0 && 0 <= Y < Height && 0 <= X < Width && nb[Y][X] == Blank) ==>
            CopiedUpTo(nb, b, p, row, col + 1))
  {
  }

  lemma CopiedNextRow(nb: Board, b: Board, p: Piece, row: int)
    requires IsBoard(b) && 0 <= row < |p.tetromino.shape|
    requires CopiedUpTo(nb, b, p, row, |p.tetromino.shape[row]|)
    ensures CopiedUpTo(nb, b, p, row + 1, 0)
  {
  }

  /** One cell of the `forEach` loops: a filled cell inside the board that
   *  is empty gets the colour, any other filled cell clears `valid`. */
  method PlaceCell(nb: Board, valid: bool, b: Board, p: Piece, row: int, col: int)
    returns (nb': Board, valid': bool)
    requires IsBoard(b) && CopiedUpTo(nb, b, p, row, col) && valid == CheckedUpTo(b, p, row, col)
    requires 0 <= row < |p.tetromino.shape| && 0 <= col < |p.tetromino.shape[row]|
    ensures CopiedUpTo(nb', b, p, row, col + 1) && valid' == CheckedUpTo(b, p, row, col + 1)
  {
    CheckedStep(b, p, row, col);
    CopiedStep(nb, b, p, row, col);
    nb', valid' := nb, valid;
    if p.tetromino.shape[row][col] != 0 {
      var boardY := row + p.y;
      var boardX := col + p.x;
      if 0 <= boardY < Height && 0 <= boardX < Width {
        if nb[boardY][boardX] == Blank {
          nb' := nb[boardY := nb[boardY][boardX := Color(p.tetromino.color)]];
        } else {
          valid' := false;
        }
      } else {
        valid' := false;
      }
    }
  }

  /** The `forEach` loops of `placePieceAtPosition` on the copy of the
   *  board: `valid` is `validPlacement`, and a valid copy is the board
   *  with the piece written in. */
  method PlaceOnCopy(b: Board, p: Piece) returns (nb: Board, valid: bool)
    requires IsBoard(b)
    ensures valid == Placeable(b, p)
    ensures valid ==> nb == Stamp(b, p.x, p.y, p.tetromino.shape, p.tetromino.color)
  {
    var s := p.tetromino.shape;
    var color := p.tetromino.color;
    nb := b;
    valid := true;
    var row := 0;
    while row < |s|
      invariant 0 <= row <= |s|
      invariant valid == CheckedUpTo(b, p, row, 0)
      invariant CopiedUpTo(nb, b, p, row, 0)
    {
      var col := 0;
      while col < |s[row]|
        invariant 0 <= col <= |s[row]|
        invariant valid == CheckedUpTo(b, p, row, col)
        invariant CopiedUpTo(nb, b, p, row, col)
      {
        nb, valid := PlaceCell(nb, valid, b, p, row, col);
        col := col + 1;
      }
      CheckedNextRow(b, p, row);
      CopiedNextRow(nb, b, p, row);
      row := row + 1;
    }
    assert valid == Placeable(b, p);
    if valid {
      var st := Stamp(b, p.x, p.y, s, color);
      assert forall Y :: 0 <= Y < Height ==> nb[Y] == st[Y];
    }
  }

  // ---------------------------------------------------------------------------
  // Clearing lines

  /** `linesCleared` after the first `n` rows: the indices from
   *  `BUFFER_ROWS` on of full rows, in increasing order, and all of them. */
  function FullRows(b: Board, n: int): (r: seq<int>)
    requires IsBoard(b) && 0 <= n <= Height
    ensures |r| + |Kept(b, n)| == n
  {
    if n == 0 then []
    else FullRows(b, n - 1) + (if n - 1 >= BufferRows && Full(b[n - 1]) then [n - 1] else [])
  }

  /** Every index in `linesCleared` is a full row from `BUFFER_ROWS` on. */
  lemma {:induction false} FullRowsAreFull(b: Board, n: int)
    requires IsBoard(b) && 0 <= n <= Height
    ensures forall i :: 0 <= i < |FullRows(b, n)| ==>
      BufferRows <= FullRows(b, n)[i] < n && Full(b[FullRows(b, n)[i]])
  {
    if n > 0 {
      FullRowsAreFull(b, n - 1);
      var r, r' := FullRows(b, n), FullRows(b, n - 1);
      var last := if n - 1 >= BufferRows && Full(b[n - 1]) then [n - 1] else [];
      assert r == r' + last;
      forall i | 0 <= i < |r|
        ensures BufferRows <= r[i] < n && Full(b[r[i]])
      {
        if i < |r'| {
          assert r[i] == r'[i];
        } else {
          assert r[i] == last[0] == n - 1;
        }
      }
    }
  }

  /** `linesCleared` is in increasing order. */
  lemma {:induction false} FullRowsIncreasing(b: Board, n: int)
    requires IsBoard(b) && 0 <= n <= Height
    ensures forall i, j :: 0 <= i < j < |FullRows(b, n)| ==> FullRows(b, n)[i] < FullRows(b, n)[j]
  {
    if n > 0 {
      FullRowsIncreasing(b, n - 1);
      FullRowsAreFull(b, n - 1);
      var r, r' := FullRows(b, n), FullRows(b, n - 1);
      var last := if n - 1 >= BufferRows && Full(b[n - 1]) then [n - 1] else [];
      assert r == r' + last;
      forall i, j | 0 <= i < j < |r|
        ensures r[i] < r[j]
      {
        assert r[i] == r'[i];
        if j < |r'| {
          assert r[j] == r'[j];
        } else {
          assert r[j] == last[0] == n - 1;
        }
      }
    }
  }

  /** Every full row from `BUFFER_ROWS` on is in `linesCleared`. */
  lemma {:induction false} FullRowsComplete(b: Board, n: int)
    requires IsBoard(b) && 0 <= n <= Height
    ensures forall y :: BufferRows <= y < n && Full(b[y]) ==> y in FullRows(b, n)
  {
    if n > 0 {
      FullRowsComplete(b, n - 1);
    }
  }

  /** The first loop of `clearLines`: full rows from `BUFFER_ROWS` on go to
   *  `linesCleared`, the others, in order, to `updatedBoard`. */
  method SplitRows(b: Board) returns (linesCleared: seq<int>, updated: seq<Row>)
    requires IsBoard(b)
    ensures linesCleared == FullRows(b, Height) && updated == Kept(b, Height)
  {
    linesCleared := [];
    updated := [];
    var i := 0;
    while i < Height
      invariant 0 <= i <= Height
      invariant linesCleared == FullRows(b, i) && updated == Kept(b, i)
    {
      var row := b[i];
      var dropped := false;
      if i >= BufferRows {
        dropped := RowIsFull(row);
      }
      if dropped {
        linesCleared := linesCleared + [i];
      } else {
        updated := updated + [row];
      }
      i := i + 1;
    }
  }

  /** The `while (updatedBoard.length < TOTAL_BOARD_HEIGHT) unshift` loop
   *  the timer runs. */
  method PadRows(kept: seq<Row>) returns (b: seq<Row>)
    requires |kept| <= Height
    ensures b == Blanks(Height - |kept|) + kept
  {
    b := kept;
    while |b| < Height
      invariant |kept| <= |b| <= Height
      invariant b == Blanks(|b| - |kept|) + kept
      decreases Height - |b|
    {
      assert [BlankRow()] + Blanks(|b| - |kept|) == Blanks(|b| - |kept| + 1);
      b := [BlankRow()] + b;
    }
  }

  /** `completedRows`: the cleared indices counted from the first visible
   *  row. */
  function VisibleRows(rows: seq<int>): (r: seq<int>)
    ensures |r| == |rows| && forall i :: 0 <= i < |r| ==> r[i] == rows[i] - BufferRows
  {
    seq(|rows|, i requires 0 <= i < |rows| => rows[i] - BufferRows)
  }

  /** `clearLines(newBoard)` up to the timer: with full rows, the flash rows
   *  are set and a timer is queued with what the render saw. */
  function Scheduled(g: Game, nb: Board): Game
    requires IsBoard(nb)
  {
    var cleared := FullRows(nb, Height);
    if |cleared| == 0 then g
    else g.(completedRows := VisibleRows(cleared),
            timers := g.timers + [Pending(Kept(nb, Height), |cleared|, g.score, g.lines, g.level)])
  }

  method ClearLines(g: Game, newBoard: Board) returns (r: Game)
    requires IsBoard(newBoard)
    ensures r == Scheduled(g, newBoard)
  {
    var linesCleared, updatedBoard := SplitRows(newBoard);
    r := g;
    if |linesCleared| > 0 {
      r := r.(completedRows := VisibleRows(linesCleared),
              timers := r.timers + [Pending(updatedBoard, |linesCleared|, g.score, g.lines, g.level)]);
    }
  }

  /** The timer callback of `clearLines`: the board becomes the captured
   *  rows padded back to 22, score and lines grow from the captured values
   *  by 100 per row and by the row count, and the level goes up by one when
   *  the new line count reaches the captured level's next ten. */
  function Fired(g: Game): Game
    requires |g.timers| > 0 && ValidPending(g.timers[0])
  {
    var t := g.timers[0];
    var newScore := t.score + t.cleared * 100;
    var newLines := t.lines + t.cleared;
    g.(board := Blanks(Height - |t.kept|) + t.kept, completedRows := [],
       score := newScore, lines := newLines,
       highScore := if g.highScore >= newScore then g.highScore else newScore,
       level := if newLines / 10 > t.level - 1 then g.level + 1 else g.level,
       timers := g.timers[1..])
  }

  method FireTimer(g: Game) returns (r: Game)
    requires |g.timers| > 0 && ValidPending(g.timers[0])
    ensures r == Fired(g)
  {
    var t := g.timers[0];
    var updatedBoard := PadRows(t.kept);
    var newScore := t.score + t.cleared * 100;
    var newLines := t.lines + t.cleared;
    r := g.(board := updatedBoard, completedRows := [], score := newScore, lines := newLines);
    r := r.(highScore := if r.highScore >= newScore then r.highScore else newScore);
    if newLines / 10 > t.level - 1 {
      r := r.(level := r.level + 1);
    }
    r := r.(timers := g.timers[1..]);
  }

  // ---------------------------------------------------------------------------
  // Spawning and placing

  /** `spawnNewPiece`: the head of the queue at (4, 0) and a new piece at
   *  the end of the queue; a collision with `b`, the board its closure saw,
   *  ends the game and leaves the current piece as it was. */
  function SpawnedFrom(g: Game, b: Board, choice: nat): Game
    requires IsBoard(b) && |g.next| > 0
  {
    var t := g.next[0];
    var g1 := g.(next := g.next[1..] + [RandomTetromino(choice)]);
    if Collides(b, SpawnX, 0, t.shape) then g1.(gameOver := true)
    else g1.(current := Some(Piece(SpawnX, 0, t)))
  }

  method SpawnNewPiece(g: Game, b: Board, choice: nat) returns (r: Game)
    requires IsBoard(b) && |g.next| > 0
    ensures r == SpawnedFrom(g, b, choice)
  {
    var newPiece := Piece(SpawnX, 0, g.next[0]);
    var updatedNextPieces := g.next[1..] + [RandomTetromino(choice)];
    r := g.(next := updatedNextPieces);
    var hit := CheckCollision(b, newPiece.x, newPiece.y, newPiece.tetromino.shape);
    if hit {
      r := r.(gameOver := true);
    } else {
      r := r.(current := Some(newPiece));
    }
  }

  /** `placePieceAtPosition(piece)`: a piece that does not fit ends the
   *  game and leaves the board alone; otherwise the board takes the piece,
   *  a filled row `BUFFER_ROWS` ends the game, and else the lines are
   *  scheduled for clearing, holding is allowed again and the next piece
   *  spawns, its collision checked against the board before placing. */
  function Placed(g: Game, p: Piece, choice: nat): Game
    requires Valid(g)
  {
    if !Placeable(g.board, p) then g.(gameOver := true)
    else
      var nb := Stamp(g.board, p.x, p.y, p.tetromino.shape, p.tetromino.color);
      var g1 := g.(board := nb, current := None);
      if TopRowFilled(nb) then g1.(gameOver := true)
      else SpawnedFrom(Scheduled(g1, nb).(canHold := true), g.board, choice)
  }

  method PlacePieceAtPosition(g: Game, piece: Piece, choice: nat) returns (r: Game)
    requires Valid(g)
    ensures r == Placed(g, piece, choice)
  {
    var newBoard, validPlacement := PlaceOnCopy(g.board, piece);
    if !validPlacement {
      return g.(gameOver := true);
    }
    r := g.(board := newBoard, current := None);
    var over := CheckTopRow(newBoard);
    if over {
      return r.(gameOver := true);
    }
    r := ClearLines(r, newBoard);
    r := r.(canHold := true);
    r := SpawnNewPiece(r, g.board, choice);
  }

  // ---------------------------------------------------------------------------
  // Handlers

  /** `moveLeft` (dx = -1) and `moveRight` (dx = 1). */
  function Shifted(g: Game, dx: int): Game
    requires IsBoard(g.board)
  {
    if g.current.Some? && !g.paused
       && !Collides(g.board, g.current.value.x + dx, g.current.value.y, g.current.value.tetromino.shape)
    then g.(current := Some(g.current.value.(x := g.current.value.x + dx)))
    else g
  }

  method Shift(g: Game, dx: int) returns (r: Game)
    requires IsBoard(g.board)
    ensures r == Shifted(g, dx)
  {
    r := g;
    if g.current.Some? && !g.paused {
      var p := g.current.value;
      var hit := CheckCollision(g.board, p.x + dx, p.y, p.tetromino.shape);
      if !hit {
        r := g.(current := Some(p.(x := p.x + dx)));
      }
    }
  }

  /** `moveDown`, which places the piece (`placePiece`) when it cannot go
   *  down. */
  function MovedDown(g: Game, choice: nat): Game
    requires Valid(g)
  {
    if g.current.None? || g.paused then g
    else
      var p := g.current.value;
      if !Collides(g.board, p.x, p.y + 1, p.tetromino.shape) then g.(current := Some(p.(y := p.y + 1)))
      else Placed(g, p, choice)
  }

  method MoveDown(g: Game, choice: nat) returns (r: Game)
    requires Valid(g)
    ensures r == MovedDown(g, choice)
  {
    if g.current.None? || g.paused {
      return g;
    }
    var p := g.current.value;
    var hit := CheckCollision(g.board, p.x, p.y + 1, p.tetromino.shape);
    if !hit {
      return g.(current := Some(p.(y := p.y + 1)));
    }
    r := PlacePieceAtPosition(g, p, choice);
  }

  /** `rotate`: as in the canvas game, the first of the six kick offsets
   *  that fits, or no change. */
  function Rotation(g: Game): Game
    requires Valid(g)
  {
    if g.current.None? || g.paused then g
    else
      match RotatedPiece(g.board, g.current.value)
      case None => g
      case Some(q) => g.(current := Some(q))
  }

  method Rotate(g: Game) returns (r: Game)
    requires Valid(g)
    ensures r == Rotation(g)
  {
    if g.current.None? || g.paused {
      return g;
    }
    var turned := TurnPiece(g.board, g.current.value);
    r := if turned.Some? then g.(current := turned) else g;
  }

  /** `hardDrop`: the piece is placed at the landing row, and only when it
   *  fits there. */
  function HardDropped(g: Game, choice: nat): Game
    requires Valid(g)
  {
    if g.current.None? || g.paused then g
    else
      var p := g.current.value;
      var dropY := Landing(g.board, p.x, p.y, p.tetromino.shape);
      if !Collides(g.board, p.x, dropY, p.tetromino.shape) then Placed(g, p.(y := dropY), choice)
      else g
  }

  method HardDrop(g: Game, choice: nat) returns (r: Game)
    requires Valid(g)
    ensures r == HardDropped(g, choice)
  {
    if g.current.None? || g.paused {
      return g;
    }
    var p := g.current.value;
    var dropY := LandingRow(g.board, p.x, p.y, p.tetromino.shape);
    var hit := CheckCollision(g.board, p.x, dropY, p.tetromino.shape);
    if !hit {
      r := PlacePieceAtPosition(g, p.(y := dropY), choice);
    } else {
      r := g;
    }
  }

  /** `holdPiece`: once per placement, and also while paused. A held piece
   *  that does not fit at (4, 0) ends the game; otherwise it swaps with the
   *  current one; with nothing held the next piece spawns. */
  function Holding(g: Game, choice: nat): Game
    requires Valid(g)
  {
    if !g.canHold || g.current.None? then g
    else
      var cur := g.current.value.tetromino;
      if g.held.Some? then
        if Collides(g.board, SpawnX, 0, g.held.value.shape) then g.(gameOver := true)
        else g.(held := Some(cur), current := Some(Piece(SpawnX, 0, g.held.value)), canHold := false)
      else SpawnedFrom(g.(held := Some(cur)), g.board, choice).(canHold := false)
  }

  method HoldPiece(g: Game, choice: nat) returns (r: Game)
    requires Valid(g)
    ensures r == Holding(g, choice)
  {
    if !g.canHold || g.current.None? {
      return g;
    }
    if g.held.Some? {
      var newPiece := Piece(SpawnX, 0, g.held.value);
      var hit := CheckCollision(g.board, newPiece.x, newPiece.y, newPiece.tetromino.shape);
      if hit {
        return g.(gameOver := true);
      }
      r := g.(held := Some(g.current.value.tetromino), current := Some(newPiece));
    } else {
      r := g.(held := Some(g.current.value.tetromino));
      r := SpawnNewPiece(r, g.board, choice);
    }
    r := r.(canHold := false);
  }

  /** `togglePause`, which has no game-over guard of its own. */
  function PauseToggled(g: Game): Game
  {
    g.(paused := !g.paused)
  }

  /** The interval callback, which reads the last rendered state. */
  function Ticked(g: Game, choice: nat): Game
    requires Valid(g)
  {
    if g.gameOver || g.paused || g.current.None? then g
    else
      var piece := g.current.value;
      if !Collides(g.board, piece.x, piece.y + 1, piece.tetromino.shape) then
        g.(current := Some(piece.(y := piece.y + 1)))
      else Placed(g, piece, choice)
  }

  method Tick(g: Game, choice: nat) returns (r: Game)
    requires Valid(g)
    ensures r == Ticked(g, choice)
  {
    if g.gameOver || g.paused || g.current.None? {
      return g;
    }
    var piece := g.current.value;
    var hit := CheckCollision(g.board, piece.x, piece.y + 1, piece.tetromino.shape);
    if !hit {
      r := g.(current := Some(piece.(y := piece.y + 1)));
    } else {
      r := PlacePieceAtPosition(g, piece, choice);
    }
  }

  /** `handleKeyPress`; every key is ignored once the game is over. */
  function KeyPressed(g: Game, key: string, choice: nat): Game
    requires Valid(g)
  {
    if g.gameOver then g
    else if key == "ArrowLeft" then Shifted(g, -1)
    else if key == "ArrowRight" then Shifted(g, 1)
    else if key == "ArrowDown" then MovedDown(g, choice)
    else if key == "ArrowUp" then Rotation(g)
    else if key == " " then HardDropped(g, choice)
    else if key == "p" || key == "P" then PauseToggled(g)
    else if key == "h" || key == "H" then Holding(g, choice)
    else g
  }

  method HandleKeyPress(g: Game, key: string, choice: nat) returns (r: Game)
    requires Valid(g)
    ensures r == KeyPressed(g, key, choice)
  {
    if g.gameOver {
      return g;
    }
    if key == "ArrowLeft" {
      r := Shift(g, -1);
    } else if key == "ArrowRight" {
      r := Shift(g, 1);
    } else if key == "ArrowDown" {
      r := MoveDown(g, choice);
    } else if key == "ArrowUp" {
      r := Rotate(g);
    } else if key == " " {
      r := HardDrop(g, choice);
    } else if key == "p" || key == "P" {
      r := PauseToggled(g);
    } else if key == "h" || key == "H" {
      r := HoldPiece(g, choice);
    } else {
      r := g;
    }
  }

  /** The effect that spawns a piece whenever there is none and the game is
   *  not over. */
  function Rendered(g: Game, choice: nat): Game
    requires Valid(g)
  {
    if g.current.None? && !g.gameOver then SpawnedFrom(g, g.board, choice) else g
  }

  method SpawnEffect(g: Game, choice: nat) returns (r: Game)
    requires Valid(g)
    ensures r == Rendered(g, choice)
  {
    r := g;
    if g.current.None? && !g.gameOver {
      r := SpawnNewPiece(g, g.board, choice);
    }
  }

  /** The state of the first render, before the spawning effect. */
  function Initial(choices: seq<nat>): Game
    requires |choices| == 3
  {
    Game(EmptyBoard(), None, GenerateNextPieces(choices), None, true, 0, 0, 0, false, false, 1, [], [])
  }

  /** `resetGame`: everything but the high score starts over; timers already
   *  set are not cancelled. */
  function Restarted(g: Game, choices: seq<nat>): Game
    requires |choices| == 3
  {
    g.(board := EmptyBoard(), current := None, next := GenerateNextPieces(choices), held := None,
       canHold := true, score := 0, lines := 0, gameOver := false, paused := false, level := 1,
       completedRows := [])
  }

  // ---------------------------------------------------------------------------
  // What the operations promise

  /** A spawn keeps the state well formed, and the queue three pieces long,
   *  whatever board its collision check used. */
  lemma SpawnedValid(g: Game, b: Board, choice: nat)
    requires Valid(g) && IsBoard(b)
    ensures Valid(SpawnedFrom(g, b, choice))
  {
  }

  lemma ScheduledValid(g: Game, nb: Board)
    requires Valid(g) && IsBoard(nb)
    ensures var r := Scheduled(g, nb);
      Valid(r) && r.board == g.board && r.current == g.current && r.next == g.next
      && r.score == g.score && r.lines == g.lines && r.canHold == g.canHold && r.held == g.held
  {
  }

  /** A placement queues one timer exactly when a row from `BUFFER_ROWS` on
   *  is full; the timer holds the rows that are not, in order, their count
   *  and the score, lines and level as rendered. */
  lemma ScheduledQueues(g: Game, nb: Board)
    requires IsBoard(nb)
    ensures var r := Scheduled(g, nb); var n := |FullRows(nb, Height)|;
      ((exists y :: BufferRows <= y < Height && Full(nb[y])) <==> r.timers == g.timers + [Pending(Kept(nb, Height), n, g.score, g.lines, g.level)])
      && (n == 0 ==> r == g)
      && n == Height - |Kept(nb, Height)|
  {
    FullRowsAreFull(nb, Height);
    FullRowsComplete(nb, Height);
    if |FullRows(nb, Height)| > 0 {
      assert FullRows(nb, Height)[0] in FullRows(nb, Height);
    }
  }

  /** The timer's rows padded back to 22 are the board with its full rows
   *  cleared; when the buffer rows are not full, this is what the canvas
   *  game's loop leaves, with the same count. */
  lemma ClearedBoardAgrees(nb: Board)
    requires IsBoard(nb) && !Full(nb[0]) && !Full(nb[1])
    ensures Sweep(nb, Height - 1) == Swept(Blanks(Height - |Kept(nb, Height)|) + Kept(nb, Height), |FullRows(nb, Height)|)
  {
    ClearingAgrees(nb);
  }

  /** The timer: 100 points per row whatever the level, the lines added,
   *  the high score at least the new score, and the level up by exactly one
   *  when the new line count's tens exceed the captured level minus one. */
  lemma FiredFacts(g: Game)
    requires Valid(g) && |g.timers| > 0
    ensures var t := g.timers[0]; var r := Fired(g);
      Valid(r) && r.score == t.score + 100 * t.cleared && r.lines == t.lines + t.cleared
      && r.highScore >= r.score && r.highScore >= g.highScore
      && (r.level == g.level + 1 <==> (t.lines + t.cleared) / 10 > t.level - 1)
      && ((t.lines + t.cleared) / 10 <= t.level - 1 ==> r.level == g.level)
      && r.board == Blanks(Height - |t.kept|) + t.kept
      && r.current == g.current && r.timers == g.timers[1..]
  {
    assert forall i :: 0 <= i < |g.timers[1..]| ==> g.timers[1..][i] == g.timers[i + 1];
  }

  /** The timer writes the rows it captured whatever the board is when it
   *  fires. */
  lemma FiredIgnoresBoard(g: Game, b: Board)
    requires |g.timers| > 0 && ValidPending(g.timers[0])
    ensures Fired(g.(board := b)).board == Fired(g).board
  {
  }

  /** A piece that does not fit ends the game with board, piece and timers
   *  as they were. */
  lemma PlacedRejects(g: Game, p: Piece, choice: nat)
    requires Valid(g) && !Placeable(g.board, p)
    ensures Placed(g, p, choice) == g.(gameOver := true)
  {
  }

  /** A piece that fits changes exactly the cells it covers, to its colour. */
  lemma PlacedWrites(g: Game, p: Piece, choice: nat)
    requires Valid(g) && Placeable(g.board, p)
    ensures var nb := Stamp(g.board, p.x, p.y, p.tetromino.shape, p.tetromino.color);
      Placed(g, p, choice).board == nb
      && forall Y, X :: 0 <= Y < Height && 0 <= X < Width ==>
           (nb[Y][X] != g.board[Y][X] <==> Covers(p.tetromino.shape, p.x, p.y, X, Y))
           && (Covers(p.tetromino.shape, p.x, p.y, X, Y) ==> nb[Y][X] == Color(p.tetromino.color))
  {
    var nb := Stamp(g.board, p.x, p.y, p.tetromino.shape, p.tetromino.color);
    forall Y, X | 0 <= Y < Height && 0 <= X < Width && Covers(p.tetromino.shape, p.x, p.y, X, Y)
      ensures nb[Y][X] != g.board[Y][X]
    {
      assert Free(g.board, p.x + (X - p.x), p.y + (Y - p.y));
    }
  }

  /** After a placement that fits, a filled row `BUFFER_ROWS` ends the game
   *  with nothing queued or spawned; otherwise holding is on again and the
   *  clearing timer, if any, is queued. */
  lemma PlacedOutcome(g: Game, p: Piece, choice: nat)
    requires Valid(g) && Placeable(g.board, p)
    ensures var nb := Stamp(g.board, p.x, p.y, p.tetromino.shape, p.tetromino.color);
      var r := Placed(g, p, choice);
      (TopRowFilled(nb) ==> r == g.(board := nb, current := None, gameOver := true))
      && (!TopRowFilled(nb) ==> r.canHold && r.timers == Scheduled(g, nb).timers)
  {
  }

  lemma PlacedValid(g: Game, p: Piece, choice: nat)
    requires Valid(g)
    ensures var r := Placed(g, p, choice);
      Valid(r) && r.score == g.score && r.lines == g.lines && r.held == g.held
  {
    if Placeable(g.board, p) {
      var nb := Stamp(g.board, p.x, p.y, p.tetromino.shape, p.tetromino.color);
      if !TopRowFilled(nb) {
        var g1 := g.(board := nb, current := None);
        ScheduledValid(g1, nb);
        SpawnedValid(Scheduled(g1, nb).(canHold := true), g.board, choice);
      }
    }
  }

  /** With no other timer pending and nothing changed in between, the timer
   *  of a placement leaves the placed board with its full rows cleared and
   *  100 more points per cleared row. */
  lemma PlaceThenFire(g: Game, p: Piece, choice: nat)
    requires Valid(g) && IsTetromino(p.tetromino) && g.timers == [] && Placeable(g.board, p)
    requires var nb := Stamp(g.board, p.x, p.y, p.tetromino.shape, p.tetromino.color);
      !TopRowFilled(nb) && |FullRows(nb, Height)| > 0
    ensures var nb := Stamp(g.board, p.x, p.y, p.tetromino.shape, p.tetromino.color);
      var r := Fired(Placed(g, p, choice));
      r.board == Compact(nb) && r.score == g.score + 100 * (Height - |Kept(nb, Height)|)
      && r.lines == g.lines + (Height - |Kept(nb, Height)|) && r.timers == []
  {
    var nb := Stamp(g.board, p.x, p.y, p.tetromino.shape, p.tetromino.color);
    PlacedOutcome(g, p, choice);
    ScheduledQueues(g.(board := nb, current := None), nb);
  }

  /** `holdPiece`: nothing happens once holding is off or without a piece;
   *  a held piece that does not fit ends the game and keeps holding on; a
   *  swap brings the held piece in at (4, 0); every hold that goes through
   *  turns holding off. */
  lemma HoldingFacts(g: Game, choice: nat)
    requires Valid(g)
    ensures var r := Holding(g, choice);
      Valid(r)
      && (!g.canHold || g.current.None? ==> r == g)
      && (g.canHold && g.current.Some? && g.held.Some? ==>
            if Collides(g.board, SpawnX, 0, g.held.value.shape) then r == g.(gameOver := true)
            else r.current == Some(Piece(SpawnX, 0, g.held.value))
                 && r.held == Some(g.current.value.tetromino) && !r.canHold && r.next == g.next)
      && (g.canHold && g.current.Some? && g.held.None? ==>
            r.held == Some(g.current.value.tetromino) && !r.canHold && r.next[..2] == g.next[1..])
  {
  }

  /** Only a placement turns holding back on. */
  lemma CanHoldOnlyAfterPlacement(g: Game, dx: int, choice: nat)
    requires Valid(g) && !g.canHold
    ensures !Shifted(g, dx).canHold && !Rotation(g).canHold && !PauseToggled(g).canHold
    ensures !Holding(g, choice).canHold && !Rendered(g, choice).canHold
    ensures |g.timers| > 0 ==> !Fired(g).canHold
  {
  }

  /** A hard drop places the piece on the landing row: the lowest row reached
   *  by single free steps. */
  lemma HardDropLands(g: Game, choice: nat)
    requires Valid(g) && g.current.Some? && !g.paused
    ensures var p := g.current.value;
      var dropY := Landing(g.board, p.x, p.y, p.tetromino.shape);
      dropY >= p.y && Collides(g.board, p.x, dropY + 1, p.tetromino.shape)
      && (forall z :: p.y < z <= dropY ==> !Collides(g.board, p.x, z, p.tetromino.shape))
      && HardDropped(g, choice) ==
           (if Collides(g.board, p.x, dropY, p.tetromino.shape) then g else Placed(g, p.(y := dropY), choice))
  {
    var p := g.current.value;
    LandingReachable(g.board, p.x, p.y, p.tetromino.shape);
  }

  /** The timer's tick is `moveDown` while the game runs. */
  lemma TickIsMoveDown(g: Game, choice: nat)
    requires Valid(g) && !g.gameOver
    ensures Ticked(g, choice) == MovedDown(g, choice)
  {
  }

  lemma MovedDownFacts(g: Game, choice: nat)
    requires Valid(g)
    ensures Valid(MovedDown(g, choice))
    ensures MovedDown(g, choice).score == g.score && MovedDown(g, choice).lines == g.lines
  {
    if g.current.Some? && !g.paused {
      PlacedValid(g, g.current.value, choice);
    }
  }

  lemma RotationValid(g: Game)
    requires Valid(g)
    ensures Valid(Rotation(g)) && Rotation(g).score == g.score && Rotation(g).lines == g.lines
  {
    if g.current.Some? {
      RotatedIsTetromino(g.current.value.tetromino);
    }
  }

  lemma HardDroppedFacts(g: Game, choice: nat)
    requires Valid(g)
    ensures Valid(HardDropped(g, choice))
    ensures HardDropped(g, choice).score == g.score && HardDropped(g, choice).lines == g.lines
  {
    if g.current.Some? && !g.paused {
      var p := g.current.value;
      PlacedValid(g, p.(y := Landing(g.board, p.x, p.y, p.tetromino.shape)), choice);
    }
  }

  /** Keys keep the state well formed and never change score or lines: only
   *  the clearing timer does. */
  lemma KeyPressedFacts(g: Game, key: string, choice: nat)
    requires Valid(g)
    ensures Valid(KeyPressed(g, key, choice))
    ensures KeyPressed(g, key, choice).score == g.score && KeyPressed(g, key, choice).lines == g.lines
  {
    if g.gameOver {
    } else if key == "ArrowDown" {
      MovedDownFacts(g, choice);
    } else if key == "ArrowUp" {
      RotationValid(g);
    } else if key == " " {
      HardDroppedFacts(g, choice);
    } else if key == "h" || key == "H" {
      HoldingFacts(g, choice);
    }
  }

  /** `resetGame` keeps the high score and the pending timers, and the next
   *  render spawns the head of a fresh three-piece queue. */
  lemma RestartedFacts(g: Game, choices: seq<nat>, choice: nat)
    requires |choices| == 3 && Valid(g)
    ensures var r := Rendered(Restarted(g, choices), choice);
      Valid(r) && r.highScore == g.highScore && r.timers == g.timers
      && r.score == 0 && r.lines == 0 && r.level == 1 && r.held.None? && r.canHold && !r.gameOver
      && r.current == Some(Piece(SpawnX, 0, RandomTetromino(choices[0])))
      && r.next == [RandomTetromino(choices[1]), RandomTetromino(choices[2]), RandomTetromino(choice)]
  {
    var g0 := Restarted(g, choices);
    var t := g0.next[0];
    forall r, c | Filled(t.shape, r, c)
      ensures 0 <= SpawnX + c < Width && 0 + r < Height
    {
      assert c < |t.shape[r]|;
    }
    assert !Collides(g0.board, SpawnX, 0, t.shape);
  }
}
