/** The canvas Tetris game of `src/games/tetris.ts` (class `TetrisGame`): the
 *  falling piece moves, rotates with wall kicks, drops, is held, locks into
 *  the board; full rows are cleared and scored. Each operation is first a
 *  function on a `Game` value, then a method of the class that changes the
 *  fields to match it. */
module TetrisCanvas {
  import opened Wrappers
  import opened TetrisBoard

  /** The colours of `TETROMINOS`, in key order I, J, L, O, S, T, Z. */
  function ColorOf(k: int): string
  {
    if k == 0 then "#06b6d4"
    else if k == 1 then "#3b82f6"
    else if k == 2 then "#f97316"
    else if k == 3 then "#eab308"
    else if k == 4 then "#22c55e"
    else if k == 5 then "#a855f7"
    else "#ef4444"
  }

  /** A fresh copy of `TETROMINOS[keys[k]]`. */
  function TetrominoOf(k: int): (t: Tetromino)
    ensures IsTetromino(t)
  {
    Tetromino(ShapeOf(k), ColorOf(k))
  }

  /** `randomTetromino()`; `choice` stands for the random draw, and every
   *  kind is reachable. */
  function RandomTetromino(choice: nat): (t: Tetromino)
    ensures IsTetromino(t)
    ensures t == TetrominoOf(choice % 7)
  {
    TetrominoOf(choice % 7)
  }

  lemma EveryKindReachable(k: int)
    requires 0 <= k < 7
    ensures RandomTetromino(k) == TetrominoOf(k)
  {
  }

  /** `generateNextPieces(count)`, one draw per piece. */
  function GenerateNextPieces(choices: seq<nat>): (r: seq<Tetromino>)
    ensures |r| == |choices|
    ensures forall i :: 0 <= i < |r| ==> r[i] == RandomTetromino(choices[i])
  {
    seq(|choices|, i requires 0 <= i < |choices| => RandomTetromino(choices[i]))
  }

  /** The fields of `TetrisGame` that the game logic reads and writes. */
  datatype Game = Game(
    board: Board,
    current: Option<Piece>,
    held: Option<Tetromino>,
    canHold: bool,
    next: seq<Tetromino>,
    score: int,
    highScore: int,
    lines: int,
    level: int,
    gameOver: bool,
    paused: bool)

  /** The board is 22 x 10, three pieces wait in the queue, every piece is a
   *  usable shape, and the level follows the cleared lines. */
  predicate Valid(g: Game)
  {
    IsBoard(g.board) && QueueOk(g.next) && PieceOk(g.current)
    && (g.held.Some? ==> IsTetromino(g.held.value))
    && g.lines >= 0 && g.level == g.lines / 10 + 1 && g.score >= 0
  }

  /** Three usable pieces wait in the queue. */
  predicate QueueOk(next: seq<Tetromino>)
  {
    |next| == 3 && forall i :: 0 <= i < |next| ==> IsTetromino(next[i])
  }

  predicate PieceOk(p: Option<Piece>)
  {
    p.Some? ==> IsTetromino(p.value.tetromino)
  }

  // ---------------------------------------------------------------------------
  // The operations as functions

  /** `spawnPiece`: the head of the queue enters at row 0 with its left edge
   *  at 5 - floor(width / 2), a new piece joins the queue, a colliding spawn
   *  ends the game, and holding is allowed again. */
  function Spawned(g: Game, choice: nat): Game
    requires IsBoard(g.board) && |g.next| > 0 && IsTetromino(g.next[0])
  {
    var t := g.next[0];
    var p := Piece(Width / 2 - |t.shape[0]| / 2, 0, t);
    g.(current := Some(p), next := g.next[1..] + [RandomTetromino(choice)],
       gameOver := g.gameOver || Collides(g.board, p.x, p.y, t.shape), canHold := true)
  }

  /** The score, line and level update of `clearLines` after `n` rows went. */
  function Scored(g: Game, n: nat): Game
  {
    if n == 0 then g
    else
      var lines := g.lines + n;
      var score := g.score + n * 100 * g.level;
      var newLevel := lines / 10 + 1;
      g.(lines := lines, score := score,
         highScore := if score > g.highScore then score else g.highScore,
         level := if newLevel > g.level then newLevel else g.level)
  }

  /** `clearLines`. */
  function Cleared(g: Game): Game
    requires IsBoard(g.board)
  {
    var s := Sweep(g.board, Height - 1);
    Scored(g.(board := s.board), s.count)
  }

  /** `lockPiece`: the piece's colour goes into the board; a cell in the top
   *  visible row ends the game before any line is cleared; otherwise lines
   *  are cleared and the next piece spawns. */
  function Locked(g: Game, choice: nat): Game
    requires Valid(g)
  {
    if g.current.None? then g
    else
      var p := g.current.value;
      var b := Stamp(g.board, p.x, p.y, p.tetromino.shape, p.tetromino.color);
      if TopRowFilled(b) then g.(board := b, gameOver := true)
      else Spawned(Cleared(g.(board := b)), choice)
  }

  /** `moveLeft` (dx = -1) and `moveRight` (dx = 1). */
  function Shifted(g: Game, dx: int): Game
    requires IsBoard(g.board)
  {
    if g.current.None? || g.paused then g
    else
      var p := g.current.value;
      if Collides(g.board, p.x + dx, p.y, p.tetromino.shape) then g
      else g.(current := Some(p.(x := p.x + dx)))
  }

  /** The piece can go one row down. */
  predicate CanDrop(g: Game)
    requires IsBoard(g.board)
  {
    g.current.Some? && !g.paused
    && !Collides(g.board, g.current.value.x, g.current.value.y + 1, g.current.value.tetromino.shape)
  }

  /** `moveDown`: one row down, or the piece locks. */
  function Dropped(g: Game, choice: nat): Game
    requires Valid(g)
  {
    if g.current.None? || g.paused then g
    else if CanDrop(g) then g.(current := Some(g.current.value.(y := g.current.value.y + 1)))
    else Locked(g, choice)
  }

  /** `rotate`: the clockwise rotation at the first kick offset that fits;
   *  nothing changes when none does. */
  function Rotation(g: Game): Game
    requires Valid(g)
  {
    if g.current.None? || g.paused then g
    else
      match RotatedPiece(g.board, g.current.value)
      case None => g
      case Some(q) => g.(current := Some(q))
  }

  /** `getGhostY`: the row a drop ends on. */
  function GhostY(g: Game): int
    requires Valid(g)
  {
    if g.current.None? then 0
    else Landing(g.board, g.current.value.x, g.current.value.y, g.current.value.tetromino.shape)
  }

  /** `hardDrop`: down to the landing row, then lock. */
  function HardDropped(g: Game, choice: nat): Game
    requires Valid(g)
  {
    if g.current.None? || g.paused then g
    else Locked(g.(current := Some(g.current.value.(y := GhostY(g)))), choice)
  }

  /** `hold`: once per spawned piece, the current piece is put aside and the
   *  held one comes in at (4, 0) without a collision check, or, with nothing
   *  held yet, the next piece spawns. */
  function Holding(g: Game, choice: nat): Game
    requires Valid(g)
  {
    if g.current.None? || !g.canHold || g.paused then g
    else
      var cur := g.current.value.tetromino;
      var g1 := if g.held.Some? then g.(current := Some(Piece(Width / 2 - 1, 0, g.held.value)))
                else Spawned(g, choice);
      g1.(held := Some(cur), canHold := false)
  }

  /** `togglePause`, ignored once the game is over. */
  function PauseToggled(g: Game): Game
  {
    if g.gameOver then g else g.(paused := !g.paused)
  }

  /** One tick of the drop timer. */
  function Ticked(g: Game, choice: nat): Game
    requires Valid(g)
  {
    if !g.paused && !g.gameOver then Dropped(g, choice) else g
  }

  /** The `keydown` handler; every key is ignored once the game is over. */
  function KeyPressed(g: Game, key: string, choice: nat): Game
    requires Valid(g)
  {
    if g.gameOver then g
    else if key == "ArrowLeft" then Shifted(g, -1)
    else if key == "ArrowRight" then Shifted(g, 1)
    else if key == "ArrowDown" then Dropped(g, choice)
    else if key == "ArrowUp" then Rotation(g)
    else if key == " " then HardDropped(g, choice)
    else if key == "p" || key == "P" then PauseToggled(g)
    else if key == "h" || key == "H" then Holding(g, choice)
    else g
  }

  /** The state the constructor and `reset` build before spawning. */
  function Fresh(highScore: int, choices: seq<nat>): Game
    requires |choices| == 3
  {
    Game(EmptyBoard(), None, None, true, GenerateNextPieces(choices), 0, highScore, 0, 1, false, false)
  }

  /** The constructor: `saved` is the stored high score. */
  function Initial(saved: Option<int>, choices: seq<nat>): Game
    requires |choices| == 4
  {
    Spawned(Fresh(saved.GetOr(0), choices[..3]), choices[3])
  }

  /** `reset`: everything but the high score starts over. */
  function Restarted(g: Game, choices: seq<nat>): Game
    requires |choices| == 4
  {
    Spawned(Fresh(g.highScore, choices[..3]), choices[3])
  }

  // ---------------------------------------------------------------------------
  // What the operations promise

  lemma FreshValid(highScore: int, choices: seq<nat>)
    requires |choices| == 3
    ensures Valid(Fresh(highScore, choices))
  {
  }

  lemma SpawnedValid(g: Game, choice: nat)
    requires Valid(g)
    ensures Valid(Spawned(g, choice))
  {
  }

  /** Clearing keeps the board 22 x 10 with no full row below the buffer,
   *  adds the cleared rows to `lines`, scores 100 x level per row, keeps the
   *  high score at or above the score and the level at lines / 10 + 1. */
  lemma ClearedFacts(g: Game)
    requires Valid(g)
    ensures var r := Cleared(g); var n := Sweep(g.board, Height - 1).count;
      Valid(r) && r.next == g.next && r.current == g.current
      && (forall Y :: BufferRows <= Y < Height ==> !Full(r.board[Y]))
      && r.lines == g.lines + n && r.score == g.score + n * 100 * g.level
      && r.level >= g.level
      && (n > 0 ==> r.highScore >= r.score && r.highScore >= g.highScore)
      && (n == 0 ==> r.score == g.score && r.highScore == g.highScore)
  {
    SweepLeavesNoFullRow(g.board, Height - 1);
    var n := Sweep(g.board, Height - 1).count;
    assert n * 100 * g.level >= 0;
  }

  /** Locking writes the piece's colour into exactly the in-bounds cells it
   *  covers; a filled top visible row ends the game with the board as
   *  written and nothing cleared or spawned. */
  lemma LockedFacts(g: Game, choice: nat)
    requires Valid(g) && g.current.Some?
    ensures var p := g.current.value;
      var b := Stamp(g.board, p.x, p.y, p.tetromino.shape, p.tetromino.color);
      var r := Locked(g, choice);
      Valid(r)
      && (forall Y, X :: 0 <= Y < Height && 0 <= X < Width && Covers(p.tetromino.shape, p.x, p.y, X, Y) ==>
            b[Y][X] == Color(p.tetromino.color))
      && (TopRowFilled(b) ==> r == g.(board := b, gameOver := true))
      && (!TopRowFilled(b) ==> r.board == Sweep(b, Height - 1).board && r.canHold)
  {
    var p := g.current.value;
    var b := Stamp(g.board, p.x, p.y, p.tetromino.shape, p.tetromino.color);
    if !TopRowFilled(b) {
      ClearedFacts(g.(board := b));
      SpawnedValid(Cleared(g.(board := b)), choice);
    }
  }

  /** A rotation turns the piece clockwise at the first kick offset that
   *  fits, every earlier offset colliding; when all six collide nothing
   *  changes. */
  lemma RotationFacts(g: Game)
    requires Valid(g) && g.current.Some? && !g.paused
    ensures var p := g.current.value; var t := Rotated(p.tetromino.shape);
      var i := FirstFit(g.board, p.x, p.y, t, 0); var r := Rotation(g);
      (i == |Kicks| ==> r == g)
      && (i < |Kicks| ==> r == g.(current := Some(Kicked(p, i))) && KickFits(g.board, p.x, p.y, t, i))
      && (forall j :: 0 <= j < i ==> !KickFits(g.board, p.x, p.y, t, j))
  {
    var p := g.current.value;
    FirstFitIsFirst(g.board, p.x, p.y, Rotated(p.tetromino.shape), 0);
  }

  /** A hard drop locks the piece on the row `getGhostY` shows: the lowest
   *  row reached by single free steps, the next one down colliding. */
  lemma HardDropLandsOnGhost(g: Game, choice: nat)
    requires Valid(g) && g.current.Some? && !g.paused
    ensures var p := g.current.value; var gy := GhostY(g);
      HardDropped(g, choice) == Locked(g.(current := Some(p.(y := gy))), choice)
      && gy >= p.y && Collides(g.board, p.x, gy + 1, p.tetromino.shape)
      && forall z :: p.y < z <= gy ==> !Collides(g.board, p.x, z, p.tetromino.shape)
  {
    var p := g.current.value;
    LandingReachable(g.board, p.x, p.y, p.tetromino.shape);
  }

  /** Holding works once per spawned piece: after a hold that acted, holding
   *  is off until the next spawn, so a second hold changes nothing. */
  lemma HoldOnce(g: Game, c1: nat, c2: nat)
    requires Valid(g)
    ensures Valid(Holding(g, c1))
    ensures Holding(g, c1) != g ==> !Holding(g, c1).canHold && Holding(Holding(g, c1), c2) == Holding(g, c1)
    ensures !g.canHold ==> Holding(g, c1) == g
  {
  }

  /** Swapping in a held piece puts it at column 4, row 0 and never ends the
   *  game, even where it overlaps the board. */
  lemma HoldSwapUnchecked(g: Game, choice: nat)
    requires Valid(g) && g.current.Some? && g.canHold && !g.paused && g.held.Some?
    ensures var r := Holding(g, choice);
      r.current == Some(Piece(4, 0, g.held.value)) && r.held == Some(g.current.value.tetromino)
      && r.gameOver == g.gameOver && r.board == g.board && r.next == g.next
  {
  }

  /** Only a spawn turns holding back on. */
  lemma CanHoldOnlyAfterSpawn(g: Game, dx: int)
    requires Valid(g) && !g.canHold
    ensures !Shifted(g, dx).canHold && !Rotation(g).canHold && !PauseToggled(g).canHold
    ensures CanDrop(g) ==> !Dropped(g, 0).canHold
  {
  }

  lemma DroppedValid(g: Game, choice: nat)
    requires Valid(g)
    ensures Valid(Dropped(g, choice))
  {
    if g.current.Some? && !g.paused && !CanDrop(g) {
      LockedFacts(g, choice);
    }
  }

  lemma HardDroppedValid(g: Game, choice: nat)
    requires Valid(g)
    ensures Valid(HardDropped(g, choice))
  {
    if g.current.Some? && !g.paused {
      LockedFacts(g.(current := Some(g.current.value.(y := GhostY(g)))), choice);
    }
  }

  lemma ShiftedValid(g: Game, dx: int)
    requires Valid(g)
    ensures Valid(Shifted(g, dx)) && Shifted(g, dx).score == g.score
  {
  }

  lemma RotationValid(g: Game)
    requires Valid(g)
    ensures Valid(Rotation(g)) && Rotation(g).score == g.score
  {
    if g.current.Some? {
      RotatedIsTetromino(g.current.value.tetromino);
    }
  }

  /** Every key keeps the game well formed, and the score never goes down. */
  lemma KeyPressedValid(g: Game, key: string, choice: nat)
    requires Valid(g)
    ensures Valid(KeyPressed(g, key, choice))
    ensures KeyPressed(g, key, choice).score >= g.score
  {
    if g.gameOver {
    } else if key == "ArrowLeft" {
      ShiftedValid(g, -1);
    } else if key == "ArrowRight" {
      ShiftedValid(g, 1);
    } else if key == "ArrowDown" {
      DroppedValid(g, choice);
      DroppedScore(g, choice);
    } else if key == "ArrowUp" {
      RotationValid(g);
    } else if key == " " {
      HardDroppedValid(g, choice);
      if g.current.Some? && !g.paused {
        LockedScore(g.(current := Some(g.current.value.(y := GhostY(g)))), choice);
      }
    } else if key == "h" || key == "H" {
      HoldOnce(g, choice, choice);
    }
  }

  lemma LockedScore(g: Game, choice: nat)
    requires Valid(g)
    ensures Locked(g, choice).score >= g.score
  {
    if g.current.Some? {
      LockedFacts(g, choice);
      var p := g.current.value;
      var b := Stamp(g.board, p.x, p.y, p.tetromino.shape, p.tetromino.color);
      if !TopRowFilled(b) {
        ClearedFacts(g.(board := b));
      }
    }
  }

  lemma DroppedScore(g: Game, choice: nat)
    requires Valid(g)
    ensures Dropped(g, choice).score >= g.score
  {
    LockedScore(g, choice);
  }

  lemma TickedValid(g: Game, choice: nat)
    requires Valid(g)
    ensures Valid(Ticked(g, choice))
  {
    DroppedValid(g, choice);
  }

  /** `reset` keeps only the high score; the first piece is the head of a
   *  fresh queue, which is three pieces long again. */
  lemma RestartedFacts(g: Game, choices: seq<nat>)
    requires |choices| == 4
    ensures var r := Restarted(g, choices);
      Valid(r) && r.highScore == g.highScore && r.score == 0 && r.lines == 0 && r.level == 1
      && r.held.None? && r.canHold && !r.paused
      && r.current.Some? && r.current.value.tetromino == RandomTetromino(choices[0])
      && r.next == [RandomTetromino(choices[1]), RandomTetromino(choices[2]), RandomTetromino(choices[3])]
  {
    FreshValid(g.highScore, choices[..3]);
    SpawnedValid(Fresh(g.highScore, choices[..3]), choices[3]);
  }

  // ---------------------------------------------------------------------------
  // The class

  class TetrisGame {
    var board: Board
    var currentPiece: Option<Piece>
    var heldPiece: Option<Tetromino>
    var canHold: bool
    var nextPieces: seq<Tetromino>
    var score: int
    var highScore: int
    var lines: int
    var level: int
    var gameOver: bool
    var isPaused: bool

    ghost function State(): Game
      reads this
    {
      Game(board, currentPiece, heldPiece, canHold, nextPieces, score, highScore, lines, level, gameOver, isPaused)
    }

    /** `new TetrisGame(container)`: empty board, three queued pieces,
     *  the stored high score, then the first spawn. */
    constructor (saved: Option<int>, choices: seq<nat>)
      requires |choices| == 4
      ensures State() == Initial(saved, choices) && Valid(State())
    {
      board := EmptyBoard();
      currentPiece := None;
      heldPiece := None;
      canHold := true;
      nextPieces := GenerateNextPieces(choices[..3]);
      score := 0;
      highScore := 0;
      lines := 0;
      level := 1;
      gameOver := false;
      isPaused := false;
      if saved.Some? {
        highScore := saved.value;
      }
      new;
      FreshValid(saved.GetOr(0), choices[..3]);
      SpawnedValid(State(), choices[3]);
      SpawnPiece(choices[3]);
    }

    method SpawnPiece(choice: nat)
      requires IsBoard(board) && |nextPieces| > 0 && IsTetromino(nextPieces[0])
      modifies this
      ensures State() == Spawned(old(State()), choice)
    {
      var tetromino := nextPieces[0];
      nextPieces := nextPieces[1..] + [RandomTetromino(choice)];
      currentPiece := Some(Piece(Width / 2 - |tetromino.shape[0]| / 2, 0, tetromino));
      var hit := CheckCollision(board, currentPiece.value.x, currentPiece.value.y, tetromino.shape);
      if hit {
        gameOver := true;
      }
      canHold := true;
    }

    method MoveLeft()
      requires IsBoard(board)
      modifies this`currentPiece
      ensures State() == Shifted(old(State()), -1)
    {
      Shift(-1);
    }

    method MoveRight()
      requires IsBoard(board)
      modifies this`currentPiece
      ensures State() == Shifted(old(State()), 1)
    {
      Shift(1);
    }

    method Shift(dx: int)
      requires IsBoard(board)
      modifies this`currentPiece
      ensures State() == Shifted(old(State()), dx)
    {
      if currentPiece.None? || isPaused {
        return;
      }
      var p := currentPiece.value;
      var hit := CheckCollision(board, p.x + dx, p.y, p.tetromino.shape);
      if !hit {
        currentPiece := Some(p.(x := p.x + dx));
      }
    }

    /** `moveDown`: reports whether the piece went down. */
    method MoveDown(choice: nat) returns (moved: bool)
      requires Valid(State())
      modifies this
      ensures moved == CanDrop(old(State()))
      ensures State() == Dropped(old(State()), choice)
    {
      if currentPiece.None? || isPaused {
        return false;
      }
      var p := currentPiece.value;
      var hit := CheckCollision(board, p.x, p.y + 1, p.tetromino.shape);
      if !hit {
        currentPiece := Some(p.(y := p.y + 1));
        return true;
      }
      LockPiece(choice);
      return false;
    }

    method Rotate()
      requires Valid(State())
      modifies this`currentPiece
      ensures State() == Rotation(old(State()))
    {
      if currentPiece.None? || isPaused {
        return;
      }
      var turned := TurnPiece(board, currentPiece.value);
      if turned.Some? {
        currentPiece := turned;
      }
    }

    method HardDrop(choice: nat)
      requires Valid(State())
      modifies this
      ensures State() == HardDropped(old(State()), choice)
    {
      if currentPiece.None? || isPaused {
        return;
      }
      var p := currentPiece.value;
      var y := LandingRow(board, p.x, p.y, p.tetromino.shape);
      currentPiece := Some(p.(y := y));
      LockPiece(choice);
    }

    method GetGhostY() returns (y: int)
      requires Valid(State())
      ensures y == GhostY(State())
    {
      if currentPiece.None? {
        return 0;
      }
      var p := currentPiece.value;
      y := LandingRow(board, p.x, p.y, p.tetromino.shape);
    }

    method Hold(choice: nat)
      requires Valid(State())
      modifies this
      ensures State() == Holding(old(State()), choice)
    {
      if currentPiece.None? || !canHold || isPaused {
        return;
      }
      var current := currentPiece.value.tetromino;
      if heldPiece.Some? {
        currentPiece := Some(Piece(Width / 2 - 1, 0, heldPiece.value));
      } else {
        SpawnPiece(choice);
      }
      heldPiece := Some(current);
      canHold := false;
    }

    method LockPiece(choice: nat)
      requires Valid(State())
      modifies this
      ensures State() == Locked(old(State()), choice)
    {
      if currentPiece.None? {
        return;
      }
      var p := currentPiece.value;
      board := StampPiece(board, p);
      var over := CheckTopRow(board);
      if over {
        gameOver := true;
        return;
      }
      ClearLines();
      SpawnPiece(choice);
    }

    /** The nested loops of `lockPiece` that write the colour cell by cell. */
    static method StampPiece(b0: Board, p: Piece) returns (b: Board)
      requires IsBoard(b0)
      ensures b == Stamp(b0, p.x, p.y, p.tetromino.shape, p.tetromino.color)
    {
      var s := p.tetromino.shape;
      var color := p.tetromino.color;
      b := b0;
      var row := 0;
      while row < |s|
        invariant 0 <= row <= |s|
        invariant StampedUpTo(b, b0, p, row, 0)
      {
        var col := 0;
        while col < |s[row]|
          invariant 0 <= col <= |s[row]|
          invariant StampedUpTo(b, b0, p, row, col)
        {
          if s[row][col] != 0 {
            var boardY := p.y + row;
            var boardX := p.x + col;
            if 0 <= boardY < Height && 0 <= boardX < Width {
              b := b[boardY := b[boardY][boardX := Color(color)]];
            }
          }
          col := col + 1;
        }
        row := row + 1;
      }
      var st := Stamp(b0, p.x, p.y, s, color);
      assert forall Y :: 0 <= Y < Height ==> b[Y] == st[Y];
    }

    /** The cells covered by shape rows before `row`, and by row `row` left
     *  of column `col`, hold the colour; the rest is as in `b0`. */
    static ghost predicate StampedUpTo(b: Board, b0: Board, p: Piece, row: int, col: int)
    {
      IsBoard(b) && IsBoard(b0)
      && forall Y, X :: 0 <= Y < Height && 0 <= X < Width ==>
           b[Y][X] == (if Covers(p.tetromino.shape, p.x, p.y, X, Y)
                          && (Y - p.y < row || (Y - p.y == row && X - p.x < col))
                       then Color(p.tetromino.color) else b0[Y][X])
    }

    method ClearLines()
      requires IsBoard(board)
      modifies this`board, this`lines, this`score, this`highScore, this`level
      ensures State() == Cleared(old(State()))
    {
      var b, cleared := SweepRows(board);
      board := b;
      if cleared > 0 {
        lines := lines + cleared;
        score := score + cleared * 100 * level;
        if score > highScore {
          highScore := score;
        }
        var newLevel := lines / 10 + 1;
        if newLevel > level {
          level := newLevel;
        }
      }
    }

    /** The loop of `clearLines` over rows 21 down to `BUFFER_ROWS`. */
    static method SweepRows(b0: Board) returns (b: Board, cleared: nat)
      requires IsBoard(b0)
      ensures Swept(b, cleared) == Sweep(b0, Height - 1)
    {
      b := b0;
      cleared := 0;
      var row := Height - 1;
      while row >= BufferRows
        invariant BufferRows - 1 <= row < Height && IsBoard(b)
        invariant Sweep(b, row).board == Sweep(b0, Height - 1).board
        invariant Sweep(b, row).count + cleared == Sweep(b0, Height - 1).count
        decreases FullCount(b[..row + 1]), row
      {
        var full := RowIsFull(b[row]);
        if full {
          cleared := cleared + 1;
          DropRowCount(b, row);
          ghost var dropped := DropRow(b, row);
          b := b[..row] + b[row + 1..];
          b := [BlankRow()] + b;
          assert b == dropped;
          row := row + 1;
        } else {
          assert b[..row + 1][..row] == b[..row];
        }
        row := row - 1;
      }
    }

    method TogglePause()
      modifies this`isPaused
      ensures State() == PauseToggled(old(State()))
    {
      if gameOver {
        return;
      }
      isPaused := !isPaused;
    }

    /** The drop timer's callback. */
    method Tick(choice: nat)
      requires Valid(State())
      modifies this
      ensures State() == Ticked(old(State()), choice)
    {
      if !isPaused && !gameOver {
        var _ := MoveDown(choice);
      }
    }

    method HandleKeyDown(key: string, choice: nat)
      requires Valid(State())
      modifies this
      ensures State() == KeyPressed(old(State()), key, choice)
      ensures Valid(State())
    {
      KeyPressedValid(State(), key, choice);
      if gameOver {
        return;
      }
      if key == "ArrowLeft" {
        MoveLeft();
      } else if key == "ArrowRight" {
        MoveRight();
      } else if key == "ArrowDown" {
        var _ := MoveDown(choice);
      } else if key == "ArrowUp" {
        Rotate();
      } else if key == " " {
        HardDrop(choice);
      } else if key == "p" || key == "P" {
        TogglePause();
      } else if key == "h" || key == "H" {
        Hold(choice);
      }
    }

    method Reset(choices: seq<nat>)
      requires |choices| == 4
      modifies this
      ensures State() == Restarted(old(State()), choices)
      ensures Valid(State())
    {
      board := EmptyBoard();
      currentPiece := None;
      heldPiece := None;
      canHold := true;
      nextPieces := GenerateNextPieces(choices[..3]);
      score := 0;
      lines := 0;
      level := 1;
      gameOver := false;
      isPaused := false;
      SpawnPiece(choices[3]);
      RestartedFacts(old(State()), choices);
    }
  }
}
