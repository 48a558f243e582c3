/**
 * Tic-Tac-Toe against a minimax opponent.
 *
 * The nine cells are numbered row by row, 0 to 8. `CheckWinner` looks at
 * the eight lines in a fixed order; `Value` is the minimax score of a board
 * for the opponent O; `ChosenMove` is the opponent's choice, with its two
 * random draws given as numbers. The class `TicTacToeGame` holds the board
 * as an array that minimax marks and unmarks in place, and each event
 * handler is proved against a function on the whole `State`.
 */
module TicTacToe {
  import opened Wrappers

  datatype Player = X | O
  type Cell = Option<Player>
  type Board = seq<Cell>

  /** `winner` with its `line`: a player and the three cells, a tie, or no
   *  result yet. */
  datatype Outcome = Won(player: Player, line: Line) | Tie | Open

  /** Three cell indices. */
  datatype Line = Line(a: int, b: int, c: int)

  datatype Mode = Human | AI
  datatype Difficulty = Easy | Medium | Hard | Unrecognised

  /** What the overlay layer shows; clicks on the board are ignored while it
   *  shows anything. */
  datatype Overlay = NoOverlay | Menu | GameOverCard

  const Cells := 9
  const GridSize := 200

  predicate IsBoard(b: Board)
  {
    |b| == Cells
  }

  function EmptyBoard(): (b: Board)
    ensures IsBoard(b) && forall i :: 0 <= i < Cells ==> b[i] == None
  {
    seq(Cells, _ => None)
  }

  function Other(p: Player): Player
  {
    if p == X then O else X
  }

  // ---------------------------------------------------------------------------
  // Winner detection

  /** The `k`-th line of the table: rows, then columns, then diagonals. */
  function LineAt(k: int): (l: Line)
    requires 0 <= k < 8
    ensures 0 <= l.a < Cells && 0 <= l.b < Cells && 0 <= l.c < Cells
  {
    if k < 3 then Line(3 * k, 3 * k + 1, 3 * k + 2)
    else if k < 6 then Line(k - 3, k, k + 3)
    else if k == 6 then Line(0, 4, 8)
    else Line(2, 4, 6)
  }

  /** The three cells of line `k` hold the same mark. */
  predicate LineWins(b: Board, k: int)
    requires IsBoard(b) && 0 <= k < 8
  {
    var l := LineAt(k);
    b[l.a].Some? && b[l.a] == b[l.b] && b[l.a] == b[l.c]
  }

  predicate Full(b: Board)
  {
    forall i :: 0 <= i < |b| ==> b[i].Some?
  }

  /** The scan of `lines` from index `k` on, then the tie test. */
  function ScanLines(b: Board, k: int): Outcome
    requires IsBoard(b) && 0 <= k <= 8
    decreases 8 - k
  {
    if k == 8 then (if Full(b) then Tie else Open)
    else if LineWins(b, k) then Won(b[LineAt(k).a].value, LineAt(k))
    else ScanLines(b, k + 1)
  }

  function CheckWinner(b: Board): (r: Outcome)
    requires IsBoard(b)
  {
    ScanLines(b, 0)
  }

  /** The scan from `k` stops at the first winning line `w`, or runs to
   *  `w = 8` and then reports a tie exactly for a full board. */
  lemma {:induction false} ScanLinesFacts(b: Board, k: int) returns (w: int)
    requires IsBoard(b) && 0 <= k <= 8
    ensures k <= w <= 8 && forall j :: k <= j < w ==> !LineWins(b, j)
    ensures w < 8 ==> LineWins(b, w) && ScanLines(b, k) == Won(b[LineAt(w).a].value, LineAt(w))
    ensures w == 8 ==> ScanLines(b, k) == if Full(b) then Tie else Open
    decreases 8 - k
  {
    if k == 8 || LineWins(b, k) {
      w := k;
    } else {
      w := ScanLinesFacts(b, k + 1);
    }
  }

  /** `checkWinner` reports the first winning line `w` of the table with its
   *  mark, a tie exactly when no line wins and all nine cells are marked,
   *  and no result otherwise. */
  lemma CheckWinnerFacts(b: Board) returns (w: int)
    requires IsBoard(b)
    ensures 0 <= w <= 8 && forall j :: 0 <= j < w ==> !LineWins(b, j)
    ensures var r := CheckWinner(b);
      (r.Won? <==> w < 8)
      && (r.Won? ==> LineWins(b, w) && r.line == LineAt(w) && Some(r.player) == b[LineAt(w).a])
      && (r.Tie? <==> w == 8 && Full(b))
      && (r.Open? <==> w == 8 && !Full(b))
  {
    w := ScanLinesFacts(b, 0);
  }

  // ---------------------------------------------------------------------------
  // Empty cells

  /** `board.map(...).filter(...)` over the first `n` cells: the indices of
   *  the empty ones, in increasing order. */
  function EmptiesUpTo(b: Board, n: int): (r: seq<int>)
    requires 0 <= n <= |b|
    ensures |r| <= n
    ensures forall k :: 0 <= k < |r| ==> 0 <= r[k] < n && b[r[k]].None?
    ensures forall k, l :: 0 <= k < l < |r| ==> r[k] < r[l]
  {
    if n == 0 then []
    else EmptiesUpTo(b, n - 1) + (if b[n - 1].None? then [n - 1] else [])
  }

  function Empties(b: Board): seq<int>
  {
    EmptiesUpTo(b, |b|)
  }

  function EmptyCount(b: Board): nat
  {
    |Empties(b)|
  }

  /** Every empty cell below `n` is listed. */
  lemma {:induction false} EmptiesComplete(b: Board, n: int, i: int)
    requires 0 <= i < n <= |b| && b[i].None?
    ensures i in EmptiesUpTo(b, n)
  {
    if i < n - 1 {
      EmptiesComplete(b, n - 1, i);
    }
  }

  lemma {:induction false} PlaceUpTo(b: Board, n: int, i: int, p: Player)
    requires 0 <= n <= |b| && 0 <= i < |b| && b[i].None?
    ensures |EmptiesUpTo(b[i := Some(p)], n)| == |EmptiesUpTo(b, n)| - (if i < n then 1 else 0)
  {
    if n > 0 {
      PlaceUpTo(b, n - 1, i, p);
    }
  }

  /** Marking an empty cell leaves one empty cell fewer. */
  lemma PlaceShrinks(b: Board, i: int, p: Player)
    requires 0 <= i < |b| && b[i].None?
    ensures EmptyCount(b[i := Some(p)]) == EmptyCount(b) - 1
  {
    PlaceUpTo(b, |b|, i, p);
  }

  /** `board.filter(c => c !== null).length`. */
  function MarkCount(b: Board): nat
  {
    if b == [] then 0 else MarkCount(b[..|b| - 1]) + (if b[|b| - 1].Some? then 1 else 0)
  }

  // ---------------------------------------------------------------------------
  // Minimax

  /** A JavaScript number as minimax uses it: an integer or an infinity. */
  datatype Score = NegInf | Fin(n: int) | PosInf

  /** `a > b`. */
  predicate Greater(a: Score, b: Score)
  {
    match (a, b)
    case (PosInf, _) => !b.PosInf?
    case (Fin(x), Fin(y)) => x > y
    case (Fin(_), NegInf) => true
    case _ => false
  }

  /** `Math.max(a, b)`. */
  function Max(a: Score, b: Score): Score
  {
    if Greater(b, a) then b else a
  }

  /** `Math.min(a, b)`. */
  function Min(a: Score, b: Score): Score
  {
    if Greater(a, b) then b else a
  }

  /** The mark the side to move places. */
  function MarkOf(isMaximizing: bool): Player
  {
    if isMaximizing then O else X
  }

  /** `minimax(board, depth, isMaximizing)`: O is the maximising side. */
  function Value(b: Board, depth: int, isMaximizing: bool): Score
    requires IsBoard(b)
    decreases EmptyCount(b), 1, 0
  {
    match CheckWinner(b)
    case Won(O, _) => Fin(10 - depth)
    case Won(X, _) => Fin(depth - 10)
    case Tie => Fin(0)
    case Open => Best(b, depth, isMaximizing, 0, if isMaximizing then NegInf else PosInf)
  }

  /** The loop over the cells from `i` on, with `best` the score so far. */
  function Best(b: Board, depth: int, isMaximizing: bool, i: int, best: Score): Score
    requires IsBoard(b) && 0 <= i <= Cells
    decreases EmptyCount(b), 0, Cells - i
  {
    if i == Cells then best
    else if b[i].Some? then Best(b, depth, isMaximizing, i + 1, best)
    else
      PlaceShrinks(b, i, MarkOf(isMaximizing));
      var s := Value(b[i := Some(MarkOf(isMaximizing))], depth + 1, !isMaximizing);
      Best(b, depth, isMaximizing, i + 1, if isMaximizing then Max(s, best) else Min(s, best))
  }

  /** A finite score within `10 - depth` of zero either way. */
  predicate InRange(s: Score, depth: int)
  {
    s.Fin? && depth - 10 <= s.n <= 10 - depth
  }

  /** Minimax never returns an infinity: a board with no result has an
   *  empty cell to try. A win found `k` plies further scores `10 - depth - k`
   *  for O and its negation for X, so from depth 0 every score lies in
   *  -10..10. */
  lemma {:induction false} ValueInRange(b: Board, depth: int, isMaximizing: bool)
    requires IsBoard(b) && 0 <= depth && depth + EmptyCount(b) <= 10
    ensures InRange(Value(b, depth, isMaximizing), depth)
    decreases EmptyCount(b), 1, 0
  {
    if CheckWinner(b).Open? {
      var w := CheckWinnerFacts(b);
      var i :| 0 <= i < Cells && b[i].None?;
      BestInRange(b, depth, isMaximizing, 0, if isMaximizing then NegInf else PosInf);
    }
  }

  lemma {:induction false} BestInRange(b: Board, depth: int, isMaximizing: bool, i: int, best: Score)
    requires IsBoard(b) && 0 <= i <= Cells && 0 <= depth && depth + EmptyCount(b) <= 10
    requires best == (if isMaximizing then NegInf else PosInf) || InRange(best, depth)
    requires best.Fin? || exists j :: i <= j < Cells && b[j].None?
    ensures InRange(Best(b, depth, isMaximizing, i, best), depth)
    decreases EmptyCount(b), 0, Cells - i
  {
    if i < Cells {
      if b[i].Some? {
        BestInRange(b, depth, isMaximizing, i + 1, best);
      } else {
        var p := MarkOf(isMaximizing);
        PlaceShrinks(b, i, p);
        ValueInRange(b[i := Some(p)], depth + 1, !isMaximizing);
        var s := Value(b[i := Some(p)], depth + 1, !isMaximizing);
        BestInRange(b, depth, isMaximizing, i + 1, if isMaximizing then Max(s, best) else Min(s, best));
      }
    }
  }

  // ---------------------------------------------------------------------------
  // The opponent's move

  /** The chance of a random move, in tenths: `Math.random() < 0.8` holds
   *  exactly when the tenths digit of the draw is below 8. */
  function RandomTenths(d: Difficulty): nat
  {
    if d == Easy then 8 else if d == Medium then 5 else 0
  }

  /** The board after O marks cell `i`, scored as X's turn at depth 0. */
  function TryO(b: Board, i: int): Score
    requires IsBoard(b) && 0 <= i < Cells
  {
    Value(b[i := Some(O)], 0, false)
  }

  /** The scores of O's candidate cells `e`, in order. */
  function Candidates(b: Board, e: seq<int>): (r: seq<Score>)
    requires IsBoard(b) && forall j :: 0 <= j < |e| ==> 0 <= e[j] < Cells
    ensures |r| == |e|
  {
    seq(|e|, j requires 0 <= j < |e| => TryO(b, e[j]))
  }

  /** The `for (const i of empty)` loop from position `k`, with `scores` the
   *  minimax scores of the cells: a later cell replaces the best only with
   *  a strictly greater score. */
  function ArgBest(e: seq<int>, scores: seq<Score>, k: int, bestScore: Score, bestMove: int): int
    requires |scores| == |e| && 0 <= k <= |e|
    decreases |e| - k
  {
    if k == |e| then bestMove
    else if Greater(scores[k], bestScore) then ArgBest(e, scores, k + 1, scores[k], e[k])
    else ArgBest(e, scores, k + 1, bestScore, bestMove)
  }

  /** With finite scores the loop ends on the first position of the
   *  greatest score. */
  lemma {:induction false} ArgBestFacts(e: seq<int>, scores: seq<Score>, k: int, q: int) returns (p: int)
    requires |scores| == |e| && 0 <= q < k <= |e|
    requires forall j :: 0 <= j < |e| ==> scores[j].Fin?
    requires forall j :: 0 <= j < k ==> !Greater(scores[j], scores[q])
    requires forall j :: 0 <= j < q ==> Greater(scores[q], scores[j])
    ensures 0 <= p < |e| && ArgBest(e, scores, k, scores[q], e[q]) == e[p]
    ensures forall j :: 0 <= j < |e| ==> !Greater(scores[j], scores[p])
    ensures forall j :: 0 <= j < p ==> Greater(scores[p], scores[j])
    decreases |e| - k
  {
    if k == |e| {
      p := q;
    } else if Greater(scores[k], scores[q]) {
      p := ArgBestFacts(e, scores, k + 1, k);
    } else {
      p := ArgBestFacts(e, scores, k + 1, q);
    }
  }

  /** `getBestMove`: `roll` is the tenths digit of the first draw and
   *  `pick` chooses among the empty cells for a random move. */
  function ChosenMove(b: Board, d: Difficulty, roll: nat, pick: nat): int
    requires IsBoard(b)
  {
    var e := Empties(b);
    if |e| == 0 then -1
    else if roll % 10 < RandomTenths(d) then e[pick % |e|]
    else if d == Hard && (MarkCount(b) == 0 || (MarkCount(b) == 1 && b[4].None?)) && b[4].None? then 4
    else Deliberate(b)
  }

  /** The minimax search over the empty cells, from an unbeatable start. */
  function Deliberate(b: Board): int
    requires IsBoard(b) && |Empties(b)| > 0
  {
    var e := Empties(b);
    ArgBest(e, Candidates(b, e), 0, NegInf, e[0])
  }

  lemma {:induction false} FullHasNoEmpties(b: Board, n: int)
    requires Full(b) && 0 <= n <= |b|
    ensures EmptiesUpTo(b, n) == []
  {
    if n > 0 {
      FullHasNoEmpties(b, n - 1);
    }
  }

  /** There is an empty cell exactly when the list of them is not empty. */
  lemma EmptiesIffNotFull(b: Board)
    ensures |Empties(b)| > 0 <==> !Full(b)
  {
    if !Full(b) {
      var i :| 0 <= i < |b| && b[i].None?;
      EmptiesComplete(b, |b|, i);
    } else {
      FullHasNoEmpties(b, |b|);
    }
  }

  /** The search picks the lowest-numbered empty cell of greatest minimax
   *  score. */
  lemma DeliberateFacts(b: Board)
    requires IsBoard(b) && |Empties(b)| > 0
    ensures var m := Deliberate(b);
      0 <= m < Cells && b[m].None? && InRange(TryO(b, m), 0)
      && (forall i :: 0 <= i < Cells && b[i].None? ==> InRange(TryO(b, i), 0) && !Greater(TryO(b, i), TryO(b, m)))
      && (forall i :: 0 <= i < m && b[i].None? ==> Greater(TryO(b, m), TryO(b, i)))
  {
    var e := Empties(b);
    var sc := Candidates(b, e);
    forall j | 0 <= j < |e|
      ensures InRange(sc[j], 0)
    {
      TryOInRange(b, e[j]);
    }
    var p := ArgBestFacts(e, sc, 1, 0);
    var m := Deliberate(b);
    forall i | 0 <= i < Cells && b[i].None?
      ensures InRange(TryO(b, i), 0) && !Greater(TryO(b, i), TryO(b, m))
      ensures i < m ==> Greater(TryO(b, m), TryO(b, i))
    {
      EmptiesComplete(b, Cells, i);
      TryOInRange(b, i);
      var j :| 0 <= j < |e| && e[j] == i;
      assert sc[j] == TryO(b, i);
    }
  }

  /** The scores of O's candidate cells are finite: an empty cell leaves at
   *  most eight empty ones. */
  lemma TryOInRange(b: Board, i: int)
    requires IsBoard(b) && 0 <= i < Cells && b[i].None?
    ensures InRange(TryO(b, i), 0)
  {
    PlaceShrinks(b, i, O);
    ValueInRange(b[i := Some(O)], 0, false);
  }

  /** `getBestMove` gives -1 exactly when no cell is empty and an empty
   *  cell otherwise; on hard an empty board, or one whose single mark is
   *  off the centre, gets the centre; a move that is not random is the
   *  lowest-numbered cell of greatest minimax score. */
  lemma ChosenMoveFacts(b: Board, d: Difficulty, roll: nat, pick: nat)
    requires IsBoard(b)
    ensures var m := ChosenMove(b, d, roll, pick);
      (m == -1 <==> Full(b))
      && (m != -1 ==> 0 <= m < Cells && b[m].None?)
      && (!Full(b) && d == Hard && b[4].None? && MarkCount(b) <= 1 ==> m == 4)
      && (!Full(b) && roll % 10 >= RandomTenths(d) && !(d == Hard && b[4].None? && MarkCount(b) <= 1) ==>
            InRange(TryO(b, m), 0)
            && (forall i :: 0 <= i < Cells && b[i].None? ==> InRange(TryO(b, i), 0) && !Greater(TryO(b, i), TryO(b, m)))
            && (forall i :: 0 <= i < m && b[i].None? ==> Greater(TryO(b, m), TryO(b, i))))
  {
    EmptiesIffNotFull(b);
    if !Full(b) {
      DeliberateFacts(b);
    }
  }

  // ---------------------------------------------------------------------------
  // Game state and events

  datatype Game = Game(
    board: Board, current: Player, winner: Outcome, winLine: Option<Line>,
    mode: Mode, difficulty: Difficulty, xWins: nat, oWins: nat, ties: nat,
    thinking: bool, overlay: Overlay)

  /** The saved difficulty: missing or empty means hard; a string that is
   *  none of the three is kept and counts as neither easy nor medium nor
   *  hard. */
  function DifficultyOf(saved: Option<string>): Difficulty
  {
    match saved
    case None => Hard
    case Some(s) =>
      if s == "" || s == "hard" then Hard
      else if s == "easy" then Easy
      else if s == "medium" then Medium
      else Unrecognised
  }

  /** `makeMove(index)`. */
  function Played(s: Game, i: int): Game
    requires IsBoard(s.board) && 0 <= i < Cells
  {
    if s.board[i].Some? then s
    else
      var b := s.board[i := Some(s.current)];
      var w := CheckWinner(b);
      if w.Won? then
        s.(board := b, winLine := Some(w.line), winner := w,
           xWins := if w.player == X then s.xWins + 1 else s.xWins,
           oWins := if w.player == O then s.oWins + 1 else s.oWins)
      else if w.Tie? then
        s.(board := b, winLine := None, winner := w, ties := s.ties + 1)
      else
        var next := Other(s.current);
        s.(board := b, current := next, thinking := if s.mode == AI && next == O then true else s.thinking)
  }

  /** The cell under canvas point (`x`, `y`): `row * 3 + col`. */
  function ClickIndex(x: int, y: int): int
  {
    (y / GridSize) * 3 + x / GridSize
  }

  /** Clicks are ignored once there is a result, while the opponent thinks,
   *  while the overlay shows something, and on O's turn against the
   *  opponent. */
  predicate ClickIgnored(s: Game)
  {
    !s.winner.Open? || s.thinking || s.overlay != NoOverlay || (s.mode == AI && s.current == O)
  }

  /** `handleClick` at canvas point (`x`, `y`). */
  function Clicked(s: Game, x: int, y: int): Game
    requires IsBoard(s.board)
  {
    var i := ClickIndex(x, y);
    if ClickIgnored(s) then s
    else if 0 <= i < Cells && s.board[i].None? then Played(s, i)
    else s
  }

  /** The opponent's timer callback. */
  function OpponentMoved(s: Game, roll: nat, pick: nat): Game
    requires IsBoard(s.board)
  {
    var m := ChosenMove(s.board, s.difficulty, roll, pick);
    if m != -1 then
      ChosenMoveFacts(s.board, s.difficulty, roll, pick);
      Played(s.(thinking := false), m)
    else s
  }

  /** `resetGame`. */
  function Restarted(s: Game): Game
  {
    s.(board := EmptyBoard(), current := X, winner := Open, winLine := None, thinking := false, overlay := NoOverlay)
  }

  /** The "Menu" button of the result card. */
  function BackedToMenu(s: Game): Game
  {
    s.(winner := Open, winLine := None, overlay := Menu)
  }

  /** `makeMove` ignores a marked cell. On a fresh cell it writes the mark of
   *  the player to move and nothing else; a win or a tie raises exactly one
   *  of the three counters, the one that matches, and keeps the player to
   *  move; otherwise the move passes to the other player. */
  lemma PlayedFacts(s: Game, i: int)
    requires IsBoard(s.board) && 0 <= i < Cells
    ensures var r := Played(s, i);
      (s.board[i].Some? ==> r == s)
      && (s.board[i].None? ==>
            var w := CheckWinner(s.board[i := Some(s.current)]);
            r.board == s.board[i := Some(s.current)]
            && (w.Open? <==> r.current != s.current)
            && (w.Open? ==> r.winner == s.winner && r.xWins + r.oWins + r.ties == s.xWins + s.oWins + s.ties)
            && (!w.Open? ==> r.winner == w && r.xWins + r.oWins + r.ties == s.xWins + s.oWins + s.ties + 1)
            && (r.xWins > s.xWins ==> w == Won(X, w.line))
            && (r.oWins > s.oWins ==> w == Won(O, w.line))
            && (r.ties > s.ties ==> w.Tie?))
  {
  }

  /** A click that is not ignored marks the cell in row `y / 200` and column
   *  `x / 200` when the point lies on the canvas and the cell is empty. */
  lemma ClickedFacts(s: Game, x: int, y: int)
    requires IsBoard(s.board)
    ensures ClickIgnored(s) ==> Clicked(s, x, y) == s
    ensures !ClickIgnored(s) && 0 <= x < 600 && 0 <= y < 600 ==>
      0 <= ClickIndex(x, y) < Cells
      && ClickIndex(x, y) / 3 == y / GridSize && ClickIndex(x, y) % 3 == x / GridSize
      && Clicked(s, x, y) == Played(s, ClickIndex(x, y))
  {
  }

  /** At the right edge of the canvas, `col` is 3 and the index falls on the
   *  first cell of the next row. */
  lemma RightEdgeWraps(y: int)
    requires 0 <= y < 400
    ensures ClickIndex(600, y) == (y / GridSize + 1) * 3
  {
  }

  /** The opponent's callback marks an empty cell with O when it is O's turn
   *  and stops thinking; on a full board it changes nothing. */
  lemma OpponentMovedFacts(s: Game, roll: nat, pick: nat)
    requires IsBoard(s.board)
    ensures Full(s.board) ==> OpponentMoved(s, roll, pick) == s
    ensures !Full(s.board) ==>
      var m := ChosenMove(s.board, s.difficulty, roll, pick);
      0 <= m < Cells && s.board[m].None?
      && OpponentMoved(s, roll, pick).board == s.board[m := Some(s.current)]
  {
    ChosenMoveFacts(s.board, s.difficulty, roll, pick);
  }

  /** `resetGame` empties the board, clears the result, gives X the move and
   *  keeps the scores, the mode and the difficulty. */
  lemma RestartedFacts(s: Game)
    ensures var r := Restarted(s);
      IsBoard(r.board) && !Full(r.board) && CheckWinner(r.board).Open? && !ClickIgnored(r)
      && r.current == X && r.xWins == s.xWins && r.oWins == s.oWins && r.ties == s.ties
      && r.mode == s.mode && r.difficulty == s.difficulty
  {
    var b := EmptyBoard();
    var w := CheckWinnerFacts(b);
    assert b[0].None?;
  }

  class TicTacToeGame {
    var board: array<Cell>
    var currentPlayer: Player
    var winner: Outcome
    var winLine: Option<Line>
    var gameMode: Mode
    var difficulty: Difficulty
    var xWins: nat
    var oWins: nat
    var ties: nat
    var isThinking: bool
    var overlay: Overlay

    ghost predicate Valid()
      reads this
    {
      board.Length == Cells
    }

    ghost function State(): Game
      reads this, board
    {
      Game(board[..], currentPlayer, winner, winLine, gameMode, difficulty, xWins, oWins, ties, isThinking, overlay)
    }

    /** A new game against the opponent at the saved difficulty, with the
     *  menu shown. */
    constructor(saved: Option<string>)
      ensures Valid() && fresh(board)
      ensures State() == Game(EmptyBoard(), X, Open, None, AI, DifficultyOf(saved), 0, 0, 0, false, Menu)
    {
      board := new Cell[Cells](_ => None);
      currentPlayer := X;
      winner := Open;
      winLine := None;
      gameMode := AI;
      difficulty := DifficultyOf(saved);
      xWins, oWins, ties := 0, 0, 0;
      isThinking := false;
      overlay := Menu;
      new;
      assert board[..] == EmptyBoard();
    }

    /** `minimax` on the board: it marks each empty cell in turn, recurses
     *  and unmarks it, so the board comes back as it was. */
    method Minimax(depth: int, isMaximizing: bool) returns (score: Score)
      requires Valid()
      modifies board
      ensures board[..] == old(board[..])
      ensures score == Value(old(board[..]), depth, isMaximizing)
      decreases EmptyCount(board[..])
    {
      var b0 := board[..];
      var w := CheckWinner(b0);
      if w.Won? && w.player == O {
        return Fin(10 - depth);
      }
      if w.Won? && w.player == X {
        return Fin(depth - 10);
      }
      if w.Tie? {
        return Fin(0);
      }
      var mark := MarkOf(isMaximizing);
      var start := if isMaximizing then NegInf else PosInf;
      score := start;
      for i := 0 to Cells
        invariant board[..] == b0
        invariant Best(b0, depth, isMaximizing, i, score) == Best(b0, depth, isMaximizing, 0, start)
      {
        if board[i].None? {
          board[i] := Some(mark);
          assert board[..] == b0[i := Some(mark)];
          PlaceShrinks(b0, i, mark);
          var s := Minimax(depth + 1, !isMaximizing);
          board[i] := None;
          assert board[..] == b0;
          score := if isMaximizing then Max(s, score) else Min(s, score);
        }
      }
    }

    /** `getBestMove` on the board, which it leaves as it was. */
    method GetBestMove(roll: nat, pick: nat) returns (m: int)
      requires Valid()
      modifies board
      ensures board[..] == old(board[..])
      ensures m == ChosenMove(old(board[..]), difficulty, roll, pick)
    {
      var b0 := board[..];
      var empty := Empties(b0);
      if |empty| == 0 {
        return -1;
      }
      if roll % 10 < RandomTenths(difficulty) {
        return empty[pick % |empty|];
      }
      if difficulty == Hard {
        var marks := MarkCount(b0);
        if marks == 0 || (marks == 1 && board[4].None?) {
          if board[4].None? {
            return 4;
          }
        }
      }
      var bestScore := NegInf;
      m := empty[0];
      for k := 0 to |empty|
        invariant board[..] == b0
        invariant ArgBest(empty, Candidates(b0, empty), k, bestScore, m)
          == ArgBest(empty, Candidates(b0, empty), 0, NegInf, empty[0])
      {
        var i := empty[k];
        board[i] := Some(O);
        assert board[..] == b0[i := Some(O)];
        var s := Minimax(0, false);
        assert s == Candidates(b0, empty)[k];
        board[i] := None;
        assert board[..] == b0;
        if Greater(s, bestScore) {
          bestScore := s;
          m := i;
        }
      }
    }

    /** `makeMove(index)`. */
    method MakeMove(index: int)
      requires Valid() && 0 <= index < Cells
      modifies this, board
      ensures Valid() && board == old(board)
      ensures State() == Played(old(State()), index)
    {
      if board[index].Some? {
        return;
      }
      board[index] := Some(currentPlayer);
      var w := CheckWinner(board[..]);
      if w.Won? {
        winLine := Some(w.line);
        winner := w;
        if w.player == X {
          xWins := xWins + 1;
        } else {
          oWins := oWins + 1;
        }
        return;
      }
      if w.Tie? {
        winLine := None;
        winner := w;
        ties := ties + 1;
        return;
      }
      currentPlayer := Other(currentPlayer);
      if gameMode == AI && currentPlayer == O {
        isThinking := true;
      }
    }

    /** `handleClick` at canvas point (`x`, `y`). */
    method HandleClick(x: int, y: int)
      requires Valid()
      modifies this, board
      ensures Valid() && board == old(board)
      ensures State() == Clicked(old(State()), x, y)
    {
      if !winner.Open? || isThinking || overlay != NoOverlay {
        return;
      }
      if gameMode == AI && currentPlayer == O {
        return;
      }
      var col := x / GridSize;
      var row := y / GridSize;
      var index := row * 3 + col;
      if 0 <= index < Cells && board[index].None? {
        MakeMove(index);
      }
    }

    /** The opponent's turn, run by the timer that `makeMove` starts. */
    method OpponentTurn(roll: nat, pick: nat)
      requires Valid()
      modifies this, board
      ensures Valid() && board == old(board)
      ensures State() == OpponentMoved(old(State()), roll, pick)
    {
      var bestMove := GetBestMove(roll, pick);
      if bestMove != -1 {
        ChosenMoveFacts(board[..], difficulty, roll, pick);
        isThinking := false;
        MakeMove(bestMove);
      }
    }

    /** The result card that the win timer shows. */
    method ShowGameOver()
      modifies this
      ensures board == old(board)
      ensures State() == old(State()).(overlay := GameOverCard)
    {
      overlay := GameOverCard;
    }

    /** `resetGame`: a fresh board array. */
    method ResetGame()
      modifies this
      ensures Valid() && fresh(board)
      ensures State() == Restarted(old(State()))
    {
      board := new Cell[Cells](_ => None);
      currentPlayer := X;
      winner := Open;
      winLine := None;
      isThinking := false;
      overlay := NoOverlay;
      assert board[..] == EmptyBoard();
    }

    /** `startGame(mode)`. */
    method StartGame(mode: Mode)
      modifies this
      ensures Valid() && fresh(board)
      ensures State() == Restarted(old(State()).(mode := mode))
    {
      gameMode := mode;
      ResetGame();
    }

    /** The "Menu" button: the board stays as it was. */
    method BackToMenu()
      modifies this
      ensures board == old(board)
      ensures State() == BackedToMenu(old(State()))
    {
      winner := Open;
      winLine := None;
      overlay := Menu;
    }

    /** A difficulty button of the menu. */
    method ChooseDifficulty(d: Difficulty)
      modifies this
      ensures board == old(board)
      ensures State() == old(State()).(difficulty := d)
    {
      difficulty := d;
    }
  }
}
