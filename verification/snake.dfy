/**
 * Snake on a 20 by 20 grid.
 *
 * The snake is a list of cells, head first. Each tick the head moves one
 * cell in the queued direction; leaving the grid or running into any cell
 * of the body, the tail included, ends the game; eating the food grows the
 * snake by one and a new food cell is drawn until it is off the snake.
 * The random draws of `spawnFood` are given as a list of number pairs.
 */
module Snake {
  import opened Wrappers

  const Grid := 20
  const StartSpeed := 120
  const MinSpeed := 60

  datatype Point = Point(x: int, y: int)
  datatype Dir = Up | Down | Left | Right

  function DX(d: Dir): int
  {
    match d
    case Left => -1
    case Right => 1
    case _ => 0
  }

  function DY(d: Dir): int
  {
    match d
    case Up => -1
    case Down => 1
    case _ => 0
  }

  function Opposite(d: Dir): Dir
  {
    match d
    case Up => Down
    case Down => Up
    case Left => Right
    case Right => Left
  }

  function Step(p: Point, d: Dir): Point
  {
    Point(p.x + DX(d), p.y + DY(d))
  }

  predicate InGrid(p: Point)
  {
    0 <= p.x < Grid && 0 <= p.y < Grid
  }

  /** The guard `newDir.x + dir.x !== 0 || newDir.y + dir.y !== 0`. */
  predicate NotReversal(newDir: Dir, dir: Dir)
  {
    DX(newDir) + DX(dir) != 0 || DY(newDir) + DY(dir) != 0
  }

  /** The guard rejects exactly the opposite direction. */
  lemma NotReversalIff(newDir: Dir, dir: Dir)
    ensures NotReversal(newDir, dir) <==> newDir != Opposite(dir)
  {
  }

  predicate Adjacent(p: Point, q: Point)
  {
    (p.x == q.x && (p.y == q.y + 1 || p.y + 1 == q.y)) || (p.y == q.y && (p.x == q.x + 1 || p.x + 1 == q.x))
  }

  /** A snake: at least one cell, all on the grid, each next to the one
   *  before it, no cell twice. */
  predicate WellFormed(s: seq<Point>)
  {
    |s| >= 1
    && (forall i :: 0 <= i < |s| ==> InGrid(s[i]))
    && (forall i :: 0 <= i < |s| - 1 ==> Adjacent(s[i], s[i + 1]))
    && (forall i, j :: 0 <= i < j < |s| ==> s[i] != s[j])
  }

  // ---------------------------------------------------------------------------
  // Food

  /** `Math.floor(Math.random() * GRID)` for each coordinate. */
  function Drawn(c: (nat, nat)): (p: Point)
    ensures InGrid(p)
  {
    Point(c.0 % Grid, c.1 % Grid)
  }

  /** The `do ... while` of `spawnFood`: the first draw off the snake. When
   *  no draw given is off the snake the food stays where it was. */
  function FoodAfter(food: Point, snake: seq<Point>, draws: seq<(nat, nat)>): Point
  {
    if draws == [] then food
    else if Drawn(draws[0]) !in snake then Drawn(draws[0])
    else FoodAfter(food, snake, draws[1..])
  }

  /** The new food is the first draw off the snake: on the grid and not on
   *  the snake. */
  lemma {:induction false} FoodAfterFacts(food: Point, snake: seq<Point>, draws: seq<(nat, nat)>)
    ensures var f := FoodAfter(food, snake, draws);
      ((exists k :: 0 <= k < |draws| && Drawn(draws[k]) !in snake) ==>
        f !in snake && InGrid(f)
        && exists k :: 0 <= k < |draws| && f == Drawn(draws[k]) && forall j :: 0 <= j < k ==> Drawn(draws[j]) in snake)
      && ((forall k :: 0 <= k < |draws| ==> Drawn(draws[k]) in snake) ==> f == food)
  {
    if draws != [] && Drawn(draws[0]) in snake {
      FoodAfterFacts(food, snake, draws[1..]);
      var f := FoodAfter(food, snake, draws);
      if exists k :: 0 <= k < |draws| && Drawn(draws[k]) !in snake {
        var k :| 0 <= k < |draws| && Drawn(draws[k]) !in snake;
        assert Drawn(draws[1..][k - 1]) !in snake;
        var k' :| 0 <= k' < |draws[1..]| && f == Drawn(draws[1..][k']) && forall j :: 0 <= j < k' ==> Drawn(draws[1..][j]) in snake;
        assert f == Drawn(draws[k' + 1]);
        forall j | 0 <= j < k' + 1
          ensures Drawn(draws[j]) in snake
        {
          if j > 0 {
            assert draws[j] == draws[1..][j - 1];
          }
        }
      }
      if forall k :: 0 <= k < |draws| ==> Drawn(draws[k]) in snake {
        forall k | 0 <= k < |draws[1..]|
          ensures Drawn(draws[1..][k]) in snake
        {
          assert draws[1..][k] == draws[k + 1];
        }
      }
    }
  }

  // ---------------------------------------------------------------------------
  // Game state

  datatype Game = Game(
    snake: seq<Point>, food: Point, dir: Dir, nextDir: Dir,
    score: int, highScore: int, speed: int,
    gameOver: bool, paused: bool, started: bool,
    timer: Option<int>)

  predicate Valid(g: Game)
  {
    WellFormed(g.snake)
    && MinSpeed <= g.speed <= StartSpeed && g.speed % 10 == 0
    && g.score >= 0 && g.score % 10 == 0
  }

  /** The three starting cells, head first, in the middle row. */
  function StartSnake(): seq<Point>
  {
    var mid := Grid / 2;
    [Point(mid, mid), Point(mid - 1, mid), Point(mid - 2, mid)]
  }

  /** `restart`: the snake in the middle facing right, score 0, speed 120,
   *  not started, no timer, food drawn off the snake. */
  function Restarted(g: Game, draws: seq<(nat, nat)>): Game
  {
    g.(snake := StartSnake(), dir := Right, nextDir := Right, score := 0,
       gameOver := false, paused := false, started := false, speed := StartSpeed,
       food := FoodAfter(g.food, StartSnake(), draws), timer := None)
  }

  /** The constructor: the saved best score, a food cell at (0, 0), then
   *  `restart`. */
  function Initial(saved: int, draws: seq<(nat, nat)>): Game
  {
    Restarted(Game([], Point(0, 0), Right, Right, 0, saved, StartSpeed, false, false, false, None), draws)
  }

  /** `endGame`. */
  function Ended(g: Game): Game
  {
    g.(gameOver := true, timer := None, highScore := if g.score > g.highScore then g.score else g.highScore)
  }

  /** `tick`. */
  function Ticked(g: Game, draws: seq<(nat, nat)>): Game
    requires |g.snake| > 0
  {
    if g.gameOver || g.paused then g
    else
      var head := Step(g.snake[0], g.nextDir);
      var g1 := g.(dir := g.nextDir);
      if !InGrid(head) || head in g.snake then Ended(g1)
      else if head == g.food then Ate(g1, head, draws)
      else Crawled(g1, head)
  }

  /** The head moves onto the food: the snake keeps its tail, the score
   *  rises by 10, new food is drawn, and every fifth food the speed drops
   *  by 10 down to 60 and the timer restarts at the new speed. */
  function Ate(g: Game, head: Point, draws: seq<(nat, nat)>): Game
  {
    var s := [head] + g.snake;
    var score := g.score + 10;
    var faster := score % 50 == 0 && g.speed > MinSpeed;
    g.(snake := s, score := score, food := FoodAfter(g.food, s, draws),
       speed := if faster then g.speed - 10 else g.speed,
       timer := if faster then Some(g.speed - 10) else g.timer)
  }

  /** The head moves onto a free cell and the tail is dropped. */
  function Crawled(g: Game, head: Point): Game
  {
    g.(snake := ([head] + g.snake)[..|g.snake|])
  }

  /** The `keyMap` of the key handler. */
  function DirOfKey(key: string): Option<Dir>
  {
    if key == "ArrowUp" || key == "w" || key == "W" then Some(Up)
    else if key == "ArrowDown" || key == "s" || key == "S" then Some(Down)
    else if key == "ArrowLeft" || key == "a" || key == "A" then Some(Left)
    else if key == "ArrowRight" || key == "d" || key == "D" then Some(Right)
    else None
  }

  /** `startGame`. */
  function Started(g: Game): Game
  {
    if g.started then g else g.(started := true, timer := Some(g.speed))
  }

  /** `handleKeyDown`; `focused` says whether the page or the game holds the
   *  focus. */
  function KeyPressed(g: Game, key: string, focused: bool): Game
  {
    var d := DirOfKey(key);
    if !focused then g
    else if !g.started && !g.gameOver then
      Started(if d.Some? then g.(nextDir := d.value) else g)
    else if d.Some? && !g.gameOver && NotReversal(d.value, g.dir) then g.(nextDir := d.value)
    else g
  }

  // ---------------------------------------------------------------------------
  // Properties

  lemma StartSnakeWellFormed()
    ensures WellFormed(StartSnake())
  {
  }

  /** `restart` gives the three cells (10,10), (9,10), (8,10) facing right,
   *  score 0 and speed 120, keeps the best score, and a valid game. */
  lemma RestartedFacts(g: Game, draws: seq<(nat, nat)>)
    ensures var r := Restarted(g, draws);
      Valid(r) && r.snake == [Point(10, 10), Point(9, 10), Point(8, 10)]
      && r.dir == Right && r.score == 0 && r.speed == 120 && !r.started && !r.gameOver
      && r.highScore == g.highScore
      && ((exists k :: 0 <= k < |draws| && Drawn(draws[k]) !in r.snake) ==> r.food !in r.snake)
  {
    FoodAfterFacts(g.food, StartSnake(), draws);
  }

  /** A tick with the new head off the grid, or on any cell of the body
   *  including the tail that is about to move, ends the game; the best
   *  score is then at least the score. */
  lemma TickedCollides(g: Game, draws: seq<(nat, nat)>)
    requires |g.snake| > 0 && !g.gameOver && !g.paused
    ensures var head := Step(g.snake[0], g.nextDir);
      (!InGrid(head) || head in g.snake) ==>
        var r := Ticked(g, draws);
        r.gameOver && r.snake == g.snake && r.score == g.score && r.timer.None?
        && r.highScore >= r.score && r.highScore >= g.highScore
  {
  }

  /** A tick that does not collide moves the head one cell in the queued
   *  direction; eating grows the snake by one and adds 10, otherwise the
   *  length and the score stay. */
  lemma TickedMoves(g: Game, draws: seq<(nat, nat)>)
    requires |g.snake| > 0 && !g.gameOver && !g.paused
    ensures var head := Step(g.snake[0], g.nextDir);
      (InGrid(head) && head !in g.snake) ==>
        var r := Ticked(g, draws);
        !r.gameOver && r.snake[0] == head && r.dir == g.nextDir
        && r.snake[1..] == (if head == g.food then g.snake else g.snake[..|g.snake| - 1])
        && (head == g.food ==> |r.snake| == |g.snake| + 1 && r.score == g.score + 10)
        && (head != g.food ==> |r.snake| == |g.snake| && r.score == g.score && r.food == g.food)
  {
    var head := Step(g.snake[0], g.nextDir);
    var s := [head] + g.snake;
    if head != g.food {
      assert s[..|g.snake|][1..] == g.snake[..|g.snake| - 1];
    }
  }

  /** A tick keeps a valid game valid: the snake stays on the grid, connected
   *  and free of repeated cells, the speed stays a multiple of 10 within
   *  60..120 and the score a multiple of 10. */
  lemma TickedValid(g: Game, draws: seq<(nat, nat)>)
    requires Valid(g)
    ensures Valid(Ticked(g, draws))
  {
    var head := Step(g.snake[0], g.nextDir);
    if !g.gameOver && !g.paused && InGrid(head) && head !in g.snake {
      StepIsAdjacent(g.snake[0], g.nextDir);
      GrowWellFormed(g.snake, head);
      var g1 := g.(dir := g.nextDir);
      if head == g.food {
        assert Ticked(g, draws) == Ate(g1, head, draws);
      } else {
        DropTailWellFormed([head] + g.snake);
        assert Ticked(g, draws) == Crawled(g1, head);
      }
    }
  }

  /** A new head next to the old one, on the grid and off the body, keeps a
   *  snake well formed. */
  lemma GrowWellFormed(s: seq<Point>, head: Point)
    requires WellFormed(s) && InGrid(head) && head !in s && Adjacent(head, s[0])
    ensures WellFormed([head] + s)
  {
    var t := [head] + s;
    assert forall i :: 1 <= i < |t| ==> t[i] == s[i - 1];
  }

  /** Dropping the tail of a snake of two or more cells keeps it well
   *  formed. */
  lemma DropTailWellFormed(s: seq<Point>)
    requires WellFormed(s) && |s| >= 2
    ensures WellFormed(s[..|s| - 1])
  {
  }

  lemma StepIsAdjacent(p: Point, d: Dir)
    ensures Adjacent(Step(p, d), p)
  {
  }

  /** The food stays off the snake: after a move without eating the head is
   *  not the food, and after eating the new food is drawn off the snake. */
  lemma TickedFoodOff(g: Game, draws: seq<(nat, nat)>)
    requires Valid(g) && g.food !in g.snake
    requires exists k :: 0 <= k < |draws| && Drawn(draws[k]) !in [Step(g.snake[0], g.nextDir)] + g.snake
    ensures var r := Ticked(g, draws); r.food !in r.snake
  {
    var head := Step(g.snake[0], g.nextDir);
    var s := [head] + g.snake;
    FoodAfterFacts(g.food, s, draws);
    if head != g.food {
      assert forall p :: p in s[..|g.snake|] ==> p in s;
    }
  }

  /** After the game ends the best score is at least the score. */
  lemma EndedKeepsBest(g: Game)
    ensures Ended(g).highScore >= Ended(g).score && Ended(g).highScore >= g.highScore
  {
  }

  /** Once started, a direction key is queued only when it is not the
   *  reverse of the current direction, and nothing else changes. */
  lemma KeyAfterStart(g: Game, key: string, focused: bool)
    requires g.started || g.gameOver
    ensures var r := KeyPressed(g, key, focused);
      r.dir == g.dir && r.snake == g.snake && r.started == g.started
      && (r.nextDir != g.nextDir ==> r.nextDir != Opposite(g.dir) && Some(r.nextDir) == DirOfKey(key))
  {
  }

  /** Before the start the first key is queued without the reversal guard:
   *  Left on a fresh game turns the head onto the second cell, and the
   *  first tick ends the game. */
  lemma FirstKeyLeftEndsGame(saved: int, draws: seq<(nat, nat)>, later: seq<(nat, nat)>)
    ensures var g := KeyPressed(Initial(saved, draws), "ArrowLeft", true);
      g.started && g.nextDir == Left && g.nextDir == Opposite(g.dir)
      && Ticked(g, later).gameOver && Ticked(g, later).score == 0
  {
    var g := KeyPressed(Initial(saved, draws), "ArrowLeft", true);
    assert Step(g.snake[0], Left) == g.snake[1];
  }

  /** Any key starts a fresh game and starts the timer at the current
   *  speed. */
  lemma FirstKeyStarts(g: Game, key: string)
    requires !g.started && !g.gameOver
    ensures var r := KeyPressed(g, key, true);
      r.started && r.timer == Some(g.speed) && r.snake == g.snake
      && (DirOfKey(key).Some? ==> Some(r.nextDir) == DirOfKey(key))
  {
  }

  class SnakeGame {
    var snake: seq<Point>
    var food: Point
    var dir: Dir
    var nextDir: Dir
    var score: int
    var highScore: int
    var speed: int
    var gameOver: bool
    var paused: bool
    var started: bool
    var tickTimer: Option<int>

    ghost function State(): Game
      reads this
    {
      Game(snake, food, dir, nextDir, score, highScore, speed, gameOver, paused, started, tickTimer)
    }

    /** `saved` is the stored best score. */
    constructor(saved: int, draws: seq<(nat, nat)>)
      ensures State() == Initial(saved, draws)
    {
      snake := [];
      food := Point(0, 0);
      dir, nextDir := Right, Right;
      score := 0;
      highScore := saved;
      speed := StartSpeed;
      gameOver, paused, started := false, false, false;
      tickTimer := None;
      new;
      Restart(draws);
    }

    method Restart(draws: seq<(nat, nat)>)
      modifies this
      ensures State() == Restarted(old(State()), draws)
    {
      var mid := Grid / 2;
      snake := [Point(mid, mid), Point(mid - 1, mid), Point(mid - 2, mid)];
      dir := Right;
      nextDir := Right;
      score := 0;
      gameOver := false;
      paused := false;
      started := false;
      speed := StartSpeed;
      SpawnFood(draws);
      tickTimer := None;
    }

    method StartGame()
      modifies this
      ensures State() == Started(old(State()))
    {
      if started {
        return;
      }
      started := true;
      tickTimer := Some(speed);
    }

    /** `spawnFood`: draw until a cell off the snake comes up. */
    method SpawnFood(draws: seq<(nat, nat)>)
      modifies this
      ensures State() == old(State()).(food := FoodAfter(old(food), snake, draws))
    {
      var k := 0;
      while k < |draws| && Drawn(draws[k]) in snake
        invariant 0 <= k <= |draws|
        invariant FoodAfter(food, snake, draws[k..]) == FoodAfter(food, snake, draws)
      {
        assert draws[k..][1..] == draws[k + 1..];
        k := k + 1;
      }
      if k < |draws| {
        food := Drawn(draws[k]);
      } else {
        assert draws[k..] == [];
      }
    }

    method Tick(draws: seq<(nat, nat)>)
      requires |snake| > 0
      modifies this
      ensures State() == Ticked(old(State()), draws)
    {
      if gameOver || paused {
        return;
      }
      dir := nextDir;
      var head := snake[0];
      var newHead := Point(head.x + DX(dir), head.y + DY(dir));
      if newHead.x < 0 || newHead.x >= Grid || newHead.y < 0 || newHead.y >= Grid {
        EndGame();
        return;
      }
      if newHead in snake {
        EndGame();
        return;
      }
      var len := |snake|;
      snake := [newHead] + snake;
      if newHead == food {
        score := score + 10;
        SpawnFood(draws);
        if score % 50 == 0 && speed > MinSpeed {
          speed := speed - 10;
          tickTimer := Some(speed);
        }
      } else {
        snake := snake[..len];
      }
    }

    method EndGame()
      modifies this
      ensures State() == Ended(old(State()))
    {
      gameOver := true;
      tickTimer := None;
      if score > highScore {
        highScore := score;
      }
    }

    method HandleKeyDown(key: string, focused: bool)
      modifies this
      ensures State() == KeyPressed(old(State()), key, focused)
    {
      if !focused {
        return;
      }
      var newDir := DirOfKey(key);
      if !started && !gameOver {
        if newDir.Some? {
          nextDir := newDir.value;
        }
        StartGame();
        return;
      }
      if newDir.Some? && !gameOver {
        if DX(newDir.value) + DX(dir) != 0 || DY(newDir.value) + DY(dir) != 0 {
          nextDir := newDir.value;
        }
      }
    }
  }
}
