/** The Threes! engine of `src/games/threes.ts`: the merge rule, the line
 *  compaction of a move, the spawn edge, the score and the one-level undo.
 *  Tiles are kept, as in the source, as a list of records with a position. */
module Threes {
  import opened Wrappers
  import State

  const GridSize: int := 4

  datatype Direction = Up | Down | Left | Right

  /** The game-relevant part of an `AnimatedTile` (animation fields left out). */
  datatype Tile = Tile(id: int, value: int, row: int, col: int)

  /** What `snapshotState` records for undo. */
  datatype Snapshot = Snapshot(tiles: seq<Tile>, score: int, nextTile: int)

  // ---------------------------------------------------------------------------
  // Tile values

  predicate IsSpawnValue(v: int) { v == 1 || v == 2 || v == 3 }

  /** `getRandomValue`: `choice % 10` stands for the draw `Math.random()`
   *  scaled to tenths, so 1 and 2 have four chances in ten and 3 has two. */
  function RandomValue(choice: nat): (v: int)
    ensures IsSpawnValue(v)
  {
    var tenth := choice % 10;
    if tenth < 4 then 1 else if tenth < 8 then 2 else 3
  }

  lemma RandomValueCoversAll(v: int)
    requires IsSpawnValue(v)
    ensures exists choice: nat :: RandomValue(choice) == v
  {
    if v == 1 {
      assert RandomValue(0) == v;
    } else if v == 2 {
      assert RandomValue(4) == v;
    } else {
      assert RandomValue(8) == v;
    }
  }

  /** `canMerge`. */
  predicate CanMerge(a: int, b: int)
  {
    (a == 1 && b == 2) || (a == 2 && b == 1) || (a >= 3 && b >= 3 && a == b)
  }

  /** `mergeValue`: whenever the pair can merge, the merged tile carries the
   *  sum of the two values; otherwise the first value is kept. */
  function MergeValue(a: int, b: int): (r: int)
    ensures CanMerge(a, b) ==> r == a + b
    ensures !CanMerge(a, b) ==> r == a
  {
    if (a == 1 && b == 2) || (a == 2 && b == 1) then 3
    else if a >= 3 && a == b then a + b
    else a
  }

  /** `canMerge` is symmetric and holds exactly for {1, 2} and equal values >= 3. */
  lemma CanMergeCharacterised(a: int, b: int)
    ensures CanMerge(a, b) == CanMerge(b, a)
    ensures CanMerge(a, b) <==> (a + b == 3 && a * b == 2) || (a == b && a >= 3)
  {
    if a + b == 3 && a * b == 2 {
      assert (a - 1) * (a - 2) == a * a - 3 * a + 2;
      assert a * a - 3 * a + 2 == a * (a - 3) + 2;
      assert a * (a - 3) == -(a * b);
    }
  }

  function Pow2(k: nat): (r: nat)
    ensures r >= 1
  {
    if k == 0 then 1 else 2 * Pow2(k - 1)
  }

  function Pow3(k: nat): (r: nat)
    ensures r >= 1
  {
    if k == 0 then 1 else 3 * Pow3(k - 1)
  }

  /** floor(log2 n) for n >= 1. */
  function Log2(n: nat): nat
    requires n >= 1
  {
    if n == 1 then 1 - 1 else 1 + Log2(n / 2)
  }

  lemma {:induction false} Log2OfPow2(k: nat)
    ensures Log2(Pow2(k)) == k
  {
    if k > 0 {
      Log2OfPow2(k - 1);
      assert Pow2(k) / 2 == Pow2(k - 1);
    }
  }

  /** The values a tile can carry: 1, 2, or 3·2^k. */
  predicate IsTileValue(v: int)
  {
    v == 1 || v == 2 || exists k: nat :: k < v && v == 3 * Pow2(k)
  }

  lemma Pow2Bound(k: nat)
    ensures k < Pow2(k)
  {
  }

  /** Merging two tile values gives a tile value, so values stay in
   *  {1, 2} ∪ {3·2^k} when spawns yield only 1, 2 and 3. */
  lemma MergeKeepsTileValue(a: int, b: int)
    requires IsTileValue(a) && IsTileValue(b) && CanMerge(a, b)
    ensures IsTileValue(MergeValue(a, b))
  {
    if a >= 3 {
      var k: nat :| k < a && a == 3 * Pow2(k);
      Pow2Bound(k + 1);
      assert MergeValue(a, b) == 3 * Pow2(k + 1);
    } else {
      Pow2Bound(0);
      assert MergeValue(a, b) == 3 * Pow2(0);
    }
  }

  lemma SpawnIsTileValue(v: int)
    requires IsSpawnValue(v)
    ensures IsTileValue(v)
  {
    assert v == 3 ==> v == 3 * Pow2(0);
  }

  // ---------------------------------------------------------------------------
  // Score

  /** The score of one tile: 0 below 3, otherwise 3^(log2(v/3)+1). */
  function TileScore(v: int): (r: nat)
    ensures v < 3 ==> r == 0
  {
    if v < 3 then 0 else Pow3(Log2(v / 3) + 1)
  }

  lemma TileScoreOfTile(k: nat)
    ensures TileScore(3 * Pow2(k)) == Pow3(k + 1)
  {
    Log2OfPow2(k);
  }

  /** `calculateScore`: the sum of the tile scores. */
  function CalculateScore(tiles: seq<Tile>): (r: nat)
    ensures tiles == [] ==> r == 0
  {
    if tiles == [] then 0 else TileScore(tiles[0].value) + CalculateScore(tiles[1..])
  }

  // ---------------------------------------------------------------------------
  // Board shape

  predicate InBounds(t: Tile) { 0 <= t.row < GridSize && 0 <= t.col < GridSize }

  predicate SameCell(a: Tile, b: Tile) { a.row == b.row && a.col == b.col }

  predicate DistinctCells(tiles: seq<Tile>)
  {
    forall i, j {:trigger SameCell(tiles[i], tiles[j])} :: 0 <= i < j < |tiles| ==> !SameCell(tiles[i], tiles[j])
  }

  predicate ValidBoard(tiles: seq<Tile>)
  {
    (forall t :: t in tiles ==> InBounds(t) && IsTileValue(t.value))
    && DistinctCells(tiles)
  }

  function SumValues(tiles: seq<Tile>): int
  {
    if tiles == [] then 0 else tiles[0].value + SumValues(tiles[1..])
  }

  lemma {:induction false} SumValuesAppend(a: seq<Tile>, b: seq<Tile>)
    ensures SumValues(a + b) == SumValues(a) + SumValues(b)
  {
    if a != [] {
      assert (a + b)[0] == a[0];
      assert (a + b)[1..] == a[1..] + b;
      SumValuesAppend(a[1..], b);
    } else {
      assert a + b == b;
    }
  }

  // ---------------------------------------------------------------------------
  // Lines of a move. For up/down a line is a column and tiles are ordered by
  // row; for left/right a line is a row ordered by column.

  function Cross(t: Tile, d: Direction): int
  {
    if d == Up || d == Down then t.col else t.row
  }

  function Along(t: Tile, d: Direction): int
  {
    if d == Up || d == Down then t.row else t.col
  }

  function WithAlong(t: Tile, d: Direction, p: int): (r: Tile)
    ensures Along(r, d) == p && Cross(r, d) == Cross(t, d)
    ensures r.id == t.id && r.value == t.value
  {
    if d == Up || d == Down then t.(row := p) else t.(col := p)
  }

  /** Lines are processed back to front for down and right. */
  predicate Reversing(d: Direction) { d == Down || d == Right }

  predicate At(t: Tile, d: Direction, k: int, p: int)
  {
    Cross(t, d) == k && Along(t, d) == p
  }

  /** The tiles at position `p` of line `k`, in list order. */
  function LineAt(tiles: seq<Tile>, d: Direction, k: int, p: int): (r: seq<Tile>)
    ensures |r| <= |tiles|
  {
    if tiles == [] then []
    else
      (if At(tiles[0], d, k, p) then [tiles[0]] else [])
      + LineAt(tiles[1..], d, k, p)
  }

  function LineFrom(tiles: seq<Tile>, d: Direction, k: int, p: int): seq<Tile>
    requires 0 <= p <= GridSize
    decreases GridSize - p
  {
    if p == GridSize then [] else LineAt(tiles, d, k, p) + LineFrom(tiles, d, k, p + 1)
  }

  lemma {:induction false} LineAtMembers(tiles: seq<Tile>, d: Direction, k: int, p: int)
    ensures forall t :: t in LineAt(tiles, d, k, p) ==> t in tiles && At(t, d, k, p)
  {
    if tiles != [] {
      LineAtMembers(tiles[1..], d, k, p);
    }
  }

  /** Line `k` from position `p` on holds tiles of `tiles` at those positions only. */
  lemma {:induction false} LineFromMembers(tiles: seq<Tile>, d: Direction, k: int, p: int)
    requires 0 <= p <= GridSize
    ensures forall t :: t in LineFrom(tiles, d, k, p) ==> t in tiles && Cross(t, d) == k && p <= Along(t, d) < GridSize
    decreases GridSize - p
  {
    if p < GridSize {
      LineAtMembers(tiles, d, k, p);
      LineFromMembers(tiles, d, k, p + 1);
      var head, rest := LineAt(tiles, d, k, p), LineFrom(tiles, d, k, p + 1);
      assert LineFrom(tiles, d, k, p) == head + rest;
      forall t | t in head + rest
        ensures t in tiles && Cross(t, d) == k && p <= Along(t, d) < GridSize
      {
        if t in head {} else { assert t in rest; }
      }
    }
  }

  /** `allTiles.filter(t => t.col === c).sort((a, b) => a.row - b.row)` (or the
   *  row variant): for in-bounds tiles a stable sort by a key in 0..3 lists
   *  the tiles of key 0, then key 1, and so on, each group in list order. */
  function Line(tiles: seq<Tile>, d: Direction, k: int): seq<Tile>
  {
    LineFrom(tiles, d, k, 0)
  }

  /** One step of `processLine`'s loop: `current` is merged into the last kept
   *  tile when they can merge, otherwise kept after it. */
  function Absorb(result: seq<Tile>, current: Tile): (r: seq<Tile>)
    ensures |r| == |result| || |r| == |result| + 1
    ensures |r| >= 1
  {
    if result == [] then [current]
    else
      var last := result[|result| - 1];
      if CanMerge(last.value, current.value)
      then result[..|result| - 1] + [last.(value := MergeValue(last.value, current.value))]
      else result + [current]
  }

  /** The kept tiles after `processLine`'s loop over `line` (without reversal). */
  function Compact(line: seq<Tile>): (r: seq<Tile>)
    decreases |line|
  {
    if line == [] then [] else Absorb(Compact(line[..|line| - 1]), line[|line| - 1])
  }

  /** How many tiles `processLine` merges away. */
  function MergeCount(line: seq<Tile>): nat
    decreases |line|
  {
    if line == [] then 0
    else
      var prefix := Compact(line[..|line| - 1]);
      MergeCount(line[..|line| - 1])
      + (if prefix != [] && CanMerge(prefix[|prefix| - 1].value, line[|line| - 1].value) then 1 else 0)
  }

  /** `processLine` returns the input length minus the number of merges. */
  lemma {:induction false} CompactLength(line: seq<Tile>)
    ensures |Compact(line)| + MergeCount(line) == |line|
    decreases |line|
  {
    if line != [] {
      CompactLength(line[..|line| - 1]);
    }
  }

  /** A kept tile can absorb several tiles in one pass: 1, 2, 3 becomes 6. */
  lemma AbsorbsSeveral(a: Tile, b: Tile, c: Tile)
    requires a.value == 1 && b.value == 2 && c.value == 3
    ensures Compact([a, b, c]) == [a.(value := 6)]
  {
    assert [a, b, c][..2] == [a, b];
    assert [a, b][..1] == [a];
    assert [a][..0] == [];
    assert Compact([a]) == [a];
    assert Compact([a, b]) == [a.(value := 3)];
  }

  lemma {:induction false} CompactSum(line: seq<Tile>)
    ensures SumValues(Compact(line)) == SumValues(line)
    decreases |line|
  {
    if line != [] {
      var prefix := line[..|line| - 1];
      var cur := line[|line| - 1];
      CompactSum(prefix);
      assert line == prefix + [cur];
      SumValuesAppend(prefix, [cur]);
      var c := Compact(prefix);
      if c != [] {
        var last := c[|c| - 1];
        assert c == c[..|c| - 1] + [last];
        SumValuesAppend(c[..|c| - 1], [last]);
        if CanMerge(last.value, cur.value) {
          SumValuesAppend(c[..|c| - 1], [last.(value := MergeValue(last.value, cur.value))]);
        } else {
          SumValuesAppend(c, [cur]);
        }
      }
    }
  }

  /** Every tile that `Compact` keeps is a tile of the line with the same
   *  identity and cell (only its value may have grown). */
  lemma {:induction false} CompactKeepsCells(line: seq<Tile>)
    ensures forall t :: t in Compact(line) ==> exists u :: u in line && u.id == t.id && SameCell(u, t)
    decreases |line|
  {
    if line != [] {
      var prefix := line[..|line| - 1];
      CompactKeepsCells(prefix);
      forall t | t in Compact(line)
        ensures exists u :: u in line && u.id == t.id && SameCell(u, t)
      {
        var c := Compact(prefix);
        var cur := line[|line| - 1];
        if c == [] || !CanMerge(c[|c| - 1].value, cur.value) {
          if t == cur {
            assert cur in line;
          } else {
            assert t in c;
            var u :| u in prefix && u.id == t.id && SameCell(u, t);
            assert u in line;
          }
        } else {
          var last := c[|c| - 1];
          if t in c[..|c| - 1] {
            assert t in c;
            var u :| u in prefix && u.id == t.id && SameCell(u, t);
            assert u in line;
          } else {
            assert t == last.(value := MergeValue(last.value, cur.value));
            assert last in c;
            var u :| u in prefix && u.id == last.id && SameCell(u, last);
            assert u in line;
          }
        }
      }
    }
  }

  lemma {:induction false} CompactKeepsTileValues(line: seq<Tile>)
    requires forall t :: t in line ==> IsTileValue(t.value)
    ensures forall t :: t in Compact(line) ==> IsTileValue(t.value)
    decreases |line|
  {
    if line != [] {
      var prefix := line[..|line| - 1];
      var cur := line[|line| - 1];
      assert forall t :: t in prefix ==> t in line;
      CompactKeepsTileValues(prefix);
      var c := Compact(prefix);
      if c != [] && CanMerge(c[|c| - 1].value, cur.value) {
        MergeKeepsTileValue(c[|c| - 1].value, cur.value);
      }
    }
  }

  function Reversed<T>(s: seq<T>): (r: seq<T>)
    ensures |r| == |s|
    ensures forall i :: 0 <= i < |s| ==> r[i] == s[|s| - 1 - i]
  {
    if s == [] then [] else Reversed(s[1..]) + [s[0]]
  }

  lemma {:induction false} ReversedSum(s: seq<Tile>)
    ensures SumValues(Reversed(s)) == SumValues(s)
  {
    if s != [] {
      ReversedSum(s[1..]);
      SumValuesAppend(Reversed(s[1..]), [s[0]]);
    }
  }

  /** The kept tiles of a line after `processLine(line, reverse)`. */
  function Processed(line: seq<Tile>, d: Direction): seq<Tile>
  {
    if Reversing(d) then Reversed(Compact(Reversed(line))) else Compact(line)
  }

  /** The position the `idx`-th of `n` kept tiles moves to. */
  function Target(d: Direction, n: int, idx: int): int
  {
    if Reversing(d) then GridSize - n + idx else idx
  }

  /** The `forEach` that packs the kept tiles against the edge. */
  function Placed(line: seq<Tile>, d: Direction): (r: seq<Tile>)
    ensures |r| == |line|
    ensures forall i :: 0 <= i < |line| ==> r[i] == WithAlong(line[i], d, Target(d, |line|, i))
  {
    seq(|line|, i requires 0 <= i < |line| => WithAlong(line[i], d, Target(d, |line|, i)))
  }

  /** Line `k` after the move. */
  function MovedLine(tiles: seq<Tile>, d: Direction, k: int): seq<Tile>
  {
    Placed(Processed(Line(tiles, d, k), d), d)
  }

  /** Whether processing line `k` sets `moved`: a merge happened or a kept
   *  tile changes its position. */
  predicate LineMoved(tiles: seq<Tile>, d: Direction, k: int)
  {
    var kept := Processed(Line(tiles, d, k), d);
    |kept| < |Line(tiles, d, k)|
    || exists i :: 0 <= i < |kept| && Along(kept[i], d) != Target(d, |kept|, i)
  }

  /** The moved lines of a move, line 0 first. */
  function MovedLines(tiles: seq<Tile>, d: Direction): (r: seq<seq<Tile>>)
    ensures |r| == GridSize
    ensures forall k :: 0 <= k < GridSize ==> r[k] == MovedLine(tiles, d, k)
  {
    seq(GridSize, k requires 0 <= k < GridSize => MovedLine(tiles, d, k))
  }

  function Flatten(ls: seq<seq<Tile>>): seq<Tile>
  {
    if ls == [] then [] else ls[0] + Flatten(ls[1..])
  }

  lemma {:induction false} FlattenSnoc(ls: seq<seq<Tile>>, x: seq<Tile>)
    ensures Flatten(ls + [x]) == Flatten(ls) + x
  {
    if ls == [] {
      assert [] + [x] == [x];
      assert [x][1..] == [];
    } else {
      assert (ls + [x])[1..] == ls[1..] + [x];
      FlattenSnoc(ls[1..], x);
    }
  }

  /** `moveTiles(direction).newTiles`: the moved lines, first to last. */
  function MovedTiles(tiles: seq<Tile>, d: Direction): seq<Tile>
  {
    Flatten(MovedLines(tiles, d))
  }

  /** Whether one of `flags[0..n-1]` is set: the `moved` flag of a loop
   *  that ors in one flag per iteration. */
  predicate SomeBefore(flags: seq<bool>, n: nat)
    requires n <= |flags|
  {
    n > 0 && (SomeBefore(flags, n - 1) || flags[n - 1])
  }

  lemma {:induction false} SomeBeforeIff(flags: seq<bool>, n: nat)
    requires n <= |flags|
    ensures SomeBefore(flags, n) <==> exists k :: 0 <= k < n && flags[k]
  {
    if n > 0 {
      SomeBeforeIff(flags, n - 1);
      if flags[n - 1] {
        assert 0 <= n - 1 < n && flags[n - 1];
      }
      if exists k :: 0 <= k < n && flags[k] {
        var k :| 0 <= k < n && flags[k];
        assert k == n - 1 || (0 <= k < n - 1 && flags[k]);
      }
    }
  }

  /** Which of the four lines move. */
  function MovedFlags(tiles: seq<Tile>, d: Direction): (r: seq<bool>)
    ensures |r| == GridSize
    ensures forall k :: 0 <= k < GridSize ==> r[k] == LineMoved(tiles, d, k)
  {
    seq(GridSize, k requires 0 <= k < GridSize => LineMoved(tiles, d, k))
  }

  /** `moveTiles(direction).moved`. */
  predicate AnyMoved(tiles: seq<Tile>, d: Direction)
  {
    exists k :: 0 <= k < GridSize && LineMoved(tiles, d, k)
  }

  // ----- value-sum preservation -----

  lemma LineAtSum(tiles: seq<Tile>, d: Direction, k: int, p: int)
    requires tiles != []
    ensures SumValues(LineAt(tiles, d, k, p))
         == (if At(tiles[0], d, k, p) then tiles[0].value else 0) + SumValues(LineAt(tiles[1..], d, k, p))
  {
    var head := if At(tiles[0], d, k, p) then [tiles[0]] else [];
    SumValuesAppend(head, LineAt(tiles[1..], d, k, p));
    if At(tiles[0], d, k, p) { assert head[1..] == []; }
  }

  /** The tile weight `t` adds to `LineFrom(_, d, k, p)`. */
  function WeightFrom(t: Tile, d: Direction, k: int, p: int): int
    requires 0 <= p <= GridSize
    decreases GridSize - p
  {
    if p == GridSize then 0 else (if At(t, d, k, p) then t.value else 0) + WeightFrom(t, d, k, p + 1)
  }

  lemma {:induction false} WeightFromValue(t: Tile, d: Direction, k: int, p: int)
    requires 0 <= p <= GridSize
    ensures WeightFrom(t, d, k, p) == if Cross(t, d) == k && p <= Along(t, d) < GridSize then t.value else 0
    decreases GridSize - p
  {
    if p < GridSize { WeightFromValue(t, d, k, p + 1); }
  }

  /** `LineFrom` sums position `p` and the positions after it. */
  lemma LineFromCons(tiles: seq<Tile>, d: Direction, k: int, p: int)
    requires 0 <= p < GridSize
    ensures SumValues(LineFrom(tiles, d, k, p))
         == SumValues(LineAt(tiles, d, k, p)) + SumValues(LineFrom(tiles, d, k, p + 1))
  {
    SumValuesAppend(LineAt(tiles, d, k, p), LineFrom(tiles, d, k, p + 1));
  }

  /** Position `p` of the line adds the first tile's weight there. */
  lemma LineFromStep(tiles: seq<Tile>, d: Direction, k: int, p: int)
    requires tiles != [] && 0 <= p < GridSize
    requires SumValues(LineFrom(tiles, d, k, p + 1))
         == WeightFrom(tiles[0], d, k, p + 1) + SumValues(LineFrom(tiles[1..], d, k, p + 1))
    ensures SumValues(LineFrom(tiles, d, k, p))
         == WeightFrom(tiles[0], d, k, p) + SumValues(LineFrom(tiles[1..], d, k, p))
  {
    LineAtSum(tiles, d, k, p);
    LineFromCons(tiles, d, k, p);
    LineFromCons(tiles[1..], d, k, p);
  }

  lemma LineSum(tiles: seq<Tile>, d: Direction, k: int)
    requires tiles != []
    ensures SumValues(Line(tiles, d, k)) == WeightFrom(tiles[0], d, k, 0) + SumValues(Line(tiles[1..], d, k))
  {
    assert LineFrom(tiles, d, k, GridSize) == [] && LineFrom(tiles[1..], d, k, GridSize) == [];
    LineFromStep(tiles, d, k, 3);
    LineFromStep(tiles, d, k, 2);
    LineFromStep(tiles, d, k, 1);
    LineFromStep(tiles, d, k, 0);
  }

  function SumInts(w: seq<int>): int
  {
    if w == [] then 0 else w[0] + SumInts(w[1..])
  }

  /** Adding a weight line by line adds the total weight. */
  lemma {:induction false} SumAllPointwise(A: seq<seq<Tile>>, B: seq<seq<Tile>>, w: seq<int>)
    requires |A| == |B| == |w|
    requires forall k :: 0 <= k < |A| ==> SumValues(A[k]) == w[k] + SumValues(B[k])
    ensures SumAll(A) == SumInts(w) + SumAll(B)
  {
    if A != [] {
      SumAllPointwise(A[1..], B[1..], w[1..]);
    }
  }

  lemma SumInts4(w: seq<int>)
    requires |w| == 4
    ensures SumInts(w) == w[0] + w[1] + w[2] + w[3]
  {
    var w1, w2, w3 := w[1..], w[2..], w[3..];
    assert w1[1..] == w2 && w2[1..] == w3 && w3[1..] == [];
    assert SumInts(w3) == w[3];
    assert SumInts(w2) == w[2] + w[3];
  }

  /** The lines of a move before it, line 0 first. */
  function Lines(tiles: seq<Tile>, d: Direction): (r: seq<seq<Tile>>)
    ensures |r| == GridSize
    ensures forall k :: 0 <= k < GridSize ==> r[k] == Line(tiles, d, k)
  {
    seq(GridSize, k requires 0 <= k < GridSize => Line(tiles, d, k))
  }

  /** An in-bounds tile lies in exactly one line, so it adds its value once. */
  lemma LineWeights(t: Tile, d: Direction)
    requires InBounds(t)
    ensures SumInts(seq(GridSize, k requires 0 <= k < GridSize => WeightFrom(t, d, k, 0))) == t.value
  {
    var w := seq(GridSize, k requires 0 <= k < GridSize => WeightFrom(t, d, k, 0));
    SumInts4(w);
    WeightFromValue(t, d, 0, 0);
    WeightFromValue(t, d, 1, 0);
    WeightFromValue(t, d, 2, 0);
    WeightFromValue(t, d, 3, 0);
  }

  /** The lines of a move partition an in-bounds tile list. */
  lemma {:induction false} LinesPartition(tiles: seq<Tile>, d: Direction)
    requires forall i :: 0 <= i < |tiles| ==> InBounds(tiles[i])
    ensures SumAll(Lines(tiles, d)) == SumValues(tiles)
  {
    if tiles == [] {
      LinesEmpty(Lines(tiles, d), d);
    } else {
      LinesPartition(tiles[1..], d);
      LinesCons(tiles, d);
      LineWeights(tiles[0], d);
    }
  }

  /** A tile in front of the list adds its weight to each line. */
  lemma LinesCons(tiles: seq<Tile>, d: Direction)
    requires tiles != []
    ensures SumAll(Lines(tiles, d))
         == SumInts(seq(GridSize, k requires 0 <= k < GridSize => WeightFrom(tiles[0], d, k, 0)))
            + SumAll(Lines(tiles[1..], d))
  {
    var w := seq(GridSize, k requires 0 <= k < GridSize => WeightFrom(tiles[0], d, k, 0));
    var A, B := Lines(tiles, d), Lines(tiles[1..], d);
    forall k | 0 <= k < GridSize
      ensures SumValues(A[k]) == w[k] + SumValues(B[k])
    {
      LineSum(tiles, d, k);
    }
    SumAllPointwise(A, B, w);
  }

  lemma LinesEmpty(ls: seq<seq<Tile>>, d: Direction)
    requires ls == Lines([], d)
    ensures SumAll(ls) == 0
  {
    forall k | 0 <= k < |ls| ensures ls[k] == [] {
      LineFromEmpty(d, k, 0);
    }
    SumAllOfEmpty(ls);
  }

  lemma {:induction false} SumAllOfEmpty(ls: seq<seq<Tile>>)
    requires forall k :: 0 <= k < |ls| ==> ls[k] == []
    ensures SumAll(ls) == 0
  {
    if ls != [] {
      SumAllOfEmpty(ls[1..]);
    }
  }

  lemma {:induction false} LineFromEmpty(d: Direction, k: int, p: int)
    requires 0 <= p <= GridSize
    ensures LineFrom([], d, k, p) == []
    decreases GridSize - p
  {
    if p < GridSize { LineFromEmpty(d, k, p + 1); }
  }

  lemma PlacedSum(line: seq<Tile>, d: Direction)
    ensures SumValues(Placed(line, d)) == SumValues(line)
  {
    PlacedSumFrom(line, d, Placed(line, d));
  }

  lemma {:induction false} PlacedSumFrom(line: seq<Tile>, d: Direction, r: seq<Tile>)
    requires |r| == |line| && forall i :: 0 <= i < |line| ==> r[i].value == line[i].value
    ensures SumValues(r) == SumValues(line)
  {
    if line != [] {
      PlacedSumFrom(line[1..], d, r[1..]);
    }
  }

  lemma MovedLineSum(tiles: seq<Tile>, d: Direction, k: int)
    ensures SumValues(MovedLine(tiles, d, k)) == SumValues(Line(tiles, d, k))
  {
    var line := Line(tiles, d, k);
    PlacedSum(Processed(line, d), d);
    if Reversing(d) {
      ReversedSum(Compact(Reversed(line)));
      CompactSum(Reversed(line));
      ReversedSum(line);
    } else {
      CompactSum(line);
    }
  }

  function SumAll(ls: seq<seq<Tile>>): int
  {
    if ls == [] then 0 else SumValues(ls[0]) + SumAll(ls[1..])
  }

  lemma {:induction false} FlattenSum(ls: seq<seq<Tile>>)
    ensures SumValues(Flatten(ls)) == SumAll(ls)
  {
    if ls != [] {
      FlattenSum(ls[1..]);
      SumValuesAppend(ls[0], Flatten(ls[1..]));
    }
  }

  lemma {:induction false} SumAllEqual(A: seq<seq<Tile>>, B: seq<seq<Tile>>)
    requires |A| == |B|
    requires forall k :: 0 <= k < |A| ==> SumValues(A[k]) == SumValues(B[k])
    ensures SumAll(A) == SumAll(B)
  {
    if A != [] {
      SumAllEqual(A[1..], B[1..]);
    }
  }

  /** A move preserves the total tile value (merges add, never lose). */
  lemma MoveKeepsValueSum(tiles: seq<Tile>, d: Direction)
    requires ValidBoard(tiles)
    ensures SumValues(MovedTiles(tiles, d)) == SumValues(tiles)
  {
    FlattenSum(MovedLines(tiles, d));
    forall k | 0 <= k < GridSize
      ensures SumValues(MovedLines(tiles, d)[k]) == SumValues(Lines(tiles, d)[k])
    {
      MovedLineSum(tiles, d, k);
    }
    SumAllEqual(MovedLines(tiles, d), Lines(tiles, d));
    LinesPartition(tiles, d);
    LinesPartition(tiles, d);
  }

  // ----- the board stays valid -----

  lemma ProcessedKeepsCells(line: seq<Tile>, d: Direction)
    ensures forall t :: t in Processed(line, d) ==> exists u :: u in line && u.id == t.id && SameCell(u, t)
  {
    if Reversing(d) {
      CompactKeepsCells(Reversed(line));
      forall t | t in Processed(line, d)
        ensures exists u :: u in line && u.id == t.id && SameCell(u, t)
      {
        var i :| 0 <= i < |Processed(line, d)| && Processed(line, d)[i] == t;
        assert t in Compact(Reversed(line));
        var u :| u in Reversed(line) && u.id == t.id && SameCell(u, t);
        var j :| 0 <= j < |Reversed(line)| && Reversed(line)[j] == u;
        assert u == line[|line| - 1 - j];
      }
    } else {
      CompactKeepsCells(line);
    }
  }

  lemma ProcessedKeepsTileValues(line: seq<Tile>, d: Direction)
    requires forall t :: t in line ==> IsTileValue(t.value)
    ensures forall t :: t in Processed(line, d) ==> IsTileValue(t.value)
  {
    if Reversing(d) {
      forall t | t in Reversed(line) ensures IsTileValue(t.value) {
        var j :| 0 <= j < |Reversed(line)| && Reversed(line)[j] == t;
        assert t == line[|line| - 1 - j];
      }
      CompactKeepsTileValues(Reversed(line));
      forall t | t in Processed(line, d) ensures IsTileValue(t.value) {
        var j :| 0 <= j < |Processed(line, d)| && Processed(line, d)[j] == t;
        assert t in Compact(Reversed(line));
      }
    } else {
      CompactKeepsTileValues(line);
    }
  }

  /** Line `k` after the move: its tiles lie in line `k`, are packed against
   *  the edge of the move (positions 0..n-1 for up/left, 4-n..3 for
   *  down/right), keep their identity, and carry tile values. */
  lemma MovedLineShape(tiles: seq<Tile>, d: Direction, k: int)
    requires ValidBoard(tiles) && 0 <= k < GridSize
    ensures |MovedLine(tiles, d, k)| <= GridSize
    ensures forall i :: 0 <= i < |MovedLine(tiles, d, k)| ==>
      var t := MovedLine(tiles, d, k)[i];
      Cross(t, d) == k && Along(t, d) == Target(d, |MovedLine(tiles, d, k)|, i)
      && InBounds(t) && IsTileValue(t.value)
  {
    var line := Line(tiles, d, k);
    var kept := Processed(line, d);
    ProcessedKeepsCells(line, d);
    LineFromMembers(tiles, d, k, 0);
    forall t | t in line ensures IsTileValue(t.value) {
      var i :| 0 <= i < |tiles| && tiles[i] == t;
    }
    ProcessedKeepsTileValues(line, d);
    LineFitsGrid(tiles, d, k);
    CompactNoLonger(line);
    CompactNoLonger(Reversed(line));
    forall i | 0 <= i < |kept| ensures Cross(kept[i], d) == k && IsTileValue(kept[i].value) {
      assert kept[i] in kept;
      var u :| u in line && u.id == kept[i].id && SameCell(u, kept[i]);
    }
    var moved := Placed(kept, d);
    assert |kept| <= GridSize;
    forall i | 0 <= i < |moved|
      ensures Cross(moved[i], d) == k && Along(moved[i], d) == Target(d, |moved|, i)
      ensures InBounds(moved[i]) && IsTileValue(moved[i].value)
    {
      assert moved[i] == WithAlong(kept[i], d, Target(d, |kept|, i));
    }
  }

  lemma {:induction false} CompactNoLonger(line: seq<Tile>)
    ensures |Compact(line)| <= |line|
  {
    CompactLength(line);
  }

  /** A line holds at most one tile per position, so at most four. */
  lemma LineFitsGrid(tiles: seq<Tile>, d: Direction, k: int)
    requires ValidBoard(tiles)
    ensures |Line(tiles, d, k)| <= GridSize
  {
    LineFromFits(tiles, d, k, 0);
  }

  lemma {:induction false} LineFromFits(tiles: seq<Tile>, d: Direction, k: int, p: int)
    requires ValidBoard(tiles) && 0 <= p <= GridSize
    ensures |LineFrom(tiles, d, k, p)| <= GridSize - p
    decreases GridSize - p
  {
    if p < GridSize {
      LineFromFits(tiles, d, k, p + 1);
      LineAtAtMostOne(tiles, d, k, p);
    }
  }

  lemma LineAtAtMostOne(tiles: seq<Tile>, d: Direction, k: int, p: int)
    requires DistinctCells(tiles)
    ensures |LineAt(tiles, d, k, p)| <= 1
  {
    if |LineAt(tiles, d, k, p)| > 1 {
      LineAtClash(tiles, d, k, p);
      assert false;
    }
  }

  /** Two tiles at the same position of a line share a cell. */
  lemma LineAtClash(tiles: seq<Tile>, d: Direction, k: int, p: int)
    requires |LineAt(tiles, d, k, p)| > 1
    ensures !DistinctCells(tiles)
  {
    var i := LineAtIndex(tiles, d, k, p);
    var j := LineAtIndex(tiles[i + 1..], d, k, p);
    assert SameCell(tiles[i], tiles[i + 1 + j]);
  }

  /** The index of the first tile of `tiles` at position `p` of line `k`,
   *  given that there is one; the rest of the group lies after it. */
  lemma {:induction false} LineAtIndex(tiles: seq<Tile>, d: Direction, k: int, p: int) returns (i: nat)
    requires |LineAt(tiles, d, k, p)| >= 1
    ensures i < |tiles| && Cross(tiles[i], d) == k && Along(tiles[i], d) == p
    ensures |LineAt(tiles[i + 1..], d, k, p)| == |LineAt(tiles, d, k, p)| - 1
  {
    if Cross(tiles[0], d) == k && Along(tiles[0], d) == p {
      i := 0;
    } else {
      var i' := LineAtIndex(tiles[1..], d, k, p);
      assert tiles[1..][i' + 1..] == tiles[i' + 2..];
      i := i' + 1;
    }
  }

  /** After a move the board is still valid: in bounds, one tile per cell,
   *  tile values only. */
  lemma MoveKeepsBoardValid(tiles: seq<Tile>, d: Direction)
    requires ValidBoard(tiles)
    ensures ValidBoard(MovedTiles(tiles, d))
  {
    var ls := MovedLines(tiles, d);
    forall j | 0 <= j < |ls|
      ensures ValidBoard(ls[j]) && forall i :: 0 <= i < |ls[j]| ==> Cross(ls[j][i], d) == j
    {
      MovedLineValid(tiles, d, j);
    }
    FlattenValid(ls, d, 0);
  }

  /** Lines `k0`, `k0 + 1`, ... that are each valid and each on their own line
   *  flatten into a valid board. */
  lemma {:induction false} FlattenValid(ls: seq<seq<Tile>>, d: Direction, k0: int)
    requires forall j :: 0 <= j < |ls| ==> ValidBoard(ls[j])
    requires forall j, i :: 0 <= j < |ls| && 0 <= i < |ls[j]| ==> Cross(ls[j][i], d) == k0 + j
    ensures ValidBoard(Flatten(ls))
    ensures forall i :: 0 <= i < |Flatten(ls)| ==> k0 <= Cross(Flatten(ls)[i], d)
  {
    if ls != [] {
      FlattenValid(ls[1..], d, k0 + 1);
      assert forall i :: 0 <= i < |ls[0]| ==> Cross(ls[0][i], d) == k0;
      ConcatLines(ls[0], Flatten(ls[1..]), d, k0);
    }
  }

  lemma MovedLineValid(tiles: seq<Tile>, d: Direction, k: int)
    requires ValidBoard(tiles) && 0 <= k < GridSize
    ensures ValidBoard(MovedLine(tiles, d, k))
    ensures forall i :: 0 <= i < |MovedLine(tiles, d, k)| ==> Cross(MovedLine(tiles, d, k)[i], d) == k
  {
    MovedLineShape(tiles, d, k);
    var a := MovedLine(tiles, d, k);
    forall i, j | 0 <= i < j < |a| ensures !SameCell(a[i], a[j]) {
      assert Along(a[i], d) != Along(a[j], d);
    }
  }

  /** Two boards on disjoint sets of lines combine into one board. */
  lemma ConcatLines(a: seq<Tile>, b: seq<Tile>, d: Direction, k: int)
    requires ValidBoard(a) && ValidBoard(b)
    requires forall i :: 0 <= i < |a| ==> Cross(a[i], d) == k
    requires forall i :: 0 <= i < |b| ==> k + 1 <= Cross(b[i], d)
    ensures ValidBoard(a + b)
    ensures forall i :: 0 <= i < |a + b| ==> k <= Cross((a + b)[i], d)
  {
    forall i, j | 0 <= i < j < |a + b| ensures !SameCell((a + b)[i], (a + b)[j]) {
      if j < |a| {
        assert (a + b)[i] == a[i] && (a + b)[j] == a[j];
      } else if i >= |a| {
        assert (a + b)[i] == b[i - |a|] && (a + b)[j] == b[j - |a|];
      } else {
        assert Cross((a + b)[i], d) == k && Cross((a + b)[j], d) > k;
      }
    }
  }

  // ---------------------------------------------------------------------------
  // The spawn edge

  /** The `i`-th cell of the edge opposite to the move, in the order
   *  `getEmptyPositions` scans it. */
  function EdgeCell(d: Direction, i: int): (int, int)
  {
    match d
    case Up => (GridSize - 1, i)
    case Down => (0, i)
    case Left => (i, GridSize - 1)
    case Right => (i, 0)
  }

  predicate OnOppositeEdge(cell: (int, int), d: Direction)
  {
    0 <= cell.0 < GridSize && 0 <= cell.1 < GridSize &&
    match d
    case Up => cell.0 == GridSize - 1
    case Down => cell.0 == 0
    case Left => cell.1 == GridSize - 1
    case Right => cell.1 == 0
  }

  /** The set of `row,col` keys of the tiles holds this cell. */
  predicate Occupied(tiles: seq<Tile>, cell: (int, int))
  {
    exists t :: t in tiles && t.row == cell.0 && t.col == cell.1
  }

  /** The unoccupied cells among the first `n` cells of the spawn edge. */
  function EmptyEdgeUpTo(tiles: seq<Tile>, d: Direction, n: nat): seq<(int, int)>
  {
    if n == 0 then []
    else EmptyEdgeUpTo(tiles, d, n - 1)
         + (if Occupied(tiles, EdgeCell(d, n - 1)) then [] else [EdgeCell(d, n - 1)])
  }

  /** `getEmptyPositions(direction)`. */
  function EmptyEdge(tiles: seq<Tile>, d: Direction): seq<(int, int)>
  {
    EmptyEdgeUpTo(tiles, d, GridSize)
  }

  lemma {:induction false} EmptyEdgeUpToIff(tiles: seq<Tile>, d: Direction, n: nat, cell: (int, int))
    requires n <= GridSize
    ensures cell in EmptyEdgeUpTo(tiles, d, n) <==>
      (exists i :: 0 <= i < n && EdgeCell(d, i) == cell) && !Occupied(tiles, cell)
  {
    if n > 0 {
      EmptyEdgeUpToIff(tiles, d, n - 1, cell);
      if EdgeCell(d, n - 1) == cell && !Occupied(tiles, cell) {
        assert cell in EmptyEdgeUpTo(tiles, d, n);
      }
    }
  }

  /** A new tile can only be placed on an unoccupied cell of the edge opposite
   *  to the move, and every such cell is offered. */
  lemma EmptyEdgeIff(tiles: seq<Tile>, d: Direction, cell: (int, int))
    ensures cell in EmptyEdge(tiles, d) <==> OnOppositeEdge(cell, d) && !Occupied(tiles, cell)
  {
    EmptyEdgeUpToIff(tiles, d, GridSize, cell);
    if OnOppositeEdge(cell, d) {
      var i := if d == Up || d == Down then cell.1 else cell.0;
      assert EdgeCell(d, i) == cell;
    }
  }

  /** Placing a spawn-value tile on a free cell keeps a board valid. */
  lemma AddTileKeepsValid(tiles: seq<Tile>, t: Tile)
    requires ValidBoard(tiles) && InBounds(t) && IsSpawnValue(t.value)
    requires !Occupied(tiles, (t.row, t.col))
    ensures ValidBoard(tiles + [t])
  {
    SpawnIsTileValue(t.value);
    var r := tiles + [t];
    forall i, j | 0 <= i < j < |r| ensures !SameCell(r[i], r[j]) {
      if j == |tiles| {
        assert r[i] == tiles[i];
      } else {
        assert r[i] == tiles[i] && r[j] == tiles[j];
      }
    }
  }

  /** The tiles after the spawn step of `move`: when the opposite edge has a
   *  free cell, a tile with the given id and value is added on the cell
   *  `spawnChoice` picks; otherwise the tiles are left as they are. */
  function Spawned(tiles: seq<Tile>, d: Direction, spawnChoice: nat, id: int, value: int): seq<Tile>
  {
    var empty := EmptyEdge(tiles, d);
    if empty == [] then tiles
    else
      var cell := empty[spawnChoice % |empty|];
      tiles + [Tile(id, value, cell.0, cell.1)]
  }

  /** The part of the game state the spawn step of `move` changes. */
  datatype SpawnState = SpawnState(tiles: seq<Tile>, counter: int, next: int)

  /** The spawn step of `move` on that state: with a free edge cell, the id
   *  counter is pre-incremented, the preview value becomes the new tile and a
   *  fresh preview is drawn; with none, nothing changes. */
  function SpawnStep(s: SpawnState, d: Direction, spawnChoice: nat, nextChoice: nat): SpawnState
  {
    if EmptyEdge(s.tiles, d) == [] then s
    else SpawnState(Spawned(s.tiles, d, spawnChoice, s.counter + 1, s.next), s.counter + 1, RandomValue(nextChoice))
  }

  /** The spawned tile, if any, sits on a free cell of the opposite edge, and
   *  the board stays valid. */
  lemma SpawnedValid(tiles: seq<Tile>, d: Direction, spawnChoice: nat, id: int, value: int)
    requires ValidBoard(tiles) && IsSpawnValue(value)
    ensures ValidBoard(Spawned(tiles, d, spawnChoice, id, value))
    ensures |Spawned(tiles, d, spawnChoice, id, value)| > |tiles| ==>
      var t := Spawned(tiles, d, spawnChoice, id, value)[|tiles|];
      OnOppositeEdge((t.row, t.col), d) && !Occupied(tiles, (t.row, t.col))
  {
    var empty := EmptyEdge(tiles, d);
    if empty != [] {
      var cell := empty[spawnChoice % |empty|];
      EmptyEdgeIff(tiles, d, cell);
      AddTileKeepsValid(tiles, Tile(id, value, cell.0, cell.1));
    }
  }

  /** A move followed by its spawn keeps the board valid. */
  lemma MoveThenSpawnValid(tiles: seq<Tile>, d: Direction, spawnChoice: nat, id: int, value: int)
    requires ValidBoard(tiles) && IsSpawnValue(value)
    ensures ValidBoard(Spawned(MovedTiles(tiles, d), d, spawnChoice, id, value))
  {
    MoveKeepsBoardValid(tiles, d);
    SpawnedValid(MovedTiles(tiles, d), d, spawnChoice, id, value);
  }

  // ---------------------------------------------------------------------------
  // The initial grid

  /** The 16 cells in the order `initializeGrid` lists them (row by row). */
  function AllCells(): (r: seq<(int, int)>)
    ensures |r| == GridSize * GridSize
    ensures forall i :: 0 <= i < |r| ==> r[i] == (i / GridSize, i % GridSize)
  {
    seq(GridSize * GridSize, i requires 0 <= i < GridSize * GridSize => (i / GridSize, i % GridSize))
  }

  ghost predicate NoDup<T>(s: seq<T>)
  {
    forall i, j :: 0 <= i < j < |s| ==> s[i] != s[j]
  }

  lemma AllCellsNoDup()
    ensures NoDup(AllCells())
  {
    var cells := AllCells();
    forall i, j | 0 <= i < j < |cells| ensures cells[i] != cells[j] {
      assert i == GridSize * (i / GridSize) + i % GridSize;
      assert j == GridSize * (j / GridSize) + j % GridSize;
    }
  }

  lemma {:induction false} NoDupCount<T>(s: seq<T>, x: T)
    requires NoDup(s)
    ensures multiset(s)[x] <= 1
  {
    if s != [] {
      assert s == [s[0]] + s[1..];
      assert NoDup(s[1..]) by {
        forall i, j | 0 <= i < j < |s[1..]| ensures s[1..][i] != s[1..][j] {
          assert s[1..][i] == s[i + 1] && s[1..][j] == s[j + 1];
        }
      }
      NoDupCount(s[1..], x);
      if s[0] == x {
        assert x !in s[1..];
      }
    }
  }

  /** A permutation of a list without repeats has no repeats. */
  lemma NoDupPermutation<T>(a: seq<T>, b: seq<T>)
    requires multiset(a) == multiset(b) && NoDup(a)
    ensures NoDup(b)
  {
    forall i, j | 0 <= i < j < |b| ensures b[i] != b[j] {
      if b[i] == b[j] {
        var x := b[i];
        assert b == b[..j] + [b[j]] + b[j + 1..];
        assert x in b[..j];
        NoDupCount(a, x);
        assert false;
      }
    }
  }

  /** The 9 tiles `initializeGrid` creates: ids 1..9 on the first nine of the
   *  shuffled cells, `choices[i]` deciding the value of tile i. */
  function InitialTiles(cells: seq<(int, int)>, choices: seq<nat>): (r: seq<Tile>)
    requires |cells| >= 9 && |choices| >= 9
    ensures |r| == 9
  {
    seq(9, i requires 0 <= i < 9 => Tile(i + 1, RandomValue(choices[i]), cells[i].0, cells[i].1))
  }

  /** `initializeGrid` places 9 tiles on distinct in-bounds cells. */
  lemma InitialTilesValid(picks: seq<nat>, choices: seq<nat>)
    requires |picks| == GridSize * GridSize && |choices| >= 9
    ensures ValidBoard(InitialTiles(State.Shuffled(AllCells(), picks), choices))
  {
    var cells := State.Shuffled(AllCells(), picks);
    State.ShuffledIsPermutation(AllCells(), picks);
    AllCellsNoDup();
    NoDupPermutation(AllCells(), cells);
    var tiles := InitialTiles(cells, choices);
    forall i | 0 <= i < 9 ensures InBounds(tiles[i]) && IsTileValue(tiles[i].value) {
      assert cells[i] in multiset(AllCells());
      var k :| 0 <= k < |AllCells()| && AllCells()[k] == cells[i];
      SpawnIsTileValue(tiles[i].value);
    }
  }

  // ---------------------------------------------------------------------------
  // The game object

  /** Whether some direction moves: what `canMove` computes. */
  predicate CanMoveSpec(tiles: seq<Tile>)
  {
    AnyMoved(tiles, Up) || AnyMoved(tiles, Down) || AnyMoved(tiles, Left) || AnyMoved(tiles, Right)
  }

  /** One pass of `processLine`'s `while` loop over `line`, back to front
   *  when `reverse`; `merged` records whether it merged anything. */
  method ProcessLine(line: seq<Tile>, reverse: bool) returns (result: seq<Tile>, merged: bool)
    ensures reverse ==> result == Reversed(Compact(Reversed(line)))
    ensures !reverse ==> result == Compact(line)
    ensures merged <==> |result| < |line|
  {
    var l := if reverse then Reversed(line) else line;
    result := [];
    merged := false;
    var i := 0;
    while i < |l|
      invariant 0 <= i <= |l|
      invariant result == Compact(l[..i])
      invariant merged <==> MergeCount(l[..i]) > 0
    {
      var current := l[i];
      assert l[..i + 1][..i] == l[..i];
      if |result| == 0 {
        result := result + [current];
      } else {
        var last := result[|result| - 1];
        if CanMerge(last.value, current.value) {
          result := result[..|result| - 1] + [last.(value := MergeValue(last.value, current.value))];
          merged := true;
        } else {
          result := result + [current];
        }
      }
      i := i + 1;
    }
    assert l[..|l|] == l;
    CompactLength(l);
    if reverse {
      result := Reversed(result);
    }
  }

  /** The `forEach` that writes each kept tile's new row (or column);
   *  `shifted` records whether one of them changed. */
  method PlaceLine(kept: seq<Tile>, d: Direction) returns (placed: seq<Tile>, shifted: bool)
    ensures placed == Placed(kept, d)
    ensures shifted <==> exists i :: 0 <= i < |kept| && Along(kept[i], d) != Target(d, |kept|, i)
  {
    placed := [];
    shifted := false;
    for idx := 0 to |kept|
      invariant placed == Placed(kept, d)[..idx]
      invariant shifted <==> exists i :: 0 <= i < idx && Along(kept[i], d) != Target(d, |kept|, i)
    {
      var target := Target(d, |kept|, idx);
      if Along(kept[idx], d) != target {
        shifted := true;
      }
      placed := placed + [WithAlong(kept[idx], d, target)];
    }
  }

  /** One iteration of `moveTiles`'s line loop computes line `c` of the move
   *  and whether it moved. */
  lemma LineStep(tiles: seq<Tile>, d: Direction, c: int, kept: seq<Tile>, merged: bool,
                 placed: seq<Tile>, shifted: bool)
    requires Reversing(d) ==> kept == Reversed(Compact(Reversed(Line(tiles, d, c))))
    requires !Reversing(d) ==> kept == Compact(Line(tiles, d, c))
    requires merged <==> |kept| < |Line(tiles, d, c)|
    requires placed == Placed(kept, d)
    requires shifted <==> exists i :: 0 <= i < |kept| && Along(kept[i], d) != Target(d, |kept|, i)
    ensures placed == MovedLine(tiles, d, c)
    ensures merged || shifted <==> LineMoved(tiles, d, c)
  {
  }

  /** One iteration of `moveTiles`' loop over the lines extends both the
   *  collected tiles and the `moved` flag by line `c`. */
  lemma LoopStep(tiles: seq<Tile>, d: Direction, c: int, kept: seq<Tile>, merged: bool,
                 placed: seq<Tile>, shifted: bool)
    requires 0 <= c < GridSize
    requires Reversing(d) ==> kept == Reversed(Compact(Reversed(Line(tiles, d, c))))
    requires !Reversing(d) ==> kept == Compact(Line(tiles, d, c))
    requires merged <==> |kept| < |Line(tiles, d, c)|
    requires placed == Placed(kept, d)
    requires shifted <==> exists i :: 0 <= i < |kept| && Along(kept[i], d) != Target(d, |kept|, i)
    ensures Flatten(MovedLines(tiles, d)[..c + 1]) == Flatten(MovedLines(tiles, d)[..c]) + placed
    ensures SomeBefore(MovedFlags(tiles, d), c + 1)
      == (SomeBefore(MovedFlags(tiles, d), c) || merged || shifted)
  {
    LineStep(tiles, d, c, kept, merged, placed, shifted);
    FlattenPrefix(MovedLines(tiles, d), c);
  }

  /** `moved` after the whole loop is `AnyMoved`. */
  lemma AnyMovedFlags(tiles: seq<Tile>, d: Direction)
    ensures AnyMoved(tiles, d) == SomeBefore(MovedFlags(tiles, d), GridSize)
  {
    SomeBeforeIff(MovedFlags(tiles, d), GridSize);
  }

  lemma FlattenPrefix(ls: seq<seq<Tile>>, c: int)
    requires 0 <= c < |ls|
    ensures Flatten(ls[..c + 1]) == Flatten(ls[..c]) + ls[c]
  {
    assert ls[..c + 1] == ls[..c] + [ls[c]];
    FlattenSnoc(ls[..c], ls[c]);
  }

  class ThreesGame {
    var tiles: seq<Tile>
    var score: int
    var highScore: int
    var nextTile: int
    var gameOver: bool
    var history: Option<Snapshot>
    var animating: bool
    /** The module-level counter behind `generateTileId`. */
    var tileIdCounter: int

    ghost predicate Valid()
      reads this
    {
      ValidBoard(tiles) && IsSpawnValue(nextTile) && highScore >= score
      && (!animating ==> score == CalculateScore(tiles))
      && (history.Some? ==>
            ValidBoard(history.value.tiles) && IsSpawnValue(history.value.nextTile)
            && history.value.score == CalculateScore(history.value.tiles))
    }

    /** `new ThreesGame(container)`: `saved` is the stored high score, `picks`
     *  the draws of the cell shuffle and `choices` those of the first preview
     *  value followed by the nine tile values. */
    constructor (saved: Option<int>, picks: seq<nat>, choices: seq<nat>)
      requires |picks| == GridSize * GridSize && |choices| == 10
      ensures Valid()
      ensures tiles == InitialTiles(State.Shuffled(AllCells(), picks), choices[1..])
      ensures nextTile == RandomValue(choices[0]) && tileIdCounter == 9
      ensures score == CalculateScore(tiles) && highScore == if score > saved.GetOr(0) then score else saved.GetOr(0)
      ensures !gameOver && !animating && history == None
    {
      tiles := [];
      score := 0;
      nextTile := 1;
      gameOver := false;
      history := None;
      animating := false;
      tileIdCounter := 0;
      highScore := saved.GetOr(0);
      new;
      InitializeGrid(picks, choices);
    }

    /** `updateScore`: the score is recomputed from the tiles and the high
     *  score follows it upwards. */
    method UpdateScore()
      modifies this`score, this`highScore
      ensures score == CalculateScore(tiles)
      ensures highScore == if score > old(highScore) then score else old(highScore)
    {
      score := CalculateScore(tiles);
      if score > highScore {
        highScore := score;
      }
    }

    /** `initializeGrid`. */
    method InitializeGrid(picks: seq<nat>, choices: seq<nat>)
      requires |picks| == GridSize * GridSize && |choices| == 10
      requires history.Some? ==>
            ValidBoard(history.value.tiles) && IsSpawnValue(history.value.nextTile)
            && history.value.score == CalculateScore(history.value.tiles)
      modifies this`tileIdCounter, this`tiles, this`gameOver, this`nextTile, this`score, this`highScore
      ensures Valid()
      ensures tiles == InitialTiles(State.Shuffled(AllCells(), picks), choices[1..])
      ensures nextTile == RandomValue(choices[0]) && tileIdCounter == 9 && !gameOver
      ensures score == CalculateScore(tiles)
      ensures highScore == if score > old(highScore) then score else old(highScore)
    {
      tileIdCounter := 0;
      tiles := [];
      gameOver := false;
      nextTile := RandomValue(choices[0]);
      var positions := GridPositions();
      var shuffled := State.ShuffleArray(positions, picks);
      PlaceInitialTiles(shuffled[..], choices[1..]);
      InitialTilesValid(picks, choices[1..]);
      UpdateScore();
    }

    /** The nested loops that list every cell, row by row. */
    static method GridPositions() returns (positions: array<(int, int)>)
      ensures fresh(positions) && positions[..] == AllCells()
    {
      positions := new (int, int)[GridSize * GridSize];
      for r := 0 to GridSize
        invariant forall i :: 0 <= i < r * GridSize ==> positions[i] == AllCells()[i]
      {
        for c := 0 to GridSize
          invariant forall i :: 0 <= i < r * GridSize + c ==> positions[i] == AllCells()[i]
        {
          positions[r * GridSize + c] := (r, c);
        }
      }
    }

    /** The first nine shuffled cells each get a tile; `createTile` draws
     *  the next id from the counter. */
    method PlaceInitialTiles(cells: seq<(int, int)>, choices: seq<nat>)
      requires |cells| >= 9 && |choices| >= 9 && tileIdCounter == 0 && tiles == []
      modifies this`tileIdCounter, this`tiles
      ensures tileIdCounter == 9 && tiles == InitialTiles(cells, choices)
    {
      for i := 0 to 9
        invariant tileIdCounter == i
        invariant tiles == InitialTiles(cells, choices)[..i]
      {
        var (row, col) := cells[i];
        tileIdCounter := tileIdCounter + 1;
        tiles := tiles + [Tile(tileIdCounter, RandomValue(choices[i]), row, col)];
      }
    }

    /** `getEmptyPositions(direction)`. */
    method EmptyPositions(d: Direction) returns (empty: seq<(int, int)>)
      ensures empty == EmptyEdge(tiles, d)
    {
      empty := [];
      for i := 0 to GridSize
        invariant empty == EmptyEdgeUpTo(tiles, d, i)
      {
        var cell := EdgeCell(d, i);
        if !Occupied(tiles, cell) {
          empty := empty + [cell];
        }
      }
    }

    /** `moveTiles(direction)`: works on copies and leaves `tiles` as it is. */
    method MoveTiles(d: Direction) returns (newTiles: seq<Tile>, moved: bool)
      ensures newTiles == MovedTiles(tiles, d)
      ensures moved == AnyMoved(tiles, d)
    {
      newTiles := [];
      moved := false;
      for c := 0 to GridSize
        invariant newTiles == Flatten(MovedLines(tiles, d)[..c])
        invariant moved == SomeBefore(MovedFlags(tiles, d), c)
      {
        var line := Line(tiles, d, c);
        var kept, merged := ProcessLine(line, Reversing(d));
        var placed, shifted := PlaceLine(kept, d);
        LoopStep(tiles, d, c, kept, merged, placed, shifted);
        moved := moved || merged || shifted;
        newTiles := newTiles + placed;
      }
      assert MovedLines(tiles, d)[..GridSize] == MovedLines(tiles, d);
      AnyMovedFlags(tiles, d);
    }

    /** `canMove`: tries the four directions in turn, without side effects. */
    method CanMove() returns (r: bool)
      ensures r == CanMoveSpec(tiles)
    {
      var directions := [Up, Down, Left, Right];
      for i := 0 to 4
        invariant i > 0 ==> !AnyMoved(tiles, Up)
        invariant i > 1 ==> !AnyMoved(tiles, Down)
        invariant i > 2 ==> !AnyMoved(tiles, Left)
        invariant i > 3 ==> !AnyMoved(tiles, Right)
      {
        var _, moved := MoveTiles(directions[i]);
        if moved {
          return true;
        }
      }
      return false;
    }

    /** `move(direction)`: the undo snapshot is taken before the "nothing
     *  moved" return, so a move that changes nothing still overwrites it.
     *  `spawnChoice` picks among the empty edge cells, `nextChoice` draws the
     *  next preview value. */
    method Move(d: Direction, spawnChoice: nat, nextChoice: nat)
      requires Valid()
      modifies this`tiles, this`history, this`tileIdCounter, this`nextTile, this`animating
      ensures Valid()
      ensures old(gameOver || animating) ==>
        unchanged(this`tiles, this`history, this`tileIdCounter, this`nextTile, this`animating)
      ensures !old(gameOver || animating) ==>
        history == Some(Snapshot(old(tiles), score, old(nextTile)))
      ensures !old(gameOver || animating) && !AnyMoved(old(tiles), d) ==>
        tiles == old(tiles) && nextTile == old(nextTile) && !animating
        && tileIdCounter == old(tileIdCounter)
      ensures !old(gameOver || animating) && AnyMoved(old(tiles), d) ==>
        animating
        && SpawnState(tiles, tileIdCounter, nextTile)
           == SpawnStep(SpawnState(MovedTiles(old(tiles), d), old(tileIdCounter), old(nextTile)), d, spawnChoice, nextChoice)
    {
      if !gameOver && !animating {
        Play(d, spawnChoice, nextChoice);
      }
    }

    /** The body of `move` once the guard has let the key through. */
    method Play(d: Direction, spawnChoice: nat, nextChoice: nat)
      requires Valid() && !gameOver && !animating
      modifies this`tiles, this`history, this`tileIdCounter, this`nextTile, this`animating
      ensures Valid()
      ensures history == Some(Snapshot(old(tiles), score, old(nextTile)))
      ensures !AnyMoved(old(tiles), d) ==>
        tiles == old(tiles) && nextTile == old(nextTile) && !animating
        && tileIdCounter == old(tileIdCounter)
      ensures AnyMoved(old(tiles), d) ==>
        animating
        && SpawnState(tiles, tileIdCounter, nextTile)
           == SpawnStep(SpawnState(MovedTiles(old(tiles), d), old(tileIdCounter), old(nextTile)), d, spawnChoice, nextChoice)
    {
      ghost var slid := MovedTiles(tiles, d);
      var moved := Slide(d);
      assert tileIdCounter == old(tileIdCounter) && nextTile == old(nextTile);
      if moved {
        ghost var before := SpawnState(tiles, tileIdCounter, nextTile);
        assert before == SpawnState(slid, old(tileIdCounter), old(nextTile));
        SpawnTile(d, spawnChoice, nextChoice);
        animating := true;
      }
    }

    /** The sliding half of `move`: the snapshot is taken first, then the
     *  tiles are replaced by the moved ones when anything moved. */
    method Slide(d: Direction) returns (moved: bool)
      requires ValidBoard(tiles)
      modifies this`tiles, this`history
      ensures history == Some(Snapshot(old(tiles), score, nextTile))
      ensures moved == AnyMoved(old(tiles), d)
      ensures tiles == if moved then MovedTiles(old(tiles), d) else old(tiles)
      ensures ValidBoard(tiles)
    {
      history := Some(Snapshot(tiles, score, nextTile));
      var newTiles;
      newTiles, moved := MoveTiles(d);
      if moved {
        MoveKeepsBoardValid(tiles, d);
        tiles := newTiles;
      }
    }

    /** The spawning half of `move`: a new tile with the previewed value on a
     *  free cell of the edge opposite the move, picked by `spawnChoice`, and a
     *  fresh preview; a full edge spawns nothing. */
    method SpawnTile(d: Direction, spawnChoice: nat, nextChoice: nat)
      requires ValidBoard(tiles) && IsSpawnValue(nextTile)
      modifies this`tiles, this`tileIdCounter, this`nextTile
      ensures ValidBoard(tiles) && IsSpawnValue(nextTile)
      ensures SpawnState(tiles, tileIdCounter, nextTile)
              == SpawnStep(SpawnState(old(tiles), old(tileIdCounter), old(nextTile)), d, spawnChoice, nextChoice)
    {
      SpawnedValid(tiles, d, spawnChoice, tileIdCounter + 1, nextTile);
      var empty := EmptyPositions(d);
      if |empty| > 0 {
        var cell := empty[spawnChoice % |empty|];
        tileIdCounter := tileIdCounter + 1;
        tiles := tiles + [Tile(tileIdCounter, nextTile, cell.0, cell.1)];
        nextTile := RandomValue(nextChoice);
      }
    }

    /** The end of the slide animation in the frame loop: the score is
     *  updated and the game ends when no direction moves. */
    method FinishAnimation()
      requires Valid() && animating
      modifies this`animating, this`score, this`highScore, this`gameOver
      ensures Valid() && !animating
      ensures score == CalculateScore(tiles)
      ensures highScore == if score > old(highScore) then score else old(highScore)
      ensures gameOver == (old(gameOver) || !CanMoveSpec(tiles))
    {
      animating := false;
      UpdateScore();
      assert tiles == old(tiles) && history == old(history) && nextTile == old(nextTile);
      var can := CanMove();
      if !can {
        gameOver := true;
      }
    }

    /** `undo`: restores the tiles, score and preview of the snapshot, clears
     *  the snapshot and the game-over flag; nothing happens without a
     *  snapshot or during an animation. */
    method Undo()
      requires Valid()
      modifies this`tiles, this`score, this`highScore, this`nextTile, this`history, this`gameOver
      ensures Valid()
      ensures old(history).None? || old(animating) ==> unchanged(this)
      ensures old(history).Some? && !old(animating) ==>
        tiles == old(history).value.tiles && score == old(history).value.score
        && nextTile == old(history).value.nextTile && history == None && !gameOver
        && highScore == if score > old(highScore) then score else old(highScore)
    {
      if history.None? || animating {
        return;
      }
      var snap := history.value;
      tiles := snap.tiles;
      score := snap.score;
      nextTile := snap.nextTile;
      history := None;
      gameOver := false;
      UpdateScore();
    }

    /** `reset`: a fresh grid with no snapshot and no animation. */
    method Reset(picks: seq<nat>, choices: seq<nat>)
      requires |picks| == GridSize * GridSize && |choices| == 10
      modifies this
      ensures Valid()
      ensures history == None && !animating && !gameOver
      ensures tiles == InitialTiles(State.Shuffled(AllCells(), picks), choices[1..])
      ensures nextTile == RandomValue(choices[0]) && tileIdCounter == 9
      ensures score == CalculateScore(tiles)
      ensures highScore == if score > old(highScore) then score else old(highScore)
    {
      history := None;
      animating := false;
      InitializeGrid(picks, choices);
    }
  }
}
