/**
  The Runner Pro level: a flat `solids` bitmap indexed `y*w + x`, coin and
  checkpoint tiles, patrolling enemies bounded by `left`/`right` (in tiles),
  a finish tile and a spawn tile, together with the well-formedness facts the
  game code silently relies on and the proof that `level1` has them.
 */
module RunnerLevel {
  import opened Engine

  /** An enemy as authored: start tile and patrol bounds, all in tiles. */
  datatype EnemySpawn = EnemySpawn(x: int, y: int, left: int, right: int)

  datatype Level = Level(
    w: int, h: int,
    solids: seq<int>,
    coins: seq<Cell>,
    enemies: seq<EnemySpawn>,
    checkpoints: seq<Cell>,
    finish: Cell,
    spawn: Cell)

  /** The grid is non-empty, `solids` has exactly `w*h` entries and each is 0 or 1. */
  predicate GridShaped(L: Level) {
    1 <= L.w && 1 <= L.h && |L.solids| == L.w * L.h &&
    forall i :: 0 <= i < |L.solids| ==> L.solids[i] == 0 || L.solids[i] == 1
  }

  /** A cell inside the grid whose entry is 0. */
  predicate Open(L: Level, c: Cell)
    requires GridShaped(L)
  {
    !CellSolid(L.w, L.h, L.solids, c.x, c.y)
  }

  /** Every fact about the level the game code depends on. */
  predicate WellFormed(L: Level) {
    && GridShaped(L)
    && Open(L, L.spawn)
    && Open(L, L.finish)
    && (forall i :: 0 <= i < |L.coins| ==> Open(L, L.coins[i]))
    && (forall i :: 0 <= i < |L.checkpoints| ==> Open(L, L.checkpoints[i]))
    && (forall i :: 0 <= i < |L.enemies| ==> L.enemies[i].left <= L.enemies[i].x <= L.enemies[i].right)
    && Distinct(L.coins)
  }

  const L1_W: int := 40
  const L1_H: int := 20

  /** Reference definition of level1's bitmap, cell by cell: the two floor
      rows, three columns four tiles high, two plateaus and a four-step stair. */
  function Level1Cell(x: int, y: int): int {
    if y == L1_H - 2 || y == L1_H - 1 then 1
    else if L1_H - 6 <= y < L1_H - 2 && (x == 10 || x == 22 || x == 30) then 1
    else if y == L1_H - 8 && 14 <= x < 19 then 1
    else if y == L1_H - 10 && 24 <= x < 28 then 1
    else if (x == 4 && y == L1_H - 3) || (x == 5 && y == L1_H - 4) ||
            (x == 6 && y == L1_H - 5) || (x == 7 && y == L1_H - 6) then 1
    else 0
  }

  function Level1Solids(): (s: seq<int>)
    ensures |s| == L1_W * L1_H
  {
    seq(L1_W * L1_H, i => Level1Cell(i % L1_W, i / L1_W))
  }

  /** The cells the builder has set to 1 once its floor loop has reached
      column `floorTo`, its column loop row `colTo`, its plateau loops
      columns `lowTo` and `highTo`, and (when `stair` holds) the stair. */
  ghost predicate Written(x: int, y: int, floorTo: int, colTo: int, lowTo: int, highTo: int, stair: bool) {
    || ((y == L1_H - 2 || y == L1_H - 1) && x < floorTo)
    || (L1_H - 6 <= y < colTo && (x == 10 || x == 22 || x == 30))
    || (y == L1_H - 8 && 14 <= x < lowTo)
    || (y == L1_H - 10 && 24 <= x < highTo)
    || (stair && ((x == 4 && y == L1_H - 3) || (x == 5 && y == L1_H - 4) ||
                  (x == 6 && y == L1_H - 5) || (x == 7 && y == L1_H - 6)))
  }

  /** The whole bitmap at one point of the builder's progress. */
  ghost function Partial(floorTo: int, colTo: int, lowTo: int, highTo: int, stair: bool): seq<int> {
    seq(L1_W * L1_H, i => if Written(i % L1_W, i / L1_W, floorTo, colTo, lowTo, highTo, stair) then 1 else 0)
  }

  /** The floor loop: both bottom rows, column by column. */
  method FillFloor(a: array<int>)
    requires a.Length == L1_W * L1_H && a[..] == Partial(0, L1_H - 6, 14, 24, false)
    modifies a
    ensures a[..] == Partial(L1_W, L1_H - 6, 14, 24, false)
  {
    var W, H := L1_W, L1_H;
    var x := 0;
    while x < W
      invariant 0 <= x <= W
      invariant a[..] == Partial(x, H - 6, 14, 24, false)
    {
      a[(H - 2) * W + x] := 1;
      a[(H - 1) * W + x] := 1;
      x := x + 1;
    }
  }

  /** The column loop: columns 10, 22 and 30, four rows above the floor. */
  method FillColumns(a: array<int>)
    requires a.Length == L1_W * L1_H && a[..] == Partial(L1_W, L1_H - 6, 14, 24, false)
    modifies a
    ensures a[..] == Partial(L1_W, L1_H - 2, 14, 24, false)
  {
    var W, H := L1_W, L1_H;
    var y := H - 6;
    while y < H - 2
      invariant H - 6 <= y <= H - 2
      invariant a[..] == Partial(W, y, 14, 24, false)
    {
      a[y * W + 10] := 1;
      a[y * W + 22] := 1;
      a[y * W + 30] := 1;
      y := y + 1;
    }
  }

  /** The two plateau loops: row H-8 over columns 14..18, row H-10 over 24..27. */
  method FillPlateaus(a: array<int>)
    requires a.Length == L1_W * L1_H && a[..] == Partial(L1_W, L1_H - 2, 14, 24, false)
    modifies a
    ensures a[..] == Partial(L1_W, L1_H - 2, 19, 28, false)
  {
    var W, H := L1_W, L1_H;
    var x := 14;
    while x < 19
      invariant 14 <= x <= 19
      invariant a[..] == Partial(W, H - 2, x, 24, false)
    {
      a[(H - 8) * W + x] := 1;
      x := x + 1;
    }
    x := 24;
    while x < 28
      invariant 24 <= x <= 28
      invariant a[..] == Partial(W, H - 2, 19, x, false)
    {
      a[(H - 10) * W + x] := 1;
      x := x + 1;
    }
  }

  /** The IIFE that builds `level1.solids`: a zero-filled array, then loops
      that set the floor, the columns, the plateaus and the stair to 1. */
  method BuildLevel1Solids() returns (a: array<int>)
    ensures a.Length == L1_W * L1_H
    ensures a[..] == Level1Solids()
  {
    var W, H := L1_W, L1_H;
    a := new int[W * H](_ => 0);
    assert a[..] == Partial(0, H - 6, 14, 24, false);
    FillFloor(a);
    FillColumns(a);
    FillPlateaus(a);
    // stair
    a[(H - 3) * W + 4] := 1;
    a[(H - 4) * W + 5] := 1;
    a[(H - 5) * W + 6] := 1;
    a[(H - 6) * W + 7] := 1;
    assert a[..] == Partial(W, H - 2, 19, 28, true);
    FinishedBuildIsLevel1();
  }

  /** Once every loop has run to its end and the stair is set, the cells
      written are exactly the reference bitmap's solid cells. */
  lemma FinishedBuildIsLevel1()
    ensures Partial(L1_W, L1_H - 2, 19, 28, true) == Level1Solids()
  {
    forall i | 0 <= i < L1_W * L1_H
      ensures Partial(L1_W, L1_H - 2, 19, 28, true)[i] == Level1Solids()[i]
    {
      var x, y := i % L1_W, i / L1_W;
      assert 0 <= x < L1_W;
    }
  }

  /** `level1`, the only level the game loads. */
  function Level1(): Level {
    Level(
      L1_W, L1_H,
      Level1Solids(),
      [Cell(6, 12), Cell(7, 11), Cell(8, 10),
       Cell(15, 11), Cell(17, 11),
       Cell(25, 9), Cell(26, 9), Cell(27, 9),
       Cell(31, 13), Cell(33, 13)],
      [EnemySpawn(12, 14, 11, 16), EnemySpawn(23, 14, 22, 26), EnemySpawn(31, 14, 30, 34)],
      [Cell(18, 11), Cell(27, 9), Cell(33, 13)],
      Cell(38, 13),
      Cell(3, 13))
  }

  /** Reading level1's bitmap at an in-grid cell gives the reference cell. */
  lemma Level1At(x: int, y: int)
    requires 0 <= x < L1_W && 0 <= y < L1_H
    ensures CellSolid(L1_W, L1_H, Level1Solids(), x, y) <==> Level1Cell(x, y) == 1
  {
    var i := y * L1_W + x;
    assert i / L1_W == y && i % L1_W == x;
  }

  /** The bottom two rows are solid across the whole width. */
  lemma Level1FloorSolid(x: int)
    requires 0 <= x < L1_W
    ensures CellSolid(L1_W, L1_H, Level1Solids(), x, L1_H - 2)
    ensures CellSolid(L1_W, L1_H, Level1Solids(), x, L1_H - 1)
  {
    Level1At(x, L1_H - 2);
    Level1At(x, L1_H - 1);
  }

  /** level1's bitmap has 800 entries, each 0 or 1. */
  lemma Level1GridShaped()
    ensures GridShaped(Level1())
  {
  }

  /** Every coin and checkpoint of level1 sits on an open cell. */
  lemma Level1PointsOpen()
    requires GridShaped(Level1())
    ensures forall i :: 0 <= i < |Level1().coins| ==> Open(Level1(), Level1().coins[i])
    ensures forall i :: 0 <= i < |Level1().checkpoints| ==> Open(Level1(), Level1().checkpoints[i])
  {
    var L := Level1();
    forall i | 0 <= i < |L.coins| ensures Open(L, L.coins[i]) {
      Level1At(L.coins[i].x, L.coins[i].y);
    }
    forall i | 0 <= i < |L.checkpoints| ensures Open(L, L.checkpoints[i]) {
      Level1At(L.checkpoints[i].x, L.checkpoints[i].y);
    }
  }

  /** No coin of level1 is listed twice. */
  lemma Level1CoinsDistinct()
    ensures Distinct(Level1().coins)
  {
  }

  /** level1 is well formed: an 800-cell 0/1 grid, spawn, finish, every coin
      and every checkpoint on an open in-grid cell, every enemy inside its
      patrol bounds, and no coin listed twice. */
  lemma Level1WellFormed()
    ensures WellFormed(Level1())
  {
    var L := Level1();
    Level1GridShaped();
    Level1PointsOpen();
    Level1At(L.spawn.x, L.spawn.y);
    Level1At(L.finish.x, L.finish.y);
    Level1CoinsDistinct();
  }
}
