/**
  The KinoSet level: a flat `solids` grid indexed `y*w + x`, the spawn and
  finish tiles, the red noise zones (pixel rectangles), the shot and battery
  tiles and the patrolling guards, with the well-formedness facts the game
  code relies on and the proof that the shipped level has them.
 */
module CinemaLevel {
  import opened Engine

  /** A pixel rectangle. */
  datatype Rect = Rect(x: real, y: real, w: real, h: real)

  /** A pixel position. */
  datatype Point = Point(x: real, y: real)

  /** A guard as authored: start position, patrol waypoints (pixels), walking
      speed in px/s and the radius it hears within. */
  datatype Guard = Guard(x: real, y: real, path: seq<Point>, speed: real, fov: real)

  datatype Level = Level(
    w: int, h: int,
    solids: seq<int>,
    spawn: Cell,
    finish: Cell,
    noiseZones: seq<Rect>,
    shots: seq<Cell>,
    batteries: seq<Cell>,
    guards: seq<Guard>)

  /** The grid is non-empty, `solids` has exactly `w*h` entries and each is 0 or 1. */
  predicate GridShaped(L: Level) {
    1 <= L.w && 1 <= L.h && |L.solids| == L.w * L.h &&
    forall i :: 0 <= i < |L.solids| ==> L.solids[i] == 0 || L.solids[i] == 1
  }

  /** A rectangle of non-negative size inside the world's pixel bounds. */
  predicate ZoneInWorld(L: Level, z: Rect) {
    0.0 <= z.x && 0.0 <= z.y && 0.0 <= z.w && 0.0 <= z.h &&
    z.x + z.w <= PixelOf(L.w) && z.y + z.h <= PixelOf(L.h)
  }

  /** A guard the game loop can run: a non-empty path starting where the
      guard stands, a positive speed and a positive hearing radius. */
  predicate GuardOk(g: Guard) {
    |g.path| > 0 && g.path[0] == Point(g.x, g.y) && g.speed > 0.0 && g.fov > 0.0
  }

  /** No tile appears in both lists. */
  predicate Disjoint(a: seq<Cell>, b: seq<Cell>) {
    forall i, j :: 0 <= i < |a| && 0 <= j < |b| ==> a[i] != b[j]
  }

  /** Every fact about the level the game code depends on. */
  predicate WellFormed(L: Level) {
    && GridShaped(L)
    && InGrid(L.w, L.h, L.spawn.x, L.spawn.y)
    && InGrid(L.w, L.h, L.finish.x, L.finish.y)
    && (forall i :: 0 <= i < |L.shots| ==> InGrid(L.w, L.h, L.shots[i].x, L.shots[i].y))
    && (forall i :: 0 <= i < |L.batteries| ==> InGrid(L.w, L.h, L.batteries[i].x, L.batteries[i].y))
    && (forall i :: 0 <= i < |L.noiseZones| ==> ZoneInWorld(L, L.noiseZones[i]))
    && Distinct(L.shots) && Distinct(L.batteries) && Disjoint(L.shots, L.batteries)
    && (forall i :: 0 <= i < |L.guards| ==> GuardOk(L.guards[i]))
  }

  const K_W: int := 30
  const K_H: int := 18

  /** The tile-corner point `(x*64, y*64)`. */
  function TilePoint(x: int, y: int): Point {
    Point(PixelOf(x), PixelOf(y))
  }

  /** `level`, the only KinoSet level: an empty 30×18 hall, two noise zones,
      four shots, two batteries and one guard walking a rectangle. */
  function KinoLevel(): Level {
    Level(
      K_W, K_H,
      seq(K_W * K_H, _ => 0),
      Cell(2, 14),
      Cell(27, 2),
      [Rect(PixelOf(9), PixelOf(10), PixelOf(5), PixelOf(2)),
       Rect(PixelOf(18), PixelOf(5), PixelOf(3), PixelOf(3))],
      [Cell(6, 6), Cell(10, 4), Cell(15, 11), Cell(22, 7)],
      [Cell(8, 13), Cell(20, 9)],
      [Guard(PixelOf(14), PixelOf(11),
             [TilePoint(14, 11), TilePoint(22, 11), TilePoint(22, 6), TilePoint(14, 6)],
             90.0, 160.0)])
  }

  /** The shipped level is well formed: a 540-cell grid of zeros, every
      listed tile inside it, both zones inside the 1920×1152 world, shots
      and batteries distinct and apart, and a guard whose path starts where
      it stands. */
  lemma KinoLevelWellFormed()
    ensures WellFormed(KinoLevel())
  {
    var L := KinoLevel();
    assert GridShaped(L);
    assert Distinct(L.shots) && Distinct(L.batteries) && Disjoint(L.shots, L.batteries);
    assert GuardOk(L.guards[0]);
  }

  /** In the shipped level a pixel is solid exactly when it lies outside the
      world: the hall has no inner wall. */
  lemma {:induction false} KinoSolidIffOutside(px: real, py: real)
    ensures SolidAt(K_W, K_H, KinoLevel().solids, px, py) <==>
              (px < 0.0 || py < 0.0 || px >= PixelOf(K_W) || py >= PixelOf(K_H))
  {
    EmptyGridSolidAt(K_W, K_H, KinoLevel().solids, px, py);
  }
}
