/**
  Primitives that both arcade games (Runner Pro and KinoSet) define for
  themselves: clamping, the pixel-to-tile floor, the closed-world solid
  test over a flat `solids` grid, the smoothed camera and the wheel zoom.
  Positions are exact `real`s, so every comparison the games make is
  stated as it is written.
 */
module Engine {

  /** Side of one square tile, in pixels (both games use 64). */
  const TILE: int := 64
  const TILE_R: real := 64.0

  /** Fraction of the remaining distance the camera covers each frame. */
  const CAMERA_LERP: real := 0.12

  /** Largest frame step the loops allow, in seconds. */
  const MAX_DT: real := 0.033

  /** A tile coordinate (column `x`, row `y`). */
  datatype Cell = Cell(x: int, y: int)

  function Min(a: real, b: real): real { if a <= b then a else b }
  function Max(a: real, b: real): real { if a >= b then a else b }

  /** `clamp(v, a, b) = max(a, min(b, v))`: inside a non-empty range it keeps
      `v` when `v` already lies in it and otherwise picks the nearer bound. */
  function Clamp(v: real, lo: real, hi: real): (r: real)
    ensures lo <= hi ==> lo <= r <= hi
    ensures lo <= v <= hi ==> r == v
    ensures v < lo ==> r == lo
    ensures lo <= hi < v ==> r == hi
  {
    Max(lo, Min(hi, v))
  }

  /** `Math.floor(p / TILE)`: the tile column (or row) holding pixel `p`. */
  function TileOf(p: real): (t: int)
    ensures (t * TILE) as real <= p < ((t + 1) * TILE) as real
  {
    (p / TILE_R).Floor
  }

  /** Pixel coordinate of a tile's top-left corner. */
  function PixelOf(t: int): real { (t * TILE) as real }

  /** The pixel-to-tile floor is the unique tile whose span holds the pixel. */
  lemma TileOfUnique(p: real, t: int)
    requires (t * TILE) as real <= p < ((t + 1) * TILE) as real
    ensures TileOf(p) == t
  {
    var k := TileOf(p);
    assert k * TILE < (t + 1) * TILE && t * TILE < (k + 1) * TILE;
  }

  predicate InGrid(w: int, h: int, cx: int, cy: int) {
    0 <= cx < w && 0 <= cy < h
  }

  /** The flat index `cy*w + cx` of an in-grid cell lies inside `[0, w*h)`. */
  lemma CellIndexInRange(w: int, h: int, cx: int, cy: int)
    requires InGrid(w, h, cx, cy)
    ensures 0 <= cy * w + cx < w * h
  {
    assert cy * w <= (h - 1) * w by {
      assert (h - 1) * w - cy * w == (h - 1 - cy) * w;
    }
    assert (h - 1) * w == h * w - w;
  }

  /** Solid test on a flat grid: a cell outside `[0,w)×[0,h)` is solid,
      an inside cell is solid when its entry is 1. */
  predicate CellSolid(w: int, h: int, solids: seq<int>, cx: int, cy: int)
    requires |solids| == w * h
  {
    if !InGrid(w, h, cx, cy) then true
    else CellIndexInRange(w, h, cx, cy); solids[cy * w + cx] == 1
  }

  /** `solidAt(px, py)`: floor both pixel coordinates to a tile and test that tile. */
  predicate SolidAt(w: int, h: int, solids: seq<int>, px: real, py: real)
    requires |solids| == w * h
  {
    CellSolid(w, h, solids, TileOf(px), TileOf(py))
  }

  /** Every pixel of a tile's square answers like the tile itself. */
  lemma {:induction false} SolidAtTile(w: int, h: int, solids: seq<int>, cx: int, cy: int, px: real, py: real)
    requires |solids| == w * h
    requires PixelOf(cx) <= px < PixelOf(cx + 1) && PixelOf(cy) <= py < PixelOf(cy + 1)
    ensures SolidAt(w, h, solids, px, py) == CellSolid(w, h, solids, cx, cy)
  {
    TileOfUnique(px, cx);
    TileOfUnique(py, cy);
  }

  /** The world is closed: every pixel outside `[0, w*TILE) × [0, h*TILE)` is solid. */
  lemma OutsideWorldIsSolid(w: int, h: int, solids: seq<int>, px: real, py: real)
    requires |solids| == w * h
    requires px < 0.0 || py < 0.0 || px >= PixelOf(w) || py >= PixelOf(h)
    ensures SolidAt(w, h, solids, px, py)
  {
    var cx, cy := TileOf(px), TileOf(py);
    if px >= PixelOf(w) {
      assert w * TILE < (cx + 1) * TILE;
    }
    if py >= PixelOf(h) {
      assert h * TILE < (cy + 1) * TILE;
    }
  }

  /** On a grid with no solid entry, the solid test is exactly "outside the world". */
  lemma {:induction false} EmptyGridSolidAt(w: int, h: int, solids: seq<int>, px: real, py: real)
    requires |solids| == w * h
    requires forall i :: 0 <= i < |solids| ==> solids[i] == 0
    ensures SolidAt(w, h, solids, px, py) <==>
              (px < 0.0 || py < 0.0 || px >= PixelOf(w) || py >= PixelOf(h))
  {
    var cx, cy := TileOf(px), TileOf(py);
    if px < 0.0 || py < 0.0 || px >= PixelOf(w) || py >= PixelOf(h) {
      OutsideWorldIsSolid(w, h, solids, px, py);
    } else {
      assert cx * TILE < w * TILE && cy * TILE < h * TILE;
      assert 0 < (cx + 1) * TILE && 0 < (cy + 1) * TILE;
      CellIndexInRange(w, h, cx, cy);
      assert solids[cy * w + cx] == 0;
    }
  }

  /** The camera target on one axis: the player's centre minus half the view,
      clamped to `[0, max(0, world - view)]`. */
  function CameraTarget(p: real, size: real, view: real, world: real): (r: real)
    ensures 0.0 <= r <= Max(0.0, world - view)
    ensures var t := p + size / 2.0 - view / 2.0;
            && (0.0 <= t <= world - view ==> r == t)
            && (t < 0.0 ==> r == 0.0)
            && (world - view < t ==> r == Max(0.0, world - view))
    ensures world <= view ==> r == 0.0
  {
    Clamp(p + size / 2.0 - view / 2.0, 0.0, Max(0.0, world - view))
  }

  /** `cam += (target - cam) * lerp`: the new camera lies between the old
      camera and the target, and the remaining distance shrinks to 88%. */
  function CameraFollow(cam: real, target: real): (r: real)
    ensures Min(cam, target) <= r <= Max(cam, target)
    ensures r - target == (1.0 - CAMERA_LERP) * (cam - target)
  {
    cam + (target - cam) * CAMERA_LERP
  }

  /** `dt = Math.min(0.033, (now - last) / 1000)`: the frame step in seconds,
      from two millisecond timestamps, never above 33 ms. */
  function FrameDt(now: real, last: real): (dt: real)
    ensures dt <= MAX_DT
    ensures (now - last) / 1000.0 <= MAX_DT ==> dt == (now - last) / 1000.0
    ensures MAX_DT < (now - last) / 1000.0 ==> dt == MAX_DT
    ensures last <= now ==> 0.0 <= dt
  {
    Min(MAX_DT, (now - last) / 1000.0)
  }

  /** One wheel tick: zoom in by 10% on a positive `deltaY`, out by 10% otherwise,
      clamped to `[lo, hi]`. */
  function ZoomStep(zoom: real, deltaY: real, lo: real, hi: real): (r: real)
    requires lo <= hi
    ensures lo <= r <= hi
    ensures var z := zoom * (if deltaY > 0.0 then 1.1 else 0.9);
            && (lo <= z <= hi ==> r == z)
            && (z < lo ==> r == lo)
            && (hi < z ==> r == hi)
  {
    Clamp(zoom * (if deltaY > 0.0 then 1.1 else 0.9), lo, hi)
  }

  /** JavaScript's `Math.round`: the nearest integer, halves rounded up. */
  function Round(x: real): (r: int)
    ensures x - 0.5 < r as real <= x + 0.5
  {
    (x + 0.5).Floor
  }

  /** Rounding keeps a meter in `[0, 100]` inside the same integer range. */
  lemma RoundPercent(x: real)
    requires 0.0 <= x <= 100.0
    ensures 0 <= Round(x) <= 100
  {
  }

  /** No cell is listed twice. */
  predicate Distinct(s: seq<Cell>) {
    forall i, j :: 0 <= i < j < |s| ==> s[i] != s[j]
  }

  /** `new Set(cells.map(key))`: the set of listed cells, built one element
      at a time; a list without repeats gives a set of the same size, so a
      counter driven by set removal ends exactly at the list's length. */
  method KeySet(cells: seq<Cell>) returns (r: set<Cell>)
    ensures forall c :: c in r <==> c in cells
    ensures Distinct(cells) ==> |r| == |cells|
  {
    r := {};
    var i := 0;
    while i < |cells|
      invariant 0 <= i <= |cells|
      invariant forall c :: c in r <==> c in cells[..i]
      invariant Distinct(cells) ==> |r| == i
    {
      if Distinct(cells) {
        assert cells[i] !in cells[..i];
      }
      r := r + {cells[i]};
      i := i + 1;
    }
    assert cells[..i] == cells;
  }
}
