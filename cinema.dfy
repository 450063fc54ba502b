/**
  KinoSet, the top-down stealth game: a camera cart steered by keys or a
  joystick collects shots and batteries while a battery meter drains and a
  noise meter fills in red zones and inside the guards' hearing cones. The
  pure parts of `update` are functions; the session is a class whose
  methods change its fields in the order the `update` closure does.
 */
module Cinema {
  import opened Engine
  import opened CinemaLevel

  const SZ: real := 42.0               // player.sz
  const SPEED: real := 1800.0          // player.speed
  const FRICTION: real := 0.88         // player.friction
  const BOOST_IMPULSE: real := 900.0
  const BOOST_COST: real := 3.0
  const BOOST_COOLDOWN: real := 0.35
  const DRAIN_RATE: real := 1.1        // battery per second
  const ZONE_RATE: real := 22.0        // noise per second in each red zone
  const CONE_RATE: real := 35.0        // noise per second in each guard's cone
  const RECHARGE: real := 25.0         // battery per pickup
  const FULL: real := 100.0            // both meters are percentages
  const REACH: real := 2.0             // a waypoint closer than this is reached
  const ZOOM_MIN: real := 0.7
  const ZOOM_MAX: real := 2.0

  function WorldW(L: Level): real { PixelOf(L.w) }
  function WorldH(L: Level): real { PixelOf(L.h) }

  /** The joystick as the frame sees it: a drag vector and whether a drag is on. */
  datatype Stick = Stick(dx: real, dy: real, active: bool)

  predicate Solid(L: Level, px: real, py: real)
    requires |L.solids| == L.w * L.h
  {
    SolidAt(L.w, L.h, L.solids, px, py)
  }

  /** `collide(x, y, sz)`: one of the box's four corner pixels is solid. */
  predicate Collide(L: Level, x: real, y: real)
    requires |L.solids| == L.w * L.h
  {
    Solid(L, x, y) || Solid(L, x + SZ - 1.0, y) || Solid(L, x, y + SZ - 1.0) || Solid(L, x + SZ - 1.0, y + SZ - 1.0)
  }

  /** On a grid without walls the box collides exactly when a corner leaves the world. */
  lemma {:induction false} CollideOnOpenGrid(L: Level, x: real, y: real)
    requires |L.solids| == L.w * L.h
    requires forall i :: 0 <= i < |L.solids| ==> L.solids[i] == 0
    ensures Collide(L, x, y) <==>
              (x < 0.0 || y < 0.0 || x + SZ - 1.0 >= WorldW(L) || y + SZ - 1.0 >= WorldH(L))
  {
    EmptyGridSolidAt(L.w, L.h, L.solids, x, y);
    EmptyGridSolidAt(L.w, L.h, L.solids, x + SZ - 1.0, y);
    EmptyGridSolidAt(L.w, L.h, L.solids, x, y + SZ - 1.0);
    EmptyGridSolidAt(L.w, L.h, L.solids, x + SZ - 1.0, y + SZ - 1.0);
  }

  /** In the shipped level the player's box at the spawn tile is clear of walls. */
  lemma KinoSpawnClear()
    ensures var L := KinoLevel(); !Collide(L, PixelOf(L.spawn.x), PixelOf(L.spawn.y))
  {
    var L := KinoLevel();
    CollideOnOpenGrid(L, PixelOf(L.spawn.x), PixelOf(L.spawn.y));
  }

  // ---------------------------------------------------------------- movement

  /** One axis of the move: the candidate `pos + vel*dt` is clamped to
      `[0, world - sz]` and taken only if the box there collides with
      nothing (`other` is the box's coordinate on the other axis). */
  function MoveX(L: Level, x: real, y: real, vx: real, dt: real): (r: real)
    requires |L.solids| == L.w * L.h && SZ <= WorldW(L)
    ensures var n := Clamp(x + vx * dt, 0.0, WorldW(L) - SZ);
            && (!Collide(L, n, y) ==> r == n)
            && (Collide(L, n, y) ==> r == x)
    ensures 0.0 <= x <= WorldW(L) - SZ ==> 0.0 <= r <= WorldW(L) - SZ
    ensures !Collide(L, x, y) ==> !Collide(L, r, y)
  {
    var n := Clamp(x + vx * dt, 0.0, WorldW(L) - SZ);
    if !Collide(L, n, y) then n else x
  }

  /** The vertical half of the move, tested at the already moved `x`. */
  function MoveY(L: Level, x: real, y: real, vy: real, dt: real): (r: real)
    requires |L.solids| == L.w * L.h && SZ <= WorldH(L)
    ensures var n := Clamp(y + vy * dt, 0.0, WorldH(L) - SZ);
            && (!Collide(L, x, n) ==> r == n)
            && (Collide(L, x, n) ==> r == y)
    ensures 0.0 <= y <= WorldH(L) - SZ ==> 0.0 <= r <= WorldH(L) - SZ
    ensures !Collide(L, x, y) ==> !Collide(L, x, r)
  {
    var n := Clamp(y + vy * dt, 0.0, WorldH(L) - SZ);
    if !Collide(L, x, n) then n else y
  }

  /** The shipped hall has no inner wall, so on it a move is only ever
      stopped by the world's edge: each axis lands on the clamped candidate. */
  lemma {:induction false} KinoMoveUnblocked(x: real, y: real, vx: real, vy: real, dt: real)
    requires 0.0 <= x <= WorldW(KinoLevel()) - SZ && 0.0 <= y <= WorldH(KinoLevel()) - SZ
    ensures MoveX(KinoLevel(), x, y, vx, dt) == Clamp(x + vx * dt, 0.0, WorldW(KinoLevel()) - SZ)
    ensures MoveY(KinoLevel(), x, y, vy, dt) == Clamp(y + vy * dt, 0.0, WorldH(KinoLevel()) - SZ)
  {
    var L := KinoLevel();
    CollideOnOpenGrid(L, Clamp(x + vx * dt, 0.0, WorldW(L) - SZ), y);
    CollideOnOpenGrid(L, x, Clamp(y + vy * dt, 0.0, WorldH(L) - SZ));
  }

  // ---------------------------------------------------------------- input

  /** What one frame reads from the keys and the stick. */
  datatype Intent = Intent(ax: real, ay: real, boost: bool)

  /** The input block of `update`: right (→/D) minus left (←/A) plus the
      stick's x; the vertical intent is -1 for ↑/W plus 0.8 of the stick's
      `dy` negated, so (screen `y` growing downwards) pulling the stick up
      steers the cart down; space boosts. No key steers down. */
  function ReadIntent(keys: set<string>, stick: Stick): (c: Intent)
    ensures c.ax == (if "arrowright" in keys || "d" in keys then 1.0 else 0.0)
                  - (if "arrowleft" in keys || "a" in keys then 1.0 else 0.0)
                  + (if stick.active then stick.dx else 0.0)
    ensures c.ay == (if "arrowup" in keys || "w" in keys then -1.0 else 0.0)
                  - (if stick.active then 0.8 * stick.dy else 0.0)
    ensures !stick.active ==> -1.0 <= c.ax <= 1.0
    ensures ("arrowright" in keys || "d" in keys) == ("arrowleft" in keys || "a" in keys) && !stick.active ==> c.ax == 0.0
    ensures !stick.active ==> (c.ay == -1.0 <==> "arrowup" in keys || "w" in keys)
    ensures !stick.active ==> (c.ay == 0.0 <==> !("arrowup" in keys || "w" in keys))
    ensures c.boost <==> " " in keys
  {
    var right := "arrowright" in keys || "d" in keys;
    var left := "arrowleft" in keys || "a" in keys;
    var up := "arrowup" in keys || "w" in keys;
    var sx := if stick.active then stick.dx else 0.0;
    var sy := if stick.active then -stick.dy else 0.0;
    Intent((if right then 1.0 else 0.0) - (if left then 1.0 else 0.0) + sx,
           (if up then -1.0 else 0.0) + sy * 0.8,
           " " in keys)
  }

  /** The down keys are not read: holding ↓ or S changes nothing, so from the
      keyboard alone the vertical intent is never positive. */
  lemma NoDownKey(keys: set<string>, stick: Stick)
    ensures ReadIntent(keys + {"arrowdown", "s"}, stick) == ReadIntent(keys - {"arrowdown", "s"}, stick)
    ensures !stick.active ==> ReadIntent(keys, stick).ay <= 0.0
  {
    var k1, k2 := keys + {"arrowdown", "s"}, keys - {"arrowdown", "s"};
    assert "arrowup" != "arrowdown" && "arrowup" != "s" && "w" != "arrowdown" && "w" != "s";
    assert "arrowright" != "arrowdown" && "arrowright" != "s" && "d" != "arrowdown" && "d" != "s";
    assert "arrowleft" != "arrowdown" && "arrowleft" != "s" && "a" != "arrowdown" && "a" != "s";
    assert " " != "arrowdown" && " " != "s";
  }

  /** `facing` follows the sign of a non-zero `ax` and is kept otherwise. */
  function Facing(f: int, ax: real): (r: int)
    ensures ax > 0.0 ==> r == 1
    ensures ax < 0.0 ==> r == -1
    ensures ax == 0.0 ==> r == f
    ensures (f == 1 || f == -1) ==> (r == 1 || r == -1)
  {
    if ax > 0.0 then 1 else if ax < 0.0 then -1 else f
  }

  /** The boost fires when space is held, its cooldown has run out and more
      than 3% battery is left. */
  predicate BoostFires(boost: bool, stamina: real, battery: real) {
    boost && stamina <= 0.0 && battery > BOOST_COST
  }

  // ---------------------------------------------------------------- meters

  /** `max(0, b - 1.1*dt)`: the battery drains and never goes negative. */
  function Drain(b: real, dt: real): (r: real)
    ensures 0.0 <= r
    ensures 0.0 <= dt ==> r <= b || r == 0.0
    ensures b - dt * DRAIN_RATE >= 0.0 ==> r == b - dt * DRAIN_RATE
    ensures b - dt * DRAIN_RATE < 0.0 ==> r == 0.0
  {
    Max(0.0, b - dt * DRAIN_RATE)
  }

  /** A battery pickup: +25, capped at 100. */
  function Recharge(b: real): (r: real)
    ensures b <= r || r == FULL
    ensures r <= FULL
    ensures b + RECHARGE <= FULL ==> r == b + RECHARGE
    ensures FULL < b + RECHARGE ==> r == FULL
  {
    Min(FULL, b + RECHARGE)
  }

  /** One noise increment `min(100, n + amount)`. */
  function Bump(n: real, amount: real): real {
    Min(FULL, n + amount)
  }

  /** `k` increments of the same amount in a row. */
  function BumpTimes(n: real, k: nat, amount: real): real {
    if k == 0 then n else Bump(BumpTimes(n, k - 1, amount), amount)
  }

  /** Capping each increment is the same as capping the sum once: `k`
      increments of `a` land on `min(100, n + k*a)`, so the meter stays in
      `[0, 100]` and never falls. */
  lemma {:induction false} BumpTimesClosed(n: real, k: nat, a: real)
    requires 0.0 <= n <= FULL && 0.0 <= a
    ensures BumpTimes(n, k, a) == Min(FULL, n + k as real * a)
    ensures n <= BumpTimes(n, k, a) <= FULL
  {
    if k > 0 {
      BumpTimesClosed(n, k - 1, a);
      assert k as real * a == (k - 1) as real * a + a;
    }
  }

  /** The strict noise-zone test on the player's centre. */
  predicate InZone(px: real, py: real, z: Rect) {
    px > z.x && px < z.x + z.w && py > z.y && py < z.y + z.h
  }

  /** How many of `zs` hold the point: none exactly when no zone holds it,
      all exactly when every zone does. */
  function ZonesHolding(px: real, py: real, zs: seq<Rect>): (k: nat)
    ensures k <= |zs|
    ensures k == 0 <==> forall j :: 0 <= j < |zs| ==> !InZone(px, py, zs[j])
    ensures k == |zs| <==> forall j :: 0 <= j < |zs| ==> InZone(px, py, zs[j])
  {
    if zs == [] then 0
    else ZonesHolding(px, py, zs[..|zs| - 1]) + (if InZone(px, py, zs[|zs| - 1]) then 1 else 0)
  }

  /** The shipped level's two red zones are apart, so a frame adds noise
      for at most one of them. */
  lemma KinoZonesApart(px: real, py: real)
    ensures ZonesHolding(px, py, KinoLevel().noiseZones) <= 1
  {
    var zs := KinoLevel().noiseZones;
    assert zs[..1] == [zs[0]];
    assert ZonesHolding(px, py, zs[..1]) == (if InZone(px, py, zs[0]) then 1 else 0);
  }

  // ---------------------------------------------------------------- guards

  /** A guard as the loop carries it: its authored data and the index of the
      waypoint it walks to. */
  datatype Patroller = Patroller(x: real, y: real, path: seq<Point>, speed: real, fov: real, target: int)

  /** The copy made at start: the same data and `target = 1 % path.length`. */
  function StartGuard(g: Guard): (p: Patroller)
    requires |g.path| > 0
    ensures p.x == g.x && p.y == g.y && p.path == g.path && p.speed == g.speed && p.fov == g.fov
    ensures 0 <= p.target < |g.path|
    ensures |g.path| == 1 ==> p.target == 0
    ensures |g.path| > 1 ==> p.target == 1
  {
    Patroller(g.x, g.y, g.path, g.speed, g.fov, 1 % |g.path|)
  }

  /** `L.guards.map(g => ({ ...g, t: 0, target: 1 % g.path.length }))`. */
  function StartGuards(gs: seq<Guard>): (ps: seq<Patroller>)
    requires forall i :: 0 <= i < |gs| ==> |gs[i].path| > 0
    ensures |ps| == |gs|
    ensures forall i :: 0 <= i < |gs| ==> ps[i] == StartGuard(gs[i])
  {
    seq(|gs|, i requires 0 <= i < |gs| => StartGuard(gs[i]))
  }

  /** The guard is closer than 2 px to its waypoint (`len(dx, dy) < 2`,
      compared squared). */
  predicate Reached(p: Patroller)
    requires 0 <= p.target < |p.path|
  {
    var dst := p.path[p.target];
    (dst.x - p.x) * (dst.x - p.x) + (dst.y - p.y) * (dst.y - p.y) < REACH * REACH
  }

  /** What the frame supplies for one guard: the unit heading toward its
      waypoint (a square root away) and whether the player lies inside its
      view arc (a cosine away). */
  datatype Sense = Sense(heading: Point, inArc: bool)

  /** One guard's move: a reached waypoint advances the target cyclically
      and the guard stays put; otherwise the guard walks `speed*dt` along
      its heading and keeps its target. */
  function GuardStep(p: Patroller, s: Sense, dt: real): (r: Patroller)
    requires 0 <= p.target < |p.path|
    ensures r.path == p.path && r.speed == p.speed && r.fov == p.fov
    ensures 0 <= r.target < |r.path|
    ensures Reached(p) ==> r.target == (p.target + 1) % |p.path| && r.x == p.x && r.y == p.y
    ensures !Reached(p) ==> r.target == p.target
    ensures !Reached(p) ==> r.x == p.x + s.heading.x * p.speed * dt && r.y == p.y + s.heading.y * p.speed * dt
  {
    if Reached(p) then p.(target := (p.target + 1) % |p.path|)
    else p.(x := p.x + s.heading.x * p.speed * dt, y := p.y + s.heading.y * p.speed * dt)
  }

  /** The target after `k` reached waypoints. */
  function Advance(t: int, n: int, k: nat): int
    requires n > 0
  {
    if k == 0 then t else (Advance(t, n, k - 1) + 1) % n
  }

  /** Reaching `k <= path.length` waypoints in a row moves the target `k`
      places around the path, wrapping once past the end; after exactly
      `path.length` of them the guard heads for the same waypoint again. */
  lemma {:induction false} AdvanceCycles(t: int, n: int, k: nat)
    requires 0 <= t < n && k <= n
    ensures Advance(t, n, k) == if t + k < n then t + k else t + k - n
    ensures k == n ==> Advance(t, n, k) == t
  {
    if k > 0 {
      AdvanceCycles(t, n, k - 1);
      NextIndex(Advance(t, n, k - 1), n);
    }
  }

  /** Any number `k` of reached waypoints moves the target `k` places around
      the path, modulo its length: the patrol is cyclic without bound. */
  lemma {:induction false} AdvanceMod(t: int, n: int, k: nat)
    requires 0 <= t < n
    ensures Advance(t, n, k) == (t + k) % n
  {
    if k == 0 {
      ModOfRange(t, n);
    } else {
      AdvanceMod(t, n, k - 1);
      var m := (t + k - 1) % n;
      var q := (t + k - 1) / n;
      assert t + k - 1 == q * n + m;
      NextIndex(m, n);
      if m + 1 < n {
        ModUnique(t + k, n, q, m + 1);
      } else {
        assert t + k == (q + 1) * n + 0;
        ModUnique(t + k, n, q + 1, 0);
      }
    }
  }

  /** A value already in `[0, n)` is its own remainder. */
  lemma ModOfRange(t: int, n: int)
    requires 0 <= t < n
    ensures t % n == t
  {
  }

  /** The remainder is the unique `r` in `[0, n)` with `a == q*n + r`. */
  lemma ModUnique(a: int, n: int, q: int, r: int)
    requires 0 < n && 0 <= r < n && a == q * n + r
    ensures a % n == r
  {
    var q0, r0 := a / n, a % n;
    assert a == q0 * n + r0;
    if q < q0 {
      MulAtLeast(q0 - q, n);
    } else if q > q0 {
      MulAtLeast(q - q0, n);
    }
  }

  /** A positive multiple of `n` is at least `n`. */
  lemma MulAtLeast(d: int, n: int)
    requires 1 <= d && 0 < n
    ensures n <= d * n
  {
    assert d * n == (d - 1) * n + n;
  }

  /** `(t + 1) % n` steps to the next index and wraps from the last to 0. */
  lemma NextIndex(t: int, n: int)
    requires 0 <= t < n
    ensures (t + 1) % n == if t + 1 < n then t + 1 else 0
  {
    if t + 1 == n {
      assert (t + 1) % n == n % n;
    }
  }

  /** The guard (after its move) hears the player: within `fov` (compared
      squared, `fov` being positive) and inside the view arc. */
  predicate Hears(p: Patroller, s: Sense, px: real, py: real) {
    (px - p.x) * (px - p.x) + (py - p.y) * (py - p.y) < p.fov * p.fov && s.inArc
  }

  /** How many of the first `n` moved guards hear the player. */
  function Hearing(ps: seq<Patroller>, ss: seq<Sense>, px: real, py: real, n: nat): (k: nat)
    requires n <= |ps| && n <= |ss|
    ensures k <= n
  {
    if n == 0 then 0
    else Hearing(ps, ss, px, py, n - 1) + (if Hears(ps[n - 1], ss[n - 1], px, py) then 1 else 0)
  }

  /** The count is 0 exactly when none of the first `n` guards hears the
      player, and `n` exactly when every one of them does. */
  lemma {:induction false} HearingCounts(ps: seq<Patroller>, ss: seq<Sense>, px: real, py: real, n: nat)
    requires n <= |ps| && n <= |ss|
    ensures Hearing(ps, ss, px, py, n) == 0 <==> forall j :: 0 <= j < n ==> !Hears(ps[j], ss[j], px, py)
    ensures Hearing(ps, ss, px, py, n) == n <==> forall j :: 0 <= j < n ==> Hears(ps[j], ss[j], px, py)
  {
    if n > 0 {
      HearingCounts(ps, ss, px, py, n - 1);
    }
  }

  /** The count over the first `n` guards looks at nothing beyond them. */
  lemma {:induction false} HearingPrefix(ps: seq<Patroller>, qs: seq<Patroller>, ss: seq<Sense>, px: real, py: real, n: nat)
    requires n <= |ps| && n <= |qs| && n <= |ss|
    requires forall j :: 0 <= j < n ==> ps[j] == qs[j]
    ensures Hearing(ps, ss, px, py, n) == Hearing(qs, ss, px, py, n)
  {
    if n > 0 {
      HearingPrefix(ps, qs, ss, px, py, n - 1);
    }
  }

  // ---------------------------------------------------------------- outcome

  /** `done || drained || tooNoisy`. */
  predicate Over(left: int, battery: real, noise: real) {
    left == 0 || battery <= 0.0 || noise >= FULL
  }

  /** The banner's `ok`: every shot taken with battery and quiet to spare. */
  predicate Success(left: int, battery: real, noise: real) {
    left == 0 && battery > 0.0 && noise < FULL
  }

  /** The banner's score: 100 per collected shot, twice the rounded battery,
      minus the rounded noise (both floored at 0). With meters in range it
      lies within 100 below and 200 above the shots' worth. */
  function Score(total: int, left: int, battery: real, noise: real): (s: int)
    requires 0.0 <= battery <= FULL && 0.0 <= noise <= FULL
    ensures (total - left) * 100 - 100 <= s <= (total - left) * 100 + 200
    ensures battery == FULL && noise == 0.0 ==> s == (total - left) * 100 + 200
  {
    RoundPercent(battery);
    RoundPercent(noise);
    (total - left) * 100 + (if Round(battery) > 0 then Round(battery) else 0) * 2
      - (if Round(noise) > 0 then Round(noise) else 0)
  }

  /** A finished run that is not a success ended through an empty battery
      or a full noise meter; a success is always a finished state. */
  lemma {:induction false} OutcomeSplit(left: int, battery: real, noise: real)
    ensures Success(left, battery, noise) ==> Over(left, battery, noise)
    ensures Over(left, battery, noise) && !Success(left, battery, noise) <==>
              battery <= 0.0 || noise >= FULL
  {
  }

  // ---------------------------------------------------------------- session

  /** One KinoSet session: the cart, its meters, the shots and batteries
      still on the floor, the guards, the camera and the frame clock. */
  class Session {
    const L: Level
    /** The tiles the level starts with. */
    ghost const levelShots: set<Cell>
    ghost const levelBatteries: set<Cell>

    var posX: real
    var posY: real
    var velX: real
    var velY: real
    var stamina: real           // boost cooldown
    var facing: int
    var battery: real
    var noise: real
    var shots: set<Cell>        // keys of the shots still to take
    var batteries: set<Cell>    // keys of the batteries still on the floor
    var guards: seq<Patroller>
    var finished: bool
    var camX: real
    var camY: real
    var zoom: real
    var keys: set<string>       // lower-cased keys currently held
    var last: real              // timestamp of the previous frame

    /** A guard still carries its authored path, speed and hearing radius,
        and its target indexes that path. */
    static predicate Follows(g: Guard, p: Patroller) {
      p.path == g.path && p.speed == g.speed && p.fov == g.fov && 0 <= p.target < |p.path|
    }

    /** The cart's box lies inside the world and faces left or right. */
    ghost predicate BodyOk()
      reads this`posX, this`posY, this`facing
    {
      && |L.solids| == L.w * L.h
      && 0.0 <= posX <= WorldW(L) - SZ && 0.0 <= posY <= WorldH(L) - SZ
      && (facing == 1 || facing == -1)
    }

    /** Both meters are percentages. */
    ghost predicate MetersOk()
      reads this`battery, this`noise
    {
      0.0 <= battery <= FULL && 0.0 <= noise <= FULL
    }

    /** What is left on the floor is part of what the level started with. */
    ghost predicate PickupsOk()
      reads this`shots, this`batteries
    {
      && shots <= levelShots && batteries <= levelBatteries
      && |levelShots| == |L.shots| && |levelBatteries| == |L.batteries|
    }

    /** One runtime guard per authored guard, each consistent with it. */
    ghost predicate GuardsOk()
      reads this`guards
    {
      && |guards| == |L.guards|
      && (forall i :: 0 <= i < |guards| ==> Follows(L.guards[i], guards[i]))
    }

    ghost predicate Valid()
      reads this`posX, this`posY, this`facing, this`battery, this`noise
      reads this`shots, this`batteries, this`guards, this`zoom, this`camX, this`camY
    {
      && WellFormed(L)
      && BodyOk()
      && MetersOk()
      && PickupsOk()
      && GuardsOk()
      && ZOOM_MIN <= zoom <= ZOOM_MAX
      && 0.0 <= camX && 0.0 <= camY
    }

    /** The end flag agrees with the meters: `finished` is only ever set by
        `update`, which sets it to the end condition it has just computed. */
    ghost predicate Settled()
      reads this`finished, this`shots, this`battery, this`noise
    {
      finished ==> Over(|shots|, battery, noise)
    }

    /** The player's centre, in pixels. */
    function CenterX(): real
      reads this`posX
    {
      posX + SZ / 2.0
    }

    function CenterY(): real
      reads this`posY
    {
      posY + SZ / 2.0
    }

    /** The tile under the player's centre. */
    function Center(): Cell
      reads this`posX, this`posY
    {
      Cell(TileOf(CenterX()), TileOf(CenterY()))
    }

    /** Everything a frame may change, except the frame timestamp. */
    ghost function State(): (real, real, real, real, real, int, real, real, set<Cell>, set<Cell>, seq<Patroller>, bool, real, real)
      reads this
    {
      (posX, posY, velX, velY, stamina, facing, battery, noise, shots, batteries, guards, finished, camX, camY)
    }

    constructor (level: Level, now: real)
      requires WellFormed(level)
      ensures Valid()
      ensures L == level
      ensures posX == PixelOf(level.spawn.x) && posY == PixelOf(level.spawn.y)
      ensures velX == 0.0 && velY == 0.0 && stamina == 0.0 && facing == 1
      ensures battery == FULL && noise == 0.0
      ensures shots == levelShots && forall c :: c in shots <==> c in level.shots
      ensures batteries == levelBatteries && forall c :: c in batteries <==> c in level.batteries
      ensures guards == StartGuards(level.guards)
      ensures !finished && camX == 0.0 && camY == 0.0 && zoom == 1.0 && keys == {} && last == now
    {
      var shotSet := KeySet(level.shots);
      var batterySet := KeySet(level.batteries);
      L := level;
      posX, posY := PixelOf(level.spawn.x), PixelOf(level.spawn.y);
      velX, velY := 0.0, 0.0;
      stamina := 0.0;
      facing := 1;
      battery, noise := FULL, 0.0;
      shots, levelShots := shotSet, shotSet;
      batteries, levelBatteries := batterySet, batterySet;
      guards := StartGuards(level.guards);
      finished := false;
      camX, camY := 0.0, 0.0;
      zoom := 1.0;
      keys := {};
      last := now;
      new;
      StartReady(level);
    }

    /** `keydown`: remember the key. */
    method KeyDown(k: string)
      modifies this`keys
      ensures keys == old(keys) + {k}
    {
      keys := keys + {k};
    }

    /** `keyup`: forget the key. */
    method KeyUp(k: string)
      modifies this`keys
      ensures keys == old(keys) - {k}
    {
      keys := keys - {k};
    }

    /** A wheel tick on the canvas: zoom stays within [0.7, 2]. */
    method Wheel(deltaY: real)
      requires Valid()
      modifies this`zoom
      ensures Valid()
      ensures zoom == ZoomStep(old(zoom), deltaY, ZOOM_MIN, ZOOM_MAX)
    {
      zoom := ZoomStep(zoom, deltaY, ZOOM_MIN, ZOOM_MAX);
    }

    /** The steering half of `update`: facing, acceleration (vertical at
        three quarters of the speed), friction on both axes, then the boost,
        which costs exactly 3% battery, and the cooldown tick. */
    method Steer(dt: real, c: Intent)
      requires BodyOk() && MetersOk()
      modifies this`velX, this`velY, this`facing, this`stamina, this`battery
      ensures BodyOk() && MetersOk()
      ensures facing == Facing(old(facing), c.ax)
      ensures var fired := BoostFires(c.boost, old(stamina), old(battery));
              var timer := if fired then BOOST_COOLDOWN else old(stamina);
              && velX == (old(velX) + c.ax * SPEED * dt) * FRICTION
                         + (if fired then (if facing == 1 then BOOST_IMPULSE else -BOOST_IMPULSE) else 0.0)
              && velY == (old(velY) + c.ay * (SPEED * 0.75) * dt) * FRICTION
              && battery == (if fired then old(battery) - BOOST_COST else old(battery))
              && stamina == (if timer > 0.0 then timer - dt else timer)
    {
      if c.ax > 0.0 {
        facing := 1;
      }
      if c.ax < 0.0 {
        facing := -1;
      }
      velX := velX + c.ax * SPEED * dt;
      velY := velY + c.ay * (SPEED * 0.75) * dt;
      velX := velX * FRICTION;
      velY := velY * FRICTION;
      if c.boost && stamina <= 0.0 && battery > BOOST_COST {
        velX := velX + (if facing == 1 then 1.0 else -1.0) * BOOST_IMPULSE;
        stamina := BOOST_COOLDOWN;
        battery := Max(0.0, battery - BOOST_COST);
      }
      if stamina > 0.0 {
        stamina := stamina - dt;
      }
    }

    /** The move: X at the old Y, then Y at the new X, each kept only when
        the box there is clear. The cart never enters a wall. */
    method Move(dt: real)
      requires Valid()
      modifies this`posX, this`posY
      ensures Valid()
      ensures posX == MoveX(L, old(posX), old(posY), velX, dt)
      ensures posY == MoveY(L, posX, old(posY), velY, dt)
      ensures !Collide(L, old(posX), old(posY)) ==> !Collide(L, posX, posY)
    {
      posX := MoveX(L, posX, posY, velX, dt);
      posY := MoveY(L, posX, posY, velY, dt);
    }

    /** The battery leak over the frame. */
    method DrainBattery(dt: real)
      requires MetersOk() && 0.0 <= dt
      modifies this`battery
      ensures MetersOk()
      ensures battery == Drain(old(battery), dt)
    {
      battery := Max(0.0, battery - dt * DRAIN_RATE);
    }

    /** The red-zone loop: every zone holding the player's centre adds
        `22*dt`, each addition capped at 100. */
    method HearZones(dt: real)
      requires MetersOk() && 0.0 <= dt
      modifies this`noise
      ensures MetersOk()
      ensures old(noise) <= noise
      ensures noise == BumpTimes(old(noise), ZonesHolding(CenterX(), CenterY(), L.noiseZones), dt * ZONE_RATE)
    {
      var px, py := CenterX(), CenterY();
      var zs := L.noiseZones;
      var amount := dt * ZONE_RATE;
      var i := 0;
      while i < |zs|
        invariant 0 <= i <= |zs|
        invariant old(noise) <= noise <= FULL
        invariant noise == BumpTimes(old(noise), ZonesHolding(px, py, zs[..i]), amount)
      {
        assert zs[..i + 1][..i] == zs[..i];
        var z := zs[i];
        if px > z.x && px < z.x + z.w && py > z.y && py < z.y + z.h {
          noise := Min(FULL, noise + amount);
        }
        i := i + 1;
      }
      assert zs[..i] == zs;
    }

    /** One pass of the guard loop on guard `i`: it moves (or advances its
        target) and, if it then hears the point `(px, py)`, adds `amount`
        noise capped at 100. */
    method WatchGuard(i: int, s: Sense, dt: real, px: real, py: real, amount: real)
      requires GuardsOk() && 0 <= i < |guards| && 0.0 <= noise <= FULL && 0.0 <= amount
      modifies this`guards, this`noise
      ensures GuardsOk()
      ensures guards == old(guards)[i := GuardStep(old(guards)[i], s, dt)]
      ensures noise == if Hears(guards[i], s, px, py) then Bump(old(noise), amount) else old(noise)
      ensures old(noise) <= noise <= FULL
    {
      var g := GuardStep(guards[i], s, dt);
      guards := guards[i := g];
      if Hears(g, s, px, py) {
        noise := Min(FULL, noise + amount);
      }
    }

    /** The guard loop: each guard moves (or advances its target) and then,
        if it hears the player's centre, adds `35*dt` noise capped at 100. */
    method HearGuards(dt: real, senses: seq<Sense>)
      requires GuardsOk() && MetersOk() && 0.0 <= dt && |senses| == |guards|
      modifies this`guards, this`noise
      ensures GuardsOk() && MetersOk()
      ensures |guards| == |old(guards)|
      ensures forall i :: 0 <= i < |guards| ==> guards[i] == GuardStep(old(guards)[i], senses[i], dt)
      ensures old(noise) <= noise
      ensures noise == BumpTimes(old(noise), Hearing(guards, senses, CenterX(), CenterY(), |guards|), dt * CONE_RATE)
    {
      var px, py := CenterX(), CenterY();
      var amount := dt * CONE_RATE;
      ghost var gs0 := guards;
      var i := 0;
      while i < |guards|
        invariant 0 <= i <= |guards| == |gs0|
        invariant GuardsOk()
        invariant forall j :: 0 <= j < i ==> guards[j] == GuardStep(gs0[j], senses[j], dt)
        invariant forall j :: i <= j < |guards| ==> guards[j] == gs0[j]
        invariant old(noise) <= noise <= FULL
        invariant noise == BumpTimes(old(noise), Hearing(guards, senses, px, py, i), amount)
      {
        ghost var before := guards;
        WatchGuard(i, senses[i], dt, px, py, amount);
        HearingPrefix(guards, before, senses, px, py, i);
        i := i + 1;
      }
    }

    /** The pickups at the tile under the player's centre: a shot there is
        taken, a battery there is taken and recharges 25% (capped at 100). */
    method Pickup()
      requires PickupsOk() && MetersOk()
      modifies this`shots, this`batteries, this`battery
      ensures PickupsOk() && MetersOk()
      ensures shots == old(shots) - {Center()}
      ensures batteries == old(batteries) - {Center()}
      ensures battery == if Center() in old(batteries) then Recharge(old(battery)) else old(battery)
    {
      var c := Center();
      if c in shots {
        shots := shots - {c};
      }
      if c in batteries {
        batteries := batteries - {c};
        battery := Min(FULL, battery + RECHARGE);
      }
    }

    /** The pickups, then the end test `done || drained || tooNoisy`. */
    method Collect()
      requires Valid()
      modifies this`shots, this`batteries, this`battery, this`finished
      ensures Valid() && Settled()
      ensures shots == old(shots) - {Center()} && batteries == old(batteries) - {Center()}
      ensures battery == if Center() in old(batteries) then Recharge(old(battery)) else old(battery)
      ensures finished == Over(|shots|, battery, noise)
    {
      Pickup();
      finished := |shots| == 0 || battery <= 0.0 || noise >= FULL;
    }

    /** Camera follow: move 12% of the way to the clamped target. */
    method FollowCamera(viewW: real, viewH: real)
      requires Valid()
      modifies this`camX, this`camY
      ensures Valid()
      ensures camX == CameraFollow(old(camX), CameraTarget(posX, SZ, viewW, WorldW(L)))
      ensures camY == CameraFollow(old(camY), CameraTarget(posY, SZ, viewH, WorldH(L)))
    {
      var targetX := CameraTarget(posX, SZ, viewW, WorldW(L));
      var targetY := CameraTarget(posY, SZ, viewH, WorldH(L));
      camX := camX + (targetX - camX) * CAMERA_LERP;
      camY := camY + (targetY - camY) * CAMERA_LERP;
    }

    /** Steering, the move and the battery leak. Their effect is what
        `Steer`, `Move` and `DrainBattery` state; here only the invariant is
        carried forward. */
    method Advance(dt: real, c: Intent)
      requires Valid() && 0.0 <= dt
      modifies this`velX, this`velY, this`facing, this`stamina, this`battery, this`posX, this`posY
      ensures Valid()
    {
      Steer(dt, c);
      Move(dt);
      DrainBattery(dt);
    }

    /** The zone loop and the guard loop: noise only rises. */
    method Listen(dt: real, senses: seq<Sense>)
      requires Valid() && 0.0 <= dt && |senses| == |guards|
      modifies this`guards, this`noise
      ensures Valid()
      ensures |guards| == |old(guards)|
      ensures forall i :: 0 <= i < |guards| ==> guards[i] == GuardStep(old(guards)[i], senses[i], dt)
      ensures old(noise) <= noise
      // one capped increment per zone holding the cart's centre, then one per guard hearing it
      ensures noise == BumpTimes(BumpTimes(old(noise), ZonesHolding(CenterX(), CenterY(), L.noiseZones), dt * ZONE_RATE),
                                 Hearing(guards, senses, CenterX(), CenterY(), |guards|), dt * CONE_RATE)
    {
      HearZones(dt);
      HearGuards(dt, senses);
    }

    /** `update(dt)`: `senses` holds one entry per guard, `viewW` and `viewH`
        the visible area (canvas size over zoom). A negative `dt` would push
        the battery above 100, so the frame clock is taken to be monotone. */
    method Update(dt: real, stick: Stick, senses: seq<Sense>, viewW: real, viewH: real)
      requires Valid() && 0.0 <= dt && |senses| == |guards|
      modifies this`velX, this`velY, this`facing, this`stamina, this`battery, this`posX, this`posY
      modifies this`guards, this`noise, this`shots, this`batteries, this`finished, this`camX, this`camY
      ensures Valid() && Settled()
      ensures finished == Over(|shots|, battery, noise)
      // shots and batteries are each taken at most once
      ensures shots <= old(shots) && batteries <= old(batteries)
      ensures old(noise) <= noise
      ensures |guards| == |old(guards)|
      ensures forall i :: 0 <= i < |guards| ==> guards[i] == GuardStep(old(guards)[i], senses[i], dt)
    {
      var c := ReadIntent(keys, stick);
      Advance(dt, c);
      Listen(dt, senses);
      Collect();
      FollowCamera(viewW, viewH);
    }

    /** One animation frame: derive the capped `dt`, then update unless the
        run is over. Once finished, nothing but the clock changes again. */
    method Step(now: real, stick: Stick, senses: seq<Sense>, viewW: real, viewH: real)
      requires Valid() && Settled() && last <= now && |senses| == |guards|
      modifies this
      ensures Valid() && Settled()
      ensures last == now
      ensures old(finished) ==> State() == old(State())
      ensures old(finished) ==> finished
      ensures !old(finished) ==> finished == Over(|shots|, battery, noise)
      ensures keys == old(keys) && zoom == old(zoom)
      // a running frame keeps every promise of `Update`
      ensures shots <= old(shots) && batteries <= old(batteries)
      ensures old(noise) <= noise
      ensures |guards| == |old(guards)|
      ensures !old(finished) ==>
                forall i :: 0 <= i < |guards| ==> guards[i] == GuardStep(old(guards)[i], senses[i], FrameDt(now, old(last)))
    {
      var dt := FrameDt(now, last);
      last := now;
      if !finished {
        Update(dt, stick, senses, viewW, viewH);
      }
    }

    /** The banner of a finished run: whether the shift was wrapped and its
        score. A failed run ended through the battery or the noise. */
    method Outcome() returns (ok: bool, score: int)
      requires Valid() && Settled() && finished
      ensures ok <==> Success(|shots|, battery, noise)
      ensures !ok ==> battery <= 0.0 || noise >= FULL
      ensures score == Score(|L.shots|, |shots|, battery, noise)
      ensures 0 <= |L.shots| - |shots| <= |L.shots|
      ensures ok ==> score >= |L.shots| * 100 - 100
    {
      ok := |shots| == 0 && battery > 0.0 && noise < FULL;
      OutcomeSplit(|shots|, battery, noise);
      assert |shots| <= |levelShots| by {
        SubsetCard(shots, levelShots);
      }
      score := Score(|L.shots|, |shots|, battery, noise);
    }
  }

  /** A subset is no larger than its superset. */
  lemma SubsetCard(a: set<Cell>, b: set<Cell>)
    requires a <= b
    ensures |a| <= |b|
  {
    if a != {} {
      var x :| x in a;
      SubsetCard(a - {x}, b - {x});
    }
  }

  /** What the constructor needs from a well-formed level: the spawn box starts inside
      the world and every guard's start copy is consistent with it. */
  lemma StartReady(L: Level)
    requires WellFormed(L)
    ensures 0.0 <= PixelOf(L.spawn.x) <= WorldW(L) - SZ
    ensures 0.0 <= PixelOf(L.spawn.y) <= WorldH(L) - SZ
    ensures |StartGuards(L.guards)| == |L.guards|
    ensures forall i :: 0 <= i < |L.guards| ==> Session.Follows(L.guards[i], StartGuards(L.guards)[i])
  {
    SpawnInWorld(L);
  }

  /** The spawn tile's corner lies inside `[0, world - sz]` on both axes. */
  lemma SpawnInWorld(L: Level)
    requires WellFormed(L)
    ensures 0.0 <= PixelOf(L.spawn.x) <= WorldW(L) - SZ
    ensures 0.0 <= PixelOf(L.spawn.y) <= WorldH(L) - SZ
  {
    assert L.spawn.x * TILE <= (L.w - 1) * TILE;
    assert L.spawn.y * TILE <= (L.h - 1) * TILE;
  }
}
