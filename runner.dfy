/**
  Runner Pro: one platformer session over a `RunnerLevel.Level`. The pure
  functions give the meaning of each piece of a frame (axis-separated move
  and collide, enemy patrol, the invulnerability-gated hit); the `Session`
  class holds the state the game component keeps in closure variables and
  mutable objects, and its methods update it in place, in the order the
  `update` closure does.
 */
module Runner {
  import opened Engine
  import opened RunnerLevel

  const SZ: real := 40.0               // player.sz
  const SPEED: real := 2000.0          // player.speed
  const FRICTION: real := 0.86         // player.friction
  const JUMP: real := 760.0            // player.jump
  const GRAVITY: real := 1800.0
  const DASH_IMPULSE: real := 800.0
  const DASH_COOLDOWN: real := 0.35
  const SKIN: real := 0.01             // gap left between a snapped box and the wall
  const ENEMY_SIZE: real := 44.0
  const ENEMY_SPEED: real := 120.0
  const INVULN_MS: real := 600.0
  const MAX_HP: int := 3
  const ZOOM_MIN: real := 0.6
  const ZOOM_MAX: real := 2.0

  function WorldW(L: Level): real { PixelOf(L.w) }
  function WorldH(L: Level): real { PixelOf(L.h) }

  /** The virtual joystick as the frame reads it. */
  datatype Stick = Stick(dx: real, dy: real, active: bool)

  predicate Solid(L: Level, px: real, py: real)
    requires GridShaped(L)
  {
    SolidAt(L.w, L.h, L.solids, px, py)
  }

  /** Outcome of resolving one axis: new position, new velocity, and whether
      the leading edge ran into a solid tile. */
  datatype AxisMove = AxisMove(pos: real, vel: real, blocked: bool)

  /** The horizontal half of `moveAndCollide`: move by `vx*dt`, sample the
      leading edge at the box's top and bottom rows, snap back to the tile
      boundary and stop when either sample is solid, then clamp to the world. */
  function MoveX(L: Level, x: real, y: real, vx: real, dt: real): (r: AxisMove)
    requires GridShaped(L)
    ensures 0.0 <= r.pos <= WorldW(L) - SZ
    ensures r.blocked <==>
              (vx > 0.0 && (Solid(L, x + vx * dt + SZ, y) || Solid(L, x + vx * dt + SZ, y + SZ - 1.0))) ||
              (vx < 0.0 && (Solid(L, x + vx * dt, y) || Solid(L, x + vx * dt, y + SZ - 1.0)))
    ensures r.blocked ==> r.vel == 0.0
    ensures !r.blocked ==> r.vel == vx && r.pos == Clamp(x + vx * dt, 0.0, WorldW(L) - SZ)
    ensures r.blocked && vx > 0.0 ==> r.pos <= Max(0.0, x + vx * dt)
    ensures r.blocked && vx < 0.0 ==> r.pos >= Min(WorldW(L) - SZ, x + vx * dt)
    // a blocked move snaps the leading edge back to the boundary of the tile it ran into
    ensures r.blocked && vx > 0.0 ==>
              r.pos == Clamp(PixelOf(TileOf(x + vx * dt + SZ)) - SZ - SKIN, 0.0, WorldW(L) - SZ)
    ensures r.blocked && vx < 0.0 ==>
              r.pos == Clamp(PixelOf(TileOf(x + vx * dt) + 1) + SKIN, 0.0, WorldW(L) - SZ)
  {
    var nx := x + vx * dt;
    var yTop, yBottom := y, y + SZ - 1.0;
    if vx > 0.0 && (Solid(L, nx + SZ, yTop) || Solid(L, nx + SZ, yBottom)) then
      var snapped := ((nx + SZ) / TILE_R).Floor as real * TILE_R - SZ - SKIN;
      AxisMove(Clamp(snapped, 0.0, WorldW(L) - SZ), 0.0, true)
    else if vx < 0.0 && (Solid(L, nx, yTop) || Solid(L, nx, yBottom)) then
      var snapped := (nx / TILE_R + 1.0).Floor as real * TILE_R + SKIN;
      AxisMove(Clamp(snapped, 0.0, WorldW(L) - SZ), 0.0, true)
    else
      AxisMove(Clamp(nx, 0.0, WorldW(L) - SZ), vx, false)
  }

  /** Outcome of the vertical half, which also decides `onGround`. */
  datatype VerticalMove = VerticalMove(pos: real, vel: real, blocked: bool, onGround: bool)

  /** The vertical half of `moveAndCollide`, sampled at the box's left and
      right columns (`x` is the position the horizontal half produced). */
  function MoveY(L: Level, x: real, y: real, vy: real, dt: real, onGround: bool): (r: VerticalMove)
    requires GridShaped(L)
    ensures 0.0 <= r.pos <= WorldH(L) - SZ
    ensures r.blocked <==>
              (vy > 0.0 && (Solid(L, x, y + vy * dt + SZ) || Solid(L, x + SZ - 1.0, y + vy * dt + SZ))) ||
              (vy < 0.0 && (Solid(L, x, y + vy * dt) || Solid(L, x + SZ - 1.0, y + vy * dt)))
    ensures r.blocked ==> r.vel == 0.0
    ensures !r.blocked ==> r.vel == vy && r.pos == Clamp(y + vy * dt, 0.0, WorldH(L) - SZ)
    ensures r.blocked && vy > 0.0 ==> r.pos <= Max(0.0, y + vy * dt)
    ensures r.blocked && vy < 0.0 ==> r.pos >= Min(WorldH(L) - SZ, y + vy * dt)
    ensures r.blocked && vy > 0.0 ==>
              r.pos == Clamp(PixelOf(TileOf(y + vy * dt + SZ)) - SZ - SKIN, 0.0, WorldH(L) - SZ)
    ensures r.blocked && vy < 0.0 ==>
              r.pos == Clamp(PixelOf(TileOf(y + vy * dt) + 1) + SKIN, 0.0, WorldH(L) - SZ)
    // grounded exactly when a downward move is stopped; rising or resting leaves the flag alone
    ensures vy > 0.0 ==> r.onGround == r.blocked
    ensures vy <= 0.0 ==> r.onGround == onGround
  {
    var ny := y + vy * dt;
    var xLeft, xRight := x, x + SZ - 1.0;
    if vy > 0.0 then
      if Solid(L, xLeft, ny + SZ) || Solid(L, xRight, ny + SZ) then
        var snapped := ((ny + SZ) / TILE_R).Floor as real * TILE_R - SZ - SKIN;
        VerticalMove(Clamp(snapped, 0.0, WorldH(L) - SZ), 0.0, true, true)
      else
        VerticalMove(Clamp(ny, 0.0, WorldH(L) - SZ), vy, false, false)
    else if vy < 0.0 && (Solid(L, xLeft, ny) || Solid(L, xRight, ny)) then
      var snapped := (ny / TILE_R + 1.0).Floor as real * TILE_R + SKIN;
      VerticalMove(Clamp(snapped, 0.0, WorldH(L) - SZ), 0.0, true, onGround)
    else
      VerticalMove(Clamp(ny, 0.0, WorldH(L) - SZ), vy, false, onGround)
  }

  /** `aabb`: strict overlap of two axis-aligned boxes. */
  predicate Overlap(x: real, y: real, w: real, h: real, x2: real, y2: real, w2: real, h2: real) {
    x < x2 + w2 && x + w > x2 && y < y2 + h2 && y + h > y2
  }

  /** Two boxes of positive size overlap exactly when some point lies strictly inside both. */
  lemma {:induction false} OverlapIffCommonPoint(x: real, y: real, w: real, h: real,
                                                 x2: real, y2: real, w2: real, h2: real)
    requires 0.0 < w && 0.0 < h && 0.0 < w2 && 0.0 < h2
    ensures Overlap(x, y, w, h, x2, y2, w2, h2) <==>
              exists px: real, py: real {:trigger Inside(px, py, x, y, w, h)} ::
                Inside(px, py, x, y, w, h) && Inside(px, py, x2, y2, w2, h2)
  {
    if Overlap(x, y, w, h, x2, y2, w2, h2) {
      var px := (Max(x, x2) + Min(x + w, x2 + w2)) / 2.0;
      var py := (Max(y, y2) + Min(y + h, y2 + h2)) / 2.0;
      assert Inside(px, py, x, y, w, h) && Inside(px, py, x2, y2, w2, h2);
    }
  }

  /** A point strictly inside a box. */
  predicate Inside(px: real, py: real, x: real, y: real, w: real, h: real) {
    x < px < x + w && y < py < y + h
  }

  /** A patrolling enemy; `left`/`right` are pixel bounds, `dir` is 1 or -1. */
  datatype Enemy = Enemy(x: real, y: real, dir: int, left: real, right: real, speed: real, alive: bool)

  /** One frame of a patrol: a live enemy walks `dir*speed*dt`; passing the
      left bound pins it there facing right, passing the right bound pins it
      there facing left. A dead enemy does not move. */
  function Patrol(e: Enemy, dt: real): (r: Enemy)
    ensures r.(x := e.x, dir := e.dir) == e
    ensures !e.alive ==> r == e
    ensures e.alive && (e.dir == 1 || e.dir == -1) ==> r.dir == 1 || r.dir == -1
    ensures e.alive && e.left <= e.right ==>
              var nx := e.x + e.dir as real * e.speed * dt;
              && e.left <= r.x <= e.right
              && (nx < e.left ==> r.x == e.left && r.dir == 1)
              && (nx > e.right ==> r.x == e.right && r.dir == -1)
              && (e.left <= nx <= e.right ==> r.x == nx && r.dir == e.dir)
  {
    if !e.alive then e
    else
      var x := e.x + e.dir as real * e.speed * dt;
      var e1 := if x < e.left then e.(x := e.left, dir := 1) else e.(x := x);
      if e1.x > e1.right then e1.(x := e1.right, dir := -1) else e1
  }

  /** An enemy as the game creates it from its spawn entry: tile values
      scaled to pixels, walking right at 120 px/s, alive. It starts inside
      its patrol bounds when the entry does. */
  function SpawnEnemy(s: EnemySpawn): (e: Enemy)
    ensures e.alive && e.dir == 1 && e.speed == ENEMY_SPEED
    ensures e.x == PixelOf(s.x) && e.y == PixelOf(s.y) && e.left == PixelOf(s.left) && e.right == PixelOf(s.right)
    ensures s.left <= s.x <= s.right ==> e.left <= e.x <= e.right
    ensures e.right - e.left == PixelOf(s.right - s.left)
  {
    Enemy(PixelOf(s.x), PixelOf(s.y), 1, PixelOf(s.left), PixelOf(s.right), ENEMY_SPEED, true)
  }

  /** A freshly spawned enemy satisfies the session invariant for its entry. */
  lemma SpawnEnemyOk(s: EnemySpawn)
    requires s.left <= s.x <= s.right
    ensures Session.EnemyOk(s, SpawnEnemy(s))
  {
  }

  /** Hit points and the time of the last hit taken. */
  datatype Vitals = Vitals(hp: int, invulnSince: real)

  /** Whether a contact at `now` counts: the 600 ms window since the last hit is over. */
  predicate Vulnerable(v: Vitals, now: real) {
    now - v.invulnSince >= INVULN_MS
  }

  /** `damage()` on hit points: inside the window nothing happens; otherwise
      one point is lost, the window restarts at `now`, and reaching zero
      refills to 3 (the respawn). */
  function Hit(v: Vitals, now: real): (r: Vitals)
    ensures !Vulnerable(v, now) ==> r == v
    ensures Vulnerable(v, now) ==> r.invulnSince == now
    ensures Vulnerable(v, now) && v.hp > 1 ==> r.hp == v.hp - 1
    ensures Vulnerable(v, now) && v.hp <= 1 ==> r.hp == MAX_HP
    ensures 1 <= v.hp <= MAX_HP ==> 1 <= r.hp <= MAX_HP
  {
    if now - v.invulnSince < INVULN_MS then v
    else
      var hp := v.hp - 1;
      Vitals(if hp <= 0 then MAX_HP else hp, now)
  }

  /** Whether the hit at `now` empties the hit points and sends the player
      back to the checkpoint. */
  predicate Respawns(v: Vitals, now: real) {
    Vulnerable(v, now) && v.hp - 1 <= 0
  }

  /** How many of a run of contacts (at the given times, in order) cost a hit point. */
  function EffectiveHits(v: Vitals, times: seq<real>): nat
    decreases |times|
  {
    if times == [] then 0
    else (if Vulnerable(v, times[0]) then 1 else 0) + EffectiveHits(Hit(v, times[0]), times[1..])
  }

  /** Contacts that all fall within the window opened by a hit are free. */
  lemma {:induction false} NoHitsInsideWindow(v: Vitals, times: seq<real>)
    requires forall i :: 0 <= i < |times| ==> times[i] < v.invulnSince + INVULN_MS
    ensures EffectiveHits(v, times) == 0
  {
    if times != [] {
      NoHitsInsideWindow(Hit(v, times[0]), times[1..]);
    }
  }

  /** The invulnerability window: however many contacts happen within one
      600 ms span, at most one of them costs a hit point. */
  lemma {:induction false} AtMostOneHitPerWindow(v: Vitals, times: seq<real>, start: real)
    requires forall i :: 0 <= i < |times| ==> start <= times[i] < start + INVULN_MS
    ensures EffectiveHits(v, times) <= 1
  {
    if times != [] {
      if Vulnerable(v, times[0]) {
        NoHitsInsideWindow(Hit(v, times[0]), times[1..]);
      } else {
        AtMostOneHitPerWindow(Hit(v, times[0]), times[1..], start);
      }
    }
  }

  /** A live enemy whose box strictly overlaps the player's box at `(px, py)`. */
  predicate Touches(px: real, py: real, e: Enemy) {
    e.alive && Overlap(px, py, SZ, SZ, e.x, e.y, ENEMY_SIZE, ENEMY_SIZE)
  }

  /** Some enemy touches the player at `(px, py)` after its patrol step. */
  ghost predicate Touched(px: real, py: real, es: seq<Enemy>, dt: real) {
    exists j :: 0 <= j < |es| && Touches(px, py, Patrol(es[j], dt))
  }

  /** One enemy's fate in the enemy loop: it patrols, and if the player is
      swinging (`z`) while it touches the player, it dies. */
  function Resolve(e: Enemy, dt: real, px: real, py: real, hit: bool): (r: Enemy)
    ensures r.(alive := e.alive) == Patrol(e, dt).(alive := e.alive)
    ensures r.alive <==> e.alive && !(hit && Touches(px, py, Patrol(e, dt)))
  {
    var p := Patrol(e, dt);
    if hit && Touches(px, py, p) then p.(alive := false) else p
  }

  /** Right after a hit is taken (or refused) at `now`, the player is not
      vulnerable at `now`: a second contact in the same instant is free. */
  lemma HitThenSafe(v: Vitals, now: real)
    ensures !Vulnerable(Hit(v, now), now)
    ensures Hit(Hit(v, now), now) == Hit(v, now)
  {
  }

  /** A box of the player's size placed on an open tile lies inside the world. */
  lemma OpenCellInWorld(L: Level, c: Cell)
    requires GridShaped(L) && Open(L, c)
    ensures 0.0 <= PixelOf(c.x) <= WorldW(L) - SZ && 0.0 <= PixelOf(c.y) <= WorldH(L) - SZ
  {
    assert InGrid(L.w, L.h, c.x, c.y);
    assert c.x * TILE <= L.w * TILE - TILE && c.y * TILE <= L.h * TILE - TILE;
  }

  /** The spawn and every checkpoint of a well-formed level are places the
      player can respawn at without leaving the world. */
  lemma RespawnInWorld(L: Level, c: Cell)
    requires WellFormed(L)
    requires c == L.spawn || c in L.checkpoints
    ensures 0.0 <= PixelOf(c.x) <= WorldW(L) - SZ && 0.0 <= PixelOf(c.y) <= WorldH(L) - SZ
  {
    if c != L.spawn {
      var i :| 0 <= i < |L.checkpoints| && L.checkpoints[i] == c;
      assert Open(L, L.checkpoints[i]);
    }
    OpenCellInWorld(L, c);
  }

  /** What one frame reads from the held keys and the stick: the
      horizontal intent, the jump request, the dash and hit buttons. */
  datatype Controls = Controls(ax: real, up: bool, dash: bool, hit: bool)

  /** The keyboard and joystick block of `update`: right (→/D) minus left
      (←/A) plus the stick's x; a jump is ↑/W or the stick pushed up past
      0.6; X dashes and Z hits. An inactive stick reads as centred. */
  function ReadControls(keys: set<string>, stick: Stick): (c: Controls)
    ensures c.ax == (if "arrowright" in keys || "d" in keys then 1.0 else 0.0)
                  - (if "arrowleft" in keys || "a" in keys then 1.0 else 0.0)
                  + (if stick.active then stick.dx else 0.0)
    ensures !stick.active ==> -1.0 <= c.ax <= 1.0
    ensures ("arrowright" in keys || "d" in keys) == ("arrowleft" in keys || "a" in keys) && !stick.active ==> c.ax == 0.0
    ensures c.up <==> "arrowup" in keys || "w" in keys || (stick.active && stick.dy < -0.6)
    ensures c.dash <==> "x" in keys
    ensures c.hit <==> "z" in keys
  {
    var right := "arrowright" in keys || "d" in keys;
    var left := "arrowleft" in keys || "a" in keys;
    var up := "arrowup" in keys || "w" in keys;
    var sx := if stick.active then stick.dx else 0.0;
    var sy := if stick.active then stick.dy else 0.0;
    Controls((if right then 1.0 else 0.0) - (if left then 1.0 else 0.0) + sx, up || sy < -0.6, "x" in keys, "z" in keys)
  }

  /** The player's velocity, ground flag and dash timer. */
  datatype Motion = Motion(velX: real, velY: real, onGround: bool, dash: real)

  /** The player's top-left corner and motion. */
  datatype Body = Body(x: real, y: real, m: Motion)

  /** The motion after the input half of `update` (spelled out at `Session.ApplyInput`). */
  function Input(m: Motion, dt: real, c: Controls): Motion {
    var jumped := c.up && m.onGround;
    var dashed := c.dash && m.dash <= 0.0;
    var timer := if dashed then DASH_COOLDOWN else m.dash;
    Motion((m.velX + c.ax * SPEED * dt) * FRICTION
             + (if dashed then (if c.ax >= 0.0 then DASH_IMPULSE else -DASH_IMPULSE) else 0.0),
           if jumped then -2.0 * JUMP else m.velY + GRAVITY * dt,
           m.onGround && !jumped,
           if timer > 0.0 then timer - dt else timer)
  }

  /** The body after `moveAndCollide`: X first, then Y at the new X. */
  function Move(L: Level, b: Body, dt: real): Body
    requires GridShaped(L)
  {
    var mx := MoveX(L, b.x, b.y, b.m.velX, dt);
    var my := MoveY(L, mx.pos, b.y, b.m.velY, dt, b.m.onGround);
    Body(mx.pos, my.pos, Motion(mx.vel, my.vel, my.onGround, b.m.dash))
  }

  /** The body after the movement half of `update`: input, then move and collide. */
  function Advanced(L: Level, b: Body, c: Controls, dt: real): Body
    requires GridShaped(L)
  {
    Move(L, b.(m := Input(b.m, dt, c)), dt)
  }

  /** One platformer session: the player, the camera, the remaining coins,
      the enemies and the pause and finish flags of the game component. */
  class Session {
    const L: Level
    /** The set of coin tiles the level starts with. */
    ghost const levelCoins: set<Cell>

    var posX: real
    var posY: real
    var velX: real
    var velY: real
    var onGround: bool
    var hp: int
    var coinCount: int          // player.coins
    var dash: real              // dash cooldown timer
    var coins: set<Cell>        // keys of the coins still on the map
    var checkpointX: real
    var checkpointY: real
    ghost var checkpointCell: Cell
    var finished: bool
    var paused: bool
    var invulnSince: real
    var enemies: seq<Enemy>
    var camX: real
    var camY: real
    var zoom: real
    var keys: set<string>       // lower-cased keys currently held
    var last: real              // timestamp of the previous frame

    /** An enemy still carries the data its spawn entry gave it and stays
        within its bounds while alive. */
    static predicate EnemyOk(s: EnemySpawn, e: Enemy) {
      && e.y == PixelOf(s.y) && e.left == PixelOf(s.left) && e.right == PixelOf(s.right)
      && e.speed == ENEMY_SPEED && (e.dir == 1 || e.dir == -1)
      && (e.alive ==> e.left <= e.x <= e.right)
    }

    /** The player's box lies inside the world and hit points are in `[1, 3]`. */
    ghost predicate BodyOk()
      reads this`posX, this`posY, this`hp
    {
      && 0.0 <= posX <= WorldW(L) - SZ && 0.0 <= posY <= WorldH(L) - SZ
      && 1 <= hp <= MAX_HP
    }

    /** Every coin taken is counted once: the coins left are a subset of the
        level's, and the counter plus what is left is the level's total. */
    ghost predicate CoinsOk()
      reads this`coins, this`coinCount
    {
      coins <= levelCoins && coinCount + |coins| == |levelCoins|
    }

    /** The respawn point is the spawn or a listed checkpoint. */
    ghost predicate RespawnOk()
      reads this`checkpointCell, this`checkpointX, this`checkpointY
    {
      && (checkpointCell == L.spawn || checkpointCell in L.checkpoints)
      && checkpointX == PixelOf(checkpointCell.x) && checkpointY == PixelOf(checkpointCell.y)
    }

    /** One enemy per spawn entry, each consistent with its entry. */
    ghost predicate EnemiesOk()
      reads this`enemies
    {
      && |enemies| == |L.enemies|
      && (forall i :: 0 <= i < |enemies| ==> EnemyOk(L.enemies[i], enemies[i]))
    }

    ghost predicate Valid()
      reads this`posX, this`posY, this`hp, this`coins, this`coinCount
      reads this`checkpointCell, this`checkpointX, this`checkpointY, this`enemies
      reads this`zoom, this`camX, this`camY, this`finished
    {
      && WellFormed(L)
      && |levelCoins| == |L.coins|
      && BodyOk()
      && CoinsOk()
      && RespawnOk()
      && EnemiesOk()
      && ZOOM_MIN <= zoom <= ZOOM_MAX
      && 0.0 <= camX && 0.0 <= camY
      && (finished ==> |coins| == 0)
    }

    /** The tile under the player's centre. */
    function Center(): Cell
      reads this`posX, this`posY
    {
      Cell(TileOf(posX + SZ / 2.0), TileOf(posY + SZ / 2.0))
    }

    /** Everything a frame may change, except the frame timestamp. */
    ghost function State(): (real, real, real, real, bool, int, int, real, set<Cell>, (real, real), bool, real, seq<Enemy>, real, real)
      reads this
    {
      (posX, posY, velX, velY, onGround, hp, coinCount, dash, coins, (checkpointX, checkpointY),
       finished, invulnSince, enemies, camX, camY)
    }

    function MotionOf(): Motion
      reads this`velX, this`velY, this`onGround, this`dash
    {
      Motion(velX, velY, onGround, dash)
    }

    function BodyOf(): Body
      reads this`posX, this`posY, this`velX, this`velY, this`onGround, this`dash
    {
      Body(posX, posY, MotionOf())
    }

    constructor (level: Level, now: real)
      requires WellFormed(level)
      ensures Valid()
      ensures L == level
      ensures posX == PixelOf(level.spawn.x) && posY == PixelOf(level.spawn.y)
      ensures velX == 0.0 && velY == 0.0 && !onGround && hp == MAX_HP && coinCount == 0 && dash == 0.0
      ensures coins == levelCoins && forall c :: c in coins <==> c in level.coins
      ensures checkpointX == posX && checkpointY == posY
      ensures !finished && !paused && invulnSince == now && last == now
      ensures |enemies| == |level.enemies|
      ensures forall i :: 0 <= i < |enemies| ==> enemies[i] == SpawnEnemy(level.enemies[i])
      ensures camX == 0.0 && camY == 0.0 && zoom == 1.0 && keys == {}
    {
      var coinSet := KeySet(level.coins);
      L := level;
      posX, posY := PixelOf(level.spawn.x), PixelOf(level.spawn.y);
      velX, velY := 0.0, 0.0;
      onGround := false;
      hp := MAX_HP;
      coinCount := 0;
      dash := 0.0;
      coins, levelCoins := coinSet, coinSet;
      checkpointX, checkpointY := PixelOf(level.spawn.x), PixelOf(level.spawn.y);
      checkpointCell := level.spawn;
      finished, paused := false, false;
      invulnSince := now;
      enemies := seq(|level.enemies|, i requires 0 <= i < |level.enemies| => SpawnEnemy(level.enemies[i]));
      camX, camY := 0.0, 0.0;
      zoom := 1.0;
      keys := {};
      last := now;
      new;
      RespawnInWorld(level, level.spawn);
      assert EnemiesOk() by {
        forall i | 0 <= i < |enemies| ensures EnemyOk(L.enemies[i], enemies[i]) {
          SpawnEnemyOk(L.enemies[i]);
        }
      }
    }

    /** `keydown`: remember the key; `p` toggles the pause. */
    method KeyDown(k: string)
      modifies this`keys, this`paused
      ensures keys == old(keys) + {k}
      ensures paused == (if k == "p" then !old(paused) else old(paused))
    {
      if k == "p" {
        paused := !paused;
      }
      keys := keys + {k};
    }

    /** `keyup`: forget the key. */
    method KeyUp(k: string)
      modifies this`keys
      ensures keys == old(keys) - {k}
    {
      keys := keys - {k};
    }

    /** A wheel tick on the canvas: zoom stays within [0.6, 2]. */
    method Wheel(deltaY: real)
      requires Valid()
      modifies this`zoom
      ensures Valid()
      ensures zoom == ZoomStep(old(zoom), deltaY, ZOOM_MIN, ZOOM_MAX)
    {
      zoom := ZoomStep(zoom, deltaY, ZOOM_MIN, ZOOM_MAX);
    }

    /** The input half of `update`: horizontal acceleration then friction,
        gravity, the jump (only from the ground) and the dash (only when its
        timer has run out, pushing along the intent's sign). */
    method ApplyInput(dt: real, c: Controls)
      modifies this`velX, this`velY, this`onGround, this`dash
      ensures var jumped := c.up && old(onGround);
              var dashed := c.dash && old(dash) <= 0.0;
              var timer := if dashed then DASH_COOLDOWN else old(dash);
              && velX == (old(velX) + c.ax * SPEED * dt) * FRICTION
                         + (if dashed then (if c.ax >= 0.0 then DASH_IMPULSE else -DASH_IMPULSE) else 0.0)
              && velY == (if jumped then -2.0 * JUMP else old(velY) + GRAVITY * dt)
              && onGround == (old(onGround) && !jumped)
              && dash == (if timer > 0.0 then timer - dt else timer)
    ensures MotionOf() == Input(old(MotionOf()), dt, c)
    {
      velX := velX + c.ax * SPEED * dt;
      velX := velX * FRICTION;
      velY := velY + GRAVITY * dt;
      if c.up && onGround {
        velY := 2.0 * -JUMP;
        onGround := false;
      }
      if c.dash && dash <= 0.0 {
        velX := velX + (if c.ax >= 0.0 then 1.0 else -1.0) * DASH_IMPULSE;
        dash := DASH_COOLDOWN;
      }
      if dash > 0.0 {
        dash := dash - dt;
      }
    }

    /** `moveAndCollide`: X first, then Y at the new X. */
    method MoveAndCollide(dt: real)
      requires Valid()
      modifies this`posX, this`posY, this`velX, this`velY, this`onGround
      ensures Valid()
      ensures var mx := MoveX(L, old(posX), old(posY), old(velX), dt);
              var my := MoveY(L, mx.pos, old(posY), old(velY), dt, old(onGround));
              && posX == mx.pos && velX == mx.vel
              && posY == my.pos && velY == my.vel && onGround == my.onGround
    ensures BodyOf() == Move(L, old(BodyOf()), dt)
    {
      var mx := MoveX(L, posX, posY, velX, dt);
      posX, velX := mx.pos, mx.vel;
      var my := MoveY(L, posX, posY, velY, dt, onGround);
      posY, velY, onGround := my.pos, my.vel, my.onGround;
    }

    /** The respawn inside `damage()`: back to the checkpoint at rest with full hit points. */
    method Respawn()
      requires Valid()
      modifies this`hp, this`posX, this`posY, this`velX, this`velY
      ensures Valid()
      ensures posX == checkpointX && posY == checkpointY && velX == 0.0 && velY == 0.0 && hp == MAX_HP
    {
      RespawnInWorld(L, checkpointCell);
      posX := checkpointX;
      posY := checkpointY;
      velX := 0.0;
      velY := 0.0;
      hp := MAX_HP;
    }

    /** `damage()`, with the host clock's reading passed in as `now`. */
    method Damage(now: real)
      requires Valid()
      modifies this`hp, this`invulnSince, this`posX, this`posY, this`velX, this`velY
      ensures Valid()
      ensures Vitals(hp, invulnSince) == Hit(old(Vitals(hp, invulnSince)), now)
      ensures Respawns(old(Vitals(hp, invulnSince)), now) ==>
                posX == checkpointX && posY == checkpointY && velX == 0.0 && velY == 0.0
      ensures !Respawns(old(Vitals(hp, invulnSince)), now) ==>
                posX == old(posX) && posY == old(posY) && velX == old(velX) && velY == old(velY)
    {
      if now - invulnSince < INVULN_MS {
        return;
      }
      if hp - 1 <= 0 {
        Respawn();
      } else {
        hp := hp - 1;
      }
      invulnSince := now;
    }

    /** Coin pickup at tile `c`: a coin still there is removed and counted. */
    method PickCoin(c: Cell)
      requires Valid()
      modifies this`coins, this`coinCount
      ensures Valid()
      ensures coins == old(coins) - {c}
      ensures coinCount == old(coinCount) + (if c in old(coins) then 1 else 0)
    {
      if c in coins {
        coins := coins - {c};
        coinCount := coinCount + 1;
      }
    }

    /** The checkpoint loop: standing on a listed checkpoint makes it the
        respawn point; elsewhere the respawn point is kept. */
    method CaptureCheckpoint(c: Cell)
      requires Valid()
      modifies this`checkpointX, this`checkpointY, this`checkpointCell
      ensures Valid()
      ensures c in L.checkpoints ==> checkpointCell == c
      ensures c !in L.checkpoints ==>
                checkpointCell == old(checkpointCell) && checkpointX == old(checkpointX) && checkpointY == old(checkpointY)
    {
      var i := 0;
      while i < |L.checkpoints|
        invariant 0 <= i <= |L.checkpoints|
        invariant RespawnOk()
        invariant c in L.checkpoints[..i] ==> checkpointCell == c
        invariant c !in L.checkpoints[..i] ==>
                    checkpointCell == old(checkpointCell) && checkpointX == old(checkpointX) && checkpointY == old(checkpointY)
      {
        var cp := L.checkpoints[i];
        if c.x == cp.x && c.y == cp.y {
          checkpointX, checkpointY := PixelOf(cp.x), PixelOf(cp.y);
          checkpointCell := cp;
        }
        assert L.checkpoints[..i + 1] == L.checkpoints[..i] + [cp];
        i := i + 1;
      }
      assert L.checkpoints[..i] == L.checkpoints;
    }

    /** The finish test: standing on the finish tile with no coin left ends the run. */
    method CheckFinish(c: Cell)
      requires Valid()
      modifies this`finished
      ensures Valid()
      ensures finished == (old(finished) || (c == L.finish && |coins| == 0))
    {
      if c.x == L.finish.x && c.y == L.finish.y && |coins| == 0 {
        finished := true;
      }
    }

    /** Coin pickup, checkpoint capture and the finish test at the player's
        centre tile, in that order. */
    method Collect()
      requires Valid()
      modifies this`coins, this`coinCount, this`checkpointX, this`checkpointY, this`checkpointCell, this`finished
      ensures Valid()
      ensures var c := Center();
              && coins == old(coins) - {c}
              && coinCount == old(coinCount) + (if c in old(coins) then 1 else 0)
              && (c in L.checkpoints ==> checkpointCell == c)
              && (c !in L.checkpoints ==>
                    checkpointCell == old(checkpointCell) && checkpointX == old(checkpointX) && checkpointY == old(checkpointY))
              && finished == (old(finished) || (c == L.finish && |coins| == 0))
    {
      var c := Center();
      PickCoin(c);
      CaptureCheckpoint(c);
      CheckFinish(c);
    }

    /** One pass of the enemy loop on enemy `i`: a live enemy patrols; on
        strict overlap with the player, holding `z` kills it and otherwise
        the player takes `damage()`. */
    method MeetEnemy(i: int, dt: real, now: real, hit: bool)
      requires Valid() && 0 <= i < |enemies|
      modifies this`enemies, this`hp, this`invulnSince, this`posX, this`posY, this`velX, this`velY
      ensures Valid()
      ensures enemies == old(enemies)[i := Resolve(old(enemies)[i], dt, old(posX), old(posY), hit)]
      ensures Vitals(hp, invulnSince) ==
                if !hit && Touches(old(posX), old(posY), Patrol(old(enemies)[i], dt))
                then Hit(old(Vitals(hp, invulnSince)), now) else old(Vitals(hp, invulnSince))
      ensures if !hit && Touches(old(posX), old(posY), Patrol(old(enemies)[i], dt)) && Respawns(old(Vitals(hp, invulnSince)), now)
              then posX == checkpointX && posY == checkpointY && velX == 0.0 && velY == 0.0
              else posX == old(posX) && posY == old(posY) && velX == old(velX) && velY == old(velY)
    {
      var e := enemies[i];
      if e.alive {
        e := Patrol(e, dt);
        enemies := enemies[i := e];
        if Overlap(posX, posY, SZ, SZ, e.x, e.y, ENEMY_SIZE, ENEMY_SIZE) {
          if hit {
            enemies := enemies[i := e.(alive := false)];
          } else {
            Damage(now);
          }
        }
      }
    }

    /** The enemy loop. Touches are judged at the player's position before
        the loop: until the first touch nothing moves the player, and once
        one has happened every further `damage()` in the same frame is
        absorbed by the invulnerability window. */
    method UpdateEnemies(dt: real, now: real, hit: bool)
      requires Valid()
      modifies this`enemies, this`hp, this`invulnSince, this`posX, this`posY, this`velX, this`velY
      ensures Valid()
      ensures |enemies| == |old(enemies)|
      ensures forall i :: 0 <= i < |enemies| ==> enemies[i] == Resolve(old(enemies)[i], dt, old(posX), old(posY), hit)
      // a frame costs at most one hit point, however many enemies touch the player
      ensures Vitals(hp, invulnSince) ==
                if !hit && Touched(old(posX), old(posY), old(enemies), dt)
                then Hit(old(Vitals(hp, invulnSince)), now) else old(Vitals(hp, invulnSince))
      ensures Vitals(hp, invulnSince) == old(Vitals(hp, invulnSince)) || Vitals(hp, invulnSince) == Hit(old(Vitals(hp, invulnSince)), now)
      ensures if !hit && Touched(old(posX), old(posY), old(enemies), dt) && Respawns(old(Vitals(hp, invulnSince)), now)
              then posX == checkpointX && posY == checkpointY && velX == 0.0 && velY == 0.0
              else posX == old(posX) && posY == old(posY) && velX == old(velX) && velY == old(velY)
    {
      ghost var touched := false;
      ghost var v0 := Vitals(hp, invulnSince);
      ghost var es0 := enemies;
      HitThenSafe(v0, now);
      var i := 0;
      while i < |enemies|
        invariant 0 <= i <= |enemies| == |es0|
        invariant Valid()
        invariant forall j :: 0 <= j < i ==> enemies[j] == Resolve(es0[j], dt, old(posX), old(posY), hit)
        invariant forall j :: i <= j < |enemies| ==> enemies[j] == es0[j]
        invariant touched == exists j :: 0 <= j < i && Touches(old(posX), old(posY), Patrol(es0[j], dt))
        invariant Vitals(hp, invulnSince) == if touched && !hit then Hit(v0, now) else v0
        invariant if touched && !hit && Respawns(v0, now)
                  then posX == checkpointX && posY == checkpointY && velX == 0.0 && velY == 0.0
                  else posX == old(posX) && posY == old(posY) && velX == old(velX) && velY == old(velY)
      {
        ghost var t := Touches(old(posX), old(posY), Patrol(es0[i], dt));
        MeetEnemy(i, dt, now, hit);
        touched := touched || t;
        i := i + 1;
      }
    }

    /** Camera follow: move 12% of the way to the clamped target. */
    method FollowCamera(viewW: real, viewH: real)
      requires Valid()
      modifies this`camX, this`camY
      ensures Valid()
      ensures camX == CameraFollow(old(camX), CameraTarget(posX, SZ, viewW, WorldW(L)))
      ensures camY == CameraFollow(old(camY), CameraTarget(posY, SZ, viewH, WorldH(L)))
    {
      var targetX := CameraTarget(posX, SZ, viewW, WorldW(L));
      var targetY := CameraTarget(posY, SZ, viewH, WorldH(L));
      camX := camX + (targetX - camX) * CAMERA_LERP;
      camY := camY + (targetY - camY) * CAMERA_LERP;
    }

    /** The movement half of `update`: input, then move and collide. */
    method Advance(dt: real, c: Controls)
      requires Valid()
      modifies this`posX, this`posY, this`velX, this`velY, this`onGround, this`dash
      ensures Valid()
      ensures BodyOf() == Advanced(L, old(BodyOf()), c, dt)
    {
      ApplyInput(dt, c);
      MoveAndCollide(dt);
    }

    /** The rest of `update` after the move: the enemy loop, then the camera. */
    method Threats(dt: real, now: real, hit: bool, viewW: real, viewH: real)
      requires Valid()
      modifies this`enemies, this`hp, this`invulnSince, this`posX, this`posY, this`velX, this`velY, this`camX, this`camY
      ensures Valid()
      ensures |enemies| == |old(enemies)|
      ensures forall i :: 0 <= i < |enemies| ==> enemies[i] == Resolve(old(enemies)[i], dt, old(posX), old(posY), hit)
      ensures Vitals(hp, invulnSince) == old(Vitals(hp, invulnSince)) || Vitals(hp, invulnSince) == Hit(old(Vitals(hp, invulnSince)), now)
      ensures Vitals(hp, invulnSince) ==
                if !hit && Touched(old(posX), old(posY), old(enemies), dt)
                then Hit(old(Vitals(hp, invulnSince)), now) else old(Vitals(hp, invulnSince))
      ensures if !hit && Touched(old(posX), old(posY), old(enemies), dt) && Respawns(old(Vitals(hp, invulnSince)), now)
              then posX == checkpointX && posY == checkpointY && velX == 0.0 && velY == 0.0
              else posX == old(posX) && posY == old(posY) && velX == old(velX) && velY == old(velY)
      ensures camX == CameraFollow(old(camX), CameraTarget(posX, SZ, viewW, WorldW(L)))
      ensures camY == CameraFollow(old(camY), CameraTarget(posY, SZ, viewH, WorldH(L)))
    {
      UpdateEnemies(dt, now, hit);
      FollowCamera(viewW, viewH);
    }

    /** `update(dt)`; `now` is the host clock `damage()` reads and `viewW`,
        `viewH` the visible area (canvas size over zoom). */
    method Update(dt: real, now: real, stick: Stick, viewW: real, viewH: real)
      requires Valid()
      modifies this`posX, this`posY, this`velX, this`velY, this`onGround, this`dash, this`hp, this`invulnSince
      modifies this`coins, this`coinCount, this`checkpointX, this`checkpointY, this`checkpointCell, this`finished
      modifies this`enemies, this`camX, this`camY
      ensures Valid()
      // coins only disappear, and the counter grows by exactly as many as disappeared
      ensures coins <= old(coins) && coinCount - old(coinCount) == |old(coins)| - |coins|
      ensures old(finished) ==> finished
      ensures |enemies| == |old(enemies)|
      ensures forall i :: 0 <= i < |enemies| ==> (enemies[i].alive ==> old(enemies)[i].alive)
      ensures forall i :: 0 <= i < |enemies| ==> (!old(enemies)[i].alive ==> enemies[i] == old(enemies)[i])
      // at most one hit point is lost per frame
      ensures Vitals(hp, invulnSince) == old(Vitals(hp, invulnSince)) || Vitals(hp, invulnSince) == Hit(old(Vitals(hp, invulnSince)), now)
      // the camera follows the player's final position
      ensures camX == CameraFollow(old(camX), CameraTarget(posX, SZ, viewW, WorldW(L)))
      ensures camY == CameraFollow(old(camY), CameraTarget(posY, SZ, viewH, WorldH(L)))
    {
      var c := ReadControls(keys, stick);
      Advance(dt, c);
      Collect();
      Threats(dt, now, c.hit, viewW, viewH);
    }

    /** One animation frame: derive the capped `dt`, then update unless the
        game is paused or finished. */
    method Step(now: real, stick: Stick, viewW: real, viewH: real)
      requires Valid()
      modifies this
      ensures Valid()
      ensures last == now
      ensures old(paused) || old(finished) ==> State() == old(State())
      ensures paused == old(paused) && keys == old(keys) && zoom == old(zoom)
      ensures old(finished) ==> finished
      // a running frame keeps every promise of `Update`
      ensures coins <= old(coins) && coinCount - old(coinCount) == |old(coins)| - |coins|
      ensures |enemies| == |old(enemies)|
      ensures forall i :: 0 <= i < |enemies| ==> (enemies[i].alive ==> old(enemies)[i].alive)
      ensures forall i :: 0 <= i < |enemies| ==> (!old(enemies)[i].alive ==> enemies[i] == old(enemies)[i])
      ensures Vitals(hp, invulnSince) == old(Vitals(hp, invulnSince)) || Vitals(hp, invulnSince) == Hit(old(Vitals(hp, invulnSince)), now)
      ensures !old(paused) && !old(finished) ==> camX == CameraFollow(old(camX), CameraTarget(posX, SZ, viewW, WorldW(L)))
      ensures !old(paused) && !old(finished) ==> camY == CameraFollow(old(camY), CameraTarget(posY, SZ, viewH, WorldH(L)))
    {
      var dt := FrameDt(now, last);
      last := now;
      if !paused && !finished {
        Update(dt, now, stick, viewW, viewH);
      }
    }
  }
}
