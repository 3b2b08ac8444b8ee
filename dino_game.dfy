/**
 * The runner game (`RobotRunner` in src/app/components/games/DinoGame.tsx)
 * without its canvas: one game session whose state the per-frame tick, the
 * keyboard handler and the asset loader update in place.
 *
 * Positions and speeds are `real`: exact rationals standing for JavaScript
 * numbers. The random roll of a tick is a parameter.
 */
module DinoGame {
  import opened Wrappers
  import opened JsMath

  // Difficulty tuning.
  const BASE_SPEED: real := 5.0
  const SPEED_PER_POINT: real := 0.35
  const MAX_SPEED: real := 18.0
  const MIN_SPAWN: int := 28
  const START_SPAWN: int := 90
  const SPAWN_REDUCTION_PER_POINT: real := 1.0

  // Sprite sheets: frames per state and ticks per frame.
  const RUN_FRAMES: nat := 11
  const JUMP_FRAMES: nat := 24
  const IDLE_FRAMES: nat := 21
  const DIED_FRAMES: nat := 11
  const SPRITE_ANIM_SPEED: nat := 6

  // Physics and layout of the 480 x 220 canvas.
  const GRAVITY: real := 0.8
  const JUMP_FORCE: real := -16.0
  const GROUND_Y: real := 190.0
  const CANVAS_WIDTH: real := 480.0
  const PLAYER_X: real := 40.0
  const PLAYER_SIZE: real := 64.0
  const FLYING_Y: real := 110.0
  /** Obstacles are dropped once their right edge is at or beyond this line. */
  const CLEANUP_EDGE: real := -10.0
  /** The score rises once every this many completed ticks. */
  const SCORE_PERIOD: nat := 90

  datatype PlayerState = Idle | Run | Jump | Died

  datatype Player = Player(x: real, y: real, w: real, h: real, dy: real, grounded: bool, state: PlayerState)

  /** The player as a session starts: above the ground line, yet marked grounded. */
  const INITIAL_PLAYER: Player := Player(PLAYER_X, 120.0, PLAYER_SIZE, PLAYER_SIZE, 0.0, true, Idle)

  datatype ObstacleKind = Small | Tall | Flying

  datatype Obstacle = Obstacle(x: real, y: real, w: real, h: real, kind: ObstacleKind)

  datatype Box = Box(x: real, y: real, w: real, h: real)

  datatype Key = Space | ArrowUp | Escape | OtherKey

  /** What a tick draws for the player: nothing, the fallback block, or a frame of a sheet. */
  datatype Frame = NotDrawn | Placeholder(box: Box) | Sprite(sheet: PlayerState, index: nat)

  // ---------------------------------------------------------------------------
  // Difficulty (the effect on `score`)

  /** Scroll speed for a score. */
  function Speed(score: nat): (r: real)
    ensures BASE_SPEED <= r <= MAX_SPEED
    ensures score == 0 ==> r == BASE_SPEED
    ensures r <= BASE_SPEED + score as real * SPEED_PER_POINT
    ensures r < MAX_SPEED ==> r == BASE_SPEED + score as real * SPEED_PER_POINT
  {
    MinR(MAX_SPEED, BASE_SPEED + score as real * SPEED_PER_POINT)
  }

  /** A higher score never scrolls slower. */
  lemma SpeedMonotone(a: nat, b: nat)
    requires a <= b
    ensures Speed(a) <= Speed(b)
  {
  }

  /** The spawn delay the score calls for. */
  function TargetSpawnDelay(score: nat): (r: int)
    ensures r >= MIN_SPAWN
    ensures r == MaxI(MIN_SPAWN, START_SPAWN - score)
  {
    var reduced := START_SPAWN - (score as real * SPAWN_REDUCTION_PER_POINT).Floor;
    RoundOfInt(reduced);
    MaxI(MIN_SPAWN, Round(reduced as real))
  }

  /** A higher score never waits longer between obstacles. */
  lemma TargetSpawnDelayMonotone(a: nat, b: nat)
    requires a <= b
    ensures TargetSpawnDelay(a) >= TargetSpawnDelay(b)
  {
  }

  // ---------------------------------------------------------------------------
  // Physics

  /** Grounded means resting on the ground line, not moving. */
  predicate Settled(p: Player) {
    p.grounded ==> p.y + p.h == GROUND_Y && p.dy == 0.0
  }

  /** One physics step: move by the velocity, accelerate, and land on the ground line. */
  function Fall(p: Player): (r: Player)
    ensures r.x == p.x && r.w == p.w && r.h == p.h
    ensures r.y + r.h <= GROUND_Y
    ensures r.state != p.state ==> p.state == Jump && r.state == Run
    ensures r.grounded != p.grounded ==> r.grounded && r.y + r.h == GROUND_Y && r.dy == 0.0
    ensures p.y + p.dy + p.h < GROUND_Y ==> r == p.(y := p.y + p.dy, dy := p.dy + GRAVITY)
    ensures p.y + p.dy + p.h >= GROUND_Y ==>
      && r.y + r.h == GROUND_Y && r.dy == 0.0 && r.grounded
      && r.state == (if p.state == Jump then Run else p.state)
  {
    var y := p.y + p.dy;
    var dy := p.dy + GRAVITY;
    if y + p.h >= GROUND_Y then
      p.(y := GROUND_Y - p.h, dy := 0.0, grounded := true, state := if p.state == Jump then Run else p.state)
    else
      p.(y := y, dy := dy)
  }

  /** A physics step keeps a settled player settled. */
  lemma FallKeepsSettled(p: Player)
    requires Settled(p)
    ensures Settled(Fall(p))
  {
  }

  /** The starting player is marked grounded but hovers above the ground line. */
  lemma InitialPlayerNotSettled()
    ensures !Settled(INITIAL_PLAYER)
  {
  }

  /** `k` physics steps. */
  function FallN(p: Player, k: nat): Player {
    if k == 0 then p else Fall(FallN(p, k - 1))
  }

  /** Physics alone never turns `idle` into anything else: only a jump leaves it. */
  lemma {:induction false} IdleStaysIdle(p: Player, k: nat)
    requires p.state == Idle
    ensures FallN(p, k).state == Idle
  {
    if k > 0 {
      IdleStaysIdle(p, k - 1);
    }
  }

  /** The starting player drops for four ticks and lands, still `idle`, on the fifth. */
  lemma InitialPlayerLands()
    ensures FallN(INITIAL_PLAYER, 4).y == 124.8 && !Settled(FallN(INITIAL_PLAYER, 4))
    ensures FallN(INITIAL_PLAYER, 5) == Player(PLAYER_X, GROUND_Y - PLAYER_SIZE, PLAYER_SIZE, PLAYER_SIZE, 0.0, true, Idle)
  {
    var p1 := FallN(INITIAL_PLAYER, 1);
    assert p1.y == 120.0 && p1.dy == 0.8;
    var p2 := FallN(INITIAL_PLAYER, 2);
    assert p2.y == 120.8 && p2.dy == 1.6;
    var p3 := FallN(INITIAL_PLAYER, 3);
    assert p3.y == 122.4 && p3.dy == 2.4;
    var p4 := FallN(INITIAL_PLAYER, 4);
    assert p4.y == 124.8 && p4.dy == 3.2;
  }

  /** The player right after a jump key press on the ground. */
  const JUMP_START: Player := Player(PLAYER_X, GROUND_Y - PLAYER_SIZE, PLAYER_SIZE, PLAYER_SIZE, JUMP_FORCE, false, Jump)

  /** Height of the player `t` ticks after a jump: a parabola. */
  function ArcY(t: real): real {
    126.0 - 16.0 * t + 0.4 * t * (t - 1.0)
  }

  /** Vertical velocity `t` ticks after a jump. */
  function ArcDy(t: real): real {
    JUMP_FORCE + GRAVITY * t
  }

  /** One physics step along the arc. */
  lemma ArcStep(s: real)
    ensures ArcY(s) + ArcDy(s) == ArcY(s + 1.0)
    ensures ArcDy(s) + GRAVITY == ArcDy(s + 1.0)
  {
    assert 0.4 * s * (s - 1.0) + 0.8 * s == 0.4 * (s + 1.0) * s;
  }

  /** For forty ticks the arc stays above its starting height. */
  lemma ArcAboveStart(t: real)
    requires 0.0 < t <= 40.0
    ensures ArcY(t) < 126.0
  {
    var b := 0.4 * t - 16.4;
    assert b < 0.0;
    NegativeProduct(t, b);
    assert ArcY(t) - 126.0 == t * b;
  }

  lemma NegativeProduct(a: real, b: real)
    requires a > 0.0 && b < 0.0
    ensures a * b < 0.0
  {
  }

  /** During the first forty ticks after a jump the player is airborne, on the arc. */
  lemma {:induction false} JumpArc(k: nat)
    requires k <= 40
    ensures var p := FallN(JUMP_START, k);
      && p == JUMP_START.(y := ArcY(k as real), dy := ArcDy(k as real))
      && (k > 0 ==> p.y + p.h < GROUND_Y)
  {
    if k > 0 {
      JumpArc(k - 1);
      var q := FallN(JUMP_START, k - 1);
      var s := (k - 1) as real;
      ArcStep(s);
      assert s + 1.0 == k as real;
      ArcAboveStart(k as real);
    }
  }

  /** A jump from the ground lands, back in `run`, on the forty-first tick. */
  lemma JumpLandsAfter41Ticks()
    ensures forall k :: 1 <= k <= 40 ==> !FallN(JUMP_START, k).grounded && FallN(JUMP_START, k).state == Jump
    ensures FallN(JUMP_START, 41) == JUMP_START.(dy := 0.0, grounded := true, state := Run)
  {
    forall k | 1 <= k <= 40
      ensures !FallN(JUMP_START, k).grounded && FallN(JUMP_START, k).state == Jump
    {
      JumpArc(k);
    }
    JumpArc(40);
  }

  // ---------------------------------------------------------------------------
  // Spawning

  /** The obstacle kind a random roll in [0, 1) selects: 70% small, 25% tall, 5% flying. */
  function KindOf(roll: real): (k: ObstacleKind)
    ensures k == Small <==> roll < 0.7
    ensures k == Tall <==> 0.7 <= roll < 0.95
    ensures k == Flying <==> 0.95 <= roll
  {
    if roll < 0.7 then Small else if roll < 0.95 then Tall else Flying
  }

  function SizeOf(kind: ObstacleKind): real {
    match kind
    case Small => 26.0
    case Tall => 42.0
    case Flying => 18.0
  }

  /** Flying obstacles hover at a fixed height; the others stand on the ground line. */
  function TopOf(kind: ObstacleKind): real {
    if kind == Flying then FLYING_Y else GROUND_Y - SizeOf(kind)
  }

  /** Shape and height an obstacle keeps for its whole life. */
  predicate WellFormed(o: Obstacle) {
    o.w == SizeOf(o.kind) && o.h == SizeOf(o.kind) && o.y == TopOf(o.kind)
  }

  predicate AllWellFormed(obs: seq<Obstacle>) {
    forall o :: o in obs ==> WellFormed(o)
  }

  /** The obstacle a spawn adds, just past the right edge of the canvas. */
  function Spawned(roll: real): (o: Obstacle)
    ensures WellFormed(o) && o.kind == KindOf(roll)
    ensures o.x == CANVAS_WIDTH + 10.0 && o.w > 0.0
    ensures o.kind != Flying ==> o.y + o.h == GROUND_Y
    ensures o.kind == Flying ==> o.y + o.h < GROUND_Y
  {
    var kind := KindOf(roll);
    var size := SizeOf(kind);
    Obstacle(CANVAS_WIDTH + 10.0, if kind == Flying then FLYING_Y else GROUND_Y - size, size, size, kind)
  }

  /** Faster scrolling shortens the next spawn delay, by at most 40%. */
  function SpeedFactor(speed: real): (f: real)
    ensures f >= 0.6
    ensures BASE_SPEED <= speed ==> f <= 1.0
    ensures speed == BASE_SPEED ==> f == 1.0
  {
    MaxR(0.6, 1.0 - (speed - BASE_SPEED) / (MAX_SPEED - BASE_SPEED))
  }

  /** The countdown set after a spawn. */
  function NextSpawnTimer(score: nat, speed: real): (r: int)
    ensures r >= MIN_SPAWN
    ensures BASE_SPEED <= speed ==> r <= TargetSpawnDelay(score)
  {
    var reduced := START_SPAWN - (score as real * SPAWN_REDUCTION_PER_POINT).Floor;
    var baseNext := MaxI(25, Round(reduced as real));
    var f := SpeedFactor(speed);
    if BASE_SPEED <= speed then
      RoundOfInt(reduced);
      RoundScaledDown(baseNext, f);
      MaxI(MIN_SPAWN, Round(baseNext as real * f))
    else
      MaxI(MIN_SPAWN, Round(baseNext as real * f))
  }

  // ---------------------------------------------------------------------------
  // Movement, collision and cleanup

  function PlayerBox(p: Player): Box { Box(p.x, p.y, p.w, p.h) }

  function ObstacleBox(o: Obstacle): Box { Box(o.x, o.y, o.w, o.h) }

  /** A point strictly inside a box. */
  predicate Inside(b: Box, px: real, py: real) {
    b.x < px < b.x + b.w && b.y < py < b.y + b.h
  }

  /**
   * Strict axis-aligned overlap: boxes that only touch do not collide. For
   * boxes of positive size it means that some point lies inside both.
   */
  predicate Overlap(a: Box, b: Box)
    ensures a.w > 0.0 && a.h > 0.0 && b.w > 0.0 && b.h > 0.0 ==>
      (Overlap(a, b) <==> exists px, py :: Inside(a, px, py) && Inside(b, px, py))
  {
    if a.x < b.x + b.w && a.x + a.w > b.x && a.y < b.y + b.h && a.y + a.h > b.y then
      // the centre of the intersection lies inside both boxes
      var px := (MaxR(a.x, b.x) + MinR(a.x + a.w, b.x + b.w)) / 2.0;
      var py := (MaxR(a.y, b.y) + MinR(a.y + a.h, b.y + b.h)) / 2.0;
      assert a.w > 0.0 && a.h > 0.0 && b.w > 0.0 && b.h > 0.0 ==> Inside(a, px, py) && Inside(b, px, py);
      true
    else
      false
  }

  /** Overlap does not depend on which box is the player's. */
  lemma OverlapSymmetric(a: Box, b: Box)
    ensures Overlap(a, b) <==> Overlap(b, a)
  {
  }

  /** Boxes that share only an edge do not collide. */
  lemma TouchingIsNoOverlap(a: Box, b: Box)
    requires a.x + a.w == b.x || b.x + b.w == a.x || a.y + a.h == b.y || b.y + b.h == a.y
    ensures !Overlap(a, b)
  {
  }

  /** An obstacle after one tick of scrolling. */
  function Moved(o: Obstacle, speed: real): Obstacle {
    o.(x := o.x - speed)
  }

  /** Every obstacle of the sequence scrolled once. */
  function Shifted(obs: seq<Obstacle>, speed: real): (r: seq<Obstacle>)
    ensures |r| == |obs|
    ensures forall i :: 0 <= i < |obs| ==> r[i] == Moved(obs[i], speed)
  {
    seq(|obs|, i requires 0 <= i < |obs| => Moved(obs[i], speed))
  }

  predicate HitBy(p: Player, o: Obstacle, speed: real) {
    Overlap(PlayerBox(p), ObstacleBox(Moved(o, speed)))
  }

  /** Index of the first obstacle from `from` on that, once moved, overlaps the player. */
  function FirstHit(p: Player, obs: seq<Obstacle>, speed: real, from: nat): (r: Option<nat>)
    requires from <= |obs|
    ensures r.Some? ==> from <= r.value < |obs| && HitBy(p, obs[r.value], speed)
    ensures r.Some? ==> forall j :: from <= j < r.value ==> !HitBy(p, obs[j], speed)
    ensures r.None? ==> forall j :: from <= j < |obs| ==> !HitBy(p, obs[j], speed)
    decreases |obs| - from
  {
    if from == |obs| then None
    else if HitBy(p, obs[from], speed) then Some(from)
    else FirstHit(p, obs, speed, from + 1)
  }

  /** The obstacles after the scroll loop: all moved, or moved up to and including the first hit. */
  function Scrolled(obs: seq<Obstacle>, speed: real, hit: Option<nat>): (r: seq<Obstacle>)
    requires hit.Some? ==> hit.value < |obs|
    ensures |r| == |obs|
    ensures forall i :: 0 <= i < |obs| ==>
      r[i] == if hit.None? || i <= hit.value then Moved(obs[i], speed) else obs[i]
  {
    match hit
    case None => Shifted(obs, speed)
    case Some(k) => Shifted(obs[..k + 1], speed) + obs[k + 1..]
  }

  /**
   * The scroll loop: moves each obstacle in turn and stops at the first one
   * that, once moved, overlaps the player.
   */
  method Scroll(p: Player, obs: seq<Obstacle>, speed: real) returns (moved: seq<Obstacle>, hit: Option<nat>)
    ensures hit == FirstHit(p, obs, speed, 0)
    ensures hit.Some? ==> hit.value < |obs|
    ensures moved == Scrolled(obs, speed, hit)
  {
    moved := obs;
    var i := 0;
    while i < |obs|
      invariant 0 <= i <= |obs| && |moved| == |obs|
      invariant forall j :: 0 <= j < i ==> moved[j] == Moved(obs[j], speed)
      invariant forall j :: i <= j < |obs| ==> moved[j] == obs[j]
      invariant FirstHit(p, obs, speed, 0) == FirstHit(p, obs, speed, i)
    {
      var ob := moved[i];
      ob := ob.(x := ob.x - speed);
      moved := moved[i := ob];
      if Overlap(PlayerBox(p), ObstacleBox(ob)) {
        hit := Some(i);
        return;
      }
      i := i + 1;
    }
    hit := None;
  }

  /** Scrolling changes only horizontal positions, so obstacles keep their shape. */
  lemma ScrolledWellFormed(obs: seq<Obstacle>, speed: real, hit: Option<nat>)
    requires hit.Some? ==> hit.value < |obs|
    requires AllWellFormed(obs)
    ensures AllWellFormed(Scrolled(obs, speed, hit))
  {
    var r := Scrolled(obs, speed, hit);
    forall o | o in r ensures WellFormed(o) {
      var i :| 0 <= i < |r| && r[i] == o;
      assert obs[i] in obs;
    }
  }

  /** Whether an obstacle survives the cleanup filter. */
  predicate OnScreen(o: Obstacle) {
    o.x + o.w > CLEANUP_EDGE
  }

  /** The cleanup filter: obstacles still on screen, in their order. */
  function Kept(obs: seq<Obstacle>): (r: seq<Obstacle>)
    ensures |r| <= |obs|
    ensures forall o :: o in r <==> o in obs && OnScreen(o)
    ensures multiset(r) <= multiset(obs)
  {
    if obs == [] then []
    else
      var rest := Kept(obs[1..]);
      assert obs == [obs[0]] + obs[1..];
      (if OnScreen(obs[0]) then [obs[0]] else []) + rest
  }

  /** The filter works piecewise, so it keeps the relative order of what it keeps. */
  lemma {:induction false} KeptAppend(a: seq<Obstacle>, b: seq<Obstacle>)
    ensures Kept(a + b) == Kept(a) + Kept(b)
  {
    if a != [] {
      KeptAppend(a[1..], b);
      assert (a + b)[1..] == a[1..] + b;
    } else {
      assert a + b == b;
    }
  }

  /** A single obstacle is kept exactly when it is on screen. */
  lemma KeptSingle(o: Obstacle)
    ensures Kept([o]) == if OnScreen(o) then [o] else []
  {
  }

  /** Filtering twice is filtering once. */
  lemma {:induction false} KeptIdempotent(obs: seq<Obstacle>)
    ensures Kept(Kept(obs)) == Kept(obs)
  {
    if obs != [] {
      KeptIdempotent(obs[1..]);
      var head := if OnScreen(obs[0]) then [obs[0]] else [];
      KeptAppend(head, Kept(obs[1..]));
    }
  }

  // ---------------------------------------------------------------------------
  // Animation

  function FramesOf(s: PlayerState): (n: nat)
    ensures 0 < n <= JUMP_FRAMES
  {
    match s
    case Died => DIED_FRAMES
    case Jump => JUMP_FRAMES
    case Run => RUN_FRAMES
    case Idle => IDLE_FRAMES
  }

  /** The animation counter after one drawn frame of a sheet with `frames` frames. */
  function NextAnimCounter(counter: nat, frames: nat): (r: nat)
    requires frames > 0
    ensures r < SPRITE_ANIM_SPEED * frames
    ensures counter + 1 < SPRITE_ANIM_SPEED * frames ==> r == counter + 1
  {
    var period := SPRITE_ANIM_SPEED * frames;
    if counter + 1 < period then ModOfSmall(counter + 1, period); (counter + 1) % period
    else (counter + 1) % period
  }

  /** The sheet frame shown for a counter value. */
  function FrameIndex(counter: nat, frames: nat): (r: nat)
    requires frames > 0
    ensures r < frames
    ensures counter < SPRITE_ANIM_SPEED * frames ==> r == counter / SPRITE_ANIM_SPEED
  {
    var q := counter / SPRITE_ANIM_SPEED;
    if q < frames then ModOfSmall(q, frames); q % frames else q % frames
  }

  /** One more tick raises the tick count's quotient by the period exactly when it completes a period. */
  lemma ScoreStep(t: nat)
    ensures (t + 1) / SCORE_PERIOD == t / SCORE_PERIOD + (if (t + 1) % SCORE_PERIOD == 0 then 1 else 0)
  {
    var q, r := t / SCORE_PERIOD, t % SCORE_PERIOD;
    assert t == SCORE_PERIOD * q + r && 0 <= r < SCORE_PERIOD;
    if r + 1 == SCORE_PERIOD {
      assert t + 1 == SCORE_PERIOD * (q + 1);
    } else {
      assert t + 1 == SCORE_PERIOD * q + (r + 1);
    }
  }

  // ---------------------------------------------------------------------------
  // The phases of a tick, as values

  /** The obstacles once the spawn phase has run: one more when the countdown runs out. */
  function AfterSpawn(obs: seq<Obstacle>, timer: int, roll: real): seq<Obstacle> {
    if timer - 1 <= 0 then obs + [Spawned(roll)] else obs
  }

  /** The countdown once the spawn phase has run: decremented, or reset after a spawn. */
  function TimerAfterSpawn(timer: int, score: nat, speed: real): int {
    if timer - 1 <= 0 then NextSpawnTimer(score, speed) else timer - 1
  }

  /** The shared animation counter once the player has been drawn in `state`. */
  function CounterAfterDraw(counter: nat, state: PlayerState, loaded: set<PlayerState>): nat {
    if state in loaded then NextAnimCounter(counter, FramesOf(state)) else counter
  }

  // ---------------------------------------------------------------------------
  // The session

  class Session {
    var player: Player
    var obstacles: seq<Obstacle>
    var speed: real
    var spawnTimer: int
    var frameTick: nat
    var score: nat
    var running: bool
    /** The animation counter shared by every sheet; it lives as long as one run of the main-loop effect. */
    var animCounter: nat
    /** The sprite sheets that have loaded, by the state they animate. */
    var loaded: set<PlayerState>
    /** Scores passed to `onGameOver`, oldest first. */
    var gameOverReports: seq<nat>
    /** How many times `onClose` was called. */
    var closeRequests: nat

    ghost predicate Valid()
      reads this
    {
      && player.x == PLAYER_X && player.w == PLAYER_SIZE && player.h == PLAYER_SIZE
      && player.y + player.h <= GROUND_Y
      && speed == Speed(score)
      && 0 <= spawnTimer <= TargetSpawnDelay(score)
      && animCounter < SPRITE_ANIM_SPEED * JUMP_FRAMES
      && score == frameTick / SCORE_PERIOD
      && AllWellFormed(obstacles)
      && |gameOverReports| <= 1
      && (gameOverReports != [] ==> !running)
    }

    /** A fresh session, after the difficulty effect has run once for score 0. */
    constructor ()
      ensures Valid()
      ensures player == INITIAL_PLAYER && obstacles == []
      ensures speed == BASE_SPEED && spawnTimer == 0 && frameTick == 0 && score == 0
      ensures running && animCounter == 0 && loaded == {}
      ensures gameOverReports == [] && closeRequests == 0
    {
      player := INITIAL_PLAYER;
      obstacles := [];
      speed := 5.0;
      spawnTimer := 0;
      frameTick := 0;
      score := 0;
      running := true;
      animCounter := 0;
      loaded := {};
      gameOverReports := [];
      closeRequests := 0;
      new;
      ApplyDifficulty();
    }

    /** A sprite sheet finished loading. */
    method SheetLoaded(sheet: PlayerState)
      modifies this`loaded
      ensures loaded == old(loaded) + {sheet}
    {
      loaded := loaded + {sheet};
    }

    /** A sprite sheet failed to load: the player is drawn as a block instead. */
    method SheetFailed(sheet: PlayerState)
      modifies this`loaded
      ensures loaded == old(loaded) - {sheet}
    {
      loaded := loaded - {sheet};
    }

    /** The effect on `score`: set the speed, and shorten (never lengthen) the countdown. */
    method ApplyDifficulty()
      modifies this`speed, this`spawnTimer
      ensures speed == Speed(score)
      ensures spawnTimer <= old(spawnTimer) && spawnTimer <= TargetSpawnDelay(score)
      ensures spawnTimer == old(spawnTimer) || spawnTimer == TargetSpawnDelay(score)
      ensures spawnTimer == MinI(old(spawnTimer), TargetSpawnDelay(score))
    {
      var newSpeed := MinR(MAX_SPEED, BASE_SPEED + score as real * SPEED_PER_POINT);
      speed := newSpeed;
      var newSpawn := MaxI(MIN_SPAWN, Round((START_SPAWN - (score as real * SPAWN_REDUCTION_PER_POINT).Floor) as real));
      if spawnTimer > newSpawn {
        spawnTimer := newSpawn;
      }
    }

    /** Gravity integration and landing. */
    method ApplyPhysics()
      requires Valid()
      modifies this`player
      ensures Valid()
      ensures player == Fall(old(player))
    {
      player := player.(y := player.y + player.dy);
      player := player.(dy := player.dy + GRAVITY);
      if player.y + player.h >= GROUND_Y {
        player := player.(y := GROUND_Y - player.h);
        player := player.(dy := 0.0);
        player := player.(grounded := true);
        if player.state == Jump {
          player := player.(state := Run);
        }
      }
    }

    /** Draws the player: advances the shared counter only when the state's sheet is loaded. */
    method Animate() returns (drawn: Frame)
      requires Valid()
      modifies this`animCounter
      ensures Valid()
      ensures player.state in loaded ==>
        && animCounter == NextAnimCounter(old(animCounter), FramesOf(player.state))
        && drawn == Sprite(player.state, FrameIndex(animCounter, FramesOf(player.state)))
        && drawn.index < FramesOf(player.state)
      ensures player.state !in loaded ==> animCounter == old(animCounter) && drawn == Placeholder(PlayerBox(player))
    {
      var frames := FramesOf(player.state);
      if player.state !in loaded {
        return Placeholder(PlayerBox(player));
      }
      animCounter := (animCounter + 1) % (SPRITE_ANIM_SPEED * frames);
      var frameIndex := (animCounter / SPRITE_ANIM_SPEED) % frames;
      drawn := Sprite(player.state, frameIndex);
    }

    /** Counts the spawn timer down and adds an obstacle when it runs out. */
    method Spawn(roll: real)
      requires Valid()
      modifies this`spawnTimer, this`obstacles
      ensures Valid()
      ensures old(spawnTimer) - 1 <= 0 ==>
        obstacles == old(obstacles) + [Spawned(roll)] && spawnTimer == NextSpawnTimer(score, speed)
      ensures old(spawnTimer) - 1 > 0 ==> obstacles == old(obstacles) && spawnTimer == old(spawnTimer) - 1
    {
      spawnTimer := spawnTimer - 1;
      if spawnTimer <= 0 {
        var o := Spawned(roll);
        obstacles := obstacles + [o];
        spawnTimer := NextSpawnTimer(score, speed);
        assert AllWellFormed(obstacles) by {
          forall x | x in obstacles ensures WellFormed(x) {
            if x !in old(obstacles) {
              assert x == o;
            }
          }
        }
      }
    }

    /**
     * Scrolls the obstacles in order and tests each, right after it moved,
     * against the player. The first hit kills the player, stops the session,
     * reports the score and leaves the later obstacles where they were.
     */
    method MoveAndCollide() returns (collided: bool)
      requires Valid() && running
      modifies this`obstacles, this`player, this`running, this`gameOverReports
      ensures Valid()
      ensures var hit := FirstHit(old(player), old(obstacles), speed, 0);
        && collided == hit.Some?
        && obstacles == Scrolled(old(obstacles), speed, hit)
        && (hit.None? ==>
              && player == old(player) && running == old(running)
              && gameOverReports == old(gameOverReports))
        && (hit.Some? ==>
              && player == old(player).(state := Died) && !running
              && gameOverReports == old(gameOverReports) + [score])
    {
      var moved, hit := Scroll(player, obstacles, speed);
      ScrolledWellFormed(obstacles, speed, hit);
      obstacles := moved;
      collided := hit.Some?;
      if collided {
        player := player.(state := Died);
        running := false;
        gameOverReports := gameOverReports + [score];
      }
    }

    /** Drops the obstacles that have scrolled off the left edge. */
    method Cleanup()
      requires Valid()
      modifies this`obstacles
      ensures Valid()
      ensures obstacles == Kept(old(obstacles))
    {
      obstacles := Kept(obstacles);
    }

    /** Counts a completed tick; every ninetieth one scores a point, which re-runs the effects on `score`. */
    method AdvanceScore()
      requires Valid()
      modifies this`frameTick, this`score, this`speed, this`spawnTimer, this`animCounter
      ensures Valid()
      ensures frameTick == old(frameTick) + 1
      ensures frameTick % SCORE_PERIOD == 0 ==>
        && score == old(score) + 1 && speed == Speed(score) && animCounter == 0
        && spawnTimer <= old(spawnTimer) && spawnTimer <= TargetSpawnDelay(score)
        && (spawnTimer == old(spawnTimer) || spawnTimer == TargetSpawnDelay(score))
        && spawnTimer == MinI(old(spawnTimer), TargetSpawnDelay(score))
      ensures frameTick % SCORE_PERIOD != 0 ==>
        score == old(score) && speed == old(speed) && spawnTimer == old(spawnTimer) && animCounter == old(animCounter)
    {
      ScoreStep(frameTick);
      frameTick := frameTick + 1;
      if frameTick % SCORE_PERIOD == 0 {
        score := score + 1;
        ApplyDifficulty();
        animCounter := 0;
      }
    }

    /** The phases of a running tick before the obstacles move: physics, drawing the player, spawning. */
    method Prepare(roll: real) returns (drawn: Frame)
      requires Valid() && running
      modifies this`player, this`animCounter, this`spawnTimer, this`obstacles
      ensures Valid()
      ensures player == Fall(old(player)) && drawn != NotDrawn
      ensures old(Settled(player)) ==> Settled(player)
      ensures animCounter == CounterAfterDraw(old(animCounter), player.state, loaded)
      ensures obstacles == AfterSpawn(old(obstacles), old(spawnTimer), roll)
      ensures spawnTimer == TimerAfterSpawn(old(spawnTimer), score, speed)
    {
      if Settled(player) {
        FallKeepsSettled(player);
      }
      ApplyPhysics();
      drawn := Animate();
      Spawn(roll);
    }

    /** The phases of a tick without a collision: cleanup and scoring. */
    method Finish()
      requires Valid()
      modifies this`obstacles, this`frameTick, this`score, this`speed, this`spawnTimer, this`animCounter
      ensures Valid()
      ensures frameTick == old(frameTick) + 1
      ensures score == old(score) + (if frameTick % SCORE_PERIOD == 0 then 1 else 0)
      ensures obstacles == Kept(old(obstacles))
      ensures forall o :: o in obstacles ==> OnScreen(o)
      ensures frameTick % SCORE_PERIOD == 0 ==>
        speed == Speed(score) && spawnTimer == MinI(old(spawnTimer), TargetSpawnDelay(score)) && animCounter == 0
      ensures frameTick % SCORE_PERIOD != 0 ==>
        speed == old(speed) && spawnTimer == old(spawnTimer) && animCounter == old(animCounter)
    {
      Cleanup();
      AdvanceScore();
    }

    /**
     * One animation frame of the main loop: physics, drawing the player,
     * spawning, moving and colliding, cleanup and scoring, in that order.
     * Nothing happens once the session has stopped.
     */
    method Tick(roll: real) returns (drawn: Frame)
      requires Valid()
      modifies this
      ensures Valid()
      ensures !old(running) ==> drawn == NotDrawn && unchanged(this)
      ensures old(running) ==> drawn != NotDrawn
      ensures score >= old(score) && loaded == old(loaded) && closeRequests == old(closeRequests)
      ensures old(running) && running ==>
        && player == Fall(old(player))
        && frameTick == old(frameTick) + 1
        && score == old(score) + (if frameTick % SCORE_PERIOD == 0 then 1 else 0)
        && gameOverReports == old(gameOverReports)
        && forall o :: o in obstacles ==> OnScreen(o)
      ensures old(running) && !running ==>
        && player == Fall(old(player)).(state := Died)
        && frameTick == old(frameTick) && score == old(score)
        && gameOverReports == old(gameOverReports) + [old(score)]
      ensures old(Settled(player)) ==> Settled(player)
      ensures old(running) ==>
        var spawned := AfterSpawn(old(obstacles), old(spawnTimer), roll);
        var hit := FirstHit(Fall(old(player)), spawned, old(speed), 0);
        && (running <==> hit.None?)
        && obstacles == (if hit.None? then Kept(Scrolled(spawned, old(speed), hit)) else Scrolled(spawned, old(speed), hit))
      ensures old(running) ==>
        var timer := TimerAfterSpawn(old(spawnTimer), old(score), old(speed));
        var counter := CounterAfterDraw(old(animCounter), Fall(old(player)).state, old(loaded));
        if running && frameTick % SCORE_PERIOD == 0 then
          speed == Speed(score) && spawnTimer == MinI(timer, TargetSpawnDelay(score)) && animCounter == 0
        else
          speed == old(speed) && spawnTimer == timer && animCounter == counter
    {
      if !running {
        return NotDrawn;
      }
      drawn := Prepare(roll);
      var collided := MoveAndCollide();
      if collided {
        return;
      }
      Finish();
    }

    /** Escape or the Quit button: stop the session and close, without reporting a score. */
    method Quit()
      modifies this`running, this`closeRequests
      ensures !running && closeRequests == old(closeRequests) + 1
    {
      running := false;
      closeRequests := closeRequests + 1;
    }

    /** The key handler: a jump key jumps only from the ground; Escape quits. */
    method KeyDown(key: Key)
      requires Valid()
      modifies this`player, this`running, this`closeRequests
      ensures Valid()
      ensures (key == Space || key == ArrowUp) && old(player.grounded) ==>
        && player == old(player).(dy := JUMP_FORCE, grounded := false, state := Jump)
        && running == old(running) && closeRequests == old(closeRequests)
      ensures !((key == Space || key == ArrowUp) && old(player.grounded)) && key == Escape ==>
        && player == old(player) && !running && closeRequests == old(closeRequests) + 1
      ensures !((key == Space || key == ArrowUp) && old(player.grounded)) && key != Escape ==>
        player == old(player) && running == old(running) && closeRequests == old(closeRequests)
      ensures old(Settled(player)) ==> Settled(player)
    {
      if (key == Space || key == ArrowUp) && player.grounded {
        player := player.(dy := JUMP_FORCE);
        player := player.(grounded := false);
        player := player.(state := Jump);
      } else if key == Escape {
        Quit();
      }
    }
  }

  /** The spawn countdown a session keeps never exceeds what its score calls for. */
  lemma SpawnTimerWithinTarget(score: nat)
    ensures NextSpawnTimer(score, Speed(score)) <= TargetSpawnDelay(score)
    ensures 28 <= NextSpawnTimer(score, Speed(score))
  {
  }
}
