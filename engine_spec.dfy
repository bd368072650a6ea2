/**
 * The simulation of src/game/GameEngine.ts as functions on a `Session` value,
 * the engine's whole mutable state. Every step of `update` is a function here;
 * the class `Engine.GameEngine` performs the same steps in place and is
 * proved to end in the state these functions compute.
 *
 * The outbound callbacks (`onScoreUpdate`, `onLivesUpdate`, `onLevelUpdate`,
 * `onGameOver`, `playSound`, `updateStats`) are recorded, in call order, in
 * the append-only `events` log. Each `Math.random()` call is a parameter
 * `r` with `0 <= r < 1`.
 */
module EngineSpec {
  import opened Wrappers
  import opened GameTypes
  import CarsData
  import CollisionDetector

  /** The canvas size seen through `this.canvas` and the configuration made from it. */
  datatype Env = Env(config: GameConfig, canvasWidth: real, canvasHeight: real)

  /** The configuration the constructor builds for a canvas of the given size. */
  function EngineConfig(canvasWidth: real, canvasHeight: real): GameConfig
  {
    GameConfig(canvasWidth, canvasHeight, 400.0, 3.0, 5.0, 15.0, 0.2, 0.1)
  }

  /** The configuration's constant part, and a canvas of non-negative size. */
  predicate EnvOK(env: Env)
  {
    && env.config.roadWidth == 400.0
    && env.config.laneCount == 3.0
    && env.config.maxSpeed == 15.0
    && env.config.deceleration == 0.1
    && env.canvasWidth >= 0.0
    && env.canvasHeight >= 0.0
  }

  /** `playerCar`: the chosen profile with position and velocity. */
  datatype PlayerCar = PlayerCar(car: Car, x: real, y: real, velocity: real)

  datatype Sound = LevelUp | Crash | Collect | BoostSound | GameOverSound

  /** One callback invocation. */
  datatype Event =
    | ScoreChanged(score: int)
    | LivesChanged(lives: int)
    | LevelChanged(level: int)
    | GameEnded
    | SoundPlayed(sound: Sound)
    | StatsPushed(update: StatsUpdate)

  datatype Session = Session(
    player: PlayerCar,
    obstacles: seq<Obstacle>,
    collectibles: seq<Collectible>,
    score: int,
    lives: int,
    level: int,
    distance: real,
    fuelCollected: int,
    boostsUsed: int,
    currentNoCrashDistance: real,
    isPaused: bool,
    isGameOver: bool,
    roadOffset: real,
    roadSpeed: real,
    events: seq<Event>)

  predicate IsDraw(r: real)
  {
    0.0 <= r < 1.0
  }

  /** The draws `generateObstacle` makes: lane, type, and drift (drawn for traffic cars only). */
  datatype ObstacleDraws = ObstacleDraws(lane: real, kind: real, drift: real)

  /** The draws `generateCollectible` makes: lane and type. */
  datatype CollectibleDraws = CollectibleDraws(lane: real, kind: real)

  /** The draws of one `update`: the two spawn rolls and, if they succeed, the spawner draws. */
  datatype TickDraws = TickDraws(
    obstacleRoll: real,
    obstacle: ObstacleDraws,
    collectibleRoll: real,
    collectible: CollectibleDraws)

  predicate ObstacleDrawsOK(d: ObstacleDraws)
  {
    IsDraw(d.lane) && IsDraw(d.kind) && IsDraw(d.drift)
  }

  predicate CollectibleDrawsOK(d: CollectibleDraws)
  {
    IsDraw(d.lane) && IsDraw(d.kind)
  }

  predicate TickDrawsOK(d: TickDraws)
  {
    IsDraw(d.obstacleRoll) && ObstacleDrawsOK(d.obstacle)
    && IsDraw(d.collectibleRoll) && CollectibleDrawsOK(d.collectible)
  }

  function Min(a: real, b: real): real
  {
    if a < b then a else b
  }

  function Max(a: real, b: real): real
  {
    if a > b then a else b
  }

  /** JavaScript truthiness of an optional number: present and non-zero. */
  predicate Truthy(v: Option<real>)
  {
    v.Some? && v.value != 0.0
  }

  // ----- spawners -----

  /** `Math.floor(r * laneCount)`. */
  function LaneOf(env: Env, r: real): int
  {
    (r * env.config.laneCount).Floor
  }

  function LaneWidth(env: Env): real
    requires EnvOK(env)
  {
    env.config.roadWidth / env.config.laneCount
  }

  function RoadLeft(env: Env): real
  {
    env.canvasWidth / 2.0 - env.config.roadWidth / 2.0
  }

  /** `types[Math.floor(r * types.length)]` over `['car', 'oil', 'broken']`. */
  function ObstacleKindFor(r: real): ObstacleKind
    requires IsDraw(r)
  {
    [TrafficCar, Oil, Broken][(r * 3.0).Floor]
  }

  /** The obstacle `generateObstacle` pushes. */
  function NewObstacle(env: Env, d: ObstacleDraws): Obstacle
    requires EnvOK(env) && ObstacleDrawsOK(d)
  {
    var lane := LaneOf(env, d.lane);
    var laneWidth := LaneWidth(env);
    var kind := ObstacleKindFor(d.kind);
    Obstacle(
      RoadLeft(env) + lane as real * laneWidth + laneWidth / 2.0,
      -100.0,
      if kind == Oil then 60.0 else 40.0,
      if kind == Oil then 40.0 else 80.0,
      kind,
      Some(if kind == TrafficCar then d.drift * 2.0 - 1.0 else 0.0),
      Some(lane))
  }

  /** The weighted choice of `generateCollectible`: the first prefix sum of 0.5, 0.2, 0.3 above `r`. */
  function CollectibleKindFor(r: real): CollectibleKind
  {
    if r < 0.5 then Fuel
    else if r < 0.5 + 0.2 then Boost
    else if r < 0.5 + 0.2 + 0.3 then Coin
    else Fuel
  }

  /** The collectible `generateCollectible` pushes. */
  function NewCollectible(env: Env, d: CollectibleDraws): Collectible
    requires EnvOK(env)
  {
    var lane := LaneOf(env, d.lane);
    var laneWidth := LaneWidth(env);
    Collectible(
      RoadLeft(env) + lane as real * laneWidth + laneWidth / 2.0,
      -50.0, 30.0, 30.0, CollectibleKindFor(d.kind), false)
  }

  // ----- the steps of update -----

  /** Steering and throttle (lines 108-127). */
  function ControlStep(env: Env, s: Session, input: Input, dt: real): Session
  {
    var p := s.player;
    var turn := p.car.handling as real * dt * 0.3;
    var x1 := if input.left && p.x > env.config.canvasWidth / 2.0 - env.config.roadWidth / 2.0 + 40.0
      then p.x - turn else p.x;
    var x2 := if input.right && x1 < env.config.canvasWidth / 2.0 + env.config.roadWidth / 2.0 - 40.0
      then x1 + turn else x1;
    var v1 := if input.up
      then Min(p.velocity + p.car.acceleration as real * dt * 0.01, env.config.maxSpeed) else p.velocity;
    var v2 := if input.down then Max(v1 - env.config.deceleration * dt * 0.02, 0.0) else v1;
    s.(player := p.(x := x2, velocity := v2))
  }

  /** Road scroll, distance and crash-free distance (lines 130-134). */
  function TravelStep(s: Session, dt: real): Session
  {
    var v := s.player.velocity;
    var offset := s.roadOffset + (s.roadSpeed + v) * dt * 0.1;
    s.(roadOffset := if offset > 100.0 then 0.0 else offset,
       distance := s.distance + v * dt * 0.001,
       currentNoCrashDistance := s.currentNoCrashDistance + v * dt * 0.001)
  }

  /** `Math.floor(distance * 10) + fuelCollected * 50 + boostsUsed * 100`. */
  function ScoreFormula(s: Session): int
  {
    (s.distance * 10.0).Floor + s.fuelCollected * 50 + s.boostsUsed * 100
  }

  /** The score step (lines 137-138). */
  function ScoreStep(s: Session): Session
  {
    s.(score := ScoreFormula(s), events := s.events + [ScoreChanged(ScoreFormula(s))])
  }

  /** `Math.floor(distance / 100) + 1`. */
  function LevelFor(distance: real): int
  {
    (distance / 100.0).Floor + 1
  }

  /** The level step (lines 141-147). */
  function LevelStep(s: Session): Session
  {
    var newLevel := LevelFor(s.distance);
    if newLevel != s.level then
      s.(level := newLevel,
         events := s.events + [LevelChanged(newLevel), SoundPlayed(LevelUp)],
         roadSpeed := s.roadSpeed + 0.5)
    else s
  }

  /** One obstacle after the `forEach` of `updateObstacles`. */
  function MoveObstacle(o: Obstacle, shift: real, dt: real): Obstacle
  {
    var y := o.y + shift;
    if o.kind == TrafficCar && Truthy(o.speed) then o.(y := y + o.speed.value * dt * 0.05)
    else o.(y := y)
  }

  function MoveObstacles(obs: seq<Obstacle>, shift: real, dt: real): (r: seq<Obstacle>)
    ensures |r| == |obs|
    ensures forall i :: 0 <= i < |obs| ==> r[i] == MoveObstacle(obs[i], shift, dt)
  {
    seq(|obs|, i requires 0 <= i < |obs| => MoveObstacle(obs[i], shift, dt))
  }

  /** `obstacles.filter(o => o.y < limit)`. */
  function ObstaclesAbove(obs: seq<Obstacle>, limit: real): (r: seq<Obstacle>)
    ensures |r| <= |obs|
    ensures forall o :: o in r <==> o in obs && o.y < limit
    decreases |obs|
  {
    if obs == [] then []
    else (if obs[0].y < limit then [obs[0]] else []) + ObstaclesAbove(obs[1..], limit)
  }

  /** How far the road scrolls this frame. */
  function Shift(s: Session, dt: real): real
  {
    (s.roadSpeed + s.player.velocity) * dt * 0.1
  }

  /** `updateObstacles(deltaTime)` (lines 157-175). */
  function ObstacleStep(env: Env, s: Session, dt: real, roll: real, d: ObstacleDraws): Session
    requires EnvOK(env) && ObstacleDrawsOK(d)
  {
    var kept := ObstaclesAbove(MoveObstacles(s.obstacles, Shift(s, dt), dt), env.canvasHeight + 100.0);
    s.(obstacles := if roll < 0.01 * s.level as real then kept + [NewObstacle(env, d)] else kept)
  }

  /** One collectible after the `forEach` of `updateCollectibles`: collected ones stay put. */
  function MoveCollectible(c: Collectible, shift: real): Collectible
  {
    if !c.collected then c.(y := c.y + shift) else c
  }

  function MoveCollectibles(cs: seq<Collectible>, shift: real): (r: seq<Collectible>)
    ensures |r| == |cs|
    ensures forall i :: 0 <= i < |cs| ==> r[i] == MoveCollectible(cs[i], shift)
  {
    seq(|cs|, i requires 0 <= i < |cs| => MoveCollectible(cs[i], shift))
  }

  /** `collectibles.filter(c => !c.collected && c.y < limit)`. */
  function LiveCollectibles(cs: seq<Collectible>, limit: real): (r: seq<Collectible>)
    ensures |r| <= |cs|
    ensures forall c :: c in r <==> c in cs && !c.collected && c.y < limit
    decreases |cs|
  {
    if cs == [] then []
    else (if !cs[0].collected && cs[0].y < limit then [cs[0]] else []) + LiveCollectibles(cs[1..], limit)
  }

  /** `updateCollectibles(deltaTime)` (lines 177-192). */
  function CollectibleStep(env: Env, s: Session, dt: real, roll: real, d: CollectibleDraws): Session
    requires EnvOK(env)
  {
    var kept := LiveCollectibles(MoveCollectibles(s.collectibles, Shift(s, dt)), env.canvasHeight + 100.0);
    s.(collectibles := if roll < 0.005 then kept + [NewCollectible(env, d)] else kept)
  }

  // ----- collisions -----

  /** The player's hitbox: 40 by 80 around the car's position. */
  function HitBox(p: PlayerCar): CollisionDetector.Rect
  {
    CollisionDetector.Rect(p.x - 20.0, p.y - 40.0, 40.0, 80.0)
  }

  function ObstacleRect(o: Obstacle): CollisionDetector.Rect
  {
    CollisionDetector.Rect(o.x, o.y, o.width, o.height)
  }

  function CollectibleRect(c: Collectible): CollisionDetector.Rect
  {
    CollisionDetector.Rect(c.x, c.y, c.width, c.height)
  }

  /** Some obstacle overlaps the box. */
  predicate HitsAny(box: CollisionDetector.Rect, obs: seq<Obstacle>)
  {
    exists i :: 0 <= i < |obs| && CollisionDetector.CheckCollision(box, ObstacleRect(obs[i]))
  }

  /** `gameOver()` (lines 357-365). */
  function GameOverSpec(s: Session): Session
  {
    s.(isGameOver := true,
       events := s.events + [
         SoundPlayed(GameOverSound),
         StatsPushed(StatsUpdate(Some(s.distance), None, None, None, Some(s.level), None)),
         GameEnded])
  }

  /** The statistics a crash pushes. */
  function CrashStats(noCrash: real): StatsUpdate
  {
    StatsUpdate(None, None, None, Some(1), None, Some(noCrash))
  }

  /** `handleCrash()` (lines 217-239). */
  function HandleCrashSpec(env: Env, s: Session): Session
  {
    var lives := s.lives - 1;
    var s1 := s.(
      lives := lives,
      currentNoCrashDistance := 0.0,
      player := s.player.(x := env.canvasWidth / 2.0, velocity := 0.0),
      obstacles := ObstaclesAbove(s.obstacles, env.canvasHeight - 200.0),
      events := s.events + [LivesChanged(lives), SoundPlayed(Crash)]);
    var s2 := if lives <= 0 then GameOverSpec(s1) else s1;
    s2.(events := s2.events + [StatsPushed(CrashStats(s2.currentNoCrashDistance))])
  }

  /** The statistics a pickup pushes. */
  function CollectStats(s: Session): StatsUpdate
  {
    StatsUpdate(None, Some(s.fuelCollected), Some(s.boostsUsed), None, None, None)
  }

  /** The `switch` of `handleCollect` (lines 245-258): what a pickup of each type awards. */
  function RewardSpec(env: Env, s: Session, kind: CollectibleKind): Session
  {
    match kind
    case Fuel => s.(fuelCollected := s.fuelCollected + 1, score := s.score + 50)
    case Boost =>
      s.(boostsUsed := s.boostsUsed + 1,
         player := s.player.(velocity := env.config.maxSpeed),
         events := s.events + [SoundPlayed(BoostSound)])
    case Coin => s.(score := s.score + 100)
  }

  /** `handleCollect(collectibles[j])` (lines 241-265). */
  function HandleCollectSpec(env: Env, s: Session, j: int): (r: Session)
    requires 0 <= j < |s.collectibles|
    ensures |r.collectibles| == |s.collectibles|
  {
    var c := s.collectibles[j];
    var s1 := s.(
      collectibles := s.collectibles[j := c.(collected := true)],
      events := s.events + [SoundPlayed(Collect)]);
    var s2 := RewardSpec(env, s1, c.kind);
    s2.(events := s2.events + [ScoreChanged(s2.score), StatsPushed(CollectStats(s2))])
  }

  /** Whether the `j`-th collectible is picked up by the collectible loop. */
  predicate Picks(s: Session, j: int)
    requires 0 <= j < |s.collectibles|
  {
    !s.collectibles[j].collected
    && CollisionDetector.CheckCollision(HitBox(s.player), CollectibleRect(s.collectibles[j]))
  }

  /** The collectible loop of `checkCollisions` from index `j` on. */
  function CollectFrom(env: Env, s: Session, j: nat): (r: Session)
    requires j <= |s.collectibles|
    ensures |r.collectibles| == |s.collectibles|
    decreases |s.collectibles| - j
  {
    if j == |s.collectibles| then s
    else
      var s' := if Picks(s, j) then HandleCollectSpec(env, s, j) else s;
      CollectFrom(env, s', j + 1)
  }

  /** `checkCollisions()` (lines 194-215): at most one crash, then every pickup. */
  function CheckCollisionsSpec(env: Env, s: Session): Session
  {
    var s1 := if HitsAny(HitBox(s.player), s.obstacles) then HandleCrashSpec(env, s) else s;
    CollectFrom(env, s1, 0)
  }

  /** `update(deltaTime)` (lines 106-155). */
  function UpdateSpec(env: Env, s: Session, input: Input, dt: real, d: TickDraws): Session
    requires EnvOK(env) && TickDrawsOK(d)
  {
    var s1 := LevelStep(ScoreStep(TravelStep(ControlStep(env, s, input, dt), dt)));
    var s2 := ObstacleStep(env, s1, dt, d.obstacleRoll, d.obstacle);
    var s3 := CollectibleStep(env, s2, dt, d.collectibleRoll, d.collectible);
    CheckCollisionsSpec(env, s3)
  }

  /**
   * `gameLoop(currentTime)` (lines 92-104), without rendering and frame
   * scheduling, for `dt == Elapsed(lastTime, currentTime)`. The clock `lastTime` is
   * kept apart from the session; `ClockAfter` gives its new value.
   */
  function GameLoopSpec(env: Env, s: Session, input: Input, dt: real, d: TickDraws): Session
    requires EnvOK(env) && TickDrawsOK(d)
  {
    if s.isGameOver then s
    else if !s.isPaused then UpdateSpec(env, s, input, dt, d)
    else s
  }

  /** `deltaTime = currentTime - lastTime`. */
  function Elapsed(lastTime: real, currentTime: real): (r: real)
    ensures lastTime + r == currentTime
  {
    currentTime - lastTime
  }

  /** `lastTime` after `gameLoop(currentTime)`: unchanged once the game is over. */
  function ClockAfter(s: Session, lastTime: real, currentTime: real): real
  {
    if s.isGameOver then lastTime else currentTime
  }

  /**
   * `start()` (lines 87-90): `lastTime` is the clock `now`, then `gameLoop()`
   * runs with its default `currentTime` of 0, so the first frame's time is `-now`.
   */
  function StartSpec(env: Env, s: Session, input: Input, now: real, d: TickDraws): Session
    requires EnvOK(env) && TickDrawsOK(d)
  {
    GameLoopSpec(env, s, input, Elapsed(now, 0.0), d)
  }

  /** The state the constructor's field initialisers and `init()` produce. */
  function InitialSession(
    env: Env, carId: string, od: seq<ObstacleDraws>, cd: seq<CollectibleDraws>): Session
    requires EnvOK(env)
    requires |od| == 3 && forall i :: 0 <= i < 3 ==> ObstacleDrawsOK(od[i])
    requires |cd| == 2
  {
    Session(
      PlayerCar(CarsData.CarFor(carId), env.canvasWidth / 2.0, env.canvasHeight - 150.0, 0.0),
      [NewObstacle(env, od[0]), NewObstacle(env, od[1]), NewObstacle(env, od[2])],
      [NewCollectible(env, cd[0]), NewCollectible(env, cd[1])],
      0, 3, 1, 0.0, 0, 0, 0.0, false, false, 0.0, 5.0, [])
  }
}
