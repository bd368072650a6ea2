/**
 * The class of src/game/GameEngine.ts. Its fields are the engine's mutable
 * state; `Snapshot()` reads them as an `EngineSpec.Session`, and every method
 * is proved to leave the state the corresponding `EngineSpec` function
 * computes. The canvas, the renderer and the frame scheduler are left to the
 * host: `GameLoop` is called with the frame's timestamp and the random draws
 * it makes.
 */
module Engine {
  import opened Wrappers
  import opened GameTypes
  import opened EngineSpec
  import CarsData
  import CollisionDetector
  import InputHandling
  import EngineProperties

  class GameEngine {
    /** The canvas size and the configuration built from it. */
    const env: Env
    const inputHandler: InputHandling.InputHandler

    var player: PlayerCar
    var obstacles: seq<Obstacle>
    var collectibles: seq<Collectible>
    var roadOffset: real
    var roadSpeed: real
    var score: int
    var lives: int
    var level: int
    var distance: real
    var fuelCollected: int
    var boostsUsed: int
    var currentNoCrashDistance: real
    var lastTime: real
    var isPaused: bool
    var isGameOver: bool
    /** The callbacks invoked so far, in order. */
    var events: seq<Event>

    /** The engine's state apart from the clock. */
    function Snapshot(): Session
      reads this
    {
      Session(player, obstacles, collectibles, score, lives, level, distance,
        fuelCollected, boostsUsed, currentNoCrashDistance, isPaused, isGameOver,
        roadOffset, roadSpeed, events)
    }

    /** The constant configuration, valid input state, and the invariant of a session. */
    predicate Valid()
      reads this, inputHandler
    {
      EnvOK(env) && inputHandler.Valid() && EngineProperties.Inv(Snapshot())
    }

    /**
     * `new GameEngine(canvas, ctx, selectedCarId, isDayMode, callbacks)`:
     * `od` and `cd` are the draws of the three obstacles and two collectibles
     * `init()` spawns.
     */
    constructor (canvasWidth: real, canvasHeight: real, carId: string,
                 od: seq<ObstacleDraws>, cd: seq<CollectibleDraws>)
      requires canvasWidth >= 0.0 && canvasHeight >= 0.0
      requires |od| == 3 && forall i :: 0 <= i < 3 ==> ObstacleDrawsOK(od[i])
      requires |cd| == 2
      ensures Valid()
      ensures env == Env(EngineConfig(canvasWidth, canvasHeight), canvasWidth, canvasHeight)
      ensures Snapshot() == InitialSession(env, carId, od, cd)
      ensures lastTime == 0.0
      ensures fresh(inputHandler) && inputHandler.keys == {}
    {
      env := Env(EngineConfig(canvasWidth, canvasHeight), canvasWidth, canvasHeight);
      player := PlayerCar(CarsData.CarFor(carId), canvasWidth / 2.0, canvasHeight - 150.0, 0.0);
      inputHandler := new InputHandling.InputHandler();
      obstacles := [];
      collectibles := [];
      roadOffset := 0.0;
      roadSpeed := 5.0;
      score := 0;
      lives := 3;
      level := 1;
      distance := 0.0;
      fuelCollected := 0;
      boostsUsed := 0;
      currentNoCrashDistance := 0.0;
      lastTime := 0.0;
      isPaused := false;
      isGameOver := false;
      events := [];
      new;
      Init(od, cd);
      EngineProperties.InitialSessionOK(env, carId, od, cd);
    }

    /** `init()`: the first obstacles and collectibles. */
    method Init(od: seq<ObstacleDraws>, cd: seq<CollectibleDraws>)
      requires EnvOK(env) && |od| == 3 && forall i :: 0 <= i < 3 ==> ObstacleDrawsOK(od[i])
      requires |cd| == 2
      modifies this
      ensures Snapshot() == old(Snapshot()).(
        obstacles := old(obstacles) + [NewObstacle(env, od[0]), NewObstacle(env, od[1]), NewObstacle(env, od[2])],
        collectibles := old(collectibles) + [NewCollectible(env, cd[0]), NewCollectible(env, cd[1])])
      ensures lastTime == old(lastTime)
    {
      GenerateObstacles(od);
      GenerateCollectibles(cd);
    }

    /** `start()`: the clock reads `now`, then one frame runs with `gameLoop`'s default time 0. */
    method Start(now: real, d: TickDraws)
      requires Valid() && TickDrawsOK(d)
      modifies this
      ensures Valid()
      ensures Snapshot() == StartSpec(env, old(Snapshot()), inputHandler.GetInput(), now, d)
      ensures lastTime == ClockAfter(old(Snapshot()), now, 0.0)
    {
      lastTime := now;
      GameLoop(0.0, d);
    }

    /**
     * `gameLoop(currentTime)` without rendering and without scheduling the
     * next frame: the host calls it once per frame with that frame's draws.
     */
    method GameLoop(currentTime: real, d: TickDraws)
      requires Valid() && TickDrawsOK(d)
      modifies this
      ensures Valid()
      ensures Snapshot() == GameLoopSpec(env, old(Snapshot()), inputHandler.GetInput(),
        Elapsed(old(lastTime), currentTime), d)
      ensures lastTime == ClockAfter(old(Snapshot()), old(lastTime), currentTime)
    {
      ghost var s0 := Snapshot();
      if isGameOver {
        return;
      }
      var deltaTime := Elapsed(lastTime, currentTime);
      lastTime := currentTime;
      if !isPaused {
        Update(deltaTime, d);
      }
      EngineProperties.GameLoopKeepsInv(env, s0, inputHandler.GetInput(), deltaTime, d);
    }

    /** `update(deltaTime)`. */
    method Update(deltaTime: real, d: TickDraws)
      requires EnvOK(env) && TickDrawsOK(d)
      modifies this
      ensures Snapshot() == UpdateSpec(env, old(Snapshot()), inputHandler.GetInput(), deltaTime, d)
      ensures lastTime == old(lastTime)
    {
      var input := inputHandler.GetInput();
      Steer(input, deltaTime);
      Travel(deltaTime);
      UpdateScore();
      UpdateLevel();
      UpdateObstacles(deltaTime, d.obstacleRoll, d.obstacle);
      UpdateCollectibles(deltaTime, d.collectibleRoll, d.collectible);
      CheckCollisions();
    }

    /** The steering and throttle statements of `update`. */
    method Steer(input: Input, deltaTime: real)
      modifies this
      ensures Snapshot() == ControlStep(env, old(Snapshot()), input, deltaTime)
      ensures lastTime == old(lastTime)
    {
      if input.left && player.x > env.config.canvasWidth / 2.0 - env.config.roadWidth / 2.0 + 40.0 {
        player := player.(x := player.x - player.car.handling as real * deltaTime * 0.3);
      }
      if input.right && player.x < env.config.canvasWidth / 2.0 + env.config.roadWidth / 2.0 - 40.0 {
        player := player.(x := player.x + player.car.handling as real * deltaTime * 0.3);
      }
      if input.up {
        player := player.(velocity :=
          Min(player.velocity + player.car.acceleration as real * deltaTime * 0.01, env.config.maxSpeed));
      }
      if input.down {
        player := player.(velocity := Max(player.velocity - env.config.deceleration * deltaTime * 0.02, 0.0));
      }
    }

    /** The road-scroll and distance statements of `update`. */
    method Travel(deltaTime: real)
      modifies this
      ensures Snapshot() == TravelStep(old(Snapshot()), deltaTime)
      ensures lastTime == old(lastTime)
    {
      roadOffset := roadOffset + (roadSpeed + player.velocity) * deltaTime * 0.1;
      if roadOffset > 100.0 {
        roadOffset := 0.0;
      }
      distance := distance + player.velocity * deltaTime * 0.001;
      currentNoCrashDistance := currentNoCrashDistance + player.velocity * deltaTime * 0.001;
    }

    /** The score statements of `update`. */
    method UpdateScore()
      modifies this
      ensures Snapshot() == ScoreStep(old(Snapshot()))
      ensures lastTime == old(lastTime)
    {
      score := (distance * 10.0).Floor + fuelCollected * 50 + boostsUsed * 100;
      events := events + [ScoreChanged(score)];
    }

    /** The level statements of `update`. */
    method UpdateLevel()
      modifies this
      ensures Snapshot() == LevelStep(old(Snapshot()))
      ensures lastTime == old(lastTime)
    {
      var newLevel := (distance / 100.0).Floor + 1;
      if newLevel != level {
        level := newLevel;
        events := events + [LevelChanged(level)];
        events := events + [SoundPlayed(LevelUp)];
        roadSpeed := roadSpeed + 0.5;
      }
    }

    /** `updateObstacles(deltaTime)`, given the spawn roll and the spawner's draws. */
    method UpdateObstacles(deltaTime: real, roll: real, d: ObstacleDraws)
      requires EnvOK(env) && ObstacleDrawsOK(d)
      modifies this
      ensures Snapshot() == ObstacleStep(env, old(Snapshot()), deltaTime, roll, d)
      ensures lastTime == old(lastTime)
    {
      MoveAllObstacles(deltaTime);
      obstacles := ObstaclesAbove(obstacles, env.canvasHeight + 100.0);
      if roll < 0.01 * level as real {
        GenerateObstacle(d);
      }
    }

    /** The `forEach` of `updateObstacles`: every obstacle scrolls, traffic cars drift too. */
    method MoveAllObstacles(deltaTime: real)
      modifies this
      ensures Snapshot() == old(Snapshot()).(obstacles := MoveObstacles(old(obstacles), Shift(old(Snapshot()), deltaTime), deltaTime))
      ensures lastTime == old(lastTime)
    {
      var i := 0;
      while i < |obstacles|
        invariant 0 <= i <= |obstacles| == |old(obstacles)|
        invariant forall k :: 0 <= k < i ==>
          obstacles[k] == MoveObstacle(old(obstacles)[k], Shift(old(Snapshot()), deltaTime), deltaTime)
        invariant forall k :: i <= k < |obstacles| ==> obstacles[k] == old(obstacles)[k]
        invariant Snapshot() == old(Snapshot()).(obstacles := obstacles)
        invariant lastTime == old(lastTime)
      {
        var obstacle := obstacles[i];
        obstacle := obstacle.(y := obstacle.y + (roadSpeed + player.velocity) * deltaTime * 0.1);
        if obstacle.kind == TrafficCar && Truthy(obstacle.speed) {
          obstacle := obstacle.(y := obstacle.y + obstacle.speed.value * deltaTime * 0.05);
        }
        obstacles := obstacles[i := obstacle];
        i := i + 1;
      }
    }

    /** `updateCollectibles(deltaTime)`, given the spawn roll and the spawner's draws. */
    method UpdateCollectibles(deltaTime: real, roll: real, d: CollectibleDraws)
      requires EnvOK(env)
      modifies this
      ensures Snapshot() == CollectibleStep(env, old(Snapshot()), deltaTime, roll, d)
      ensures lastTime == old(lastTime)
    {
      MoveAllCollectibles(deltaTime);
      collectibles := LiveCollectibles(collectibles, env.canvasHeight + 100.0);
      if roll < 0.005 {
        GenerateCollectible(d);
      }
    }

    /** The `forEach` of `updateCollectibles`: every item not yet collected scrolls. */
    method MoveAllCollectibles(deltaTime: real)
      modifies this
      ensures Snapshot() == old(Snapshot()).(collectibles := MoveCollectibles(old(collectibles), Shift(old(Snapshot()), deltaTime)))
      ensures lastTime == old(lastTime)
    {
      var i := 0;
      while i < |collectibles|
        invariant 0 <= i <= |collectibles| == |old(collectibles)|
        invariant forall k :: 0 <= k < i ==>
          collectibles[k] == MoveCollectible(old(collectibles)[k], Shift(old(Snapshot()), deltaTime))
        invariant forall k :: i <= k < |collectibles| ==> collectibles[k] == old(collectibles)[k]
        invariant Snapshot() == old(Snapshot()).(collectibles := collectibles)
        invariant lastTime == old(lastTime)
      {
        if !collectibles[i].collected {
          collectibles := collectibles[i := collectibles[i].(y := collectibles[i].y + (roadSpeed + player.velocity) * deltaTime * 0.1)];
        }
        i := i + 1;
      }
    }

    /** `checkCollisions()`: the first obstacle hit causes a crash, then every item touched is collected. */
    method CheckCollisions()
      requires EnvOK(env)
      modifies this
      ensures Snapshot() == CheckCollisionsSpec(env, old(Snapshot()))
      ensures lastTime == old(lastTime)
    {
      CheckObstacles();
      ghost var s1 := Snapshot();
      var j := 0;
      while j < |collectibles|
        invariant 0 <= j <= |collectibles| == |s1.collectibles|
        invariant CollectFrom(env, Snapshot(), j) == CollectFrom(env, s1, 0)
        invariant lastTime == old(lastTime)
      {
        var box := CollisionDetector.Rect(player.x - 20.0, player.y - 40.0, 40.0, 80.0);
        var c := collectibles[j];
        if !c.collected && CollisionDetector.CheckCollision(box, CollisionDetector.Rect(c.x, c.y, c.width, c.height)) {
          HandleCollect(j);
        }
        j := j + 1;
      }
    }

    /** The obstacle loop of `checkCollisions`, which stops at the first hit. */
    method CheckObstacles()
      modifies this
      ensures Snapshot() == (if HitsAny(HitBox(old(player)), old(obstacles)) then HandleCrashSpec(env, old(Snapshot())) else old(Snapshot()))
      ensures lastTime == old(lastTime)
    {
      var i := 0;
      while i < |obstacles|
        invariant 0 <= i <= |obstacles|
        invariant forall k :: 0 <= k < i ==> !CollisionDetector.CheckCollision(HitBox(player), ObstacleRect(obstacles[k]))
        invariant Snapshot() == old(Snapshot()) && lastTime == old(lastTime)
      {
        var box := CollisionDetector.Rect(player.x - 20.0, player.y - 40.0, 40.0, 80.0);
        var obstacle := obstacles[i];
        if CollisionDetector.CheckCollision(box, CollisionDetector.Rect(obstacle.x, obstacle.y, obstacle.width, obstacle.height)) {
          assert CollisionDetector.CheckCollision(HitBox(player), ObstacleRect(obstacles[i]));
          HandleCrash();
          break;
        }
        i := i + 1;
      }
    }

    /** `generateObstacle()`: one obstacle in a random lane, of a random type. */
    method GenerateObstacle(d: ObstacleDraws)
      requires EnvOK(env) && ObstacleDrawsOK(d)
      modifies this
      ensures Snapshot() == old(Snapshot()).(obstacles := old(obstacles) + [NewObstacle(env, d)])
      ensures lastTime == old(lastTime)
    {
      var lane := (d.lane * env.config.laneCount).Floor;
      var laneWidth := env.config.roadWidth / env.config.laneCount;
      var roadLeft := env.canvasWidth / 2.0 - env.config.roadWidth / 2.0;
      var types := [TrafficCar, Oil, Broken];
      var kind := types[(d.kind * |types| as real).Floor];
      obstacles := obstacles + [Obstacle(
        roadLeft + lane as real * laneWidth + laneWidth / 2.0,
        -100.0,
        if kind == Oil then 60.0 else 40.0,
        if kind == Oil then 40.0 else 80.0,
        kind,
        Some(if kind == TrafficCar then d.drift * 2.0 - 1.0 else 0.0),
        Some(lane))];
    }

    /** `generateObstacles()`: three obstacles. */
    method GenerateObstacles(od: seq<ObstacleDraws>)
      requires EnvOK(env) && |od| == 3 && forall i :: 0 <= i < 3 ==> ObstacleDrawsOK(od[i])
      modifies this
      ensures Snapshot() == old(Snapshot()).(obstacles :=
        old(obstacles) + [NewObstacle(env, od[0]), NewObstacle(env, od[1]), NewObstacle(env, od[2])])
      ensures lastTime == old(lastTime)
    {
      for i := 0 to 3
        invariant Snapshot() == old(Snapshot()).(obstacles :=
          old(obstacles) + seq(i, k requires 0 <= k < i => NewObstacle(env, od[k])))
        invariant lastTime == old(lastTime)
      {
        GenerateObstacle(od[i]);
        assert seq(i + 1, k requires 0 <= k < i + 1 => NewObstacle(env, od[k]))
            == seq(i, k requires 0 <= k < i => NewObstacle(env, od[k])) + [NewObstacle(env, od[i])];
      }
      assert seq(3, k requires 0 <= k < 3 => NewObstacle(env, od[k]))
          == [NewObstacle(env, od[0]), NewObstacle(env, od[1]), NewObstacle(env, od[2])];
    }

    /** The weighted choice of `generateCollectible`: the first type whose running weight exceeds `random`. */
    method PickCollectibleKind(random: real) returns (kind: CollectibleKind)
      ensures kind == CollectibleKindFor(random)
    {
      var types := [Fuel, Boost, Coin];
      var weights := [0.5, 0.2, 0.3];
      kind := Fuel;
      var sum := 0.0;
      var i := 0;
      while i < |weights|
        invariant 0 <= i <= |weights|
        invariant sum == (if i == 0 then 0.0 else if i == 1 then 0.5 else if i == 2 then 0.5 + 0.2 else 0.5 + 0.2 + 0.3)
        invariant (i > 0 ==> random >= sum) && kind == Fuel
      {
        sum := sum + weights[i];
        if random < sum {
          kind := types[i];
          break;
        }
        i := i + 1;
      }
    }

    /** `generateCollectible()`: one collectible in a random lane, of a weighted random type. */
    method GenerateCollectible(d: CollectibleDraws)
      requires EnvOK(env)
      modifies this
      ensures Snapshot() == old(Snapshot()).(collectibles := old(collectibles) + [NewCollectible(env, d)])
      ensures lastTime == old(lastTime)
    {
      var lane := (d.lane * env.config.laneCount).Floor;
      var laneWidth := env.config.roadWidth / env.config.laneCount;
      var roadLeft := env.canvasWidth / 2.0 - env.config.roadWidth / 2.0;
      var kind := PickCollectibleKind(d.kind);
      assert lane == LaneOf(env, d.lane);
      assert laneWidth == LaneWidth(env);
      assert roadLeft == RoadLeft(env);
      assert kind == CollectibleKindFor(d.kind);
      assert Collectible(roadLeft + lane as real * laneWidth + laneWidth / 2.0, -50.0, 30.0, 30.0, kind, false)
        == NewCollectible(env, d);
      collectibles := collectibles + [Collectible(
        roadLeft + lane as real * laneWidth + laneWidth / 2.0, -50.0, 30.0, 30.0, kind, false)];
    }

    /** `generateCollectibles()`: two collectibles. */
    method GenerateCollectibles(cd: seq<CollectibleDraws>)
      requires EnvOK(env) && |cd| == 2
      modifies this
      ensures Snapshot() == old(Snapshot()).(collectibles :=
        old(collectibles) + [NewCollectible(env, cd[0]), NewCollectible(env, cd[1])])
      ensures lastTime == old(lastTime)
    {
      GenerateCollectible(cd[0]);
      GenerateCollectible(cd[1]);
    }

    /** `setPaused(paused)`. */
    method SetPaused(paused: bool)
      requires Valid()
      modifies this
      ensures Valid()
      ensures Snapshot() == old(Snapshot()).(isPaused := paused)
      ensures lastTime == old(lastTime)
    {
      isPaused := paused;
    }

    /** `gameOver()`. */
    method GameOver()
      modifies this
      ensures Snapshot() == GameOverSpec(old(Snapshot()))
      ensures lastTime == old(lastTime)
    {
      isGameOver := true;
      events := events + [SoundPlayed(GameOverSound)];
      events := events + [StatsPushed(StatsUpdate(Some(distance), None, None, None, Some(level), None))];
      events := events + [GameEnded];
    }

    /** The statements of `handleCrash()` before the obstacles are cleared. */
    method ResetAfterCrash()
      modifies this
      ensures Snapshot() == old(Snapshot()).(
        lives := old(lives) - 1,
        currentNoCrashDistance := 0.0,
        player := old(player).(x := env.canvasWidth / 2.0, velocity := 0.0),
        events := old(events) + [LivesChanged(old(lives) - 1), SoundPlayed(Crash)])
      ensures lastTime == old(lastTime)
    {
      lives := lives - 1;
      events := events + [LivesChanged(lives), SoundPlayed(Crash)];
      currentNoCrashDistance := 0.0;
      player := player.(x := env.canvasWidth / 2.0);
      player := player.(velocity := 0.0);
    }

    /** `handleCrash()`. */
    method HandleCrash()
      modifies this
      ensures Snapshot() == HandleCrashSpec(env, old(Snapshot()))
      ensures lastTime == old(lastTime)
    {
      ResetAfterCrash();
      obstacles := ObstaclesAbove(obstacles, env.canvasHeight - 200.0);
      if lives <= 0 {
        GameOver();
      }
      events := events + [StatsPushed(StatsUpdate(None, None, None, Some(1), None, Some(currentNoCrashDistance)))];
    }

    /** `handleCollect(collectibles[j])`. */
    method HandleCollect(j: int)
      requires 0 <= j < |collectibles|
      modifies this
      ensures Snapshot() == HandleCollectSpec(env, old(Snapshot()), j)
      ensures lastTime == old(lastTime)
    {
      var c := collectibles[j];
      MarkCollected(j);
      Reward(c.kind);
      events := events + [ScoreChanged(score)];
      events := events + [StatsPushed(StatsUpdate(None, Some(fuelCollected), Some(boostsUsed), None, None, None))];
    }

    /** The `switch` of `handleCollect`. */
    method Reward(kind: CollectibleKind)
      modifies this
      ensures Snapshot() == RewardSpec(env, old(Snapshot()), kind)
      ensures lastTime == old(lastTime)
    {
      match kind {
        case Fuel =>
          fuelCollected := fuelCollected + 1;
          score := score + 50;
        case Boost =>
          boostsUsed := boostsUsed + 1;
          player := player.(velocity := env.config.maxSpeed);
          events := events + [SoundPlayed(BoostSound)];
        case Coin =>
          score := score + 100;
      }
    }

    /** The statements of `handleCollect` before the switch on the type. */
    method MarkCollected(j: int)
      requires 0 <= j < |collectibles|
      modifies this
      ensures Snapshot() == old(Snapshot()).(
        collectibles := old(collectibles)[j := old(collectibles)[j].(collected := true)],
        events := old(events) + [SoundPlayed(Collect)])
      ensures lastTime == old(lastTime)
    {
      collectibles := collectibles[j := collectibles[j].(collected := true)];
      events := events + [SoundPlayed(Collect)];
    }
  }
}
