/**
 * Properties of the simulation in `EngineSpec`: the effect of each step, the
 * bounds that hold for forward time, and an invariant every frame keeps.
 */
module EngineProperties {
  import opened Wrappers
  import opened GameTypes
  import opened EngineSpec
  import CarsData
  import CollisionDetector
  import GameContext
  import AchievementsData

  // ----- counting events -----

  /** How often `e` occurs in the log. */
  function Count(evs: seq<Event>, e: Event): nat
    decreases |evs|
  {
    if evs == [] then 0 else (if evs[0] == e then 1 else 0) + Count(evs[1..], e)
  }

  lemma {:induction false} CountConcat(a: seq<Event>, b: seq<Event>, e: Event)
    ensures Count(a + b, e) == Count(a, e) + Count(b, e)
    decreases |a|
  {
    if a == [] {
      assert a + b == b;
    } else {
      assert (a + b)[1..] == a[1..] + b;
      CountConcat(a[1..], b, e);
    }
  }

  lemma CountOne(x: Event, e: Event)
    ensures Count([x], e) == if x == e then 1 else 0
  {
    assert [x][1..] == [];
  }

  /** Counting over a log extended by one event. */
  lemma CountSnoc(a: seq<Event>, x: Event, e: Event)
    ensures Count(a + [x], e) == Count(a, e) + (if x == e then 1 else 0)
  {
    CountConcat(a, [x], e);
    CountOne(x, e);
  }

  // ----- well-formed entities and the invariant -----

  /** The shape `generateObstacle` gives and moving keeps. */
  predicate WellFormedObstacle(o: Obstacle)
  {
    && (if o.kind == Oil then o.width == 60.0 && o.height == 40.0 else o.width == 40.0 && o.height == 80.0)
    && o.lane.Some? && 0 <= o.lane.value < 3
    && o.speed.Some? && -1.0 <= o.speed.value < 1.0
    && (o.kind != TrafficCar ==> o.speed.value == 0.0)
  }

  predicate WellFormedCollectible(c: Collectible)
  {
    c.width == 30.0 && c.height == 30.0
  }

  /** Lives, game over and the crash and game-over callbacks agree. */
  predicate LivesOK(s: Session)
  {
    && 0 <= s.lives <= 3
    && (s.isGameOver <==> s.lives == 0)
    && Count(s.events, SoundPlayed(Crash)) == 3 - s.lives
    && Count(s.events, GameEnded) == (if s.isGameOver then 1 else 0)
  }

  /** The level follows the distance; the road speeds up once per level-up sound. */
  predicate ProgressOK(s: Session)
  {
    && s.level == LevelFor(s.distance)
    && s.roadSpeed == 5.0 + 0.5 * Count(s.events, SoundPlayed(LevelUp)) as real
    && s.fuelCollected >= 0
    && s.boostsUsed >= 0
  }

  predicate EntitiesOK(s: Session)
  {
    && (forall o :: o in s.obstacles ==> WellFormedObstacle(o))
    && (forall c :: c in s.collectibles ==> WellFormedCollectible(c))
    && s.player.car in CarsData.Cars
  }

  /** Every statistics update sent so far carries `longestNoCrashDistance` 0 or nothing. */
  predicate StatsOK(s: Session)
  {
    forall i :: 0 <= i < |s.events| && s.events[i].StatsPushed? ==>
      GameContext.KeepsNoCrashZero(s.events[i].update)
  }

  predicate Inv(s: Session)
  {
    LivesOK(s) && ProgressOK(s) && EntitiesOK(s) && StatsOK(s)
  }

  /** The log is only ever extended. */
  predicate Extends(s: Session, r: Session)
  {
    |s.events| <= |r.events| && r.events[..|s.events|] == s.events
  }

  // ----- spawners -----

  /**
   * A spawned obstacle sits at the centre of lane 0, 1 or 2 of the 400-wide
   * road, 100 above the top edge, 60 by 40 for oil and 40 by 80 otherwise; only
   * traffic cars drift, by a speed in [-1, 1).
   */
  lemma NewObstacleShape(env: Env, d: ObstacleDraws)
    requires EnvOK(env) && ObstacleDrawsOK(d)
    ensures var o := NewObstacle(env, d);
      && WellFormedObstacle(o)
      && o.x == env.canvasWidth / 2.0 + (o.lane.value - 1) as real * (400.0 / 3.0)
      && RoadLeft(env) < o.x < RoadLeft(env) + 400.0
      && o.y == -100.0
      && (o.kind == TrafficCar ==> o.speed.value == d.drift * 2.0 - 1.0)
  {
    var lane := LaneOf(env, d.lane);
    assert 0 <= lane < 3 by {
      assert 0.0 <= d.lane * 3.0 < 3.0;
    }
    assert 0 <= (d.kind * 3.0).Floor < 3 by {
      assert 0.0 <= d.kind * 3.0 < 3.0;
    }
  }

  /** The obstacle type is car, oil or broken for the lower, middle or upper third of the draw. */
  lemma ObstacleKindThirds(r: real)
    requires IsDraw(r)
    ensures r < 1.0 / 3.0 ==> ObstacleKindFor(r) == TrafficCar
    ensures 1.0 / 3.0 <= r < 2.0 / 3.0 ==> ObstacleKindFor(r) == Oil
    ensures 2.0 / 3.0 <= r ==> ObstacleKindFor(r) == Broken
  {
  }

  /**
   * A spawned collectible is 30 by 30, 50 above the top edge, uncollected, in
   * a lane centre; fuel for draws below 0.5, boost below 0.7, coin above.
   */
  lemma NewCollectibleShape(env: Env, d: CollectibleDraws)
    requires EnvOK(env) && CollectibleDrawsOK(d)
    ensures var c := NewCollectible(env, d);
      && WellFormedCollectible(c) && c.y == -50.0 && !c.collected
      && 0 <= LaneOf(env, d.lane) < 3
      && c.x == env.canvasWidth / 2.0 + (LaneOf(env, d.lane) - 1) as real * (400.0 / 3.0)
      && RoadLeft(env) < c.x < RoadLeft(env) + 400.0
      && (d.kind < 0.5 ==> c.kind == Fuel)
      && (0.5 <= d.kind < 0.7 ==> c.kind == Boost)
      && (0.7 <= d.kind ==> c.kind == Coin)
  {
    var lane := LaneOf(env, d.lane);
    assert 0 <= lane < 3 by {
      assert 0.0 <= d.lane * 3.0 < 3.0;
    }
  }

  // ----- the steps of update -----

  lemma MulNonNeg(a: real, b: real)
    requires a >= 0.0 && b >= 0.0
    ensures a * b >= 0.0
  {
  }

  /**
   * For forward time, a velocity in [0, maxSpeed] stays there; with neither
   * up nor down held it does not change (there is no drag); up never lowers
   * it and down never raises it. Only the position and velocity change.
   */
  lemma ControlStepVelocity(env: Env, s: Session, input: Input, dt: real)
    requires EnvOK(env) && dt >= 0.0
    requires 0.0 <= s.player.velocity <= 15.0 && s.player.car.acceleration >= 0
    ensures var r := ControlStep(env, s, input, dt);
      && 0.0 <= r.player.velocity <= 15.0
      && (!input.up && !input.down ==> r.player.velocity == s.player.velocity)
      && (input.up && !input.down ==> r.player.velocity >= s.player.velocity)
      && (input.down && !input.up ==> r.player.velocity <= s.player.velocity)
      && r == s.(player := s.player.(x := r.player.x, velocity := r.player.velocity))
  {
    MulNonNeg(s.player.car.acceleration as real, dt);
    MulNonNeg(env.config.deceleration, dt);
  }

  /**
   * For forward time, non-negative velocity and road speed: the road offset
   * lands in [0, 100] and both distances grow. Nothing else changes.
   */
  lemma TravelStepBounds(s: Session, dt: real)
    requires dt >= 0.0 && s.player.velocity >= 0.0 && s.roadSpeed >= 0.0 && s.roadOffset >= 0.0
    ensures var r := TravelStep(s, dt);
      && 0.0 <= r.roadOffset <= 100.0
      && r.distance >= s.distance
      && r.currentNoCrashDistance >= s.currentNoCrashDistance
  {
    assert s.roadSpeed * dt >= 0.0;
    assert s.player.velocity * dt >= 0.0;
  }

  /**
   * After the level step the level is `floor(distance / 100) + 1`; the road
   * speeds up by 0.5, and `levelUp` sounds, exactly when the level changed,
   * however many levels it jumped.
   */
  lemma LevelStepEffect(s: Session)
    ensures var r := LevelStep(s);
      && r.level == LevelFor(s.distance)
      && (r.level != s.level ==> r.roadSpeed == s.roadSpeed + 0.5)
      && (r.level == s.level ==> r.roadSpeed == s.roadSpeed)
      && Count(r.events, SoundPlayed(LevelUp))
         == Count(s.events, SoundPlayed(LevelUp)) + (if r.level != s.level then 1 else 0)
      && Extends(s, r)
  {
    var r := LevelStep(s);
    if r.level != s.level {
      assert r.events == (s.events + [LevelChanged(r.level)]) + [SoundPlayed(LevelUp)];
      CountSnoc(s.events, LevelChanged(r.level), SoundPlayed(LevelUp));
      CountSnoc(s.events + [LevelChanged(r.level)], SoundPlayed(LevelUp), SoundPlayed(LevelUp));
    }
  }

  /** More distance never means a lower level. */
  lemma LevelMonotone(d1: real, d2: real)
    requires d1 <= d2
    ensures LevelFor(d1) <= LevelFor(d2)
  {
    assert d1 / 100.0 <= d2 / 100.0;
  }

  /** `updateObstacles` only moves and drops obstacles; all it keeps are above `height + 100`. */
  lemma ObstacleStepBounds(env: Env, s: Session, dt: real, roll: real, d: ObstacleDraws)
    requires EnvOK(env) && ObstacleDrawsOK(d)
    requires forall o :: o in s.obstacles ==> WellFormedObstacle(o)
    ensures var r := ObstacleStep(env, s, dt, roll, d);
      && (forall o :: o in r.obstacles ==> o.y < env.canvasHeight + 100.0 && WellFormedObstacle(o))
      && r == s.(obstacles := r.obstacles)
  {
    var moved := MoveObstacles(s.obstacles, Shift(s, dt), dt);
    forall o | o in moved ensures WellFormedObstacle(o) {
      var i :| 0 <= i < |moved| && moved[i] == o;
      assert s.obstacles[i] in s.obstacles;
    }
    NewObstacleShape(env, d);
  }

  /**
   * `updateCollectibles` leaves collected items where they are, then keeps
   * only uncollected ones above `height + 100`.
   */
  lemma CollectibleStepBounds(env: Env, s: Session, dt: real, roll: real, d: CollectibleDraws)
    requires EnvOK(env) && CollectibleDrawsOK(d)
    requires forall c :: c in s.collectibles ==> WellFormedCollectible(c)
    ensures forall c: Collectible :: c.collected ==> MoveCollectible(c, Shift(s, dt)) == c
    ensures var r := CollectibleStep(env, s, dt, roll, d);
      && (forall c :: c in r.collectibles ==>
            !c.collected && c.y < env.canvasHeight + 100.0 && WellFormedCollectible(c))
      && r == s.(collectibles := r.collectibles)
  {
    var moved := MoveCollectibles(s.collectibles, Shift(s, dt));
    forall c | c in moved ensures WellFormedCollectible(c) {
      var i :| 0 <= i < |moved| && moved[i] == c;
      assert s.collectibles[i] in s.collectibles;
    }
    NewCollectibleShape(env, d);
  }

  // ----- crash -----

  /** The new events of `r` over `s` push no positive crash-free distance. */
  predicate NewStatsKeepZero(s: Session, r: Session)
  {
    forall i :: |s.events| <= i < |r.events| && r.events[i].StatsPushed? ==>
      GameContext.KeepsNoCrashZero(r.events[i].update)
  }


  lemma CountPair(x: Event, y: Event, e: Event)
    ensures Count([x, y], e) == (if x == e then 1 else 0) + (if y == e then 1 else 0)
  {
    assert [x, y][1..] == [y];
    CountOne(y, e);
  }

  lemma CountTriple(x: Event, y: Event, z: Event, e: Event)
    ensures Count([x, y, z], e)
         == (if x == e then 1 else 0) + (if y == e then 1 else 0) + (if z == e then 1 else 0)
  {
    assert [x, y, z][1..] == [y, z];
    CountPair(y, z, e);
  }

  /** The three events `gameOver` sends: one game-over sound, one `onGameOver`, no crash sound. */
  lemma GameOverEffect(s: Session)
    ensures var r := GameOverSpec(s);
      && r.isGameOver
      && Extends(s, r)
      && Count(r.events, GameEnded) == Count(s.events, GameEnded) + 1
      && Count(r.events, SoundPlayed(Crash)) == Count(s.events, SoundPlayed(Crash))
      && Count(r.events, SoundPlayed(LevelUp)) == Count(s.events, SoundPlayed(LevelUp))
      && NewStatsKeepZero(s, r)
      && r == s.(isGameOver := true, events := r.events)
  {
    var tail := [SoundPlayed(GameOverSound),
      StatsPushed(StatsUpdate(Some(s.distance), None, None, None, Some(s.level), None)),
      GameEnded];
    forall e: Event ensures Count(s.events + tail, e) == Count(s.events, e) + Count(tail, e) {
      CountConcat(s.events, tail, e);
    }
    CountTriple(tail[0], tail[1], tail[2], GameEnded);
    CountTriple(tail[0], tail[1], tail[2], SoundPlayed(Crash));
    CountTriple(tail[0], tail[1], tail[2], SoundPlayed(LevelUp));
    var r := GameOverSpec(s);
    forall i | |s.events| <= i < |r.events| && r.events[i].StatsPushed?
      ensures GameContext.KeepsNoCrashZero(r.events[i].update)
    {
      assert r.events[i] == tail[i - |s.events|];
    }
  }

  /** The events a crash appends to the log of `s`. */
  function CrashEvents(s: Session): seq<Event>
  {
    [LivesChanged(s.lives - 1), SoundPlayed(Crash)]
    + (if s.lives - 1 <= 0
       then [SoundPlayed(GameOverSound),
             StatsPushed(StatsUpdate(Some(s.distance), None, None, None, Some(s.level), None)),
             GameEnded]
       else [])
    + [StatsPushed(CrashStats(0.0))]
  }

  /**
   * A crash costs one life, puts the car back in the middle at a standstill,
   * resets the crash-free distance, keeps exactly the obstacles above
   * `height - 200` and ends the game when the lives run out. Nothing else
   * changes but the log.
   */
  lemma HandleCrashEffect(env: Env, s: Session)
    ensures var r := HandleCrashSpec(env, s);
      && r.lives == s.lives - 1
      && r.player == s.player.(x := env.canvasWidth / 2.0, velocity := 0.0)
      && r.currentNoCrashDistance == 0.0
      && (forall o :: o in r.obstacles <==> o in s.obstacles && o.y < env.canvasHeight - 200.0)
      && (r.isGameOver <==> s.isGameOver || s.lives <= 1)
      && r.events == s.events + CrashEvents(s)
      && r == s.(lives := r.lives, player := r.player, currentNoCrashDistance := 0.0,
                 obstacles := r.obstacles, isGameOver := r.isGameOver, events := r.events)
  {
    var r := HandleCrashSpec(env, s);
    if s.lives - 1 <= 0 {
      assert r.events == s.events + [LivesChanged(s.lives - 1), SoundPlayed(Crash)]
        + [SoundPlayed(GameOverSound),
           StatsPushed(StatsUpdate(Some(s.distance), None, None, None, Some(s.level), None)),
           GameEnded]
        + [StatsPushed(CrashStats(0.0))];
    } else {
      assert r.events == s.events + [LivesChanged(s.lives - 1), SoundPlayed(Crash)]
        + [StatsPushed(CrashStats(0.0))];
    }
  }

  /**
   * A crash sounds `crash` once, signals the end of the game once when it
   * takes the last life, and, because the crash-free distance is reset before
   * the statistics are sent, always reports a longest crash-free distance of 0.
   */
  lemma CrashEventsCount(s: Session)
    ensures var evs := CrashEvents(s);
      && evs[|evs| - 1] == StatsPushed(CrashStats(0.0))
      && Count(evs, SoundPlayed(Crash)) == 1
      && Count(evs, GameEnded) == (if s.lives <= 1 then 1 else 0)
      && Count(evs, SoundPlayed(LevelUp)) == 0
      && forall i :: 0 <= i < |evs| && evs[i].StatsPushed? ==>
           GameContext.KeepsNoCrashZero(evs[i].update)
  {
    var evs := CrashEvents(s);
    var rest := evs[2..];
    assert evs == [LivesChanged(s.lives - 1)] + [SoundPlayed(Crash)] + rest;
    CountAbsent([LivesChanged(s.lives - 1)], SoundPlayed(Crash));
    CountAbsent(rest, SoundPlayed(Crash));
    CountAround([LivesChanged(s.lives - 1)], SoundPlayed(Crash), rest, SoundPlayed(Crash));
    CountAbsent(evs, SoundPlayed(LevelUp));
    if s.lives <= 1 {
      assert evs == evs[..4] + [GameEnded] + [evs[5]];
      CountAbsent(evs[..4], GameEnded);
      CountAbsent([evs[5]], GameEnded);
      CountAround(evs[..4], GameEnded, [evs[5]], GameEnded);
    } else {
      CountAbsent(evs, GameEnded);
    }
  }

  lemma {:induction false} CountAbsent(evs: seq<Event>, e: Event)
    requires e !in evs
    ensures Count(evs, e) == 0
    decreases |evs|
  {
    if evs != [] {
      assert evs[0] in evs;
      assert forall x :: x in evs[1..] ==> x in evs;
      CountAbsent(evs[1..], e);
    }
  }

  lemma CountAround(a: seq<Event>, x: Event, b: seq<Event>, e: Event)
    ensures Count(a + [x] + b, e) == Count(a, e) + (if x == e then 1 else 0) + Count(b, e)
  {
    CountConcat(a + [x], b, e);
    CountSnoc(a, x, e);
  }

  /** The log after a crash: the crash events appended, with their counts. */
  lemma HandleCrashLog(env: Env, s: Session)
    ensures var r := HandleCrashSpec(env, s);
      && Extends(s, r)
      && r.events[|r.events| - 1] == StatsPushed(CrashStats(0.0))
      && Count(r.events, SoundPlayed(Crash)) == Count(s.events, SoundPlayed(Crash)) + 1
      && Count(r.events, GameEnded) == Count(s.events, GameEnded) + (if s.lives <= 1 then 1 else 0)
      && Count(r.events, SoundPlayed(LevelUp)) == Count(s.events, SoundPlayed(LevelUp))
      && NewStatsKeepZero(s, r)
  {
    var r := HandleCrashSpec(env, s);
    var evs := CrashEvents(s);
    HandleCrashEffect(env, s);
    CrashEventsCount(s);
    assert r.events[..|s.events|] == s.events;
    CountConcat(s.events, evs, SoundPlayed(Crash));
    CountConcat(s.events, evs, GameEnded);
    CountConcat(s.events, evs, SoundPlayed(LevelUp));
    forall i | |s.events| <= i < |r.events| && r.events[i].StatsPushed?
      ensures GameContext.KeepsNoCrashZero(r.events[i].update)
    {
      assert r.events[i] == evs[i - |s.events|];
    }
  }

  // ----- pickups -----

  /**
   * What the collectible loop may change: it marks collectibles collected,
   * raises the fuel and boost counters, sets the score, sets the velocity to
   * the maximum and appends events that are neither crashes, level-ups nor
   * game endings.
   */
  predicate PickupFrame(s: Session, r: Session)
  {
    && |r.collectibles| == |s.collectibles|
    && (forall i :: 0 <= i < |s.collectibles| ==>
          r.collectibles[i] == s.collectibles[i] || r.collectibles[i] == s.collectibles[i].(collected := true))
    && r.fuelCollected >= s.fuelCollected
    && r.boostsUsed >= s.boostsUsed
    && (r.player.velocity == s.player.velocity || r.player.velocity == 15.0)
    && Extends(s, r)
    && NewStatsKeepZero(s, r)
    && Count(r.events, SoundPlayed(Crash)) == Count(s.events, SoundPlayed(Crash))
    && Count(r.events, GameEnded) == Count(s.events, GameEnded)
    && Count(r.events, SoundPlayed(LevelUp)) == Count(s.events, SoundPlayed(LevelUp))
    && r == s.(collectibles := r.collectibles, fuelCollected := r.fuelCollected,
               boostsUsed := r.boostsUsed, score := r.score,
               player := s.player.(velocity := r.player.velocity), events := r.events)
  }

  lemma PickupFrameRefl(s: Session)
    ensures PickupFrame(s, s)
  {
    assert s.events[..|s.events|] == s.events;
  }

  lemma PickupFrameTrans(a: Session, b: Session, c: Session)
    requires PickupFrame(a, b) && PickupFrame(b, c)
    ensures PickupFrame(a, c)
  {
    assert c.events[..|a.events|] == c.events[..|b.events|][..|a.events|];
    forall i | |a.events| <= i < |c.events| && c.events[i].StatsPushed?
      ensures GameContext.KeepsNoCrashZero(c.events[i].update)
    {
      if i < |b.events| {
        assert c.events[i] == b.events[i];
      }
    }
  }

  /**
   * A pickup marks the item collected and sounds `collect`; fuel adds one to
   * the fuel counter and 50 to the score, a boost adds one to the boost
   * counter and sets the velocity to the maximum, a coin adds 100 to the
   * score. The score reported afterwards is that score, but the score formula
   * of the next frame counts fuel at 50 and boosts at 100 and coins not at
   * all: a coin's bonus lasts one frame.
   */
  lemma HandleCollectEffect(env: Env, s: Session, j: int)
    requires EnvOK(env) && 0 <= j < |s.collectibles|
    ensures var c := s.collectibles[j];
      var r := HandleCollectSpec(env, s, j);
      && r.collectibles == s.collectibles[j := c.(collected := true)]
      && r.fuelCollected == s.fuelCollected + (if c.kind == Fuel then 1 else 0)
      && r.boostsUsed == s.boostsUsed + (if c.kind == Boost then 1 else 0)
      && r.score == s.score + (match c.kind case Fuel => 50 case Boost => 0 case Coin => 100)
      && ScoreFormula(r) == ScoreFormula(s) + (match c.kind case Fuel => 50 case Boost => 100 case Coin => 0)
      && r.player.velocity == (if c.kind == Boost then 15.0 else s.player.velocity)
      && r.events[|r.events| - 2] == ScoreChanged(r.score)
      && r.events[|r.events| - 1] == StatsPushed(CollectStats(r))
  {
  }

  /** The events a pickup of the given kind appends, given the resulting state. */
  function PickupEvents(kind: CollectibleKind, r: Session): seq<Event>
  {
    (if kind == Boost then [SoundPlayed(Collect), SoundPlayed(BoostSound)] else [SoundPlayed(Collect)])
    + [ScoreChanged(r.score), StatsPushed(CollectStats(r))]
  }

  lemma PickupEventsCount(kind: CollectibleKind, r: Session, e: Event)
    requires e == SoundPlayed(Crash) || e == GameEnded || e == SoundPlayed(LevelUp)
    ensures Count(PickupEvents(kind, r), e) == 0
  {
    var tail := [ScoreChanged(r.score), StatsPushed(CollectStats(r))];
    if kind == Boost {
      CountConcat([SoundPlayed(Collect), SoundPlayed(BoostSound)], tail, e);
      CountPair(SoundPlayed(Collect), SoundPlayed(BoostSound), e);
    } else {
      CountConcat([SoundPlayed(Collect)], tail, e);
      CountOne(SoundPlayed(Collect), e);
    }
    CountPair(tail[0], tail[1], e);
  }

  /** A pickup appends `PickupEvents` and changes nothing outside the pickup frame's fields. */
  lemma HandleCollectShape(env: Env, s: Session, j: int)
    requires EnvOK(env) && 0 <= j < |s.collectibles|
    ensures var r := HandleCollectSpec(env, s, j);
      && r.events == s.events + PickupEvents(s.collectibles[j].kind, r)
      && r == s.(collectibles := r.collectibles, fuelCollected := r.fuelCollected,
                 boostsUsed := r.boostsUsed, score := r.score,
                 player := s.player.(velocity := r.player.velocity), events := r.events)
  {
    var r := HandleCollectSpec(env, s, j);
    var tail := [ScoreChanged(r.score), StatsPushed(CollectStats(r))];
    match s.collectibles[j].kind
    case Boost =>
      assert r.events == s.events + [SoundPlayed(Collect)] + [SoundPlayed(BoostSound)] + tail;
    case _ =>
      assert r.events == s.events + [SoundPlayed(Collect)] + tail;
  }

  /** A state with a pickup's shape, counters and events (whatever its kind) is inside the pickup frame. */
  lemma PickupShapeFrame(s: Session, r: Session, j: int, kind: CollectibleKind)
    requires 0 <= j < |s.collectibles|
    requires r.collectibles == s.collectibles[j := s.collectibles[j].(collected := true)]
    requires r.fuelCollected >= s.fuelCollected && r.boostsUsed >= s.boostsUsed
    requires r.player.velocity == s.player.velocity || r.player.velocity == 15.0
    requires r.events == s.events + PickupEvents(kind, r)
    requires r == s.(collectibles := r.collectibles, fuelCollected := r.fuelCollected,
                     boostsUsed := r.boostsUsed, score := r.score,
                     player := s.player.(velocity := r.player.velocity), events := r.events)
    ensures PickupFrame(s, r)
  {
    var added := PickupEvents(kind, r);
    assert r.events[..|s.events|] == s.events;
    forall e: Event | e == SoundPlayed(Crash) || e == GameEnded || e == SoundPlayed(LevelUp)
      ensures Count(r.events, e) == Count(s.events, e)
    {
      CountConcat(s.events, added, e);
      PickupEventsCount(kind, r, e);
    }
    forall i | |s.events| <= i < |r.events| && r.events[i].StatsPushed?
      ensures GameContext.KeepsNoCrashZero(r.events[i].update)
    {
      assert r.events[i] == added[i - |s.events|];
    }
  }

  /** A pickup stays inside the pickup frame. */
  lemma HandleCollectFrame(env: Env, s: Session, j: int)
    requires EnvOK(env) && 0 <= j < |s.collectibles|
    ensures PickupFrame(s, HandleCollectSpec(env, s, j))
  {
    HandleCollectShape(env, s, j);
    HandleCollectEffect(env, s, j);
    PickupShapeFrame(s, HandleCollectSpec(env, s, j), j, s.collectibles[j].kind);
  }

  /** The whole collectible loop stays inside the pickup frame. */
  lemma {:induction false} CollectFromFrame(env: Env, s: Session, j: nat)
    requires EnvOK(env) && j <= |s.collectibles|
    ensures PickupFrame(s, CollectFrom(env, s, j))
    decreases |s.collectibles| - j
  {
    if j == |s.collectibles| {
      PickupFrameRefl(s);
    } else {
      var s' := if Picks(s, j) then HandleCollectSpec(env, s, j) else s;
      if Picks(s, j) {
        HandleCollectFrame(env, s, j);
      } else {
        PickupFrameRefl(s);
      }
      CollectFromFrame(env, s', j + 1);
      PickupFrameTrans(s, s', CollectFrom(env, s', j + 1));
    }
  }

  // ----- collisions, update and the frame loop -----

  lemma ExtendsTrans(a: Session, b: Session, c: Session)
    requires Extends(a, b) && Extends(b, c)
    ensures Extends(a, c)
  {
    assert c.events[..|a.events|] == c.events[..|b.events|][..|a.events|];
  }

  lemma StatsOKExtends(s: Session, r: Session)
    requires StatsOK(s) && Extends(s, r) && NewStatsKeepZero(s, r)
    ensures StatsOK(r)
  {
    forall i | 0 <= i < |r.events| && r.events[i].StatsPushed?
      ensures GameContext.KeepsNoCrashZero(r.events[i].update)
    {
      if i < |s.events| {
        assert r.events[i] == s.events[i];
      }
    }
  }

  /** The crash branch of `checkCollisions` keeps the invariant of a running game. */
  lemma CrashKeepsInv(env: Env, s: Session)
    requires Inv(s) && !s.isGameOver
    ensures var r := HandleCrashSpec(env, s);
      Inv(r) && Extends(s, r) && r.lives == s.lives - 1
  {
    var r := HandleCrashSpec(env, s);
    HandleCrashEffect(env, s);
    HandleCrashLog(env, s);
    StatsOKExtends(s, r);
    assert forall o :: o in r.obstacles ==> o in s.obstacles;
  }

  /** The pickup loop keeps the invariant. */
  lemma PickupsKeepInv(env: Env, s: Session)
    requires EnvOK(env) && Inv(s)
    ensures var r := CollectFrom(env, s, 0);
      && Inv(r) && Extends(s, r)
      && r.lives == s.lives && r.isGameOver == s.isGameOver
  {
    var r := CollectFrom(env, s, 0);
    CollectFromFrame(env, s, 0);
    StatsOKExtends(s, r);
    forall c | c in r.collectibles ensures WellFormedCollectible(c) {
      var i :| 0 <= i < |r.collectibles| && r.collectibles[i] == c;
      assert s.collectibles[i] in s.collectibles;
    }
  }

  /**
   * `checkCollisions` in a running game: at most one crash, so the lives drop
   * by one exactly when the car's hitbox overlaps some obstacle, and the
   * invariant holds afterwards. The road, the distance and the level stay.
   */
  lemma CheckCollisionsKeepsInv(env: Env, s: Session)
    requires EnvOK(env) && Inv(s) && !s.isGameOver
    ensures var r := CheckCollisionsSpec(env, s);
      && Inv(r) && Extends(s, r)
      && r.lives == s.lives - (if HitsAny(HitBox(s.player), s.obstacles) then 1 else 0)
      && r.distance == s.distance && r.level == s.level
      && r.roadOffset == s.roadOffset && r.roadSpeed == s.roadSpeed
      && r.isPaused == s.isPaused
      && (r.player.velocity in {0.0, 15.0} || r.player.velocity == s.player.velocity)
      && (r.currentNoCrashDistance == 0.0 || r.currentNoCrashDistance == s.currentNoCrashDistance)
      && r.fuelCollected >= s.fuelCollected && r.boostsUsed >= s.boostsUsed
  {
    var m := if HitsAny(HitBox(s.player), s.obstacles) then HandleCrashSpec(env, s) else s;
    if HitsAny(HitBox(s.player), s.obstacles) {
      CrashKeepsInv(env, s);
      HandleCrashEffect(env, s);
    }
    PickupsKeepInv(env, m);
    CollectFromFrame(env, m, 0);
    ExtendsTrans(s, m, CheckCollisionsSpec(env, s));
  }

  /** The control, travel, score and level steps, in `update`'s order. */
  function MotionPhase(env: Env, s: Session, input: Input, dt: real): Session
  {
    LevelStep(ScoreStep(TravelStep(ControlStep(env, s, input, dt), dt)))
  }

  /** The first four steps of `update` keep the invariant and touch neither entities nor lives. */
  lemma MotionPhaseKeepsInv(env: Env, s: Session, input: Input, dt: real)
    requires Inv(s)
    ensures var r := MotionPhase(env, s, input, dt);
      && Inv(r) && Extends(s, r)
      && r.obstacles == s.obstacles && r.collectibles == s.collectibles
      && r.lives == s.lives && r.isGameOver == s.isGameOver
  {
    var s2 := TravelStep(ControlStep(env, s, input, dt), dt);
    var s3 := ScoreStep(s2);
    var r := LevelStep(s3);
    LevelStepEffect(s3);
    CountSnoc(s.events, ScoreChanged(ScoreFormula(s2)), SoundPlayed(Crash));
    CountSnoc(s.events, ScoreChanged(ScoreFormula(s2)), GameEnded);
    CountSnoc(s.events, ScoreChanged(ScoreFormula(s2)), SoundPlayed(LevelUp));
    assert s3.events[..|s.events|] == s.events;
    var added := [];
    if r.level != s3.level {
      added := [LevelChanged(r.level), SoundPlayed(LevelUp)];
      assert r.events == s3.events + added;
      CountConcat(s3.events, added, SoundPlayed(Crash));
      CountConcat(s3.events, added, GameEnded);
      CountPair(added[0], added[1], SoundPlayed(Crash));
      CountPair(added[0], added[1], GameEnded);
    }
    ExtendsTrans(s, s3, r);
    assert r.events == s.events + [ScoreChanged(ScoreFormula(s2))] + added;
    forall i | |s.events| <= i < |r.events| ensures !r.events[i].StatsPushed? {
      if i > |s.events| {
        assert r.events[i] == added[i - |s.events| - 1];
      }
    }
    StatsOKExtends(s, r);
  }

  /**
   * One `update` of a running game keeps the invariant: the lives drop by at
   * most one, the game ends only with the last life, the crash sound count
   * stays `3 - lives`, the level follows the distance and the road speed the
   * level-ups, and every entity keeps its spawned shape.
   */
  lemma UpdateKeepsInv(env: Env, s: Session, input: Input, dt: real, d: TickDraws)
    requires EnvOK(env) && TickDrawsOK(d) && Inv(s) && !s.isGameOver
    ensures var r := UpdateSpec(env, s, input, dt, d);
      && Inv(r) && Extends(s, r)
      && s.lives - 1 <= r.lives <= s.lives
  {
    var s1 := MotionPhase(env, s, input, dt);
    MotionPhaseKeepsInv(env, s, input, dt);
    var s2 := ObstacleStep(env, s1, dt, d.obstacleRoll, d.obstacle);
    ObstacleStepBounds(env, s1, dt, d.obstacleRoll, d.obstacle);
    var s3 := CollectibleStep(env, s2, dt, d.collectibleRoll, d.collectible);
    CollectibleStepBounds(env, s2, dt, d.collectibleRoll, d.collectible);
    assert Inv(s3);
    CheckCollisionsKeepsInv(env, s3);
    ExtendsTrans(s, s3, UpdateSpec(env, s, input, dt, d));
  }

  /** Once the game is over, `gameLoop` returns at once and changes nothing, not even the clock. */
  lemma GameOverFreezes(env: Env, s: Session, input: Input, dt: real, d: TickDraws, lastTime: real, t: real)
    requires EnvOK(env) && TickDrawsOK(d) && s.isGameOver
    ensures GameLoopSpec(env, s, input, dt, d) == s
    ensures ClockAfter(s, lastTime, t) == lastTime
  {
  }

  /** While paused, a frame only moves the clock: nothing moves and no callback fires. */
  lemma PausedOnlyClock(env: Env, s: Session, input: Input, dt: real, d: TickDraws, lastTime: real, t: real)
    requires EnvOK(env) && TickDrawsOK(d) && !s.isGameOver && s.isPaused
    ensures GameLoopSpec(env, s, input, dt, d) == s
    ensures ClockAfter(s, lastTime, t) == t
  {
  }

  /** Every frame keeps the invariant and only extends the log. */
  lemma GameLoopKeepsInv(env: Env, s: Session, input: Input, dt: real, d: TickDraws)
    requires EnvOK(env) && TickDrawsOK(d) && Inv(s)
    ensures var r := GameLoopSpec(env, s, input, dt, d);
      Inv(r) && Extends(s, r)
  {
    assert s.events[..|s.events|] == s.events;
    if !s.isGameOver && !s.isPaused {
      UpdateKeepsInv(env, s, input, dt, d);
    }
  }

  // ----- forward time -----

  /** Velocity, road offset and distances in the ranges forward time keeps. */
  predicate MotionOK(s: Session)
  {
    && 0.0 <= s.player.velocity <= 15.0
    && 0.0 <= s.roadOffset <= 100.0
    && s.distance >= 0.0
    && s.currentNoCrashDistance >= 0.0
  }

  /** The score formula grows with the distance and the two counters. */
  lemma ScoreFormulaMonotone(a: Session, b: Session)
    requires a.distance <= b.distance
    requires a.fuelCollected <= b.fuelCollected && a.boostsUsed <= b.boostsUsed
    ensures ScoreFormula(a) <= ScoreFormula(b)
  {
    assert a.distance * 10.0 <= b.distance * 10.0;
  }

  /**
   * For a frame of non-negative length in a running game: the velocity stays
   * in [0, 15], the road offset in [0, 100], the distance and the level never
   * go down, and neither does the score formula (the displayed score can:
   * a coin's 100 points are gone in the next frame).
   */
  lemma UpdateMotion(env: Env, s: Session, input: Input, dt: real, d: TickDraws)
    requires EnvOK(env) && TickDrawsOK(d) && Inv(s) && MotionOK(s) && !s.isGameOver && dt >= 0.0
    ensures var r := UpdateSpec(env, s, input, dt, d);
      && MotionOK(r)
      && r.distance >= s.distance
      && r.level >= s.level
      && ScoreFormula(r) >= ScoreFormula(s)
  {
    CarsData.CarProfilesValid();
    var s1 := ControlStep(env, s, input, dt);
    ControlStepVelocity(env, s, input, dt);
    var s2 := TravelStep(s1, dt);
    TravelStepBounds(s1, dt);
    var s4 := MotionPhase(env, s, input, dt);
    LevelStepEffect(ScoreStep(s2));
    LevelMonotone(s.distance, s4.distance);
    MotionPhaseKeepsInv(env, s, input, dt);
    var s5 := ObstacleStep(env, s4, dt, d.obstacleRoll, d.obstacle);
    var s6 := CollectibleStep(env, s5, dt, d.collectibleRoll, d.collectible);
    ObstacleStepBounds(env, s4, dt, d.obstacleRoll, d.obstacle);
    CollectibleStepBounds(env, s5, dt, d.collectibleRoll, d.collectible);
    assert Inv(s6);
    CheckCollisionsKeepsInv(env, s6);
    ScoreFormulaMonotone(s, UpdateSpec(env, s, input, dt, d));
  }

  /**
   * The state after construction: three lives, level 1, the chosen car (the
   * first profile for an unknown id) at the bottom centre at rest, three
   * obstacles and two collectibles, and the invariants hold.
   */
  lemma InitialSessionOK(env: Env, carId: string, od: seq<ObstacleDraws>, cd: seq<CollectibleDraws>)
    requires EnvOK(env)
    requires |od| == 3 && forall i :: 0 <= i < 3 ==> ObstacleDrawsOK(od[i])
    requires |cd| == 2
    ensures var s := InitialSession(env, carId, od, cd);
      && Inv(s) && MotionOK(s)
      && s.lives == 3 && s.level == 1 && !s.isGameOver && !s.isPaused
      && |s.obstacles| == 3 && |s.collectibles| == 2
      && s.player.car in CarsData.Cars
      && ((exists i :: 0 <= i < |CarsData.Cars| && CarsData.Cars[i].id == carId) ==> s.player.car.id == carId)
  {
    NewObstacleShape(env, od[0]);
    NewObstacleShape(env, od[1]);
    NewObstacleShape(env, od[2]);
  }

  /**
   * A frame of negative length from rest with no throttle key held moves the
   * road backwards: with road speed 5 the offset becomes `0.5 * dt` below 0.
   */
  lemma BackwardsFrame(env: Env, s: Session, input: Input, dt: real, d: TickDraws)
    requires EnvOK(env) && TickDrawsOK(d)
    requires !s.isGameOver && !s.isPaused && !input.up && !input.down
    requires s.player.velocity == 0.0 && s.roadSpeed == 5.0 && s.roadOffset == 0.0
    requires dt < 0.0
    ensures GameLoopSpec(env, s, input, dt, d).roadOffset == 0.5 * dt
  {
    var s2 := TravelStep(ControlStep(env, s, input, dt), dt);
    assert s2.roadOffset == 0.5 * dt;
    var s4 := MotionPhase(env, s, input, dt);
    var s6 := CollectibleStep(env, ObstacleStep(env, s4, dt, d.obstacleRoll, d.obstacle),
      dt, d.collectibleRoll, d.collectible);
    CheckCollisionsFrame(env, s6);
  }

  /**
   * `start()` sets `lastTime` to the clock and then calls `gameLoop()` with
   * its default time 0, so the first frame runs for `-now` and leaves the
   * clock at 0: from rest on a fresh road the offset goes negative.
   */
  lemma StartRunsBackwards(env: Env, s: Session, input: Input, now: real, d: TickDraws)
    requires EnvOK(env) && TickDrawsOK(d)
    requires !s.isGameOver && !s.isPaused && !input.up && !input.down
    requires s.player.velocity == 0.0 && s.roadSpeed == 5.0 && s.roadOffset == 0.0
    requires now > 0.0
    ensures StartSpec(env, s, input, now, d).roadOffset == -0.5 * now
    ensures ClockAfter(s, now, 0.0) == 0.0
  {
    BackwardsFrame(env, s, input, Elapsed(now, 0.0), d);
  }

  /** What `checkCollisions` leaves alone, whatever the state. */
  lemma CheckCollisionsFrame(env: Env, s: Session)
    requires EnvOK(env)
    ensures var r := CheckCollisionsSpec(env, s);
      && r.roadOffset == s.roadOffset && r.roadSpeed == s.roadSpeed
      && r.distance == s.distance && r.level == s.level && r.isPaused == s.isPaused
  {
    var m := if HitsAny(HitBox(s.player), s.obstacles) then HandleCrashSpec(env, s) else s;
    if HitsAny(HitBox(s.player), s.obstacles) {
      HandleCrashEffect(env, s);
    }
    CollectFromFrame(env, m, 0);
  }

  /**
   * In the frame that takes the last life, `onGameOver` can be followed by a
   * pickup's `onScoreUpdate`: the obstacle loop ends the game, and a
   * collectible under the car's reset position is still collected afterwards.
   */
  lemma ScoreReportedAfterGameEnd(env: Env, s: Session)
    requires EnvOK(env) && !s.isGameOver && s.lives == 1
    requires HitsAny(HitBox(s.player), s.obstacles)
    requires |s.collectibles| == 1 && !s.collectibles[0].collected
    requires CollisionDetector.CheckCollision(
      HitBox(s.player.(x := env.canvasWidth / 2.0, velocity := 0.0)), CollectibleRect(s.collectibles[0]))
    ensures var r := CheckCollisionsSpec(env, s);
      exists i, k :: 0 <= i < k < |r.events| && r.events[i] == GameEnded && r.events[k] == ScoreChanged(r.score)
  {
    var m := HandleCrashSpec(env, s);
    var i := |s.events| + 4;
    assert m.events[i] == GameEnded;
    assert Picks(m, 0);
    var r := HandleCollectSpec(env, m, 0);
    assert CollectFrom(env, r, 1) == r;
    assert CheckCollisionsSpec(env, s) == r;
    HandleCollectEffect(env, m, 0);
    HandleCollectShape(env, m, 0);
    assert r.events[i] == GameEnded;
    assert r.events[|r.events| - 2] == ScoreChanged(r.score);
  }

  // ----- statistics -----

  /** The statistics updates in the log, in order. */
  function PushedStats(evs: seq<Event>): (r: seq<StatsUpdate>)
    ensures forall u :: u in r ==> StatsPushed(u) in evs
    decreases |evs|
  {
    if evs == [] then []
    else (if evs[0].StatsPushed? then [evs[0].update] else []) + PushedStats(evs[1..])
  }

  /**
   * No statistics the engine sends can raise `longestNoCrashDistance` above
   * 0, so from statistics where it is 0 the two crash-free achievements
   * ("Road Warrior", 5 km, and "Survivor", 10 km) can never hold.
   */
  lemma NoCrashAchievementsUnreachable(s: Session, base: GameStats)
    requires StatsOK(s) && base.longestNoCrashDistance == 0.0
    ensures var merged := GameContext.MergeAll(base, PushedStats(s.events));
      && merged.longestNoCrashDistance == 0.0
      && !AchievementsData.Holds(AchievementsData.Table[0].condition, merged)
      && !AchievementsData.Holds(AchievementsData.Table[4].condition, merged)
  {
    var us := PushedStats(s.events);
    forall i | 0 <= i < |us| ensures GameContext.KeepsNoCrashZero(us[i]) {
      assert us[i] in us;
      var k :| 0 <= k < |s.events| && s.events[k] == StatsPushed(us[i]);
    }
    GameContext.NoCrashDistanceStaysZero(base, us);
  }
}
