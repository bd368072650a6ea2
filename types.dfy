/**
 * The records of the game (src/types/game.ts). JavaScript numbers are modelled
 * as `real` where the game computes with fractions (positions, distances) and
 * as `int` where only whole values occur (counters, ratings, levels).
 */
module GameTypes {
  import opened Wrappers

  /** Screens of the application. `PausedScreen` exists in the type but no code enters it. */
  datatype GameState =
    | Menu
    | CarSelectionScreen
    | Playing
    | PausedScreen
    | GameOverScreen
    | LeaderboardScreen
    | AchievementsScreen

  /** A car profile; `sprite` is optional in the type and unused by every profile. */
  datatype Car = Car(
    id: string,
    name: string,
    speed: int,
    handling: int,
    acceleration: int,
    color: string,
    sprite: Option<string>)

  datatype ObstacleKind = TrafficCar | Oil | Broken

  /** An obstacle. `x, y` is the point the collision test treats as the top-left corner. */
  datatype Obstacle = Obstacle(
    x: real,
    y: real,
    width: real,
    height: real,
    kind: ObstacleKind,
    speed: Option<real>,
    lane: Option<int>)

  datatype CollectibleKind = Fuel | Boost | Coin

  datatype Collectible = Collectible(
    x: real,
    y: real,
    width: real,
    height: real,
    kind: CollectibleKind,
    collected: bool)

  /** Aggregated statistics across sessions. */
  datatype GameStats = GameStats(
    totalDistance: real,
    totalFuelCollected: int,
    totalBoostsUsed: int,
    crashCount: int,
    highestLevel: int,
    longestNoCrashDistance: real)

  /** `Partial<GameStats>`: a field is present when it is `Some`. */
  datatype StatsUpdate = StatsUpdate(
    totalDistance: Option<real>,
    totalFuelCollected: Option<int>,
    totalBoostsUsed: Option<int>,
    crashCount: Option<int>,
    highestLevel: Option<int>,
    longestNoCrashDistance: Option<real>)

  const NoStatsUpdate := StatsUpdate(None, None, None, None, None, None)

  datatype GameConfig = GameConfig(
    canvasWidth: real,
    canvasHeight: real,
    roadWidth: real,
    laneCount: real,
    baseSpeed: real,
    maxSpeed: real,
    acceleration: real,
    deceleration: real)

  /** The four directional intents returned by the input handler. */
  datatype Input = Input(up: bool, down: bool, left: bool, right: bool)
}
