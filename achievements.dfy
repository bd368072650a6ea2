/**
 * The achievement table (src/data/achievements.ts). Each `condition` lambda of
 * the source is a single `>=` comparison on one statistics field; it is kept
 * as data (`AtLeast(field, threshold)`) and evaluated by `Holds`.
 */
module AchievementsData {
  import opened Wrappers
  import opened GameTypes

  datatype StatField =
    | TotalDistance
    | TotalFuelCollected
    | TotalBoostsUsed
    | CrashCount
    | HighestLevel
    | LongestNoCrashDistance

  datatype Condition = AtLeast(field: StatField, threshold: real)

  /** An achievement; `unlockedAt` is the unlock time as a timestamp. */
  datatype Achievement = Achievement(
    id: string,
    name: string,
    description: string,
    icon: string,
    unlocked: bool,
    unlockedAt: Option<int>,
    condition: Condition)

  function FieldValue(stats: GameStats, f: StatField): real
  {
    match f
    case TotalDistance => stats.totalDistance
    case TotalFuelCollected => stats.totalFuelCollected as real
    case TotalBoostsUsed => stats.totalBoostsUsed as real
    case CrashCount => stats.crashCount as real
    case HighestLevel => stats.highestLevel as real
    case LongestNoCrashDistance => stats.longestNoCrashDistance
  }

  /** `achievement.condition(stats)`. */
  predicate Holds(c: Condition, stats: GameStats)
  {
    FieldValue(stats, c.field) >= c.threshold
  }

  /** Every field of `a` is at most the same field of `b`. */
  predicate StatsLe(a: GameStats, b: GameStats)
  {
    forall f: StatField :: FieldValue(a, f) <= FieldValue(b, f)
  }

  const Table: seq<Achievement> := [
    Achievement("first-5km", "Road Warrior", "Drive 5KM without crashing",
      "\U{1F3C1}", false, None, AtLeast(LongestNoCrashDistance, 5000.0)),
    Achievement("fuel-master", "Fuel Master", "Collect 10 fuel cans",
      "\U{26FD}", false, None, AtLeast(TotalFuelCollected, 10.0)),
    Achievement("speed-demon", "Speed Demon", "Use 5 boosts",
      "\U{1F680}", false, None, AtLeast(TotalBoostsUsed, 5.0)),
    Achievement("level-5", "Level Master", "Reach level 5",
      "\U{2B50}", false, None, AtLeast(HighestLevel, 5.0)),
    Achievement("survivor", "Survivor", "Play without crashing for 10KM",
      "\U{1F6E1}\U{FE0F}", false, None, AtLeast(LongestNoCrashDistance, 10000.0)),
    Achievement("distance-king", "Distance King", "Travel a total of 50KM",
      "\U{1F451}", false, None, AtLeast(TotalDistance, 50000.0))
  ]

  /** Pairwise distinct ids. */
  predicate DistinctIds(list: seq<Achievement>)
  {
    forall i, j :: 0 <= i < j < |list| ==> list[i].id != list[j].id
  }

  /** Six achievements, distinct ids, none unlocked in the table itself. */
  lemma TableShape()
    ensures |Table| == 6
    ensures DistinctIds(Table)
    ensures forall a :: a in Table ==> !a.unlocked && a.unlockedAt.None?
  {
  }

  /** The thresholds of the six conditions, by id. */
  lemma TableConditions()
    ensures Table[0].id == "first-5km" && Table[0].condition == AtLeast(LongestNoCrashDistance, 5000.0)
    ensures Table[1].id == "fuel-master" && Table[1].condition == AtLeast(TotalFuelCollected, 10.0)
    ensures Table[2].id == "speed-demon" && Table[2].condition == AtLeast(TotalBoostsUsed, 5.0)
    ensures Table[3].id == "level-5" && Table[3].condition == AtLeast(HighestLevel, 5.0)
    ensures Table[4].id == "survivor" && Table[4].condition == AtLeast(LongestNoCrashDistance, 10000.0)
    ensures Table[5].id == "distance-king" && Table[5].condition == AtLeast(TotalDistance, 50000.0)
  {
  }

  /** Raising statistics never turns a satisfied condition false. */
  lemma ConditionMonotone(c: Condition, a: GameStats, b: GameStats)
    requires StatsLe(a, b)
    ensures Holds(c, a) ==> Holds(c, b)
  {
    assert FieldValue(a, c.field) <= FieldValue(b, c.field);
  }

  /** Whoever has earned `survivor` has also earned `first-5km`. */
  lemma SurvivorImpliesFirst5km(stats: GameStats)
    ensures Holds(Table[4].condition, stats) ==> Holds(Table[0].condition, stats)
  {
  }
}
