/**
 * The statistics and achievement store of src/contexts/GameContext.tsx: a
 * partial-record merge for `updateStats`, the filter/map of
 * `checkAchievements`, and `resetStats`. The pure computations are functions;
 * the provider's two state variables are the fields of `GameContextState`,
 * whose methods replace them as the React setters do.
 */
module GameContext {
  import opened Wrappers
  import opened GameTypes
  import opened AchievementsData

  /** `initialStats`: all zeros except `highestLevel`, which starts at 1. */
  const InitialStats := GameStats(0.0, 0, 0, 0, 1, 0.0)

  /** Whether the update carries the field. */
  predicate Present(u: StatsUpdate, f: StatField)
  {
    match f
    case TotalDistance => u.totalDistance.Some?
    case TotalFuelCollected => u.totalFuelCollected.Some?
    case TotalBoostsUsed => u.totalBoostsUsed.Some?
    case CrashCount => u.crashCount.Some?
    case HighestLevel => u.highestLevel.Some?
    case LongestNoCrashDistance => u.longestNoCrashDistance.Some?
  }

  /** The value the update carries for a present field. */
  function Carried(u: StatsUpdate, f: StatField): real
    requires Present(u, f)
  {
    match f
    case TotalDistance => u.totalDistance.value
    case TotalFuelCollected => u.totalFuelCollected.value as real
    case TotalBoostsUsed => u.totalBoostsUsed.value as real
    case CrashCount => u.crashCount.value as real
    case HighestLevel => u.highestLevel.value as real
    case LongestNoCrashDistance => u.longestNoCrashDistance.value
  }

  /** `{ ...prev, ...updates }`: present fields overwrite, absent ones are kept. */
  function MergeStats(prev: GameStats, u: StatsUpdate): (r: GameStats)
    ensures forall f: StatField :: Present(u, f) ==> FieldValue(r, f) == Carried(u, f)
    ensures forall f: StatField :: !Present(u, f) ==> FieldValue(r, f) == FieldValue(prev, f)
  {
    GameStats(
      u.totalDistance.GetOr(prev.totalDistance),
      u.totalFuelCollected.GetOr(prev.totalFuelCollected),
      u.totalBoostsUsed.GetOr(prev.totalBoostsUsed),
      u.crashCount.GetOr(prev.crashCount),
      u.highestLevel.GetOr(prev.highestLevel),
      u.longestNoCrashDistance.GetOr(prev.longestNoCrashDistance))
  }

  /** Two statistics records are equal when they agree on every field. */
  lemma StatsExtensional(a: GameStats, b: GameStats)
    requires forall f: StatField :: FieldValue(a, f) == FieldValue(b, f)
    ensures a == b
  {
    assert FieldValue(a, TotalFuelCollected) == FieldValue(b, TotalFuelCollected);
    assert FieldValue(a, TotalBoostsUsed) == FieldValue(b, TotalBoostsUsed);
    assert FieldValue(a, CrashCount) == FieldValue(b, CrashCount);
    assert FieldValue(a, HighestLevel) == FieldValue(b, HighestLevel);
    assert FieldValue(a, TotalDistance) == FieldValue(b, TotalDistance);
    assert FieldValue(a, LongestNoCrashDistance) == FieldValue(b, LongestNoCrashDistance);
  }

  /** The update that has the effect of `u1` followed by `u2`: later fields win. */
  function Combine(u1: StatsUpdate, u2: StatsUpdate): (r: StatsUpdate)
    ensures forall f: StatField :: Present(r, f) <==> Present(u1, f) || Present(u2, f)
  {
    StatsUpdate(
      if u2.totalDistance.Some? then u2.totalDistance else u1.totalDistance,
      if u2.totalFuelCollected.Some? then u2.totalFuelCollected else u1.totalFuelCollected,
      if u2.totalBoostsUsed.Some? then u2.totalBoostsUsed else u1.totalBoostsUsed,
      if u2.crashCount.Some? then u2.crashCount else u1.crashCount,
      if u2.highestLevel.Some? then u2.highestLevel else u1.highestLevel,
      if u2.longestNoCrashDistance.Some? then u2.longestNoCrashDistance else u1.longestNoCrashDistance)
  }

  /** An empty update changes nothing. */
  lemma MergeEmpty(s: GameStats)
    ensures MergeStats(s, NoStatsUpdate) == s
  {
    StatsExtensional(MergeStats(s, NoStatsUpdate), s);
  }

  /** Applying the same update twice is applying it once. */
  lemma MergeIdempotent(s: GameStats, u: StatsUpdate)
    ensures MergeStats(MergeStats(s, u), u) == MergeStats(s, u)
  {
    StatsExtensional(MergeStats(MergeStats(s, u), u), MergeStats(s, u));
  }

  /** Two updates in a row are one combined update. */
  lemma MergeCompose(s: GameStats, u1: StatsUpdate, u2: StatsUpdate)
    ensures MergeStats(MergeStats(s, u1), u2) == MergeStats(s, Combine(u1, u2))
  {
    var c := Combine(u1, u2);
    forall f: StatField
      ensures FieldValue(MergeStats(MergeStats(s, u1), u2), f) == FieldValue(MergeStats(s, c), f)
    {
      match f
      case TotalDistance =>
      case TotalFuelCollected =>
      case TotalBoostsUsed =>
      case CrashCount =>
      case HighestLevel =>
      case LongestNoCrashDistance =>
    }
    StatsExtensional(MergeStats(MergeStats(s, u1), u2), MergeStats(s, c));
  }

  /** The merge does not accumulate: a present field's old value is irrelevant. */
  lemma MergeOverwrites(a: GameStats, b: GameStats, u: StatsUpdate, f: StatField)
    requires Present(u, f)
    ensures FieldValue(MergeStats(a, u), f) == FieldValue(MergeStats(b, u), f)
  {
  }

  /** `updateStats` applied to each update in turn. */
  function MergeAll(s: GameStats, us: seq<StatsUpdate>): GameStats
    decreases |us|
  {
    if us == [] then s else MergeAll(MergeStats(s, us[0]), us[1..])
  }

  /** An update that leaves `longestNoCrashDistance` absent or sends it as 0. */
  predicate KeepsNoCrashZero(u: StatsUpdate)
  {
    u.longestNoCrashDistance.None? || u.longestNoCrashDistance == Some(0.0)
  }

  /**
   * Updates that never send a positive `longestNoCrashDistance` keep it at 0
   * from `initialStats`, so neither `first-5km` nor `survivor` can hold.
   */
  lemma {:induction false} NoCrashDistanceStaysZero(s: GameStats, us: seq<StatsUpdate>)
    requires s.longestNoCrashDistance == 0.0
    requires forall i :: 0 <= i < |us| ==> KeepsNoCrashZero(us[i])
    ensures MergeAll(s, us).longestNoCrashDistance == 0.0
    ensures !Holds(Table[0].condition, MergeAll(s, us))
    ensures !Holds(Table[4].condition, MergeAll(s, us))
    decreases |us|
  {
    if us != [] {
      var s' := MergeStats(s, us[0]);
      assert s'.longestNoCrashDistance == 0.0;
      NoCrashDistanceStaysZero(s', us[1..]);
    }
  }

  /** `unlockedAchievements.some(a => a.id === id)`. */
  predicate HasId(list: seq<Achievement>, id: string)
  {
    exists i :: 0 <= i < |list| && list[i].id == id
  }

  /** Whether `checkAchievements` selects this table entry. */
  predicate Qualifies(a: Achievement, unlocked: seq<Achievement>, stats: GameStats)
  {
    !HasId(unlocked, a.id) && Holds(a.condition, stats)
  }

  /** `achievements.filter(...)`: the not-yet-unlocked entries whose condition holds, in table order. */
  function NewlyUnlocked(table: seq<Achievement>, unlocked: seq<Achievement>, stats: GameStats)
    : (r: seq<Achievement>)
    ensures |r| <= |table|
    decreases |table|
  {
    if table == [] then []
    else
      (if Qualifies(table[0], unlocked, stats) then [table[0]] else [])
      + NewlyUnlocked(table[1..], unlocked, stats)
  }

  /** The filter keeps exactly the qualifying entries. */
  lemma {:induction false} NewlyUnlockedMembers(
    table: seq<Achievement>, unlocked: seq<Achievement>, stats: GameStats, a: Achievement)
    ensures a in NewlyUnlocked(table, unlocked, stats) <==> a in table && Qualifies(a, unlocked, stats)
    decreases |table|
  {
    if table != [] {
      NewlyUnlockedMembers(table[1..], unlocked, stats, a);
      assert table == [table[0]] + table[1..];
    }
  }

  /** Filtering a table with distinct ids gives distinct ids. */
  lemma {:induction false} NewlyUnlockedDistinct(
    table: seq<Achievement>, unlocked: seq<Achievement>, stats: GameStats)
    requires DistinctIds(table)
    ensures DistinctIds(NewlyUnlocked(table, unlocked, stats))
    decreases |table|
  {
    if table != [] {
      var rest := NewlyUnlocked(table[1..], unlocked, stats);
      assert DistinctIds(table[1..]) by {
        forall i, j | 0 <= i < j < |table[1..]| ensures table[1..][i].id != table[1..][j].id {
          assert table[1..][i] == table[i + 1] && table[1..][j] == table[j + 1];
        }
      }
      NewlyUnlockedDistinct(table[1..], unlocked, stats);
      forall k | 0 <= k < |rest| ensures rest[k].id != table[0].id {
        NewlyUnlockedMembers(table[1..], unlocked, stats, rest[k]);
        var m :| 0 <= m < |table[1..]| && table[1..][m] == rest[k];
        assert table[m + 1] == rest[k];
      }
    }
  }

  /** `newUnlocked.map(a => ({ ...a, unlocked: true, unlockedAt: now }))`. */
  function MarkUnlocked(list: seq<Achievement>, now: int): (r: seq<Achievement>)
    ensures |r| == |list|
    ensures forall i :: 0 <= i < |r| ==> r[i] == list[i].(unlocked := true, unlockedAt := Some(now))
  {
    seq(|list|, i requires 0 <= i < |list| => list[i].(unlocked := true, unlockedAt := Some(now)))
  }

  /**
   * The unlocked list after `checkAchievements` against `table` (the source
   * uses `achievements`, `AchievementsData.Table`), with `now` the clock reading.
   */
  function CheckAchievementsSpec(
    table: seq<Achievement>, unlocked: seq<Achievement>, stats: GameStats, now: int)
    : seq<Achievement>
  {
    var added := NewlyUnlocked(table, unlocked, stats);
    if |added| > 0 then unlocked + MarkUnlocked(added, now) else unlocked
  }

  /** The old list is kept as a prefix and every appended entry is marked unlocked at `now`. */
  lemma CheckAchievementsKeepsPrefix(
    table: seq<Achievement>, unlocked: seq<Achievement>, stats: GameStats, now: int)
    ensures var r := CheckAchievementsSpec(table, unlocked, stats, now);
      && |unlocked| <= |r|
      && r[..|unlocked|] == unlocked
      && (forall i :: |unlocked| <= i < |r| ==> r[i].unlocked && r[i].unlockedAt == Some(now))
  {
  }

  /** Over a table with distinct ids, an entry's id is appended exactly when it qualifies. */
  lemma CheckAchievementsAppends(
    table: seq<Achievement>, unlocked: seq<Achievement>, stats: GameStats, now: int, a: Achievement)
    requires DistinctIds(table) && a in table
    ensures var r := CheckAchievementsSpec(table, unlocked, stats, now);
      Qualifies(a, unlocked, stats) <==> exists i :: |unlocked| <= i < |r| && r[i].id == a.id
  {
    var added := NewlyUnlocked(table, unlocked, stats);
    var r := CheckAchievementsSpec(table, unlocked, stats, now);
    NewlyUnlockedMembers(table, unlocked, stats, a);
    if Qualifies(a, unlocked, stats) {
      var k :| 0 <= k < |added| && added[k] == a;
      assert r[|unlocked| + k].id == a.id;
    }
    if exists i :: |unlocked| <= i < |r| && r[i].id == a.id {
      var i :| |unlocked| <= i < |r| && r[i].id == a.id;
      var b := added[i - |unlocked|];
      assert r[i].id == b.id;
      NewlyUnlockedMembers(table, unlocked, stats, b);
      var p :| 0 <= p < |table| && table[p] == a;
      var q :| 0 <= q < |table| && table[q] == b;
      assert p == q;
    }
  }

  /** When nothing qualifies, the list is left as it was. */
  lemma CheckAchievementsNoneQualify(
    table: seq<Achievement>, unlocked: seq<Achievement>, stats: GameStats, now: int)
    requires forall a :: a in table ==> !Qualifies(a, unlocked, stats)
    ensures CheckAchievementsSpec(table, unlocked, stats, now) == unlocked
  {
    var added := NewlyUnlocked(table, unlocked, stats);
    if |added| > 0 {
      NewlyUnlockedMembers(table, unlocked, stats, added[0]);
    }
  }

  /** Distinct unlocked ids stay distinct. */
  lemma CheckAchievementsDistinct(
    table: seq<Achievement>, unlocked: seq<Achievement>, stats: GameStats, now: int)
    requires DistinctIds(table) && DistinctIds(unlocked)
    ensures DistinctIds(CheckAchievementsSpec(table, unlocked, stats, now))
  {
    var added := NewlyUnlocked(table, unlocked, stats);
    var r := CheckAchievementsSpec(table, unlocked, stats, now);
    if |added| > 0 {
      NewlyUnlockedDistinct(table, unlocked, stats);
      forall i, j | 0 <= i < j < |r| ensures r[i].id != r[j].id {
        if |unlocked| <= i {
          assert r[i].id == added[i - |unlocked|].id && r[j].id == added[j - |unlocked|].id;
        } else if |unlocked| <= j {
          NewlyUnlockedMembers(table, unlocked, stats, added[j - |unlocked|]);
          assert r[j].id == added[j - |unlocked|].id;
          assert r[i] == unlocked[i];
        }
      }
    }
  }

  /** A second check with the same statistics appends nothing. */
  lemma CheckAchievementsTwice(
    table: seq<Achievement>, unlocked: seq<Achievement>, stats: GameStats, now: int, later: int)
    requires DistinctIds(table)
    ensures var once := CheckAchievementsSpec(table, unlocked, stats, now);
      CheckAchievementsSpec(table, once, stats, later) == once
  {
    var once := CheckAchievementsSpec(table, unlocked, stats, now);
    CheckAchievementsKeepsPrefix(table, unlocked, stats, now);
    forall a | a in table ensures !Qualifies(a, once, stats) {
      if HasId(unlocked, a.id) {
        var i :| 0 <= i < |unlocked| && unlocked[i].id == a.id;
        assert once[i] == once[..|unlocked|][i];
      } else if Holds(a.condition, stats) {
        CheckAchievementsAppends(table, unlocked, stats, now, a);
      }
    }
    CheckAchievementsNoneQualify(table, once, stats, later);
  }

  /** The provider's state: `stats` and `unlockedAchievements`. */
  class GameContextState {
    var stats: GameStats
    var unlockedAchievements: seq<Achievement>

    /**
     * The provider's initial state: the saved values when storage holds them,
     * otherwise `initialStats` and an empty list.
     */
    constructor (saved: Option<GameStats>, savedUnlocked: Option<seq<Achievement>>)
      ensures stats == saved.GetOr(InitialStats)
      ensures unlockedAchievements == savedUnlocked.GetOr([])
    {
      stats := saved.GetOr(InitialStats);
      unlockedAchievements := savedUnlocked.GetOr([]);
    }

    method UpdateStats(u: StatsUpdate)
      modifies this
      ensures stats == MergeStats(old(stats), u)
      ensures unlockedAchievements == old(unlockedAchievements)
    {
      stats := MergeStats(stats, u);
    }

    method CheckAchievements(now: int)
      modifies this
      ensures unlockedAchievements == CheckAchievementsSpec(Table, old(unlockedAchievements), stats, now)
      ensures stats == old(stats)
    {
      var added := NewlyUnlocked(Table, unlockedAchievements, stats);
      if |added| > 0 {
        unlockedAchievements := unlockedAchievements + MarkUnlocked(added, now);
      }
    }

    method ResetStats()
      modifies this
      ensures stats == InitialStats && unlockedAchievements == []
    {
      stats := InitialStats;
      unlockedAchievements := [];
    }
  }
}
