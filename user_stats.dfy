/**
 * The profile statistics of app/.../data/UserStats.kt: the lifetime totals
 * over every logged set, the experience points they earn and the level those
 * points reach. Levels are found by a loop that pays each level's threshold
 * out of the points in turn; the thresholds grow by 1000 per level, so the
 * points needed to reach a level have a closed form, and the loop is proved
 * to stop at the one level whose bracket holds the points.
 */
module UserStats {
  import opened Seqs
  import opened Domain
  import GymUtils

  datatype UserStats = UserStats(
    level: int,
    currentXp: int,
    nextLevelXp: int,
    streak: int,
    totalVolume: real,
    totalWorkouts: int,
    totalReps: int,
    totalSets: int,
    maxWeight: real,
    max1RM: real,
    exerciseCount: int,
    cycleCount: int)

  // ---------------------------------------------------------------------------
  // Experience points and levels
  // ---------------------------------------------------------------------------

  /** 5 points per set, one per 20 of volume (truncated), 50 per workout date. */
  function TotalXp(totalSets: int, totalVolume: real, uniqueDates: int): (xp: int)
    ensures totalSets >= 0 && totalVolume >= 0.0 && uniqueDates >= 0 ==> xp >= 0
    ensures totalVolume >= 0.0 ==>
      (xp - 5 * totalSets - 50 * uniqueDates) as real <= totalVolume / 20.0 < (xp - 5 * totalSets - 50 * uniqueDates + 1) as real
  {
    totalSets * 5 + ToInt(totalVolume / 20.0) + uniqueDates * 50
  }

  /** The points a level costs before the next one: 2000 at level 1, 1000 more per level. */
  function Threshold(level: int): int {
    1000 * (level + 1)
  }

  /** The points needed to reach `level` from level 1. */
  function CumulativeXp(level: int): int {
    500 * (level - 1) * (level + 2)
  }

  lemma CumulativeXpStep(level: int)
    ensures CumulativeXp(level + 1) == CumulativeXp(level) + Threshold(level)
  {
    assert (level + 1 - 1) * (level + 1 + 2) == (level - 1) * (level + 2) + 2 * (level + 1);
  }

  /** Reaching a higher level never costs fewer points. */
  lemma CumulativeXpMonotone(a: int, b: int)
    requires 1 <= a <= b
    ensures CumulativeXp(a) <= CumulativeXp(b)
  {
    assert (b - 1) * (b + 2) - (a - 1) * (a + 2) == (b - a) * (b + a + 1);
    assert (b - a) * (b + a + 1) >= 0;
  }

  /** `totalXp` points reach exactly `level`: enough for it and not for the next. */
  predicate LevelBracket(totalXp: int, level: int) {
    level >= 1 && CumulativeXp(level) <= totalXp < CumulativeXp(level + 1)
  }

  /**
   * The loop of `calculateUserStats`: while the points left cover the
   * threshold, pay it, go up a level and raise the threshold by 1000.
   */
  method LevelFromXp(totalXp: int) returns (level: int, currentXp: int, nextLevelXp: int)
    ensures level >= 1 && nextLevelXp == Threshold(level)
    ensures totalXp == CumulativeXp(level) + currentXp
    ensures currentXp < nextLevelXp
    ensures totalXp >= 0 ==> 0 <= currentXp && LevelBracket(totalXp, level)
    ensures totalXp < 2000 ==> level == 1 && currentXp == totalXp
  {
    currentXp := totalXp;
    level := 1;
    nextLevelXp := 2000;
    while currentXp >= nextLevelXp
      invariant level >= 1 && nextLevelXp == Threshold(level)
      invariant totalXp == CumulativeXp(level) + currentXp
      invariant totalXp >= 0 ==> currentXp >= 0
      invariant level > 1 ==> currentXp >= 0
      decreases currentXp
    {
      CumulativeXpStep(level);
      currentXp := currentXp - nextLevelXp;
      level := level + 1;
      nextLevelXp := nextLevelXp + 1000;
    }
    CumulativeXpStep(level);
  }

  /** The points determine the level: two brackets holding the same points are the same. */
  lemma LevelBracketUnique(totalXp: int, l1: int, l2: int)
    requires LevelBracket(totalXp, l1) && LevelBracket(totalXp, l2)
    ensures l1 == l2
  {
    if l1 < l2 {
      CumulativeXpMonotone(l1 + 1, l2);
    } else if l2 < l1 {
      CumulativeXpMonotone(l2 + 1, l1);
    }
  }

  /** More points never mean a lower level. */
  lemma LevelMonotone(xp1: int, l1: int, xp2: int, l2: int)
    requires LevelBracket(xp1, l1) && LevelBracket(xp2, l2) && xp1 <= xp2
    ensures l1 <= l2
  {
    if l1 > l2 {
      CumulativeXpMonotone(l2 + 1, l1);
    }
  }

  /** The brackets of the comments in the source: 0-2000, 2000-5000, 5000-9000. */
  lemma LevelBracketsOfFirstLevels()
    ensures LevelBracket(0, 1) && LevelBracket(1999, 1)
    ensures LevelBracket(2000, 2) && LevelBracket(4999, 2)
    ensures LevelBracket(5000, 3) && LevelBracket(8999, 3)
  {
  }

  // ---------------------------------------------------------------------------
  // Lifetime totals
  // ---------------------------------------------------------------------------

  /** The estimated one-rep max of every set, in list order. */
  function OneRepMaxes(sets: seq<ExerciseSet>): (e: seq<real>)
    ensures |e| == |sets|
    ensures forall i :: 0 <= i < |sets| ==> e[i] == GymUtils.Calculate1RM(sets[i].weight, sets[i].reps)
  {
    if |sets| == 0 then [] else [GymUtils.Calculate1RM(sets[0].weight, sets[0].reps)] + OneRepMaxes(sets[1..])
  }

  /** `maxOfOrNull { calculate1RM(weight, reps) } ?: 0.0` */
  function Max1RM(sets: seq<ExerciseSet>): (m: real)
    ensures |sets| == 0 ==> m == 0.0
    ensures forall i :: 0 <= i < |sets| ==> GymUtils.Calculate1RM(sets[i].weight, sets[i].reps) <= m
    ensures |sets| > 0 ==> exists i :: 0 <= i < |sets| && GymUtils.Calculate1RM(sets[i].weight, sets[i].reps) == m
  {
    if |sets| == 0 then 0.0
    else
      var e := OneRepMaxes(sets);
      var m := SeqMax(e);
      assert e[FirstIndexOf(e, m)] == m;
      m
  }

  /** The streak is the number of distinct workout dates, consecutive or not. */
  function CalculateStreak(dates: seq<string>): int {
    |dates|
  }

  /**
   * The profile: totals over all sets, the counts of exercises and cycles,
   * and the level reached by the points the totals earn.
   */
  method CalculateUserStats(exercises: seq<Exercise>, allSets: seq<ExerciseSet>, cycles: seq<TrainingCycle>)
    returns (stats: UserStats)
    ensures stats.totalVolume == TotalVolume(allSets)
    ensures stats.totalReps == TotalReps(allSets)
    ensures stats.totalSets == |allSets|
    ensures stats.totalWorkouts == |WorkoutDates(allSets)| && stats.streak == stats.totalWorkouts
    ensures stats.exerciseCount == |exercises| && stats.cycleCount == |cycles|
    ensures |allSets| == 0 ==> stats.maxWeight == 0.0 && stats.max1RM == 0.0
    ensures forall i :: 0 <= i < |allSets| ==>
      Weight(allSets[i]) <= stats.maxWeight && GymUtils.Calculate1RM(allSets[i].weight, allSets[i].reps) <= stats.max1RM
    ensures |allSets| > 0 ==> exists i :: 0 <= i < |allSets| && Weight(allSets[i]) == stats.maxWeight
    ensures |allSets| > 0 ==> exists i :: 0 <= i < |allSets| && GymUtils.Calculate1RM(allSets[i].weight, allSets[i].reps) == stats.max1RM
    ensures var xp := TotalXp(stats.totalSets, stats.totalVolume, stats.totalWorkouts);
      && stats.level >= 1
      && stats.nextLevelXp == Threshold(stats.level)
      && xp == CumulativeXp(stats.level) + stats.currentXp
      && (xp >= 0 ==> 0 <= stats.currentXp < stats.nextLevelXp && LevelBracket(xp, stats.level))
  {
    var totalVolume := TotalVolume(allSets);
    var totalReps := TotalReps(allSets);
    var totalSets := |allSets|;
    var dates := WorkoutDates(allSets);
    var uniqueDates := |dates|;
    var maxWeight := MaxWeightOrZero(allSets);
    var max1RM := Max1RM(allSets);
    var totalXp := TotalXp(totalSets, totalVolume, uniqueDates);
    var level, currentXp, nextLevelXp := LevelFromXp(totalXp);
    stats := UserStats(level, currentXp, nextLevelXp, CalculateStreak(dates), totalVolume, uniqueDates,
                       totalReps, totalSets, maxWeight, max1RM, |exercises|, |cycles|);
  }

  /** Ten sets of total volume 200 on one date earn 50 + 10 + 50 points. */
  lemma TotalXpExample()
    ensures TotalXp(10, 200.0, 1) == 110
  {
  }
}
