/**
 * The records the analytics consume (app/.../data/Exercise.kt): exercises,
 * logged sets and training cycles, without their storage annotations, and
 * the derived per-set quantities every analytic uses.
 *
 * Weight and reps are free text in the app. What matters to the analytics is
 * only what Kotlin's `toIntOrNull()` and `toDoubleOrNull()` make of that
 * text, so a numeric text is represented by that outcome: a whole number
 * (both parsers succeed), a number only `toDoubleOrNull()` accepts (a
 * fraction, an exponent, an `Int` overflow), or text neither accepts. Failed
 * parses read as 0, as the `?: 0` / `?: 0.0` fallbacks in the source do.
 */
module Domain {
  import opened Wrappers
  import opened Seqs

  datatype NumText = Whole(n: int) | Fractional(x: real) | Malformed

  /** `text.toDoubleOrNull() ?: 0.0` */
  function AsDouble(t: NumText): real {
    match t
    case Whole(n) => n as real
    case Fractional(x) => x
    case Malformed => 0.0
  }

  /** `text.toIntOrNull() ?: 0` */
  function AsInt(t: NumText): int {
    match t
    case Whole(n) => n
    case _ => 0
  }

  datatype Exercise = Exercise(
    id: int,
    name: string,
    target: string,
    category: string,
    setsDescription: string,
    dayOfWeek: string,
    imageUri: Option<string>,
    cycleId: int)

  datatype ExerciseSet = ExerciseSet(
    setId: int,
    exerciseId: int,
    weight: NumText,
    reps: NumText,
    date: string,
    cycleId: int,
    technique: Option<string>,
    quality: int)

  datatype TrainingCycle = TrainingCycle(
    id: int,
    name: string,
    startDate: string,
    endDate: Option<string>,
    isActive: bool,
    note: Option<string>)

  function Weight(s: ExerciseSet): real {
    AsDouble(s.weight)
  }

  /** Reps as volume and the one-rep max read them (`toDoubleOrNull`). */
  function RepsReal(s: ExerciseSet): real {
    AsDouble(s.reps)
  }

  /** Reps as rep counts read them (`toIntOrNull`). */
  function RepsInt(s: ExerciseSet): int {
    AsInt(s.reps)
  }

  /** weight x reps, the summand of every volume in the app. */
  function SetVolume(s: ExerciseSet): real {
    Weight(s) * RepsReal(s)
  }

  /** `Double.toInt()`: truncation toward zero. */
  function ToInt(x: real): (n: int)
    ensures x >= 0.0 ==> 0 <= n && n as real <= x < n as real + 1.0
    ensures x < 0.0 ==> n <= 0 && n as real - 1.0 < x <= n as real
  {
    if x >= 0.0 then x.Floor else -((-x).Floor)
  }

  /** `sets.sumOf { weight * reps }` */
  function TotalVolume(sets: seq<ExerciseSet>): (v: real)
    ensures (forall i :: 0 <= i < |sets| ==> SetVolume(sets[i]) >= 0.0) ==> v >= 0.0
  {
    if |sets| == 0 then 0.0 else SetVolume(sets[0]) + TotalVolume(sets[1..])
  }

  /** `sets.sumOf { reps.toIntOrNull() ?: 0 }` */
  function TotalReps(sets: seq<ExerciseSet>): (n: int)
    ensures (forall i :: 0 <= i < |sets| ==> RepsInt(sets[i]) >= 0) ==> n >= 0
    ensures (forall i :: 0 <= i < |sets| ==> RepsInt(sets[i]) == 0) ==> n == 0
  {
    if |sets| == 0 then 0 else RepsInt(sets[0]) + TotalReps(sets[1..])
  }

  lemma {:induction false} TotalVolumeAppend(a: seq<ExerciseSet>, b: seq<ExerciseSet>)
    ensures TotalVolume(a + b) == TotalVolume(a) + TotalVolume(b)
  {
    if |a| > 0 {
      assert (a + b)[1..] == a[1..] + b;
      TotalVolumeAppend(a[1..], b);
    } else {
      assert a + b == b;
    }
  }

  function Weights(sets: seq<ExerciseSet>): (w: seq<real>)
    ensures |w| == |sets|
    ensures forall i :: 0 <= i < |sets| ==> w[i] == Weight(sets[i])
  {
    if |sets| == 0 then [] else [Weight(sets[0])] + Weights(sets[1..])
  }

  /** `sets.maxOf { weight }` of a non-empty list. */
  function MaxWeight(sets: seq<ExerciseSet>): (m: real)
    requires |sets| > 0
    ensures forall i :: 0 <= i < |sets| ==> Weight(sets[i]) <= m
    ensures exists i :: 0 <= i < |sets| && Weight(sets[i]) == m
  {
    var w := Weights(sets);
    var m := SeqMax(w);
    assert w[FirstIndexOf(w, m)] == m;
    m
  }

  /** `sets.maxOfOrNull { weight } ?: 0.0` */
  function MaxWeightOrZero(sets: seq<ExerciseSet>): (m: real)
    ensures |sets| == 0 ==> m == 0.0
    ensures |sets| > 0 ==> m == MaxWeight(sets)
  {
    if |sets| == 0 then 0.0 else MaxWeight(sets)
  }

  function Dates(sets: seq<ExerciseSet>): (d: seq<string>)
    ensures |d| == |sets|
    ensures forall i :: 0 <= i < |sets| ==> d[i] == sets[i].date
  {
    if |sets| == 0 then [] else [sets[0].date] + Dates(sets[1..])
  }

  /** The keys of `sets.groupBy { it.date }`, in first-occurrence order. */
  function WorkoutDates(sets: seq<ExerciseSet>): seq<string> {
    Distinct(Dates(sets))
  }

  /** The workout dates are the dates of the sets. */
  lemma WorkoutDatesMembers(sets: seq<ExerciseSet>, date: string)
    ensures date in WorkoutDates(sets) <==> exists i :: 0 <= i < |sets| && sets[i].date == date
  {
    var ds := Dates(sets);
    DistinctMembers(ds, date);
    if date in ds {
      var i :| 0 <= i < |ds| && ds[i] == date;
    }
  }

  lemma WorkoutDatesDistinct(sets: seq<ExerciseSet>)
    ensures NoDuplicates(WorkoutDates(sets))
  {
    DistinctNoDuplicates(Dates(sets));
  }

  /** The value of `sets.groupBy { it.date }` at `date`: its sets in list order. */
  function SetsOn(sets: seq<ExerciseSet>, date: string): (r: seq<ExerciseSet>)
    ensures |r| <= |sets|
  {
    if |sets| == 0 then []
    else
      var rest := SetsOn(sets[..|sets| - 1], date);
      if sets[|sets| - 1].date == date then rest + [sets[|sets| - 1]] else rest
  }

  /**
   * Every set of a date's workout carries that date, and the workout has
   * as many sets as the list has sets on that date.
   */
  lemma {:induction false} SetsOnOfDate(sets: seq<ExerciseSet>, date: string)
    ensures forall i :: 0 <= i < |SetsOn(sets, date)| ==> SetsOn(sets, date)[i].date == date
    ensures |SetsOn(sets, date)| == Count(Dates(sets), date)
  {
    if |sets| > 0 {
      var init := sets[..|sets| - 1];
      SetsOnOfDate(init, date);
      assert Dates(sets)[..|sets| - 1] == Dates(init);
    }
  }

  /** A date's workout holds exactly the sets logged on that date. */
  lemma {:induction false} SetsOnMembers(sets: seq<ExerciseSet>, date: string, s: ExerciseSet)
    ensures s in SetsOn(sets, date) <==> s in sets && s.date == date
  {
    if |sets| > 0 {
      SetsOnMembers(sets[..|sets| - 1], date, s);
      assert sets == sets[..|sets| - 1] + [sets[|sets| - 1]];
    }
  }

  lemma WorkoutDateHasSets(sets: seq<ExerciseSet>, date: string)
    requires date in WorkoutDates(sets)
    ensures |SetsOn(sets, date)| > 0
  {
    WorkoutDatesMembers(sets, date);
    var i :| 0 <= i < |sets| && sets[i].date == date;
    SetsOnMembers(sets, date, sets[i]);
  }
}
