/**
 * The training analytics of app/.../utils/GymUtils.kt: the estimated one-rep
 * max, the parsers for target schemes such as "4x8-12", the progression
 * verdict, the stagnation classifier, the per-muscle aggregates, the
 * transformation tier and the strength predictor. All of them are pure.
 */
module GymUtils {
  import W = Wrappers
  import opened Text
  import opened Seqs
  import opened Domain

  // ---------------------------------------------------------------------------
  // Estimated one-rep max
  // ---------------------------------------------------------------------------

  /**
   * Epley's estimate w * (1 + r/30) when the reps read as a positive number,
   * and the bare weight otherwise (unreadable reps read as 0).
   */
  function Calculate1RM(weight: NumText, reps: NumText): (e: real)
    ensures AsDouble(reps) <= 0.0 ==> e == AsDouble(weight)
    ensures AsDouble(reps) > 0.0 ==> (e - AsDouble(weight)) * 30.0 == AsDouble(weight) * AsDouble(reps)
    ensures AsDouble(weight) > 0.0 && AsDouble(reps) > 0.0 ==> e > AsDouble(weight)
    ensures AsDouble(weight) >= 0.0 ==> e >= AsDouble(weight)
  {
    var w := AsDouble(weight);
    var r := AsDouble(reps);
    if r > 0.0 then w * (1.0 + r / 30.0) else w
  }

  // ---------------------------------------------------------------------------
  // Target scheme parsing
  // ---------------------------------------------------------------------------

  /**
   * The first match of `^(\d+)\s*[xX]`: the leading run of digits when
   * optional whitespace and an 'x' or 'X' follow it, else 0.
   */
  function GetTargetSets(scheme: string): (n: nat)
    ensures |scheme| == 0 || !IsDigit(scheme[0]) ==> n == 0
    ensures (forall i :: 0 <= i < |scheme| ==> !IsTimesSign(scheme[i])) ==> n == 0
  {
    var k := LeadingDigitCount(scheme);
    var rest := scheme[k..];
    var w := LeadingSpaceCount(rest);
    if k > 0 && w < |rest| && IsTimesSign(rest[w]) then DecimalValue(scheme[..k]) else 0
  }

  /** A scheme "<digits><whitespace>x<anything>" yields the value of its digits. */
  lemma TargetSetsOfScheme(digits: string, spaces: string, times: char, rest: string)
    requires |digits| > 0 && AllDigits(digits)
    requires AllSpaces(spaces) && IsTimesSign(times)
    ensures GetTargetSets(digits + spaces + [times] + rest) == DecimalValue(digits)
  {
    var after := [times] + rest;
    var tail := spaces + after;
    var scheme := digits + tail;
    assert digits + spaces + [times] + rest == scheme by {
      AppendAssociative(digits, spaces, after);
      AppendAssociative(digits + spaces, [times], rest);
    }
    assert |tail| > 0 && !IsDigit(tail[0]) by {
      if |spaces| > 0 {
        assert tail[0] == spaces[0];
      } else {
        assert tail[0] == times;
      }
    }
    LeadingDigitCountOf(digits, tail);
    assert scheme[|digits|..] == tail && scheme[..|digits|] == digits;
    LeadingSpaceCountOf(spaces, after);
    assert tail[|spaces|] == after[0] == times;
  }

  /**
   * The other direction: when the leading digits and the whitespace after
   * them are followed by any character other than 'x' or 'X', the pattern
   * does not match and the result is 0 ("4-8x", "12 reps x4").
   */
  lemma TargetSetsWithoutTimesSign(digits: string, spaces: string, c: char, rest: string)
    requires AllDigits(digits) && AllSpaces(spaces)
    requires !IsSpace(c) && !IsTimesSign(c)
    requires |spaces| > 0 || !IsDigit(c)
    ensures GetTargetSets(digits + spaces + [c] + rest) == 0
  {
    var after := [c] + rest;
    var tail := spaces + after;
    var scheme := digits + tail;
    assert digits + spaces + [c] + rest == scheme by {
      AppendAssociative(digits, spaces, after);
      AppendAssociative(digits + spaces, [c], rest);
    }
    assert !IsDigit(tail[0]) by {
      if |spaces| > 0 {
        assert tail[0] == spaces[0];
      } else {
        assert tail[0] == c;
      }
    }
    LeadingDigitCountOf(digits, tail);
    assert scheme[|digits|..] == tail;
    LeadingSpaceCountOf(spaces, after);
    assert tail[|spaces|] == after[0] == c;
  }

  /** Digits followed only by whitespace, without any 'x', yield 0. */
  lemma TargetSetsOfDigitsAndSpaces(digits: string, spaces: string)
    requires AllDigits(digits) && AllSpaces(spaces)
    ensures GetTargetSets(digits + spaces) == 0
  {
    var scheme := digits + spaces;
    assert |spaces| > 0 ==> !IsDigit(spaces[0]);
    LeadingDigitCountOf(digits, spaces);
    assert scheme[|digits|..] == spaces;
    LeadingSpaceCountOf(spaces, []);
    assert spaces + [] == spaces;
  }

  lemma TargetSetsWithoutTimesSignExample()
    ensures GetTargetSets("4-8x") == 0
  {
    var digits, rest := "4", "8x";
    assert digits + "" + ['-'] + rest == "4-8x";
    TargetSetsWithoutTimesSign(digits, "", '-', rest);
  }

  /** The last digits of a scheme are the rep ceiling: "8-12" in "4x8-12". */
  function GetTargetCeiling(scheme: string): (n: nat)
    ensures (forall i :: 0 <= i < |scheme| ==> !IsDigit(scheme[i])) ==> n == 0
  {
    var dashSegment := LastSegment(scheme, IsDash);
    var afterDash := DigitsOf(dashSegment);
    DigitsOfSuffix(scheme, |scheme| - |dashSegment|);
    if |afterDash| > 0 then DecimalValue(afterDash)
    else
      var timesSegment := LastSegment(scheme, IsTimesSign);
      var afterTimes := DigitsOf(timesSegment);
      DigitsOfSuffix(scheme, |scheme| - |timesSegment|);
      if |afterTimes| > 0 then DecimalValue(afterTimes) else 0
  }

  /** With a '-', the digits of the piece after the last '-' decide when there are any. */
  lemma CeilingAfterLastDash(prefix: string, segment: string)
    requires forall i :: 0 <= i < |segment| ==> segment[i] != '-'
    requires |DigitsOf(segment)| > 0
    ensures GetTargetCeiling(prefix + "-" + segment) == DecimalValue(DigitsOf(segment))
  {
    LastSegmentAfter(prefix, '-', segment, IsDash);
  }

  /** Without a '-', all the digits of the scheme are read as one number. */
  lemma CeilingWithoutDash(scheme: string)
    requires forall i :: 0 <= i < |scheme| ==> scheme[i] != '-'
    requires |DigitsOf(scheme)| > 0
    ensures GetTargetCeiling(scheme) == DecimalValue(DigitsOf(scheme))
  {
    LastSegmentWithoutSeparator(scheme, IsDash);
  }

  /**
   * When the piece after the last '-' has no digits, the digits after the
   * last 'x' or 'X' decide, and a scheme without such digits yields 0.
   */
  lemma CeilingFallback(prefix: string, times: char, segment: string)
    requires IsTimesSign(times)
    requires forall i :: 0 <= i < |segment| ==> !IsTimesSign(segment[i])
    requires |DigitsOf(LastSegment(prefix + [times] + segment, IsDash))| == 0
    ensures GetTargetCeiling(prefix + [times] + segment) ==
      if |DigitsOf(segment)| > 0 then DecimalValue(DigitsOf(segment)) else 0
  {
    LastSegmentAfter(prefix, times, segment, IsTimesSign);
  }

  /**
   * Without any 'x' or 'X', and without digits after the last '-', the
   * second split returns the whole scheme, so all of its digits are read:
   * "12-" yields 12, and a scheme without digits yields 0.
   */
  lemma CeilingWithoutTimesSign(scheme: string)
    requires forall i :: 0 <= i < |scheme| ==> !IsTimesSign(scheme[i])
    requires |DigitsOf(LastSegment(scheme, IsDash))| == 0
    ensures GetTargetCeiling(scheme) ==
      if |DigitsOf(scheme)| > 0 then DecimalValue(DigitsOf(scheme)) else 0
  {
    LastSegmentWithoutSeparator(scheme, IsTimesSign);
  }

  lemma CeilingOfOpenRangeExample()
    ensures GetTargetCeiling("12-") == 12
  {
    var digits, dash := "12", "-";
    var text := digits + dash;
    assert text == "12-";
    assert LastSegment(text, IsDash) == [];
    assert forall i :: 0 <= i < |text| ==> !IsTimesSign(text[i]);
    DigitsOfAppend(digits, dash);
    DigitsOfNoDigits(dash);
    DigitsOfDigits(digits);
    CeilingWithoutTimesSign(text);
  }

  lemma TargetSetsOfRangeExample()
    ensures GetTargetSets("4x8-12") == 4
  {
    TargetSetsOfScheme("4", "", 'x', "8-12");
    assert "4" + "" + ['x'] + "8-12" == "4x8-12";
  }

  lemma TargetSetsSpacedExample()
    ensures GetTargetSets("4 X 10") == 4
  {
    TargetSetsOfScheme("4", " ", 'X', " 10");
    assert "4" + " " + ['X'] + " 10" == "4 X 10";
  }

  lemma TargetSetsNoSchemeExample()
    ensures GetTargetSets("random text") == 0
  {
  }

  lemma CeilingOfRangeExample()
    ensures GetTargetCeiling("4x8-12") == 12
  {
    var prefix, segment := "4x8", "12";
    assert prefix + "-" + segment == "4x8-12";
    DigitsOfDigits(segment);
    CeilingAfterLastDash(prefix, segment);
  }

  /** Without a '-' the digits on both sides of the 'x' run together. */
  lemma CeilingWithoutRangeExample()
    ensures GetTargetCeiling("3x5") == 35
  {
    assert "3x5" == "3" + ("x" + "5");
    DigitsOfAppend("x", "5");
    DigitsOfNoDigits("x");
    DigitsOfDigits("5");
    DigitsOfAppend("3", "x5");
    DigitsOfDigits("3");
    assert DigitsOf("3x5") == "35";
    CeilingWithoutDash("3x5");
  }

  /** An empty range end falls back to the digits after the 'x'. */
  lemma CeilingFallbackExample()
    ensures GetTargetCeiling("4x8-") == 8
  {
    var head, digit, dash := "4", "8", "-";
    var text := head + ['x'] + (digit + dash);
    assert text == "4x8-";
    assert LastSegment(text, IsDash) == [];
    DigitsOfAppend(digit, dash);
    DigitsOfNoDigits(dash);
    DigitsOfDigits(digit);
    CeilingFallback(head, 'x', digit + dash);
  }

  lemma CeilingOfFreeTextExample()
    ensures GetTargetCeiling("random text") == 0
  {
    var head, tail := "random te", "t";
    var text := head + ['x'] + tail;
    assert text == "random text";
    assert forall i :: 0 <= i < |text| ==> !IsDigit(text[i]) && text[i] != '-';
    LastSegmentWithoutSeparator(text, IsDash);
    DigitsOfNoDigits(text);
    DigitsOfNoDigits(tail);
    CeilingFallback(head, 'x', tail);
  }

  // ---------------------------------------------------------------------------
  // Progression
  // ---------------------------------------------------------------------------

  datatype ProgressionResult = None | Consolidating | Apt(lastWeight: real)

  /** The sets logged on the date of the list's last set. */
  function LastWorkout(sets: seq<ExerciseSet>): (r: seq<ExerciseSet>)
    requires |sets| > 0
    ensures |r| > 0 && r[|r| - 1] == sets[|sets| - 1]
    ensures forall i :: 0 <= i < |r| ==> r[i].date == sets[|sets| - 1].date
  {
    SetsOnOfDate(sets, sets[|sets| - 1].date);
    SetsOn(sets, sets[|sets| - 1].date)
  }

  /**
   * None without sets or without a rep ceiling; Apt when the last workout has
   * at least the target number of sets and every one of them reached the
   * ceiling, carrying the weight of the list's last set; else Consolidating.
   */
  function GetProgressionStatus(scheme: string, lastSets: seq<ExerciseSet>): (r: ProgressionResult)
    ensures r == None <==> |lastSets| == 0 || GetTargetCeiling(scheme) == 0
    ensures r.Apt? <==>
      && |lastSets| > 0
      && GetTargetCeiling(scheme) != 0
      && |LastWorkout(lastSets)| >= GetTargetSets(scheme)
      && forall s :: s in LastWorkout(lastSets) ==> RepsInt(s) >= GetTargetCeiling(scheme)
    ensures r.Apt? ==> r.lastWeight == Weight(lastSets[|lastSets| - 1])
  {
    if |lastSets| == 0 then None
    else
      var ceiling := GetTargetCeiling(scheme);
      if ceiling == 0 then None
      else
        var lastWorkout := LastWorkout(lastSets);
        if |lastWorkout| < GetTargetSets(scheme) then Consolidating
        else if forall s :: s in lastWorkout ==> RepsInt(s) >= ceiling then
          Apt(Weight(lastWorkout[|lastWorkout| - 1]))
        else Consolidating
  }

  // ---------------------------------------------------------------------------
  // Stagnation
  // ---------------------------------------------------------------------------

  datatype StagnationStatus =
    | Progressing
    | Stagnated(weeks: int, suggestion: string)
    | FormDeviated(warning: string)

  const StagnationSuggestion: string :=
    "Estagnação detectada: Tente um deload de 10% ou mude a técnica (ex: Rest-pause)."
  const FormWarning: string :=
    "Alerta: Aumento de carga com perda de reps e controle técnico."

  /** One date's workout: its heaviest set, mean quality and total reps. */
  datatype WorkoutSummary = WorkoutSummary(date: string, maxWeight: real, avgQuality: real, totalReps: int)

  function Qualities(sets: seq<ExerciseSet>): (q: seq<real>)
    ensures |q| == |sets|
  {
    if |sets| == 0 then [] else [sets[0].quality as real] + Qualities(sets[1..])
  }

  lemma {:induction false} QualitiesAt(sets: seq<ExerciseSet>)
    ensures forall i :: 0 <= i < |sets| ==> Qualities(sets)[i] == sets[i].quality as real
  {
    if |sets| > 0 {
      QualitiesAt(sets[1..]);
    }
  }

  /**
   * One date's summary. A workout date always has sets, so the empty-list
   * cases (where `maxOf` throws and `average` is NaN) read 0 here and are
   * never reached (`SummarizeWorkoutDate`).
   */
  function Summarize(sets: seq<ExerciseSet>, date: string): WorkoutSummary {
    var day := SetsOn(sets, date);
    var q := Qualities(day);
    WorkoutSummary(date, MaxWeightOrZero(day), if |q| == 0 then 0.0 else Mean(q), TotalReps(day))
  }

  /** On a workout date the summary holds the heaviest weight and mean quality of its sets. */
  lemma SummarizeWorkoutDate(sets: seq<ExerciseSet>, date: string)
    requires date in WorkoutDates(sets)
    ensures var day := SetsOn(sets, date);
      && |day| > 0
      && Summarize(sets, date).maxWeight == MaxWeight(day)
      && Summarize(sets, date).avgQuality == Mean(Qualities(day))
      && Summarize(sets, date).totalReps == TotalReps(day)
  {
    WorkoutDateHasSets(sets, date);
  }

  function SummariesOf(sets: seq<ExerciseSet>, dates: seq<string>): (ws: seq<WorkoutSummary>)
    ensures |ws| == |dates|
  {
    if |dates| == 0 then [] else [Summarize(sets, dates[0])] + SummariesOf(sets, dates[1..])
  }

  /** The i-th summary is the summary of the i-th date. */
  lemma {:induction false} SummariesOfAt(sets: seq<ExerciseSet>, dates: seq<string>, i: nat, date: string)
    requires i < |dates| && dates[i] == date
    ensures SummariesOf(sets, dates)[i] == Summarize(sets, date)
  {
    if i > 0 {
      SummariesOfAt(sets, dates[1..], i - 1, date);
    }
  }

  function SummaryWeights(ws: seq<WorkoutSummary>): (w: seq<real>)
    ensures |w| == |ws|
  {
    if |ws| == 0 then [] else [ws[0].maxWeight] + SummaryWeights(ws[1..])
  }

  lemma {:induction false} SummaryWeightsAt(ws: seq<WorkoutSummary>)
    ensures forall i :: 0 <= i < |ws| ==> SummaryWeights(ws)[i] == ws[i].maxWeight
  {
    if |ws| > 0 {
      SummaryWeightsAt(ws[1..]);
    }
  }

  /**
   * The per-date summaries, latest date first. The (date, summary) pairs
   * are sorted by `it.first`, their date text, and the dates are distinct,
   * so the descending sort is the ascending date order reversed.
   */
  function Ranked(sets: seq<ExerciseSet>): (ws: seq<WorkoutSummary>)
    ensures |ws| == |WorkoutDates(sets)|
  {
    SummariesOf(sets, Reverse(ChronologicalDates(sets)))
  }

  /** The k-th ranked summary is that of the k-th date counted back from the latest. */
  lemma RankedAt(sets: seq<ExerciseSet>, k: nat)
    requires k < |WorkoutDates(sets)|
    ensures var d := ChronologicalDates(sets);
      Ranked(sets)[k] == Summarize(sets, d[|d| - 1 - k])
  {
    var d := ChronologicalDates(sets);
    SummariesOfAt(sets, Reverse(d), k, d[|d| - 1 - k]);
  }

  /**
   * The three dates the stagnation check looks at are the three latest in
   * the order of their text: every other workout date comes before them.
   */
  lemma LatestThreeDates(sets: seq<ExerciseSet>)
    requires |WorkoutDates(sets)| >= 3
    ensures var d := ChronologicalDates(sets);
      var n := |d|;
      && d[n - 1] in WorkoutDates(sets) && d[n - 2] in WorkoutDates(sets) && d[n - 3] in WorkoutDates(sets)
      && StrLess(d[n - 3], d[n - 2]) && StrLess(d[n - 2], d[n - 1])
      && forall x :: x in WorkoutDates(sets) && x != d[n - 1] && x != d[n - 2] && x != d[n - 3] ==> StrLess(x, d[n - 3])
  {
    var d := ChronologicalDates(sets);
    var n := |d|;
    ChronologicalDatesOrder(sets);
    ChronologicalDatesAreWorkoutDates(sets);
    forall x | x in WorkoutDates(sets) && x != d[n - 1] && x != d[n - 2] && x != d[n - 3]
      ensures StrLess(x, d[n - 3])
    {
      assert x in multiset(d);
      var i :| 0 <= i < n && d[i] == x;
      assert i < n - 3;
    }
  }

  /**
   * Progressing below 10 sets or 3 dates. Otherwise the four latest workouts
   * are compared: FormDeviated when the latest is strictly heavier than the
   * one before, with fewer reps and mean quality below 4; Stagnated when the
   * weights of the three latest do not fall going back in time
   * (`w0 <= w1 <= w2`, latest first); Progressing otherwise.
   */
  function DetectStagnation(sets: seq<ExerciseSet>): (r: StagnationStatus)
    ensures |sets| < 10 || |WorkoutDates(sets)| < 3 ==> r == Progressing
    ensures r.FormDeviated? ==> r.warning == FormWarning
    ensures r.Stagnated? ==> r.weeks == 2 && r.suggestion == StagnationSuggestion
  {
    if |sets| < 10 then Progressing
    else
      var sorted := Ranked(sets);
      var workouts := if |sorted| <= 4 then sorted else sorted[..4];
      if |workouts| < 3 then Progressing
      else if HeavierWithWorseForm(workouts[0], workouts[1]) then
        FormDeviated(FormWarning)
      else
        var weights := SummaryWeights(workouts);
        if weights[0] <= weights[1] && weights[1] <= weights[2] then
          Stagnated(2, StagnationSuggestion)
        else
          Progressing
  }

  /** A heavier workout than the one before with fewer reps and mean quality below 4. */
  predicate HeavierWithWorseForm(current: WorkoutSummary, prev: WorkoutSummary) {
    current.maxWeight > prev.maxWeight && current.totalReps < prev.totalReps && current.avgQuality < 4.0
  }

  /**
   * With at least 10 sets and 3 dates, FormDeviated exactly when the latest
   * workout is heavier than the one before with worse form, and otherwise
   * Stagnated exactly when the heaviest weights of the three latest dates
   * do not rise: latest <= second latest <= third latest.
   */
  lemma DetectStagnationOutcome(sets: seq<ExerciseSet>)
    ensures var d := ChronologicalDates(sets);
      var n := |d|;
      DetectStagnation(sets).FormDeviated? <==>
        |sets| >= 10 && n >= 3 && HeavierWithWorseForm(Summarize(sets, d[n - 1]), Summarize(sets, d[n - 2]))
    ensures var d := ChronologicalDates(sets);
      var n := |d|;
      DetectStagnation(sets).Stagnated? <==>
        && |sets| >= 10 && n >= 3
        && !HeavierWithWorseForm(Summarize(sets, d[n - 1]), Summarize(sets, d[n - 2]))
        && Summarize(sets, d[n - 1]).maxWeight <= Summarize(sets, d[n - 2]).maxWeight
        && Summarize(sets, d[n - 2]).maxWeight <= Summarize(sets, d[n - 3]).maxWeight
  {
    var d := ChronologicalDates(sets);
    var n := |d|;
    if |sets| >= 10 && n >= 3 {
      StagnationOfLatestThree(sets);
    } else {
      assert DetectStagnation(sets) == Progressing;
    }
  }

  /** From 10 sets and 3 dates on, the verdict depends on the three latest summaries only. */
  lemma StagnationOfLatestThree(sets: seq<ExerciseSet>)
    requires |sets| >= 10 && |WorkoutDates(sets)| >= 3
    ensures var d := ChronologicalDates(sets);
      var n := |d|;
      var latest, second, third := Summarize(sets, d[n - 1]), Summarize(sets, d[n - 2]), Summarize(sets, d[n - 3]);
      DetectStagnation(sets) ==
        if HeavierWithWorseForm(latest, second) then FormDeviated(FormWarning)
        else if latest.maxWeight <= second.maxWeight && second.maxWeight <= third.maxWeight then
          Stagnated(2, StagnationSuggestion)
        else Progressing
  {
    var d := ChronologicalDates(sets);
    var n := |d|;
    var sorted := Ranked(sets);
    assert sorted[0] == Summarize(sets, d[n - 1]) by { RankedAt(sets, 0); }
    assert sorted[1] == Summarize(sets, d[n - 2]) by { RankedAt(sets, 1); }
    assert sorted[2] == Summarize(sets, d[n - 3]) by { RankedAt(sets, 2); }
    assert DetectStagnation(sets) ==
      if HeavierWithWorseForm(sorted[0], sorted[1]) then FormDeviated(FormWarning)
      else if sorted[0].maxWeight <= sorted[1].maxWeight && sorted[1].maxWeight <= sorted[2].maxWeight then
        Stagnated(2, StagnationSuggestion)
      else Progressing
    by {
      var workouts := if |sorted| <= 4 then sorted else sorted[..4];
      assert workouts[0] == sorted[0] && workouts[1] == sorted[1] && workouts[2] == sorted[2];
      SummaryWeightsAt(workouts);
    }
  }

  // ---------------------------------------------------------------------------
  // Muscle analytics
  // ---------------------------------------------------------------------------

  /** The muscle groups of the heat map, in display order. */
  const Muscles: seq<string> := ["Peito", "Costas", "Pernas", "Ombros", "Braços"]

  datatype MuscleStimulus = MuscleStimulus(
    muscle: string,
    maxWeight: real,
    weeklyVolume: real,
    totalSets: int,
    totalReps: int,
    growthPhase: string,
    heatIntensity: real,
    fatigueLevel: real)

  predicate IsRelevant(e: Exercise, muscle: string) {
    e.category == muscle || ContainsIgnoreCase(e.target, muscle)
  }

  /** The ids of the exercises that train `muscle`. */
  function RelevantIds(exercises: seq<Exercise>, muscle: string): set<int> {
    set e | e in exercises && IsRelevant(e, muscle) :: e.id
  }

  /** The sets, in list order, whose exercise id is in `ids`. */
  function SetsOfExercises(sets: seq<ExerciseSet>, ids: set<int>): (r: seq<ExerciseSet>)
    ensures |r| <= |sets|
  {
    if |sets| == 0 then []
    else
      var rest := SetsOfExercises(sets[..|sets| - 1], ids);
      if sets[|sets| - 1].exerciseId in ids then rest + [sets[|sets| - 1]] else rest
  }

  /** The filter keeps exactly the sets of the given exercises. */
  lemma {:induction false} SetsOfExercisesMembers(sets: seq<ExerciseSet>, ids: set<int>, s: ExerciseSet)
    ensures s in SetsOfExercises(sets, ids) <==> s in sets && s.exerciseId in ids
  {
    if |sets| > 0 {
      SetsOfExercisesMembers(sets[..|sets| - 1], ids, s);
      assert sets == sets[..|sets| - 1] + [sets[|sets| - 1]];
    }
  }

  function Abs(n: int): nat {
    if n < 0 then -n else n
  }

  /** `coerceIn(lo, hi)` */
  function Clamp(x: real, lo: real, hi: real): (c: real)
    requires lo <= hi
    ensures lo <= c <= hi
    ensures lo <= x <= hi ==> c == x
  {
    if x < lo then lo else if x > hi then hi else x
  }

  /**
   * Heat is the volume against a 5000 volume reference, capped at 1 from
   * above only.
   */
  function HeatIntensity(volume: real): (h: real)
    ensures h <= 1.0
    ensures h == 1.0 <==> volume >= 5000.0
    ensures volume <= 5000.0 ==> h * 5000.0 == volume
  {
    var raw := volume / 5000.0;
    if raw > 1.0 then 1.0 else raw
  }

  /**
   * Recovery decay: 1 on the day of the last set, falling linearly to 0 after
   * three days. `daysSince` stands for parsing "date/current year" and counting
   * the days to today; None is a date that does not parse.
   */
  function Fatigue(relevant: seq<ExerciseSet>, daysSince: string -> W.Option<int>): (f: real)
    ensures 0.0 <= f <= 1.0
    ensures |relevant| == 0 ==> f == 0.0
    ensures |relevant| > 0 && daysSince(relevant[|relevant| - 1].date).None? ==> f == 0.0
    ensures |relevant| > 0 && daysSince(relevant[|relevant| - 1].date).Some? ==>
      var days := Abs(daysSince(relevant[|relevant| - 1].date).value);
      && (f == 1.0 <==> days == 0)
      && (f == 0.0 <==> days >= 3)
      && (days < 3 ==> f * 3.0 == 3.0 - days as real)
  {
    if |relevant| == 0 then 0.0
    else
      match daysSince(relevant[|relevant| - 1].date)
      case None => 0.0
      case Some(d) => Clamp(1.0 - (Abs(d) as real) / 3.0, 0.0, 1.0)
  }

  /** The statistics of one muscle group. */
  function Stimulus(exercises: seq<Exercise>, sets: seq<ExerciseSet>, muscle: string,
                    daysSince: string -> W.Option<int>): (m: MuscleStimulus)
    ensures m.muscle == muscle
    ensures var relevant := SetsOfExercises(sets, RelevantIds(exercises, muscle));
      && m.totalSets == |relevant|
      && m.totalReps == TotalReps(relevant)
      && m.weeklyVolume * 4.0 == TotalVolume(relevant)
      && (m.growthPhase == "Crescimento" <==> TotalVolume(relevant) > 1000.0)
      && (forall s :: s in relevant ==> Weight(s) <= m.maxWeight)
      && (|relevant| == 0 ==> m.maxWeight == 0.0 && m.fatigueLevel == 0.0)
      && (|relevant| > 0 ==> exists s :: s in relevant && Weight(s) == m.maxWeight)
      && m.heatIntensity == HeatIntensity(TotalVolume(relevant))
      && m.fatigueLevel == Fatigue(relevant, daysSince)
    ensures m.heatIntensity <= 1.0
    ensures 0.0 <= m.fatigueLevel <= 1.0
  {
    var relevant := SetsOfExercises(sets, RelevantIds(exercises, muscle));
    var volume := TotalVolume(relevant);
    var maxW := MaxWeightOrZero(relevant);
    assert |relevant| > 0 ==> exists i :: 0 <= i < |relevant| && Weight(relevant[i]) == maxW;
    assert forall s :: s in relevant ==> Weight(s) <= maxW by {
      forall s | s in relevant ensures Weight(s) <= maxW {
        var i :| 0 <= i < |relevant| && relevant[i] == s;
      }
    }
    MuscleStimulus(
      muscle,
      maxW,
      volume / 4.0,
      |relevant|,
      TotalReps(relevant),
      if volume > 1000.0 then "Crescimento" else "Estabilizado",
      HeatIntensity(volume),
      Fatigue(relevant, daysSince))
  }

  /** One stimulus per muscle group, in the order of `Muscles`. */
  function CalculateMuscleAnalytics(exercises: seq<Exercise>, sets: seq<ExerciseSet>,
                                    daysSince: string -> W.Option<int>): (r: seq<MuscleStimulus>)
    ensures |r| == 5
    ensures forall i :: 0 <= i < 5 ==> r[i].muscle == Muscles[i]
    ensures forall i :: 0 <= i < 5 ==> r[i] == Stimulus(exercises, sets, Muscles[i], daysSince)
    ensures forall i :: 0 <= i < 5 ==> r[i].heatIntensity <= 1.0 && 0.0 <= r[i].fatigueLevel <= 1.0
  {
    seq(|Muscles|, i requires 0 <= i < |Muscles| => Stimulus(exercises, sets, Muscles[i], daysSince))
  }

  // ---------------------------------------------------------------------------
  // Transformation tier
  // ---------------------------------------------------------------------------

  datatype ZenkaiTransformation = ErvaDaninha | ProjetoDeFrango | MutanteRejeitado | AberracaoDivina
  {
    function Label(): string {
      match this
      case ErvaDaninha => "ERVA DANINHA"
      case ProjetoDeFrango => "PROJETO DE Frango"
      case MutanteRejeitado => "MUTANTE REJEITADO"
      case AberracaoDivina => "ABERRAÇÃO DIVINA"
    }

    /** Position in the declaration order, lowest tier first. */
    function Rank(): nat {
      match this
      case ErvaDaninha => 0
      case ProjetoDeFrango => 1
      case MutanteRejeitado => 2
      case AberracaoDivina => 3
    }
  }

  /** The `when` table: strict thresholds 20000 (or 180 kg), 10000, 5000. */
  function TierFor(totalVolume: real, maxWeight: real): ZenkaiTransformation {
    if totalVolume > 20000.0 || maxWeight > 180.0 then AberracaoDivina
    else if totalVolume > 10000.0 then MutanteRejeitado
    else if totalVolume > 5000.0 then ProjetoDeFrango
    else ErvaDaninha
  }

  /** More volume or a heavier best set never lowers the tier. */
  lemma TierMonotone(v1: real, m1: real, v2: real, m2: real)
    requires v1 <= v2 && m1 <= m2
    ensures TierFor(v1, m1).Rank() <= TierFor(v2, m2).Rank()
  {
  }

  function CalculateTransformation(sets: seq<ExerciseSet>): (t: ZenkaiTransformation)
    ensures |sets| == 0 ==> t == ErvaDaninha
    ensures |sets| > 0 ==> t == TierFor(TotalVolume(sets), MaxWeight(sets))
    ensures TotalVolume(sets) > 20000.0 ==> t == AberracaoDivina
    ensures t == AberracaoDivina <==> TotalVolume(sets) > 20000.0 || (|sets| > 0 && MaxWeight(sets) > 180.0)
    ensures t == ErvaDaninha <==> TotalVolume(sets) <= 5000.0 && (|sets| == 0 || MaxWeight(sets) <= 180.0)
  {
    if |sets| == 0 then ErvaDaninha
    else TierFor(TotalVolume(sets), MaxWeightOrZero(sets))
  }

  /**
   * Logging more sets, none of them with negative volume, never lowers the
   * transformation tier.
   */
  lemma TransformationMonotoneUnderLogging(earlier: seq<ExerciseSet>, later: seq<ExerciseSet>)
    requires forall i :: 0 <= i < |later| ==> SetVolume(later[i]) >= 0.0
    ensures CalculateTransformation(earlier).Rank() <= CalculateTransformation(earlier + later).Rank()
  {
    if |earlier| > 0 {
      var all := earlier + later;
      TotalVolumeAppend(earlier, later);
      var i :| 0 <= i < |earlier| && Weight(earlier[i]) == MaxWeight(earlier);
      assert all[i] == earlier[i];
      TierMonotone(TotalVolume(earlier), MaxWeight(earlier), TotalVolume(all), MaxWeight(all));
    }
  }

  // ---------------------------------------------------------------------------
  // Strength prediction
  // ---------------------------------------------------------------------------

  datatype StrengthPrediction = StrengthPrediction(
    exerciseName: string,
    targetWeight: real,
    weeksToReach: int,
    confidence: string,
    syncPercentage: real)

  /**
   * The workout dates in the natural order of their "dd/MM" text (day first,
   * so not the calendar order), which is the order `sortedBy { it.first }`
   * gives the per-date pairs, whose keys are distinct.
   */
  function ChronologicalDates(sets: seq<ExerciseSet>): (d: seq<string>)
    ensures |d| == |WorkoutDates(sets)|
  {
    SortAscending(WorkoutDates(sets))
  }

  /** The chronological dates are the workout dates, each once, in ascending order. */
  lemma ChronologicalDatesOrder(sets: seq<ExerciseSet>)
    ensures multiset(ChronologicalDates(sets)) == multiset(WorkoutDates(sets))
    ensures StrictlyAscending(ChronologicalDates(sets))
  {
    SortAscendingPermutes(WorkoutDates(sets));
    WorkoutDatesDistinct(sets);
    SortAscendingSorted(WorkoutDates(sets));
  }

  /** Every chronological date is a workout date. */
  lemma ChronologicalDatesAreWorkoutDates(sets: seq<ExerciseSet>)
    ensures forall i :: 0 <= i < |ChronologicalDates(sets)| ==> ChronologicalDates(sets)[i] in WorkoutDates(sets)
  {
    var d := ChronologicalDates(sets);
    SortAscendingPermutes(WorkoutDates(sets));
    forall i | 0 <= i < |d| ensures d[i] in WorkoutDates(sets) {
      assert d[i] in multiset(d);
    }
  }

  /** The heaviest weight logged on a workout date. */
  function DayMax(sets: seq<ExerciseSet>, date: string): real
    requires date in WorkoutDates(sets)
  {
    WorkoutDateHasSets(sets, date);
    MaxWeight(SetsOn(sets, date))
  }

  predicate IsMultipleOfTen(x: real) {
    x == ((x / 10.0).Floor as real) * 10.0
  }

  /** The next multiple of ten above `current`: `((current / 10).toInt() + 1) * 10.0`. */
  function NextMilestone(current: real): (m: real)
    ensures IsMultipleOfTen(m)
    ensures m > current
    ensures current >= 0.0 ==> m <= current + 10.0
  {
    var k := ToInt(current / 10.0) + 1;
    assert (k as real * 10.0) / 10.0 == k as real;
    k as real * 10.0
  }

  /** `(gap / gain).toInt().coerceAtLeast(1)`: truncation, not a ceiling. */
  function WorkoutsToReach(gap: real, gain: real): (n: int)
    requires gap > 0.0 && gain > 0.0
    ensures n >= 1
    ensures n as real <= gap / gain || n == 1
    ensures gap / gain >= 1.0 ==> gap / gain < n as real + 1.0
  {
    var t := ToInt(gap / gain);
    if t < 1 then 1 else t
  }

  /**
   * `(current / milestone).coerceIn(0, 1)` in floats. A milestone of 0 only
   * follows a negative current weight, whose float quotient is -Infinity and
   * is clamped to 0.
   */
  function SyncPercentage(current: real, milestone: real): (p: real)
    ensures 0.0 <= p <= 1.0
    ensures milestone > 0.0 && 0.0 <= current <= milestone ==> p * milestone == current
  {
    if milestone == 0.0 then 0.0 else Clamp(current / milestone, 0.0, 1.0)
  }

  /**
   * No prediction below 10 sets, below 5 workout dates, or when the heaviest
   * weight of the last date is not above that of the first date. Otherwise
   * the next multiple of ten above the current weight, reached at the
   * average gain per workout with two workouts a week.
   */
  function PredictStrength(exerciseName: string, sets: seq<ExerciseSet>): (r: W.Option<StrengthPrediction>)
    ensures r.Some? <==> |sets| >= 10 && |WorkoutDates(sets)| >= 5 && LastDayMax(sets) > FirstDayMax(sets)
    ensures r.Some? ==>
      && |WorkoutDates(sets)| >= 5
      && LastDayMax(sets) > FirstDayMax(sets)
      && r.value == Forecast(exerciseName, LastDayMax(sets), FirstDayMax(sets), |WorkoutDates(sets)|)
  {
    if |sets| < 10 || |WorkoutDates(sets)| < 5 then W.None
    else
      var current := LastDayMax(sets);
      var initial := FirstDayMax(sets);
      if current - initial <= 0.0 then W.None
      else W.Some(Forecast(exerciseName, current, initial, |WorkoutDates(sets)|))
  }

  /** The heaviest weight of the first date in the order of the "dd/MM" text. */
  function FirstDayMax(sets: seq<ExerciseSet>): real
    requires |WorkoutDates(sets)| > 0
  {
    ChronologicalDatesAreWorkoutDates(sets);
    DayMax(sets, ChronologicalDates(sets)[0])
  }

  /** The heaviest weight of the last date in the order of the "dd/MM" text. */
  function LastDayMax(sets: seq<ExerciseSet>): real
    requires |WorkoutDates(sets)| > 0
  {
    ChronologicalDatesAreWorkoutDates(sets);
    var dates := ChronologicalDates(sets);
    DayMax(sets, dates[|dates| - 1])
  }

  /**
   * The prediction once the heaviest weight has grown from `initial` on the
   * first date to `current` on the last of `workoutCount` dates: the next
   * multiple of ten above `current`, reached at the average gain per workout
   * with two workouts a week.
   */
  function Forecast(exerciseName: string, current: real, initial: real, workoutCount: nat): (p: StrengthPrediction)
    requires current > initial && workoutCount > 0
    ensures p.exerciseName == exerciseName && p.confidence == "Alta"
    ensures IsMultipleOfTen(p.targetWeight) && p.targetWeight > current
    ensures current >= 0.0 ==> p.targetWeight <= current + 10.0
    ensures p.weeksToReach >= 1
    ensures 0.0 <= p.syncPercentage <= 1.0
    ensures p.targetWeight == NextMilestone(current)
    ensures p.syncPercentage == SyncPercentage(current, NextMilestone(current))
    ensures var workouts := WorkoutsToReach(NextMilestone(current) - current, (current - initial) / (workoutCount as real));
      p.weeksToReach == if workouts / 2 < 1 then 1 else workouts / 2
  {
    var avgGain := (current - initial) / (workoutCount as real);
    assert avgGain > 0.0;
    var milestone := NextMilestone(current);
    var workouts := WorkoutsToReach(milestone - current, avgGain);
    var weeks := if workouts / 2 < 1 then 1 else workouts / 2;
    StrengthPrediction(exerciseName, milestone, weeks, "Alta", SyncPercentage(current, milestone))
  }
}
