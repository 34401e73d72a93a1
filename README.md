# Gym training analytics, modelled in Dafny

This project models the analytics engine of an Android gym log. The engine
takes the logged exercises and sets and turns them into derived metrics:

- **GymUtils** holds the estimated one-rep max, the parsers for the target
  scheme ("4x8-12": target sets and rep ceiling), the progression verdict,
  the stagnation classifier, the per-muscle aggregates with fatigue, the
  four-tier "transformation" table and the linear strength prediction.
- **UserStats** computes the profile: totals, XP, and the levelling loop
  whose threshold grows 2000, 3000, 4000, …
- **AICoach** is a rule scanner. It emits insights in a fixed order: a
  volume spike, a historical comparison, regional overuse and exercise
  plateaus.

The pure parts of the source are modelled as functions and lemmas. Two
parts work by mutation and are modelled as methods whose loops carry
invariants:

- the levelling loop, `UserStats.LevelFromXp`. It is proved against the
  closed form 500·(L−1)·(L+2) for the points needed to reach level L.
- the insight scanner, `AICoach.AnalyzeTrainingPatterns`. It appends to a
  list rule by rule. It counts muscle groups in an insertion-ordered map,
  modelled as an order sequence plus a count map. It is proved equal to the
  concatenation of four specification functions, one per rule, about which
  the lemmas are stated.

How the model represents the source's values:

- **Numeric text.** Weight and reps are free text in the app. The model keeps
  only what `toIntOrNull()` and `toDoubleOrNull()` make of it (`NumText`),
  with 0 when parsing fails.
- **Dates** are the raw "dd/MM" strings. They are grouped by equality.
  Where the source sorts them, the order is string order (`StrLess`), not
  calendar order. That is what `sortedBy { it }` does on these strings.
- **groupBy** keeps first-occurrence order (`WorkoutDates`), and the per-date
  sets keep list order (`SetsOn`).

Some behaviours of the source are reproduced as written:

- `getTargetCeiling("3x5")` is 35: without a '-' the digits of the whole
  string run together.
- The "last workout" of the progression verdict is the date of the list's
  last set.
- The stagnation check ranks workouts by their "dd/MM" date text, latest
  first. `Stagnated` means the heaviest weights of the three greatest dates
  in that order do not rise: latest ≤ second latest ≤ third latest.

Modules: `Wrappers` (Option), `Seqs` (generic sequence facts), `Text`
(digits, separators, string order, sorting of dates), `Domain` (the records
of `data/Exercise.kt` and per-set quantities), `GymUtils`, `UserStats`,
`AICoach`.

## Model

| member | source | states |
|---|---|---|
| Domain.ToInt | app/src/main/java/com/example/myapplication/utils/GymUtils.kt:199 | `Double.toInt()` truncates toward zero: within 1 of x, never past it |
| Domain.TotalVolumeAppend | app/src/main/java/com/example/myapplication/utils/AICoachUtils.kt:124-126 | the volume of two lists of sets is the sum of their volumes |
| Domain.TotalVolume | app/src/main/java/com/example/myapplication/data/UserStats.kt:21 | `sumOf { weight * reps }`: non-negative when every set's volume is |
| Domain.TotalReps | app/src/main/java/com/example/myapplication/data/UserStats.kt:22 | `sumOf { reps.toIntOrNull() ?: 0 }`: non-negative when every set's reps are, and 0 when all read 0 |
| Domain.Weights | app/src/main/java/com/example/myapplication/utils/GymUtils.kt:163 | the parsed weight of every set, position by position |
| Domain.MaxWeight | app/src/main/java/com/example/myapplication/utils/GymUtils.kt:57 | `maxOf { weight }` of a non-empty list: no set heavier, and some set attains it |
| Domain.MaxWeightOrZero | app/src/main/java/com/example/myapplication/utils/GymUtils.kt:107 | `maxOfOrNull { weight } ?: 0.0`: 0 for no sets, else the heaviest weight |
| Domain.Dates | app/src/main/java/com/example/myapplication/data/UserStats.kt:24 | the date of every set, position by position |
| Domain.WorkoutDatesMembers | app/src/main/java/com/example/myapplication/utils/AICoachUtils.kt:24 | a string is a workout date exactly when some set carries it |
| Domain.WorkoutDatesDistinct | app/src/main/java/com/example/myapplication/data/UserStats.kt:24 | the workout dates (groupBy keys, `distinct()`) repeat no date |
| Domain.SetsOn | app/src/main/java/com/example/myapplication/utils/AICoachUtils.kt:24 | a date's group is never longer than the list |
| Domain.SetsOnOfDate | app/src/main/java/com/example/myapplication/utils/GymUtils.kt:55 | every set of a date's group carries that date, and the group has as many sets as the list has on that date |
| Domain.SetsOnMembers | app/src/main/java/com/example/myapplication/utils/AICoachUtils.kt:24 | a date's group holds exactly the sets logged on that date |
| Domain.WorkoutDateHasSets | app/src/main/java/com/example/myapplication/utils/GymUtils.kt:55-61 | every groupBy key has a non-empty group, so `maxOf`/`average` there see sets |
| Seqs.Distinct | app/src/main/java/com/example/myapplication/data/UserStats.kt:24 | `distinct()` is never longer than its input |
| Seqs.DistinctNoDuplicates | app/src/main/java/com/example/myapplication/data/UserStats.kt:24 | `distinct()` repeats no element |
| Seqs.DistinctMembers | app/src/main/java/com/example/myapplication/data/UserStats.kt:24 | `distinct()` keeps exactly the elements of its input |
| Seqs.DistinctSnoc | app/src/main/java/com/example/myapplication/utils/AICoachUtils.kt:92 | a new element joins `distinct()` at the end; a known one changes nothing (insertion order of the counter map) |
| Seqs.DistinctOfNoDuplicates | app/src/main/java/com/example/myapplication/utils/AICoachUtils.kt:96 | `distinct()` of a list without repeats is that list |
| Seqs.Count | app/src/main/java/com/example/myapplication/utils/AICoachUtils.kt:92 | an occurrence count is at most the length, and 0 exactly for absent elements |
| Seqs.CountSnoc | app/src/main/java/com/example/myapplication/utils/AICoachUtils.kt:92 | appending an element adds one to its count and nothing to others |
| Seqs.FirstIndexOf | app/src/main/java/com/example/myapplication/utils/AICoachUtils.kt:51 | `indexOf`: a position holding the value, with no earlier one |
| Seqs.TakeLast | app/src/main/java/com/example/myapplication/utils/AICoachUtils.kt:89 | `takeLast(n)`: the suffix of length min(n, size) |
| Seqs.SeqMax | app/src/main/java/com/example/myapplication/utils/AICoachUtils.kt:46 | `maxOrNull()` of a non-empty list: an element of it, no element larger |
| Seqs.SeqMin | app/src/main/java/com/example/myapplication/utils/AICoachUtils.kt:47 | `minOrNull()` of a non-empty list: an element of it, no element smaller |
| Seqs.SumAppend | app/src/main/java/com/example/myapplication/utils/AICoachUtils.kt:31 | a sum over two lists is the sum of the sums |
| Seqs.Reverse | app/src/main/java/com/example/myapplication/utils/AICoachUtils.kt:29 | `reversed()`: position i holds the element at size−1−i |
| Seqs.SumReverse | app/src/main/java/com/example/myapplication/utils/AICoachUtils.kt:29-31 | reversing a list does not change its sum |
| Text.DigitValue | app/src/main/java/com/example/myapplication/utils/GymUtils.kt:17 | a decimal digit has a value below 10 |
| Text.DigitChar | app/src/main/java/com/example/myapplication/utils/AICoachUtils.kt:54 | the character of a value below 10 is a digit with that value |
| Text.DigitsOf | app/src/main/java/com/example/myapplication/utils/GymUtils.kt:21-22 | `filter { it.isDigit() }` keeps only digits and never lengthens the text; with DigitsOfAppend, DigitsOfDigits and DigitsOfNoDigits the result is fixed: the text's digits, in order |
| Text.NatToString | app/src/main/java/com/example/myapplication/utils/AICoachUtils.kt:54 | the decimal rendering of a number is a non-empty digit string |
| Text.DecimalValueOfNatToString | app/src/main/java/com/example/myapplication/utils/AICoachUtils.kt:54 | reading back the rendering of a number gives the number |
| Text.DigitsOfAppend | app/src/main/java/com/example/myapplication/utils/GymUtils.kt:21-22 | the digits of joined text are the digits of each part, joined |
| Text.DigitsOfDigits | app/src/main/java/com/example/myapplication/utils/GymUtils.kt:21-22 | filtering a digit string for digits leaves it unchanged |
| Text.DigitsOfNoDigits | app/src/main/java/com/example/myapplication/utils/GymUtils.kt:21-22 | text without digits filters to nothing |
| Text.LeadingDigitCount | app/src/main/java/com/example/myapplication/utils/GymUtils.kt:16 | `^\d+` is greedy: all digits before the count, a non-digit (or the end) at it |
| Text.LeadingDigitCountOf | app/src/main/java/com/example/myapplication/utils/GymUtils.kt:16 | digits followed by a non-digit give exactly the length of those digits |
| Text.LeadingSpaceCount | app/src/main/java/com/example/myapplication/utils/GymUtils.kt:16 | `\s*` is greedy: all whitespace before the count, none at it |
| Text.LeadingSpaceCountOf | app/src/main/java/com/example/myapplication/utils/GymUtils.kt:16 | whitespace followed by a non-space gives exactly the length of that whitespace |
| Text.LastSegment | app/src/main/java/com/example/myapplication/utils/GymUtils.kt:21-22 | `split(sep).lastOrNull()`: a suffix with no separator, preceded by a separator unless it is the whole text |
| Text.LastSegmentAfter | app/src/main/java/com/example/myapplication/utils/GymUtils.kt:21-22 | the last piece is whatever follows the last separator |
| Text.LastSegmentWithoutSeparator | app/src/main/java/com/example/myapplication/utils/GymUtils.kt:21-22 | text without a separator splits into itself |
| Text.ContainsItself | app/src/main/java/com/example/myapplication/utils/GymUtils.kt:104 | `contains(ignoreCase = true)` holds of a text and itself, so a muscle name always matches itself |
| Text.ContainsIgnoreCase | app/src/main/java/com/example/myapplication/utils/GymUtils.kt:104 | a text can contain a pattern, ignoring case, only when the pattern is no longer than it |
| Text.StrLess | app/src/main/java/com/example/myapplication/utils/AICoachUtils.kt:25 | `compareTo`: a proper prefix comes before its extensions |
| Text.StrLessIrreflexive | app/src/main/java/com/example/myapplication/utils/AICoachUtils.kt:25 | string order: no date precedes itself |
| Text.StrLessAsymmetric | app/src/main/java/com/example/myapplication/utils/AICoachUtils.kt:25 | string order: two dates are never each before the other |
| Text.StrLessTransitive | app/src/main/java/com/example/myapplication/utils/AICoachUtils.kt:25 | string order is transitive |
| Text.StrLessTotal | app/src/main/java/com/example/myapplication/utils/AICoachUtils.kt:25 | string order is total on distinct strings |
| Text.StrictlyAscendingCons | app/src/main/java/com/example/myapplication/utils/AICoachUtils.kt:25 | a date before every date of an ascending list can head it |
| Text.InsertAscending | app/src/main/java/com/example/myapplication/utils/AICoachUtils.kt:25 | insertion adds exactly one place |
| Text.InsertAscendingPermutes | app/src/main/java/com/example/myapplication/utils/AICoachUtils.kt:25 | insertion adds the new date and loses none |
| Text.InsertAscendingSorted | app/src/main/java/com/example/myapplication/utils/AICoachUtils.kt:25 | inserting a new date into an ascending list keeps it ascending |
| Text.StrictlyAscendingAfterHead | app/src/main/java/com/example/myapplication/utils/AICoachUtils.kt:25 | a date before the head of an ascending list can be put in front |
| Text.SortAscending | app/src/main/java/com/example/myapplication/utils/AICoachUtils.kt:25 | `sortedBy { it }` keeps the length |
| Text.SortAscendingPermutes | app/src/main/java/com/example/myapplication/utils/AICoachUtils.kt:25 | `sortedBy { it }` is a permutation of its input |
| Text.SortAscendingSorted | app/src/main/java/com/example/myapplication/utils/AICoachUtils.kt:25 | sorting distinct dates gives a strictly ascending list |
| GymUtils.Calculate1RM | app/src/main/java/com/example/myapplication/utils/GymUtils.kt:9-13 | the parsed weight when parsed reps ≤ 0; otherwise the excess over the weight is weight·reps/30, so it exceeds a positive weight and never falls below a non-negative one |
| GymUtils.GetTargetSets | app/src/main/java/com/example/myapplication/utils/GymUtils.kt:15-18 | 0 when the scheme is empty, does not start with a digit, or has no 'x'/'X' at all |
| GymUtils.TargetSetsOfScheme | app/src/main/java/com/example/myapplication/utils/GymUtils.kt:15-18 | digits, optional whitespace, then 'x'/'X': the value of those digits, whatever follows |
| GymUtils.TargetSetsWithoutTimesSign | app/src/main/java/com/example/myapplication/utils/GymUtils.kt:15-18 | the other direction: leading digits and whitespace followed by any character but 'x'/'X' give 0 |
| GymUtils.TargetSetsOfDigitsAndSpaces | app/src/main/java/com/example/myapplication/utils/GymUtils.kt:15-18 | digits followed only by whitespace give 0 |
| GymUtils.TargetSetsWithoutTimesSignExample | app/src/main/java/com/example/myapplication/utils/GymUtils.kt:15-18 | `getTargetSets("4-8x")` is 0 |
| GymUtils.TargetSetsOfRangeExample | app/src/main/java/com/example/myapplication/utils/GymUtils.kt:15-18 | "4x8-12" gives 4 sets |
| GymUtils.TargetSetsSpacedExample | app/src/main/java/com/example/myapplication/utils/GymUtils.kt:15-18 | "4 X 10" gives 4 sets |
| GymUtils.TargetSetsNoSchemeExample | app/src/main/java/com/example/myapplication/utils/GymUtils.kt:15-18 | "random text" gives 0 sets |
| GymUtils.GetTargetCeiling | app/src/main/java/com/example/myapplication/utils/GymUtils.kt:20-23 | a scheme without any digit yields 0 |
| GymUtils.CeilingAfterLastDash | app/src/main/java/com/example/myapplication/utils/GymUtils.kt:20-21 | when the piece after the last '-' has digits, the ceiling is the value of those digits |
| GymUtils.CeilingWithoutDash | app/src/main/java/com/example/myapplication/utils/GymUtils.kt:20-21 | with no '-', the ceiling is the value of all digits of the scheme run together |
| GymUtils.CeilingFallback | app/src/main/java/com/example/myapplication/utils/GymUtils.kt:20-23 | when the piece after the last '-' has no digits, the digits after the last 'x' or 'X' decide, and no digits there give 0 |
| GymUtils.CeilingWithoutTimesSign | app/src/main/java/com/example/myapplication/utils/GymUtils.kt:20-23 | without 'x'/'X' and without digits after the last '-', the second split is the whole scheme: all its digits are read, or 0 when it has none |
| GymUtils.CeilingOfOpenRangeExample | app/src/main/java/com/example/myapplication/utils/GymUtils.kt:20-23 | `getTargetCeiling("12-")` is 12 |
| GymUtils.CeilingOfRangeExample | app/src/main/java/com/example/myapplication/utils/GymUtils.kt:20-23 | "4x8-12" gives ceiling 12 |
| GymUtils.CeilingWithoutRangeExample | app/src/main/java/com/example/myapplication/utils/GymUtils.kt:20-23 | "3x5" gives ceiling 35, as written |
| GymUtils.CeilingFallbackExample | app/src/main/java/com/example/myapplication/utils/GymUtils.kt:20-23 | "4x8-" falls back to the piece after the 'x' and gives 8 |
| GymUtils.CeilingOfFreeTextExample | app/src/main/java/com/example/myapplication/utils/GymUtils.kt:20-23 | "random text" gives ceiling 0 |
| GymUtils.LastWorkout | app/src/main/java/com/example/myapplication/utils/GymUtils.kt:35-36 | the last workout is non-empty, ends with the list's last set (whose weight `Apt` carries), and all its sets share that set's date |
| GymUtils.GetProgressionStatus | app/src/main/java/com/example/myapplication/utils/GymUtils.kt:31-44 | `None` iff no sets or ceiling 0; `Apt` iff the last date's sets number at least the target sets and all reach the ceiling, carrying the last set's weight; `Consolidating` otherwise |
| GymUtils.Qualities | app/src/main/java/com/example/myapplication/utils/GymUtils.kt:58 | one quality per set |
| GymUtils.QualitiesAt | app/src/main/java/com/example/myapplication/utils/GymUtils.kt:58 | `map { it.quality }`: position i holds the i-th set's quality |
| GymUtils.SummarizeWorkoutDate | app/src/main/java/com/example/myapplication/utils/GymUtils.kt:56-60 | a workout date's summary holds the heaviest weight, mean quality and total reps of that date's non-empty group |
| GymUtils.SummariesOf | app/src/main/java/com/example/myapplication/utils/GymUtils.kt:55-62 | one summary per date given |
| GymUtils.SummariesOfAt | app/src/main/java/com/example/myapplication/utils/GymUtils.kt:55-62 | the i-th entry is the summary of the i-th date |
| GymUtils.SummaryWeights | app/src/main/java/com/example/myapplication/utils/GymUtils.kt:75 | one weight per summary |
| GymUtils.SummaryWeightsAt | app/src/main/java/com/example/myapplication/utils/GymUtils.kt:75 | `workouts.map { it.second.first }`: position i holds the i-th summary's heaviest weight |
| GymUtils.DetectStagnation | app/src/main/java/com/example/myapplication/utils/GymUtils.kt:52-86 | `Progressing` under 10 sets or 3 dates; `FormDeviated` carries the form warning; `Stagnated` carries 2 weeks and the deload suggestion |
| GymUtils.Ranked | app/src/main/java/com/example/myapplication/utils/GymUtils.kt:62-63 | the (date, summary) pairs sorted by date text, descending: one entry per workout date |
| GymUtils.RankedAt | app/src/main/java/com/example/myapplication/utils/GymUtils.kt:62-63 | entry k is the summary of the k-th date counted back from the greatest in string order |
| GymUtils.LatestThreeDates | app/src/main/java/com/example/myapplication/utils/GymUtils.kt:63-64 | the three dates examined are workout dates in strictly descending string order, and every other workout date comes before them |
| GymUtils.DetectStagnationOutcome | app/src/main/java/com/example/myapplication/utils/GymUtils.kt:52-86 | `FormDeviated` iff ≥ 10 sets, ≥ 3 dates and the latest date's workout is heavier than the second latest with fewer reps and quality < 4; `Stagnated` iff ≥ 10 sets, ≥ 3 dates, no form deviation, and the heaviest weights satisfy latest ≤ second latest ≤ third latest |
| GymUtils.StagnationOfLatestThree | app/src/main/java/com/example/myapplication/utils/GymUtils.kt:64-85 | from 10 sets and 3 dates on, the verdict is a function of the summaries of the three latest dates only |
| GymUtils.SetsOfExercises | app/src/main/java/com/example/myapplication/utils/GymUtils.kt:105 | the filtered sets are never more than all sets |
| GymUtils.SetsOfExercisesMembers | app/src/main/java/com/example/myapplication/utils/GymUtils.kt:105 | a set is relevant exactly when its exercise id belongs to a relevant exercise |
| GymUtils.Clamp | app/src/main/java/com/example/myapplication/utils/GymUtils.kt:118 | `coerceIn` stays within the bounds and leaves values inside them unchanged |
| GymUtils.HeatIntensity | app/src/main/java/com/example/myapplication/utils/GymUtils.kt:129 | heat is volume/5000 capped at 1 (above only), and 1 exactly from 5000 on |
| GymUtils.Fatigue | app/src/main/java/com/example/myapplication/utils/GymUtils.kt:112-120 | in [0,1]; 0 without relevant sets or when the last set's date fails to parse; otherwise 1 − days/3 clamped: 1 iff 0 days, 0 iff ≥ 3 days |
| GymUtils.Stimulus | app/src/main/java/com/example/myapplication/utils/GymUtils.kt:103-131 | one muscle's entry: counts, reps, weekly volume = volume/4, "Crescimento" iff volume > 1000, heaviest relevant weight (0 when none), heat and fatigue as above |
| GymUtils.CalculateMuscleAnalytics | app/src/main/java/com/example/myapplication/utils/GymUtils.kt:99-134 | exactly five entries, Peito, Costas, Pernas, Ombros, Braços in order, each the muscle's stimulus with heat ≤ 1 and fatigue in [0,1] |
| GymUtils.TierMonotone | app/src/main/java/com/example/myapplication/utils/GymUtils.kt:165-170 | more volume and a heavier best set never give a lower tier |
| GymUtils.CalculateTransformation | app/src/main/java/com/example/myapplication/utils/GymUtils.kt:159-171 | ERVA_DANINHA for no sets; ABERRACAO_DIVINA iff volume > 20000 or max weight > 180; ERVA_DANINHA iff volume ≤ 5000 and max weight ≤ 180; strict thresholds |
| GymUtils.TransformationMonotoneUnderLogging | app/src/main/java/com/example/myapplication/utils/GymUtils.kt:159-171 | logging more sets of non-negative volume never lowers the tier |
| GymUtils.ChronologicalDates | app/src/main/java/com/example/myapplication/utils/GymUtils.kt:184-187 | one entry per workout date |
| GymUtils.ChronologicalDatesOrder | app/src/main/java/com/example/myapplication/utils/GymUtils.kt:184-187 | the sorted keys are a permutation of the workout dates in strictly ascending string order |
| GymUtils.ChronologicalDatesAreWorkoutDates | app/src/main/java/com/example/myapplication/utils/GymUtils.kt:184-187 | every sorted key is a workout date |
| GymUtils.NextMilestone | app/src/main/java/com/example/myapplication/utils/GymUtils.kt:199 | a multiple of ten strictly above the current weight, at most ten above when it is non-negative |
| GymUtils.WorkoutsToReach | app/src/main/java/com/example/myapplication/utils/GymUtils.kt:201 | truncation of gap/gain, at least 1: never above gap/gain unless it is 1, and within 1 of it when gap/gain ≥ 1 |
| GymUtils.SyncPercentage | app/src/main/java/com/example/myapplication/utils/GymUtils.kt:208 | in [0,1], and exactly current/milestone when that ratio is in range |
| GymUtils.PredictStrength | app/src/main/java/com/example/myapplication/utils/GymUtils.kt:181-210 | a prediction iff ≥ 10 sets, ≥ 5 dates and the last date's best weight exceeds the first's; then it is the forecast from those two weights and the date count |
| GymUtils.Forecast | app/src/main/java/com/example/myapplication/utils/GymUtils.kt:195-209 | echoes the name with confidence "Alta"; the target is `NextMilestone(current)`, a multiple of ten above the current weight (≤ 10 above when non-negative); weeks are half the workouts `WorkoutsToReach(target − current, gain per date)` needs, at least 1; sync is `SyncPercentage(current, target)`, in [0,1] |
| UserStats.TotalXp | app/src/main/java/com/example/myapplication/data/UserStats.kt:32-35 | 5 per set, 50 per date, plus volume/20 truncated; non-negative for non-negative totals |
| UserStats.TotalXpExample | app/src/main/java/com/example/myapplication/data/UserStats.kt:32-35 | 10 sets, volume 200 and one date give 110 XP |
| UserStats.CumulativeXpStep | app/src/main/java/com/example/myapplication/data/UserStats.kt:43-51 | reaching the next level costs the current threshold 1000·(level+1) |
| UserStats.CumulativeXpMonotone | app/src/main/java/com/example/myapplication/data/UserStats.kt:43-51 | higher levels need at least as many points |
| UserStats.LevelFromXp | app/src/main/java/com/example/myapplication/data/UserStats.kt:43-51 | level ≥ 1, next = 1000·(level+1), total = 500·(level−1)·(level+2) + current, and for non-negative XP 0 ≤ current < next with the level in its bracket; under 2000 XP, level 1 |
| UserStats.LevelBracketUnique | app/src/main/java/com/example/myapplication/data/UserStats.kt:38-51 | an XP total lies in exactly one level bracket |
| UserStats.LevelMonotone | app/src/main/java/com/example/myapplication/data/UserStats.kt:43-51 | more XP never gives a lower level |
| UserStats.LevelBracketsOfFirstLevels | app/src/main/java/com/example/myapplication/data/UserStats.kt:38-40 | level 1 is 0–1999 XP, level 2 is 2000–4999, level 3 is 5000–8999 |
| UserStats.OneRepMaxes | app/src/main/java/com/example/myapplication/data/UserStats.kt:26 | the estimated one-rep max of every set, position by position |
| UserStats.Max1RM | app/src/main/java/com/example/myapplication/data/UserStats.kt:26 | 0 for no sets, else the greatest one-rep max, attained by some set |
| UserStats.CalculateUserStats | app/src/main/java/com/example/myapplication/data/UserStats.kt:20-67 | totals of volume, reps and sets; workouts = streak = distinct dates; list sizes; maxima 0 when empty and otherwise attained; level and XP as the loop gives them |
| AICoach.DailyVolumes | app/src/main/java/com/example/myapplication/utils/AICoachUtils.kt:45 | one volume per date |
| AICoach.DailyVolumesAt | app/src/main/java/com/example/myapplication/utils/AICoachUtils.kt:45 | position i holds the volume of the i-th date's group |
| AICoach.DailyQualities | app/src/main/java/com/example/myapplication/utils/AICoachUtils.kt:61-64 | one mean quality per date |
| AICoach.DailyQualitiesAt | app/src/main/java/com/example/myapplication/utils/AICoachUtils.kt:61-64 | position i holds the mean quality of the i-th date's group |
| AICoach.FirstMaxIndex | app/src/main/java/com/example/myapplication/utils/AICoachUtils.kt:51-65 | `indexOf(maxOrNull())` is a valid position |
| AICoach.FirstMaxIndexIsFirstMax | app/src/main/java/com/example/myapplication/utils/AICoachUtils.kt:51-65 | that position holds the maximum and every earlier value is smaller |
| AICoach.FirstMinIndex | app/src/main/java/com/example/myapplication/utils/AICoachUtils.kt:76 | `indexOf(minOrNull())` is a valid position |
| AICoach.FirstMinIndexIsFirstMin | app/src/main/java/com/example/myapplication/utils/AICoachUtils.kt:76 | that position holds the minimum and every earlier value is larger |
| AICoach.OveruseInsightInjective | app/src/main/java/com/example/myapplication/utils/AICoachUtils.kt:98-103 | distinct muscles give distinct overuse warnings |
| AICoach.SpikeNeedsSevenDates | app/src/main/java/com/example/myapplication/utils/AICoachUtils.kt:28-41 | at most one spike warning, only from seven dates on, of medium risk and not a comparison |
| AICoach.PreviousFiveReversed | app/src/main/java/com/example/myapplication/utils/AICoachUtils.kt:29-31 | on the reversed dates, the head is the last date and `drop(1).take(5)` has the mean volume of the five dates before it |
| AICoach.ComparisonOf | app/src/main/java/com/example/myapplication/utils/AICoachUtils.kt:50-84 | two or three insights, all comparisons, none of high risk |
| AICoach.ComparisonOfPeak | app/src/main/java/com/example/myapplication/utils/AICoachUtils.kt:51-58 | the first comparison insight names the first date of greatest volume with that volume |
| AICoach.ComparisonNeedsFourteenDates | app/src/main/java/com/example/myapplication/utils/AICoachUtils.kt:44 | the comparison block is empty iff there are fewer than 14 dates |
| AICoach.PeakIsHeaviestDate | app/src/main/java/com/example/myapplication/utils/AICoachUtils.kt:45-58 | the peak insight names a date of greatest volume, no earlier date reaching it, with that volume |
| AICoach.EfficientIsBestQualityDate | app/src/main/java/com/example/myapplication/utils/AICoachUtils.kt:61-72 | the efficiency insight names a date of best mean quality, no earlier date reaching it |
| AICoach.LowPointIff | app/src/main/java/com/example/myapplication/utils/AICoachUtils.kt:74-84 | a third comparison insight iff the least volume is below 0.4 × the mean, naming the first date of least volume |
| AICoach.FirstWithId | app/src/main/java/com/example/myapplication/utils/AICoachUtils.kt:91 | the first position from `from` on whose id matches, or the end when none does |
| AICoach.FindExercise | app/src/main/java/com/example/myapplication/utils/AICoachUtils.kt:91 | `find { it.id == id }`: nothing iff no exercise has the id, else the first one that does |
| AICoach.CategoriesOfStep | app/src/main/java/com/example/myapplication/utils/AICoachUtils.kt:90-93 | visiting one more set adds that set's category, if its exercise exists |
| AICoach.OveruseOfMembers | app/src/main/java/com/example/myapplication/utils/AICoachUtils.kt:96-105 | a muscle gets a warning iff it is among those listed and is counted more than 25 times |
| AICoach.OveruseIff | app/src/main/java/com/example/myapplication/utils/AICoachUtils.kt:88-105 | a muscle is warned about iff its category is counted more than 25 times on the last three dates (25 gives none) |
| AICoach.CounterAdd | app/src/main/java/com/example/myapplication/utils/AICoachUtils.kt:92 | `map[c] = (map[c] ?: 0) + 1` keeps the map an insertion-ordered count of the categories seen |
| AICoach.Stagnations | app/src/main/java/com/example/myapplication/utils/AICoachUtils.kt:108-110 | one stagnation status per exercise |
| AICoach.StagnationsAt | app/src/main/java/com/example/myapplication/utils/AICoachUtils.kt:109-110 | the i-th status is `detectStagnation` of the i-th exercise's sets |
| AICoach.PlateausOfSound | app/src/main/java/com/example/myapplication/utils/AICoachUtils.kt:108-119 | every plateau insight belongs to a stagnated exercise and carries its name and suggestion |
| AICoach.PlateausOfComplete | app/src/main/java/com/example/myapplication/utils/AICoachUtils.kt:108-119 | every stagnated exercise gets its plateau insight |
| AICoach.PlateauInsightsSound | app/src/main/java/com/example/myapplication/utils/AICoachUtils.kt:108-119 | every plateau insight names an exercise whose sets stagnate, with the stagnation suggestion |
| AICoach.PlateauInsightsComplete | app/src/main/java/com/example/myapplication/utils/AICoachUtils.kt:108-119 | every exercise whose sets stagnate gets a plateau insight |
| AICoach.PlateausOfFlag | app/src/main/java/com/example/myapplication/utils/AICoachUtils.kt:112-117 | plateau insights are of medium risk and not comparisons |
| AICoach.NoPlateauWithoutSets | app/src/main/java/com/example/myapplication/utils/AICoachUtils.kt:108-119 | with no sets no exercise plateaus |
| AICoach.NoInsightsWithoutSets | app/src/main/java/com/example/myapplication/utils/AICoachUtils.kt:21-22 | no sets, no insights |
| AICoach.FewDatesOnlyRecoveryAndPlateaus | app/src/main/java/com/example/myapplication/utils/AICoachUtils.kt:27-121 | under seven dates only the overuse and plateau rules speak, and they still run |
| AICoach.ComparisonFlag | app/src/main/java/com/example/myapplication/utils/AICoachUtils.kt:14-117 | only the historical comparison insights are flagged as comparisons |
| AICoach.OveruseFlag | app/src/main/java/com/example/myapplication/utils/AICoachUtils.kt:98-103 | overuse warnings are of high risk and not comparisons |
| AICoach.PlateauFlag | app/src/main/java/com/example/myapplication/utils/AICoachUtils.kt:112-117 | plateau insights are of medium risk and not comparisons |
| AICoach.AnalyzeTrainingPatterns | app/src/main/java/com/example/myapplication/utils/AICoachUtils.kt:20-122 | the insights are the spike, then the comparisons, then the overuse warnings, then the plateaus |
| AICoach.AddVolumeSpike | app/src/main/java/com/example/myapplication/utils/AICoachUtils.kt:27-41 | appends exactly the spike warning, if any |
| AICoach.AddComparison | app/src/main/java/com/example/myapplication/utils/AICoachUtils.kt:43-85 | appends exactly the comparison insights |
| AICoach.AddRecovery | app/src/main/java/com/example/myapplication/utils/AICoachUtils.kt:87-105 | appends exactly the overuse warnings, in the order the counter first met each muscle |
| AICoach.CountDay | app/src/main/java/com/example/myapplication/utils/AICoachUtils.kt:90-93 | counts the categories of one date's sets, keeping the counter exact |
| AICoach.CountSet | app/src/main/java/com/example/myapplication/utils/AICoachUtils.kt:91-92 | counts one set's category when its exercise exists, keeping the counter exact |
| AICoach.WarnOveruse | app/src/main/java/com/example/myapplication/utils/AICoachUtils.kt:96-105 | walks the counter in insertion order and appends a warning for each count above 25 |
| AICoach.AddPlateaus | app/src/main/java/com/example/myapplication/utils/AICoachUtils.kt:107-119 | appends exactly the plateau insights, in exercise order |

## Left out

- The Compose screens, view model, Room database and static tables. They
  are display, persistence and concurrency plumbing around the engine.
- IEEE floating point. `Double` and `Float` are modelled as exact `real`
  values, so rounding, the `Float` casts of heat, fatigue and sync, and NaN
  are not modelled.
- `Int` and `Long` overflow. XP and reps are unbounded integers, and ids
  are `int`.
- `toIntOrNull` and `toDoubleOrNull`. The model keeps only their outcome
  (`NumText`); how they parse text is not modelled.
- Domain.NumText: it assumes every text `toIntOrNull` accepts is also
  accepted by `toDoubleOrNull`. Text of non-ASCII decimal digits (which
  `toIntOrNull` reads and `toDoubleOrNull` rejects) is not represented.
- Text.DigitsOf: it keeps the ASCII digits '0'..'9' only. Kotlin's
  `isDigit()` also keeps the other Unicode decimal digits, so a rep ceiling
  written in them is not modelled. The `\d` of `getTargetSets` is ASCII in
  Java, as modelled.
- GymUtils.GetTargetSets and GymUtils.GetTargetCeiling: a digit run above
  `Int.MAX_VALUE` makes `toIntOrNull` fail (0, or the fallback to the
  digits after the 'x'); the model reads its unbounded value.
- GymUtils.Fatigue: `LocalDate.now()` and the "dd/MM/yyyy" parse are
  replaced by the parameter `daysSince`, which gives the days between a
  date and today, or nothing when parsing fails. The calendar arithmetic
  and the exception path are not modelled.
- Text.ContainsIgnoreCase: it folds case for ASCII and Latin-1 letters
  only, not for all of Unicode.
- GymUtils.Summarize and AICoach.DayQuality: the average of an empty list
  (NaN in Kotlin) reads 0. Their lemmas show this case never arises for a
  workout date.
- GymUtils.PredictStrength: `maxOf` on an empty group, which throws, cannot
  happen. It is not modelled as an error.
- The `description` and `humor` texts of `ZenkaiTransformation` are left
  out. Only the label and the tier are modelled.
