/**
 * The coach of app/.../utils/AICoachUtils.kt: four blocks of insights over
 * the workout history, in this order: a volume spike on the latest date, the
 * historical comparison (best, most efficient and weakest dates), the muscle
 * groups overused on the last three dates, and a plateau warning per
 * stagnated exercise.
 *
 * Each block is first defined as a function of the history; the method
 * `AnalyzeTrainingPatterns` then builds the list the way the source does,
 * with a mutable list, loops and an insertion-ordered counter, and is proved
 * to return exactly the four blocks concatenated.
 */
module AICoach {
  import W = Wrappers
  import opened Text
  import opened Seqs
  import opened Domain
  import opened GymUtils

  datatype RiskLevel = Low | Medium | High | Insight

  datatype AIInsight = AIInsight(
    title: string,
    description: string,
    riskLevel: RiskLevel,
    suggestion: string,
    isComparison: bool)

  // ---------------------------------------------------------------------------
  // Per-date aggregates
  // ---------------------------------------------------------------------------

  /** `calculateVolume(setsByDate[date] ?: emptyList())` */
  function DayVolume(sets: seq<ExerciseSet>, date: string): real {
    TotalVolume(SetsOn(sets, date))
  }

  function DailyVolumes(sets: seq<ExerciseSet>, dates: seq<string>): (v: seq<real>)
    ensures |v| == |dates|
  {
    if |dates| == 0 then [] else [DayVolume(sets, dates[0])] + DailyVolumes(sets, dates[1..])
  }

  /** The i-th daily volume is the volume of the i-th date. */
  lemma {:induction false} DailyVolumesAt(sets: seq<ExerciseSet>, dates: seq<string>)
    ensures forall i :: 0 <= i < |dates| ==> DailyVolumes(sets, dates)[i] == DayVolume(sets, dates[i])
  {
    if |dates| > 0 {
      DailyVolumesAt(sets, dates[1..]);
    }
  }

  /**
   * The mean quality of a date's sets. The dates it is asked about are
   * workout dates, which have sets (`WorkoutDateHasSets`), so the empty
   * average (NaN in floats) does not arise; it reads 0 here.
   */
  function DayQuality(sets: seq<ExerciseSet>, date: string): real {
    var q := Qualities(SetsOn(sets, date));
    if |q| == 0 then 0.0 else Mean(q)
  }

  function DailyQualities(sets: seq<ExerciseSet>, dates: seq<string>): (q: seq<real>)
    ensures |q| == |dates|
  {
    if |dates| == 0 then [] else [DayQuality(sets, dates[0])] + DailyQualities(sets, dates[1..])
  }

  /** The i-th daily quality is the mean quality of the i-th date. */
  lemma {:induction false} DailyQualitiesAt(sets: seq<ExerciseSet>, dates: seq<string>)
    ensures forall i :: 0 <= i < |dates| ==> DailyQualities(sets, dates)[i] == DayQuality(sets, dates[i])
  {
    if |dates| > 0 {
      DailyQualitiesAt(sets, dates[1..]);
    }
  }

  /** `indexOf(maxOrNull())`: the first position of the greatest value. */
  function FirstMaxIndex(v: seq<real>): (k: nat)
    requires |v| > 0
    ensures k < |v|
  {
    FirstIndexOf(v, SeqMax(v))
  }

  /** No value exceeds the one at `FirstMaxIndex`, and every earlier one is smaller. */
  lemma FirstMaxIndexIsFirstMax(v: seq<real>)
    requires |v| > 0
    ensures var k := FirstMaxIndex(v);
      && (forall i :: 0 <= i < |v| ==> v[i] <= v[k])
      && (forall i :: 0 <= i < k ==> v[i] < v[k])
  {
  }

  /** `indexOf(minOrNull())`: the first position of the least value. */
  function FirstMinIndex(v: seq<real>): (k: nat)
    requires |v| > 0
    ensures k < |v|
  {
    FirstIndexOf(v, SeqMin(v))
  }

  /** No value is below the one at `FirstMinIndex`, and every earlier one is greater. */
  lemma FirstMinIndexIsFirstMin(v: seq<real>)
    requires |v| > 0
    ensures var k := FirstMinIndex(v);
      && (forall i :: 0 <= i < |v| ==> v[k] <= v[i])
      && (forall i :: 0 <= i < k ==> v[k] < v[i])
  {
  }

  // ---------------------------------------------------------------------------
  // The insights
  // ---------------------------------------------------------------------------

  // The fixed texts of the insights, word for word.
  const SpikeTitle: string := "Pico de Volume Detectado"
  const SpikeDescription: string := "Seu volume hoje foi 50% superior à sua média."
  const SpikeSuggestion: string :=
    "Sugestão: Reduza 1 série em cada exercício no próximo treino para evitar fadiga central."
  const PeakTitle: string := "Melhor Fase Histórica"
  const PeakPrefix: string := "Seu ápice de força foi em "
  const PeakInfix: string := " com "
  const PeakSuffix: string := "kg de volume total."
  const PeakSuggestion: string := "Analise o que você estava comendo e como dormia nessa época."
  const EfficientTitle: string := "Fase Mais Eficiente"
  const EfficientPrefix: string := "Em "
  const EfficientSuffix: string := ", você teve a melhor qualidade técnica média."
  const EfficientSuggestion: string := "Lembre-se: qualidade supera carga para hipertrofia a longo prazo."
  const LowPointTitle: string := "Ponto de Menor Estímulo"
  const LowPointPrefix: string := "Em "
  const LowPointSuffix: string := " seu volume caiu drasticamente."
  const LowPointSuggestion: string := "Identifique o motivo do desânimo para não repetir o padrão."
  const OveruseTitlePrefix: string := "Risco de Lesão: "
  const OverusePrefix: string := "Volume excessivo acumulado em "
  const OveruseSuffix: string := " nas últimas 72h."
  const OveruseSuggestion: string := "Sugestão: Dê 48h de descanso total para este grupamento."
  const PlateauTitlePrefix: string := "Platô Iminente: "
  const PlateauDescription: string :=
    "Seu progresso travou. O sistema nervoso não está mais respondendo a este estímulo."

  const SpikeInsight: AIInsight := AIInsight(SpikeTitle, SpikeDescription, Medium, SpikeSuggestion, false)

  function PeakInsight(date: string, volume: real): AIInsight {
    AIInsight(PeakTitle, PeakPrefix + date + PeakInfix + IntToString(ToInt(volume)) + PeakSuffix, Insight, PeakSuggestion, true)
  }

  function EfficientInsight(date: string): AIInsight {
    AIInsight(EfficientTitle, EfficientPrefix + date + EfficientSuffix, Insight, EfficientSuggestion, true)
  }

  function LowPointInsight(date: string): AIInsight {
    AIInsight(LowPointTitle, LowPointPrefix + date + LowPointSuffix, Low, LowPointSuggestion, true)
  }

  function OveruseInsight(muscle: string): AIInsight {
    AIInsight(OveruseTitlePrefix + muscle, OverusePrefix + muscle + OveruseSuffix, High, OveruseSuggestion, false)
  }

  function PlateauInsight(exerciseName: string, suggestion: string): AIInsight {
    AIInsight(PlateauTitlePrefix + exerciseName, PlateauDescription, Medium, suggestion, false)
  }

  /** Distinct muscles give distinct overuse warnings. */
  lemma OveruseInsightInjective(a: string, b: string)
    requires OveruseInsight(a) == OveruseInsight(b)
    ensures a == b
  {
    var p := OveruseTitlePrefix;
    assert (p + a)[|p|..] == a;
    assert (p + b)[|p|..] == b;
  }

  // ---------------------------------------------------------------------------
  // 1. Volume spike
  // ---------------------------------------------------------------------------

  /**
   * With at least 7 dates, the latest date's volume exceeds 1.5 times the
   * mean volume of the five dates before it (in the "dd/MM" text order).
   */
  predicate VolumeSpike(sets: seq<ExerciseSet>) {
    var d := ChronologicalDates(sets);
    var n := |d|;
    n >= 7 && DayVolume(sets, d[n - 1]) > Mean(DailyVolumes(sets, d[n - 6..n - 1])) * 1.5
  }

  function SpikeInsights(sets: seq<ExerciseSet>): seq<AIInsight> {
    if VolumeSpike(sets) then [SpikeInsight] else []
  }

  /** At most one spike warning, of medium risk, and only from seven dates on. */
  lemma SpikeNeedsSevenDates(sets: seq<ExerciseSet>)
    ensures |SpikeInsights(sets)| <= 1
    ensures |SpikeInsights(sets)| == 1 ==>
      |ChronologicalDates(sets)| >= 7 && SpikeInsights(sets)[0].riskLevel == Medium && !SpikeInsights(sets)[0].isComparison
  {
  }

  /**
   * The source takes the newest date first and then the next five of the
   * reversed list; that is the newest date and the five before it in order.
   */
  lemma PreviousFiveReversed(sets: seq<ExerciseSet>, d: seq<string>)
    requires |d| >= 7
    ensures Reverse(d)[0] == d[|d| - 1]
    ensures Mean(DailyVolumes(sets, Reverse(d)[1..][..5])) == Mean(DailyVolumes(sets, d[|d| - 6..|d| - 1]))
  {
    var n := |d|;
    var fwd := DailyVolumes(sets, d[n - 6..n - 1]);
    var bwd := DailyVolumes(sets, Reverse(d)[1..][..5]);
    DailyVolumesAt(sets, d[n - 6..n - 1]);
    DailyVolumesAt(sets, Reverse(d)[1..][..5]);
    assert bwd == Reverse(fwd);
    SumReverse(fwd);
  }

  // ---------------------------------------------------------------------------
  // 2. Historical comparison
  // ---------------------------------------------------------------------------

  /**
   * From 14 dates on: the date of the greatest volume, the date of the best
   * mean quality and, when the least volume is below 40% of the mean, the
   * date of the least volume; ties go to the earliest date.
   */
  function ComparisonInsights(sets: seq<ExerciseSet>): seq<AIInsight> {
    var d := ChronologicalDates(sets);
    if |d| < 14 then [] else ComparisonOf(d, DailyVolumes(sets, d), DailyQualities(sets, d))
  }

  /**
   * The comparison block over the dates `d`, their volumes `vols` and their
   * mean qualities `quals`: every insight it gives is a comparison, none
   * of high risk, and there are two or three of them.
   */
  function ComparisonOf(d: seq<string>, vols: seq<real>, quals: seq<real>): (r: seq<AIInsight>)
    requires |vols| == |d| && |quals| == |d| && |d| > 0
    ensures 2 <= |r| <= 3
    ensures forall x :: x in r ==> x.isComparison && x.riskLevel != High
  {
    var peak := PeakInsight(d[FirstMaxIndex(vols)], SeqMax(vols));
    var efficient := EfficientInsight(d[FirstMaxIndex(quals)]);
    if SeqMin(vols) < Mean(vols) * 0.4 then
      [peak, efficient, LowPointInsight(d[FirstMinIndex(vols)])]
    else
      [peak, efficient]
  }

  /** The first comparison insight is the peak: the first date of the greatest volume. */
  lemma ComparisonOfPeak(d: seq<string>, vols: seq<real>, quals: seq<real>)
    requires |vols| == |d| && |quals| == |d| && |d| > 0
    ensures var k := FirstMaxIndex(vols);
      ComparisonOf(d, vols, quals)[0] == PeakInsight(d[k], vols[k])
  {
    FirstMaxIndexIsFirstMax(vols);
  }

  /** The comparison block speaks exactly from fourteen dates on. */
  lemma ComparisonNeedsFourteenDates(sets: seq<ExerciseSet>)
    ensures ComparisonInsights(sets) == [] <==> |ChronologicalDates(sets)| < 14
  {
  }

  /**
   * The peak insight names a date of the greatest volume, no earlier date
   * reaching it, and reports that volume truncated to a whole number.
   */
  lemma PeakIsHeaviestDate(sets: seq<ExerciseSet>)
    requires |ChronologicalDates(sets)| >= 14
    ensures var d := ChronologicalDates(sets);
      var k := FirstMaxIndex(DailyVolumes(sets, d));
      && ComparisonInsights(sets)[0] == PeakInsight(d[k], DayVolume(sets, d[k]))
      && (forall i :: 0 <= i < |d| ==> DayVolume(sets, d[i]) <= DayVolume(sets, d[k]))
      && (forall i :: 0 <= i < k ==> DayVolume(sets, d[i]) < DayVolume(sets, d[k]))
  {
    var d := ChronologicalDates(sets);
    var vols := DailyVolumes(sets, d);
    var k := FirstMaxIndex(vols);
    var quals := DailyQualities(sets, d);
    assert ComparisonInsights(sets) == ComparisonOf(d, vols, quals);
    ComparisonOfPeak(d, vols, quals);
    FirstMaxIndexIsFirstMax(vols);
    DailyVolumesAt(sets, d);
  }

  /**
   * The efficiency insight names a date of the best mean quality, no
   * earlier date reaching it.
   */
  lemma EfficientIsBestQualityDate(sets: seq<ExerciseSet>)
    requires |ChronologicalDates(sets)| >= 14
    ensures var d := ChronologicalDates(sets);
      var k := FirstMaxIndex(DailyQualities(sets, d));
      && ComparisonInsights(sets)[1] == EfficientInsight(d[k])
      && (forall i :: 0 <= i < |d| ==> DayQuality(sets, d[i]) <= DayQuality(sets, d[k]))
      && (forall i :: 0 <= i < k ==> DayQuality(sets, d[i]) < DayQuality(sets, d[k]))
  {
    var d := ChronologicalDates(sets);
    var quals := DailyQualities(sets, d);
    assert ComparisonInsights(sets) == ComparisonOf(d, DailyVolumes(sets, d), quals);
    DailyQualitiesAt(sets, d);
    FirstMaxIndexIsFirstMax(quals);
  }

  /**
   * The low-point insight appears exactly when the least volume is below 40%
   * of the mean, and then names the first date of the least volume.
   */
  lemma LowPointIff(sets: seq<ExerciseSet>)
    requires |ChronologicalDates(sets)| >= 14
    ensures var d := ChronologicalDates(sets);
      var vols := DailyVolumes(sets, d);
      var r := ComparisonInsights(sets);
      && (|r| == 3 <==> SeqMin(vols) < Mean(vols) * 0.4)
      && (|r| == 3 ==> r[2] == LowPointInsight(d[FirstMinIndex(vols)]))
  {
  }

  // ---------------------------------------------------------------------------
  // 3. Recovery: muscle groups overused on the last three dates
  // ---------------------------------------------------------------------------

  /** The first position from `from` on holding an exercise with that id, or the length. */
  function FirstWithId(exercises: seq<Exercise>, id: int, from: nat): (k: nat)
    requires from <= |exercises|
    ensures from <= k <= |exercises|
    ensures k < |exercises| ==> exercises[k].id == id
    ensures forall i :: from <= i < k ==> exercises[i].id != id
    decreases |exercises| - from
  {
    if from == |exercises| || exercises[from].id == id then from
    else FirstWithId(exercises, id, from + 1)
  }

  /** `exercises.find { it.id == id }`: the first exercise with that id. */
  function FindExercise(exercises: seq<Exercise>, id: int): (r: W.Option<Exercise>)
    ensures r.None? <==> forall i :: 0 <= i < |exercises| ==> exercises[i].id != id
    ensures r.Some? ==>
      var k := FirstWithId(exercises, id, 0);
      && k < |exercises| && r.value == exercises[k] && r.value.id == id
      && forall i :: 0 <= i < k ==> exercises[i].id != id
  {
    var k := FirstWithId(exercises, id, 0);
    if k < |exercises| then W.Some(exercises[k]) else W.None
  }

  /** The category a set adds to the counter: its exercise's, when the exercise is found. */
  function CategoryOf(exercises: seq<Exercise>, s: ExerciseSet): seq<string> {
    match FindExercise(exercises, s.exerciseId)
    case Some(ex) => [ex.category]
    case None => []
  }

  /** The categories counted for a date's sets, in list order. */
  function CategoriesOf(exercises: seq<Exercise>, daySets: seq<ExerciseSet>): seq<string> {
    if |daySets| == 0 then []
    else CategoriesOf(exercises, daySets[..|daySets| - 1]) + CategoryOf(exercises, daySets[|daySets| - 1])
  }

  lemma CategoriesOfStep(exercises: seq<Exercise>, daySets: seq<ExerciseSet>, j: nat)
    requires j < |daySets|
    ensures CategoriesOf(exercises, daySets[..j + 1]) == CategoriesOf(exercises, daySets[..j]) + CategoryOf(exercises, daySets[j])
  {
    assert daySets[..j + 1][..j] == daySets[..j];
  }

  /** The categories counted over `dates`, date by date. */
  function RecentCategories(exercises: seq<Exercise>, sets: seq<ExerciseSet>, dates: seq<string>): seq<string> {
    if |dates| == 0 then []
    else
      RecentCategories(exercises, sets, dates[..|dates| - 1]) + CategoriesOf(exercises, SetsOn(sets, dates[|dates| - 1]))
  }

  /** One warning per muscle of `muscles` counted more than 25 times in `cats`, in that order. */
  function OveruseOf(muscles: seq<string>, cats: seq<string>): seq<AIInsight> {
    if |muscles| == 0 then []
    else
      var rest := OveruseOf(muscles[..|muscles| - 1], cats);
      var m := muscles[|muscles| - 1];
      if Count(cats, m) > 25 then rest + [OveruseInsight(m)] else rest
  }

  /** The categories counted on the last three dates. */
  function LastThreeDaysCategories(exercises: seq<Exercise>, sets: seq<ExerciseSet>): seq<string> {
    RecentCategories(exercises, sets, TakeLast(ChronologicalDates(sets), 3))
  }

  /** The warnings in the order the counter first met each muscle. */
  function OveruseInsights(exercises: seq<Exercise>, sets: seq<ExerciseSet>): seq<AIInsight> {
    var cats := LastThreeDaysCategories(exercises, sets);
    OveruseOf(Distinct(cats), cats)
  }

  lemma {:induction false} OveruseOfMembers(muscles: seq<string>, cats: seq<string>, m: string)
    ensures OveruseInsight(m) in OveruseOf(muscles, cats) <==> m in muscles && Count(cats, m) > 25
  {
    if |muscles| > 0 {
      var init := muscles[..|muscles| - 1];
      var last := muscles[|muscles| - 1];
      OveruseOfMembers(init, cats, m);
      assert muscles == init + [last];
      if OveruseInsight(m) == OveruseInsight(last) {
        OveruseInsightInjective(m, last);
      }
    }
  }

  /**
   * A muscle is warned about exactly when it was counted more than 25 times
   * on the last three dates: 25 is not enough.
   */
  lemma OveruseIff(exercises: seq<Exercise>, sets: seq<ExerciseSet>, muscle: string)
    ensures OveruseInsight(muscle) in OveruseInsights(exercises, sets)
      <==> Count(LastThreeDaysCategories(exercises, sets), muscle) > 25
  {
    var cats := LastThreeDaysCategories(exercises, sets);
    OveruseOfMembers(Distinct(cats), cats, muscle);
    if Count(cats, muscle) > 25 {
      DistinctMembers(cats, muscle);
    }
  }

  /** The counter after counting `cats`: its keys in first-seen order and each key's count. */
  ghost predicate Counter(order: seq<string>, counts: map<string, int>, cats: seq<string>) {
    && order == Distinct(cats)
    && (forall m :: m in counts <==> m in cats)
    && (forall m :: m in counts ==> counts[m] == Count(cats, m))
  }

  /** `counts[c] = (counts[c] ?: 0) + 1` on an insertion-ordered map counts one more `c`. */
  lemma CounterAdd(order: seq<string>, counts: map<string, int>, cats: seq<string>, c: string)
    requires Counter(order, counts, cats)
    ensures Counter(
      if c in counts then order else order + [c],
      counts[c := (if c in counts then counts[c] else 0) + 1],
      cats + [c])
  {
    var counts' := counts[c := (if c in counts then counts[c] else 0) + 1];
    var cats' := cats + [c];
    DistinctSnoc(cats, c);
    DistinctMembers(cats, c);
    forall m
      ensures m in counts' <==> m in cats'
    {
      assert m in cats' <==> m in cats || m == c;
    }
    forall m | m in counts'
      ensures counts'[m] == Count(cats', m)
    {
      CountSnoc(cats, c, m);
    }
  }

  // ---------------------------------------------------------------------------
  // 4. Plateau warnings
  // ---------------------------------------------------------------------------

  /** The sets of one exercise: `allSets.filter { it.exerciseId == id }`. */
  function SetsOfExercise(sets: seq<ExerciseSet>, id: int): seq<ExerciseSet> {
    SetsOfExercises(sets, {id})
  }

  predicate Plateaued(sets: seq<ExerciseSet>, ex: Exercise) {
    DetectStagnation(SetsOfExercise(sets, ex.id)).Stagnated?
  }

  /** `detectStagnation(exSets)` of every exercise, in the order of the exercise list. */
  function Stagnations(exercises: seq<Exercise>, sets: seq<ExerciseSet>): (r: seq<StagnationStatus>)
    ensures |r| == |exercises|
  {
    if |exercises| == 0 then []
    else
      var ex := exercises[|exercises| - 1];
      Stagnations(exercises[..|exercises| - 1], sets) + [DetectStagnation(SetsOfExercise(sets, ex.id))]
  }

  lemma {:induction false} StagnationsAt(exercises: seq<Exercise>, sets: seq<ExerciseSet>, i: nat)
    requires i < |exercises|
    ensures Stagnations(exercises, sets)[i] == DetectStagnation(SetsOfExercise(sets, exercises[i].id))
  {
    var n := |exercises| - 1;
    var prev := Stagnations(exercises[..n], sets);
    assert Stagnations(exercises, sets) == prev + [DetectStagnation(SetsOfExercise(sets, exercises[n].id))];
    if i < n {
      StagnationsAt(exercises[..n], sets, i);
      assert exercises[..n][i] == exercises[i];
    }
  }

  /** One warning per stagnated status, carrying its suggestion, in list order. */
  function PlateausOf(exercises: seq<Exercise>, status: seq<StagnationStatus>): seq<AIInsight>
    requires |status| == |exercises|
  {
    if |exercises| == 0 then []
    else
      var n := |exercises| - 1;
      var rest := PlateausOf(exercises[..n], status[..n]);
      if status[n].Stagnated? then rest + [PlateauInsight(exercises[n].name, status[n].suggestion)] else rest
  }

  /** One warning per stagnated exercise, in the order of the exercise list. */
  function PlateauInsights(exercises: seq<Exercise>, sets: seq<ExerciseSet>): seq<AIInsight> {
    PlateausOf(exercises, Stagnations(exercises, sets))
  }

  lemma {:induction false} PlateausOfSound(exercises: seq<Exercise>, status: seq<StagnationStatus>, x: AIInsight)
    requires |status| == |exercises|
    requires x in PlateausOf(exercises, status)
    ensures exists i :: (0 <= i < |exercises| && status[i].Stagnated?
      && x == PlateauInsight(exercises[i].name, status[i].suggestion))
  {
    var n := |exercises| - 1;
    var rest := PlateausOf(exercises[..n], status[..n]);
    if x in rest {
      PlateausOfSound(exercises[..n], status[..n], x);
      var i :| 0 <= i < n && status[..n][i].Stagnated?
        && x == PlateauInsight(exercises[..n][i].name, status[..n][i].suggestion);
      assert exercises[..n][i] == exercises[i] && status[..n][i] == status[i];
    } else {
      assert status[n].Stagnated? && x == PlateauInsight(exercises[n].name, status[n].suggestion);
    }
  }

  lemma {:induction false} PlateausOfComplete(exercises: seq<Exercise>, status: seq<StagnationStatus>, i: nat)
    requires |status| == |exercises|
    requires i < |exercises| && status[i].Stagnated?
    ensures PlateauInsight(exercises[i].name, status[i].suggestion) in PlateausOf(exercises, status)
  {
    var n := |exercises| - 1;
    if i < n {
      PlateausOfComplete(exercises[..n], status[..n], i);
      assert exercises[..n][i] == exercises[i] && status[..n][i] == status[i];
    }
  }

  /** Each plateau warning belongs to a stagnated exercise and carries the deload suggestion. */
  lemma PlateauInsightsSound(exercises: seq<Exercise>, sets: seq<ExerciseSet>, x: AIInsight)
    requires x in PlateauInsights(exercises, sets)
    ensures exists i :: (0 <= i < |exercises| && Plateaued(sets, exercises[i])
      && x == PlateauInsight(exercises[i].name, StagnationSuggestion))
  {
    var status := Stagnations(exercises, sets);
    PlateausOfSound(exercises, status, x);
    var i :| 0 <= i < |exercises| && status[i].Stagnated? && x == PlateauInsight(exercises[i].name, status[i].suggestion);
    StagnationsAt(exercises, sets, i);
  }

  /** Each stagnated exercise has a plateau warning. */
  lemma PlateauInsightsComplete(exercises: seq<Exercise>, sets: seq<ExerciseSet>, i: nat)
    requires i < |exercises| && Plateaued(sets, exercises[i])
    ensures PlateauInsight(exercises[i].name, StagnationSuggestion) in PlateauInsights(exercises, sets)
  {
    StagnationsAt(exercises, sets, i);
    PlateausOfComplete(exercises, Stagnations(exercises, sets), i);
  }

  lemma {:induction false} PlateausOfFlag(exercises: seq<Exercise>, status: seq<StagnationStatus>, x: AIInsight)
    requires |status| == |exercises|
    requires x in PlateausOf(exercises, status)
    ensures !x.isComparison && x.riskLevel == Medium
  {
    var n := |exercises| - 1;
    if x in PlateausOf(exercises[..n], status[..n]) {
      PlateausOfFlag(exercises[..n], status[..n], x);
    }
  }

  // ---------------------------------------------------------------------------
  // The whole analysis
  // ---------------------------------------------------------------------------

  function AllInsights(exercises: seq<Exercise>, sets: seq<ExerciseSet>): seq<AIInsight> {
    SpikeInsights(sets) + ComparisonInsights(sets) + OveruseInsights(exercises, sets) + PlateauInsights(exercises, sets)
  }

  lemma {:induction false} NoPlateauWithoutSets(exercises: seq<Exercise>)
    ensures PlateauInsights(exercises, []) == []
  {
    if |exercises| > 0 {
      var n := |exercises| - 1;
      NoPlateauWithoutSets(exercises[..n]);
      StagnationsAt(exercises, [], n);
      assert Stagnations(exercises, [])[..n] == Stagnations(exercises[..n], []);
    }
  }

  /** No sets, no insights (the early return of the source). */
  lemma NoInsightsWithoutSets(exercises: seq<Exercise>)
    ensures AllInsights(exercises, []) == []
  {
    NoPlateauWithoutSets(exercises);
  }

  /**
   * The recovery and plateau blocks do not depend on the number of dates:
   * below seven dates they are all there is.
   */
  lemma FewDatesOnlyRecoveryAndPlateaus(exercises: seq<Exercise>, sets: seq<ExerciseSet>)
    requires |ChronologicalDates(sets)| < 7
    ensures AllInsights(exercises, sets) == OveruseInsights(exercises, sets) + PlateauInsights(exercises, sets)
  {
    SpikeNeedsSevenDates(sets);
    ComparisonNeedsFourteenDates(sets);
    var sp, c, o, p := SpikeInsights(sets), ComparisonInsights(sets), OveruseInsights(exercises, sets), PlateauInsights(exercises, sets);
    assert sp == [] && c == [];
    assert sp + c + o + p == o + p;
  }

  /** The comparison insights, and only they, carry the comparison flag. */
  lemma ComparisonFlag(exercises: seq<Exercise>, sets: seq<ExerciseSet>)
    ensures forall x :: x in ComparisonInsights(sets) ==> x.isComparison
    ensures forall x ::
      x in SpikeInsights(sets) + OveruseInsights(exercises, sets) + PlateauInsights(exercises, sets) ==> !x.isComparison
  {
    var cats := LastThreeDaysCategories(exercises, sets);
    OveruseFlag(Distinct(cats), cats);
    PlateauFlag(exercises, sets);
  }

  lemma {:induction false} OveruseFlag(muscles: seq<string>, cats: seq<string>)
    ensures forall x :: x in OveruseOf(muscles, cats) ==> !x.isComparison && x.riskLevel == High
  {
    if |muscles| > 0 {
      OveruseFlag(muscles[..|muscles| - 1], cats);
    }
  }

  lemma PlateauFlag(exercises: seq<Exercise>, sets: seq<ExerciseSet>)
    ensures forall x :: x in PlateauInsights(exercises, sets) ==> !x.isComparison && x.riskLevel == Medium
  {
    forall x | x in PlateauInsights(exercises, sets) ensures !x.isComparison && x.riskLevel == Medium {
      PlateausOfFlag(exercises, Stagnations(exercises, sets), x);
    }
  }

  /**
   * `analyzeTrainingPatterns`: the four blocks appended in turn to one
   * mutable list.
   */
  method AnalyzeTrainingPatterns(exercises: seq<Exercise>, allSets: seq<ExerciseSet>) returns (insights: seq<AIInsight>)
    ensures insights == AllInsights(exercises, allSets)
  {
    insights := [];
    if |allSets| == 0 {
      assert allSets == [];
      NoInsightsWithoutSets(exercises);
      return;
    }
    var sortedDates := ChronologicalDates(allSets);
    insights := AddVolumeSpike(allSets, sortedDates, insights);
    assert insights == SpikeInsights(allSets);
    insights := AddComparison(allSets, sortedDates, insights);
    assert insights == SpikeInsights(allSets) + ComparisonInsights(allSets);
    insights := AddRecovery(exercises, allSets, sortedDates, insights);
    assert insights == SpikeInsights(allSets) + ComparisonInsights(allSets) + OveruseInsights(exercises, allSets);
    insights := AddPlateaus(exercises, allSets, insights);
  }

  /** Block 1: the newest date against the mean of the five before it. */
  method AddVolumeSpike(allSets: seq<ExerciseSet>, sortedDates: seq<string>, insights: seq<AIInsight>)
    returns (result: seq<AIInsight>)
    requires sortedDates == ChronologicalDates(allSets)
    ensures result == insights + SpikeInsights(allSets)
  {
    result := insights;
    if |sortedDates| >= 7 {
      var dates := Reverse(sortedDates);
      var recentVolume := DayVolume(allSets, dates[0]);
      var avgVolume := Mean(DailyVolumes(allSets, dates[1..][..5]));
      PreviousFiveReversed(allSets, sortedDates);
      if recentVolume > avgVolume * 1.5 {
        result := result + [SpikeInsight];
      }
    }
  }

  /** Block 2: the best, most efficient and weakest dates. */
  method AddComparison(allSets: seq<ExerciseSet>, sortedDates: seq<string>, insights: seq<AIInsight>)
    returns (result: seq<AIInsight>)
    requires sortedDates == ChronologicalDates(allSets)
    ensures result == insights + ComparisonInsights(allSets)
  {
    result := insights;
    if |sortedDates| >= 14 {
      var dailyVolumes := DailyVolumes(allSets, sortedDates);
      var maxVolume := SeqMax(dailyVolumes);
      var minVolume := SeqMin(dailyVolumes);
      var avgVolume := Mean(dailyVolumes);
      var peakDate := sortedDates[FirstMaxIndex(dailyVolumes)];
      result := result + [PeakInsight(peakDate, maxVolume)];
      var qualityByDay := DailyQualities(allSets, sortedDates);
      var bestQualityDate := sortedDates[FirstMaxIndex(qualityByDay)];
      result := result + [EfficientInsight(bestQualityDate)];
      if minVolume < avgVolume * 0.4 {
        var worstDate := sortedDates[FirstMinIndex(dailyVolumes)];
        result := result + [LowPointInsight(worstDate)];
      }
      assert result == insights + ComparisonOf(sortedDates, dailyVolumes, qualityByDay);
    }
  }

  /**
   * Block 3: count the categories of the sets of the last three dates in an
   * insertion-ordered map, kept as the list of its keys in insertion order
   * beside the map itself, then warn about every count above 25.
   */
  method AddRecovery(exercises: seq<Exercise>, allSets: seq<ExerciseSet>, sortedDates: seq<string>, insights: seq<AIInsight>)
    returns (result: seq<AIInsight>)
    requires sortedDates == ChronologicalDates(allSets)
    ensures result == insights + OveruseInsights(exercises, allSets)
  {
    var order: seq<string> := [];
    var counts: map<string, int> := map[];
    ghost var cats: seq<string> := [];
    var recent := TakeLast(sortedDates, 3);
    var i := 0;
    while i < |recent|
      invariant 0 <= i <= |recent|
      invariant cats == RecentCategories(exercises, allSets, recent[..i])
      invariant Counter(order, counts, cats)
    {
      assert recent[..i + 1][..i] == recent[..i];
      order, counts, cats := CountDay(exercises, SetsOn(allSets, recent[i]), order, counts, cats);
      i := i + 1;
    }
    assert recent[..i] == recent;
    result := WarnOveruse(order, counts, cats, insights);
  }

  /** Counts the category of every set of one date whose exercise is found. */
  method CountDay(exercises: seq<Exercise>, daySets: seq<ExerciseSet>,
                  order: seq<string>, counts: map<string, int>, ghost cats: seq<string>)
    returns (order': seq<string>, counts': map<string, int>, ghost cats': seq<string>)
    requires Counter(order, counts, cats)
    ensures cats' == cats + CategoriesOf(exercises, daySets)
    ensures Counter(order', counts', cats')
  {
    order', counts', cats' := order, counts, cats;
    var j := 0;
    while j < |daySets|
      invariant 0 <= j <= |daySets|
      invariant cats' == cats + CategoriesOf(exercises, daySets[..j])
      invariant Counter(order', counts', cats')
    {
      CategoriesOfStep(exercises, daySets, j);
      AppendAssociative(cats, CategoriesOf(exercises, daySets[..j]), CategoryOf(exercises, daySets[j]));
      order', counts', cats' := CountSet(exercises, daySets[j], order', counts', cats');
      j := j + 1;
    }
    assert daySets[..j] == daySets;
  }

  /**
   * One set: when its exercise is found, `counts[c] = (counts[c] ?: 0) + 1`
   * for the exercise's category `c`, a new key going to the end of the order.
   */
  method CountSet(exercises: seq<Exercise>, s: ExerciseSet,
                  order: seq<string>, counts: map<string, int>, ghost cats: seq<string>)
    returns (order': seq<string>, counts': map<string, int>, ghost cats': seq<string>)
    requires Counter(order, counts, cats)
    ensures cats' == cats + CategoryOf(exercises, s)
    ensures Counter(order', counts', cats')
  {
    var ex := FindExercise(exercises, s.exerciseId);
    order', counts', cats' := order, counts, cats;
    if ex.Some? {
      var c := ex.value.category;
      CounterAdd(order, counts, cats, c);
      if c in counts {
        order', counts' := order, counts[c := counts[c] + 1];
      } else {
        order', counts' := order + [c], counts[c := 1];
      }
      cats' := cats + [c];
    }
  }

  /** Walks the counter in insertion order and warns about every count above 25. */
  method WarnOveruse(order: seq<string>, counts: map<string, int>, ghost cats: seq<string>, insights: seq<AIInsight>)
    returns (result: seq<AIInsight>)
    requires Counter(order, counts, cats)
    ensures result == insights + OveruseOf(order, cats)
  {
    result := insights;
    var k := 0;
    while k < |order|
      invariant 0 <= k <= |order|
      invariant result == insights + OveruseOf(order[..k], cats)
    {
      DistinctMembers(cats, order[k]);
      assert order[..k + 1][..k] == order[..k];
      if counts[order[k]] > 25 {
        result := result + [OveruseInsight(order[k])];
      }
      k := k + 1;
    }
    assert order[..k] == order;
  }

  /** Block 4: a plateau warning for every exercise whose sets stagnated. */
  method AddPlateaus(exercises: seq<Exercise>, allSets: seq<ExerciseSet>, insights: seq<AIInsight>)
    returns (result: seq<AIInsight>)
    ensures result == insights + PlateauInsights(exercises, allSets)
  {
    result := insights;
    var e := 0;
    while e < |exercises|
      invariant 0 <= e <= |exercises|
      invariant result == insights + PlateauInsights(exercises[..e], allSets)
    {
      var ex := exercises[e];
      var stagnation := DetectStagnation(SetsOfExercise(allSets, ex.id));
      assert exercises[..e + 1][..e] == exercises[..e];
      assert Stagnations(exercises[..e + 1], allSets)[..e] == Stagnations(exercises[..e], allSets);
      if stagnation.Stagnated? {
        result := result + [PlateauInsight(ex.name, stagnation.suggestion)];
      }
      e := e + 1;
    }
    assert exercises[..e] == exercises;
  }
}
