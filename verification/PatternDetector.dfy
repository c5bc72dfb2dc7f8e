/**
 * The pattern detector: at most one mood streak, one weekday effect and one
 * sleep effect, reported in that order.
 */
module PatternDetector {
  import opened Models
  import opened Sequences

  datatype PatternType =
    | StreakLowMood
    | StreakHighMood
    | StreakNeutral
    | DayOfWeek
    | SleepCorrelation
    | ActivityGap
  {
    /** The stored string of each kind. */
    function RawValue(): string
    {
      match this
      case StreakLowMood => "low_mood_streak"
      case StreakHighMood => "high_mood_streak"
      case StreakNeutral => "neutral_streak"
      case DayOfWeek => "day_of_week"
      case SleepCorrelation => "sleep_correlation"
      case ActivityGap => "activity_gap"
    }

    /** Position of the detector that produces this kind in `DetectPatterns`. */
    function Stage(): int
    {
      match this
      case StreakLowMood => 0
      case StreakHighMood => 0
      case StreakNeutral => 0
      case DayOfWeek => 1
      case SleepCorrelation => 2
      case ActivityGap => 3
    }
  }

  /** The text of a pattern, with its interpolated values kept unformatted. */
  datatype Description =
    | StreakText(category: string, days: int)
    | DayText(dayName: string, dayAverage: real, overallAverage: real)
    | SleepText(lowSleepAverage: real, goodSleepAverage: real)

  datatype Pattern = Pattern(patternType: PatternType, description: Description, confidence: real)

  datatype MoodCategory = Low | Neutral | High
  {
    function Name(): string
    {
      match this
      case Low => "low"
      case Neutral => "neutral"
      case High => "high"
    }
  }

  /** `moodCategory(for:)`: 1-2 low, 4-5 high, 3 and every value off the scale neutral. */
  function MoodCategoryOf(mood: int): (c: MoodCategory)
    ensures c == Low <==> 1 <= mood <= 2
    ensures c == High <==> 4 <= mood <= 5
    ensures c == Neutral <==> !(1 <= mood <= 2 || 4 <= mood <= 5)
  {
    if 1 <= mood <= 2 then Low
    else if mood == 3 then Neutral
    else if 4 <= mood <= 5 then High
    else Neutral
  }

  lemma CategoryNamesDistinct(a: MoodCategory, b: MoodCategory)
    requires a != b
    ensures a.Name() != b.Name()
  {
  }

  const DayNames: seq<string> := ["", "Sunday", "Monday", "Tuesday", "Wednesday", "Thursday", "Friday", "Saturday"]

  /** `dayName(for:)`: the English name of weekday 1 (Sunday) to 7 (Saturday); index 0 is the empty string. */
  function DayName(weekday: int): (name: string)
    requires 0 <= weekday < |DayNames|
    ensures name == DayNames[weekday]
    ensures 1 <= weekday ==> |name| > 0
  {
    DayNames[weekday]
  }

  // ---------------------------------------------------------------------------
  // Streaks

  /** The categories of the moods of `entries`, in order. */
  function Categories(entries: seq<MoodEntry>): (cats: seq<MoodCategory>)
    ensures |cats| == |entries|
    ensures forall i :: 0 <= i < |entries| ==> cats[i] == MoodCategoryOf(entries[i].mood)
  {
    seq(|entries|, i requires 0 <= i < |entries| => MoodCategoryOf(entries[i].mood))
  }

  /** Positions `i - 2`, `i - 1` and `i` share one category. */
  predicate TripleEndsAt(cats: seq<MoodCategory>, i: int)
    requires 2 <= i < |cats|
  {
    cats[i - 2] == cats[i - 1] == cats[i]
  }

  /** The first position at or after `from` where a run of three same-category moods ends. */
  function FirstTripleFrom(cats: seq<MoodCategory>, from: nat): (r: Option<nat>)
    ensures r.Some? ==> from <= r.value < |cats| && 2 <= r.value && TripleEndsAt(cats, r.value)
    decreases |cats| - from
  {
    if from >= |cats| then None
    else if from >= 2 && TripleEndsAt(cats, from) then Some(from)
    else FirstTripleFrom(cats, from + 1)
  }

  /** `FirstTripleFrom` finds the earliest triple, and finds none only when there is none. */
  lemma {:induction false} FirstTripleIsFirst(cats: seq<MoodCategory>, from: nat)
    ensures FirstTripleFrom(cats, from).Some? ==>
      forall j :: from <= j < FirstTripleFrom(cats, from).value && 2 <= j ==> !TripleEndsAt(cats, j)
    ensures FirstTripleFrom(cats, from).None? ==>
      forall j :: from <= j < |cats| && 2 <= j ==> !TripleEndsAt(cats, j)
    decreases |cats| - from
  {
    if from < |cats| && !(from >= 2 && TripleEndsAt(cats, from)) {
      FirstTripleIsFirst(cats, from + 1);
    }
  }

  function StreakType(c: MoodCategory): PatternType
  {
    match c
    case Low => StreakLowMood
    case High => StreakHighMood
    case Neutral => StreakNeutral
  }

  /** What `detectStreaks` returns: the first run of three same-category moods in date order. */
  function StreakPattern(entries: seq<MoodEntry>): Option<Pattern>
  {
    var cats := Categories(OldestFirst(entries));
    if |cats| < 3 then None
    else match FirstTripleFrom(cats, 0)
      case None => None
      case Some(i) =>
        var streak := 3;
        Some(Pattern(StreakType(cats[i]), StreakText(cats[i].Name(), streak), Min(streak as real / 7.0, 1.0)))
  }

  /**
   * `detectStreaks(in:)`: walks the entries oldest first, counting the run of
   * same-category moods, and returns as soon as a run reaches three.
   */
  method DetectStreaks(entries: seq<MoodEntry>) returns (p: Option<Pattern>)
    ensures p == StreakPattern(entries)
  {
    var sorted := OldestFirst(entries);
    if |sorted| < 3 {
      return None;
    }
    ghost var cats := Categories(sorted);
    var currentStreak := 1;
    var currentCategory: Option<MoodCategory> := None;
    for i := 1 to |sorted|
      invariant i == 1 ==> currentStreak == 1
      invariant i >= 2 ==> currentStreak == (if cats[i - 2] == cats[i - 1] then 2 else 1)
      invariant i >= 2 ==> currentCategory == Some(cats[i - 1])
      invariant FirstTripleFrom(cats, 0) == FirstTripleFrom(cats, i)
    {
      var prevCategory := MoodCategoryOf(sorted[i - 1].mood);
      var currCategory := MoodCategoryOf(sorted[i].mood);
      if prevCategory == currCategory {
        currentStreak := currentStreak + 1;
        currentCategory := Some(currCategory);
      } else {
        currentStreak := 1;
        currentCategory := Some(currCategory);
      }
      if currentStreak >= 3 && currentCategory.Some? {
        var category := currentCategory.value;
        return Some(Pattern(StreakType(category), StreakText(category.Name(), currentStreak), Min(currentStreak as real / 7.0, 1.0)));
      }
    }
    return None;
  }

  /**
   * A reported streak is the earliest run of three same-category moods in date
   * order, it always reports three days with confidence 3/7, and no streak is
   * reported when no such run exists.
   */
  lemma StreakIsFirstTriple(entries: seq<MoodEntry>)
    ensures var cats := Categories(OldestFirst(entries));
      && (StreakPattern(entries).None? <==> forall j :: 2 <= j < |cats| ==> !TripleEndsAt(cats, j))
      && (StreakPattern(entries).Some? ==>
            exists i :: 2 <= i < |cats| && TripleEndsAt(cats, i)
              && (forall j :: 2 <= j < i ==> !TripleEndsAt(cats, j))
              && StreakPattern(entries).value == Pattern(StreakType(cats[i]), StreakText(cats[i].Name(), 3), 3.0 / 7.0))
  {
    var cats := Categories(OldestFirst(entries));
    FirstTripleIsFirst(cats, 0);
  }

  // ---------------------------------------------------------------------------
  // Weekday effect

  /** The moods of the entries logged on `weekday`, in entry order. */
  function MoodsOnWeekday(entries: seq<MoodEntry>, weekday: int): (moods: seq<int>)
    ensures |moods| <= |entries|
  {
    if |entries| == 0 then []
    else
      var last := entries[|entries| - 1];
      MoodsOnWeekday(entries[..|entries| - 1], weekday) + if Weekday(last.date) == weekday then [last.mood] else []
  }

  /** The test "logged on `weekday`", as a function for `Filter`. */
  function OnWeekday(weekday: int): MoodEntry -> bool
  {
    (e: MoodEntry) => Weekday(e.date) == weekday
  }

  /** The grouping agrees with filtering the entries by weekday and taking their moods. */
  lemma {:induction false} MoodsOnWeekdayIsFilter(entries: seq<MoodEntry>, weekday: int)
    ensures MoodsOnWeekday(entries, weekday) == Moods(Filter(entries, OnWeekday(weekday)))
  {
    if |entries| > 0 {
      var init := entries[..|entries| - 1];
      var last := entries[|entries| - 1];
      var onDay := OnWeekday(weekday);
      var single := Filter([last], onDay);
      var tail := if Weekday(last.date) == weekday then [last.mood] else [];
      calc {
        Moods(Filter(entries, onDay));
        { assert entries == init + [last]; FilterAppend(init, [last], onDay); }
        Moods(Filter(init, onDay) + single);
        { MoodsAppend(Filter(init, onDay), single); }
        Moods(Filter(init, onDay)) + Moods(single);
        { MoodsOnWeekdayIsFilter(init, weekday); SingleOnWeekday(last, weekday); }
        MoodsOnWeekday(init, weekday) + tail;
      }
    }
  }

  lemma SingleOnWeekday(e: MoodEntry, weekday: int)
    ensures Moods(Filter([e], OnWeekday(weekday))) == if Weekday(e.date) == weekday then [e.mood] else []
  {
    assert [e][..0] == [];
  }

  /** A weekday has moods exactly when some entry falls on it. */
  lemma {:induction false} MoodsOnWeekdayPresent(entries: seq<MoodEntry>, weekday: int)
    ensures |MoodsOnWeekday(entries, weekday)| > 0 <==> exists i :: 0 <= i < |entries| && Weekday(entries[i].date) == weekday
  {
    if |entries| > 0 {
      var init := entries[..|entries| - 1];
      MoodsOnWeekdayPresent(init, weekday);
      assert forall i :: 0 <= i < |init| ==> init[i] == entries[i];
    }
  }

  datatype DayAverage = DayAverage(day: int, avg: real)

  /** The mean mood of each weekday before `upTo` that has entries, in weekday order. */
  function DayAverages(entries: seq<MoodEntry>, upTo: int): (r: seq<DayAverage>)
    ensures |r| <= if upTo <= 1 then 0 else upTo - 1
    ensures forall k :: 0 <= k < |r| ==> 1 <= r[k].day < upTo
    decreases upTo
  {
    if upTo <= 1 then []
    else
      var day := upTo - 1;
      var moods := MoodsOnWeekday(entries, day);
      DayAverages(entries, day) + if |moods| > 0 then [DayAverage(day, Mean(moods))] else []
  }

  /** Each listed weekday has entries and carries their mean mood. */
  predicate CarriesWeekdayMeans(entries: seq<MoodEntry>, r: seq<DayAverage>)
  {
    forall k :: 0 <= k < |r| ==> |MoodsOnWeekday(entries, r[k].day)| > 0 && r[k].avg == Mean(MoodsOnWeekday(entries, r[k].day))
  }

  /** Each weekday is listed at most once, in increasing order. */
  predicate IncreasingDays(r: seq<DayAverage>)
  {
    forall k, l :: 0 <= k < l < |r| ==> r[k].day < r[l].day
  }

  /**
   * Conversely, the list holds each weekday at most once, in increasing
   * order, and only weekdays that have entries, each with its own mean mood.
   */
  lemma {:induction false} DayAveragesSound(entries: seq<MoodEntry>, upTo: int)
    ensures IncreasingDays(DayAverages(entries, upTo))
    ensures CarriesWeekdayMeans(entries, DayAverages(entries, upTo))
    decreases upTo
  {
    if upTo > 1 {
      var day := upTo - 1;
      var prev := DayAverages(entries, day);
      var moods := MoodsOnWeekday(entries, day);
      DayAveragesSound(entries, day);
      var tail := if |moods| > 0 then [DayAverage(day, Mean(moods))] else [];
      var r := prev + tail;
      assert DayAverages(entries, upTo) == r;
      forall k | 0 <= k < |r|
        ensures |MoodsOnWeekday(entries, r[k].day)| > 0 && r[k].avg == Mean(MoodsOnWeekday(entries, r[k].day))
      {
        if k < |prev| {
          assert r[k] == prev[k];
        } else {
          assert |moods| > 0 && r[k] == DayAverage(day, Mean(moods));
        }
      }
      forall k, l | 0 <= k < l < |r|
        ensures r[k].day < r[l].day
      {
        if l < |prev| {
          assert r[k] == prev[k] && r[l] == prev[l];
        } else {
          assert r[k] == prev[k] && prev[k].day < day;
        }
      }
    }
  }

  /** Every weekday that has entries has its average in the list. */
  lemma {:induction false} DayAveragesCover(entries: seq<MoodEntry>, upTo: int, day: int)
    requires 1 <= day < upTo
    requires |MoodsOnWeekday(entries, day)| > 0
    ensures exists k :: 0 <= k < |DayAverages(entries, upTo)| && DayAverages(entries, upTo)[k] == DayAverage(day, Mean(MoodsOnWeekday(entries, day)))
    decreases upTo
  {
    var prev := DayAverages(entries, upTo - 1);
    if day < upTo - 1 {
      DayAveragesCover(entries, upTo - 1, day);
      var k :| 0 <= k < |prev| && prev[k] == DayAverage(day, Mean(MoodsOnWeekday(entries, day)));
      assert DayAverages(entries, upTo)[k] == prev[k];
    } else {
      assert DayAverages(entries, upTo)[|prev|] == DayAverage(day, Mean(MoodsOnWeekday(entries, day)));
    }
  }

  /** Some weekday has entries as soon as there is an entry. */
  lemma DayAveragesNonEmpty(entries: seq<MoodEntry>)
    requires |entries| > 0
    ensures |DayAverages(entries, 8)| > 0
  {
    MoodsOnWeekdayPresent(entries, Weekday(entries[0].date));
    DayAveragesCover(entries, 8, Weekday(entries[0].date));
  }

  function Averages(days: seq<DayAverage>): (r: seq<real>)
    ensures |r| == |days|
    ensures forall k :: 0 <= k < |days| ==> r[k] == days[k].avg
  {
    seq(|days|, k requires 0 <= k < |days| => days[k].avg)
  }

  function Deviation(d: DayAverage, overall: real): real
  {
    Abs(d.avg - overall)
  }

  /**
   * `min(by:)` on the deviation from `overall`: the first element whose
   * deviation no other element undercuts.
   */
  function ClosestToOverall(days: seq<DayAverage>, overall: real): (best: DayAverage)
    requires |days| > 0
    ensures best in days
    ensures forall k :: 0 <= k < |days| ==> Deviation(best, overall) <= Deviation(days[k], overall)
    ensures exists i :: 0 <= i < |days| && days[i] == best && (forall k :: 0 <= k < i ==> Deviation(days[k], overall) > Deviation(best, overall))
  {
    if |days| == 1 then days[0]
    else
      var init := days[..|days| - 1];
      var last := days[|days| - 1];
      var best := ClosestToOverall(init, overall);
      assert forall k :: 0 <= k < |init| ==> init[k] == days[k];
      if Deviation(last, overall) < Deviation(best, overall) then last else best
  }

  /**
   * The tail of `detectDayOfWeekPatterns`: the overall average is the mean of
   * the weekday averages, and the pattern reports the weekday closest to it,
   * provided even that one is a full point away. With no weekday at all
   * `min(by:)` finds nothing and there is no pattern.
   */
  function PatternFromAverages(days: seq<DayAverage>): Option<Pattern>
    requires forall k :: 0 <= k < |days| ==> 1 <= days[k].day <= 7
  {
    if |days| == 0 then None
    else
      var overall := MeanOfReals(Averages(days));
      var worst := ClosestToOverall(days, overall);
      var deviation := Deviation(worst, overall);
      if deviation >= 1.0 then
        Some(Pattern(DayOfWeek, DayText(DayName(worst.day), worst.avg, overall), Min(deviation / 2.0, 1.0)))
      else None
  }

  /** What `detectDayOfWeekPatterns` returns. */
  function DayOfWeekPattern(entries: seq<MoodEntry>): Option<Pattern>
  {
    if |entries| < 14 then None
    else
      PatternFromAverages(DayAverages(entries, 8))
  }

  /**
   * The first loop of `detectDayOfWeekPatterns`: a dictionary from weekday to
   * the moods logged on it, in entry order; only weekdays with entries are keys.
   */
  method GroupByWeekday(entries: seq<MoodEntry>) returns (dayMoods: map<int, seq<int>>)
    ensures forall d :: d in dayMoods <==> |MoodsOnWeekday(entries, d)| > 0
    ensures forall d :: d in dayMoods ==> dayMoods[d] == MoodsOnWeekday(entries, d)
  {
    dayMoods := map[];
    for k := 0 to |entries|
      invariant forall d :: d in dayMoods <==> |MoodsOnWeekday(entries[..k], d)| > 0
      invariant forall d :: d in dayMoods ==> dayMoods[d] == MoodsOnWeekday(entries[..k], d)
    {
      assert entries[..k + 1][..k] == entries[..k];
      var weekday := Weekday(entries[k].date);
      var moods := if weekday in dayMoods then dayMoods[weekday] else [];
      dayMoods := dayMoods[weekday := moods + [entries[k].mood]];
    }
    assert entries[..|entries|] == entries;
  }

  /**
   * `detectDayOfWeekPatterns(in:)`: groups the moods by weekday into a
   * dictionary, then lists the average of every weekday present, visiting
   * the weekdays Sunday to Saturday.
   */
  method DetectDayOfWeekPatterns(entries: seq<MoodEntry>) returns (p: Option<Pattern>)
    ensures p == DayOfWeekPattern(entries)
  {
    if |entries| < 14 {
      return None;
    }
    var dayMoods := GroupByWeekday(entries);
    var averages: seq<DayAverage> := [];
    for day := 1 to 8
      invariant averages == DayAverages(entries, day)
    {
      if day in dayMoods {
        var moods := dayMoods[day];
        averages := averages + [DayAverage(day, Mean(moods))];
      }
    }
    p := PatternFromAverages(averages);
  }

  /**
   * The weekday pattern fires exactly when every weekday present deviates
   * from the overall average by a full point; it then reports the weekday
   * with the smallest deviation.
   */
  lemma WeekdayPatternFiresIffAllDeviate(days: seq<DayAverage>)
    requires |days| > 0
    requires forall k :: 0 <= k < |days| ==> 1 <= days[k].day <= 7
    ensures var overall := MeanOfReals(Averages(days));
      && (PatternFromAverages(days).Some? <==> forall k :: 0 <= k < |days| ==> Deviation(days[k], overall) >= 1.0)
      && (PatternFromAverages(days).Some? ==>
            exists k :: 0 <= k < |days|
              && PatternFromAverages(days).value.description == DayText(DayName(days[k].day), days[k].avg, overall)
              && forall j :: 0 <= j < |days| ==> Deviation(days[k], overall) <= Deviation(days[j], overall))
  {
  }

  /** The weekday mean at `k` lies no further from the overall mean than any other. */
  predicate IsLeastDeviation(days: seq<DayAverage>, k: int)
  {
    && 0 <= k < |days|
    && forall j :: 0 <= j < |days| ==> Deviation(days[k], MeanOfReals(Averages(days))) <= Deviation(days[j], MeanOfReals(Averages(days)))
  }

  /**
   * A weekday pattern is of its own kind; its confidence is half the least
   * deviation of a weekday mean from the overall mean, capped at 1, and so
   * lies between 0.5 and 1.
   */
  lemma {:induction false} WeekdayPatternShape(days: seq<DayAverage>)
    requires forall k :: 0 <= k < |days| ==> 1 <= days[k].day <= 7
    ensures PatternFromAverages(days).Some? ==>
      && PatternFromAverages(days).value.patternType == DayOfWeek
      && 0.5 <= PatternFromAverages(days).value.confidence <= 1.0
      && |days| > 0
      && exists k :: IsLeastDeviation(days, k)
           && PatternFromAverages(days).value.confidence == Min(Deviation(days[k], MeanOfReals(Averages(days))) / 2.0, 1.0)
  {
    if PatternFromAverages(days).Some? {
      var overall := MeanOfReals(Averages(days));
      var worst := ClosestToOverall(days, overall);
      var k :| 0 <= k < |days| && days[k] == worst;
      assert IsLeastDeviation(days, k);
      assert PatternFromAverages(days).value.confidence == Min(Deviation(days[k], overall) / 2.0, 1.0);
    }
  }

  /** Fewer than fourteen entries never show a weekday effect. */
  lemma DayOfWeekNeedsTwoWeeks(entries: seq<MoodEntry>)
    requires |entries| < 14
    ensures DayOfWeekPattern(entries) == None
  {
  }

  // ---------------------------------------------------------------------------
  // Sleep effect

  /** `sleepHours ?? 0`. */
  function SleepOrZero(e: MoodEntry): real
  {
    if e.sleepHours.Some? then e.sleepHours.value else 0.0
  }

  function EntriesWithSleep(entries: seq<MoodEntry>): seq<MoodEntry>
  {
    Filter(entries, (e: MoodEntry) => e.sleepHours.Some?)
  }

  function LowSleepEntries(entries: seq<MoodEntry>): seq<MoodEntry>
  {
    Filter(EntriesWithSleep(entries), (e: MoodEntry) => SleepOrZero(e) < 6.0)
  }

  function GoodSleepEntries(entries: seq<MoodEntry>): seq<MoodEntry>
  {
    Filter(EntriesWithSleep(entries), (e: MoodEntry) => SleepOrZero(e) >= 7.5)
  }

  /**
   * `detectSleepCorrelation(in:)`: needs ten entries with sleep data and at
   * least one short night (under 6 hours) and one good night (7.5 hours or
   * more); fires when the good-sleep mean mood beats the short-sleep one by 0.8.
   */
  function DetectSleepCorrelation(entries: seq<MoodEntry>): (r: Option<Pattern>)
    ensures r.Some? ==>
      && |EntriesWithSleep(entries)| >= 10
      && |LowSleepEntries(entries)| > 0 && |GoodSleepEntries(entries)| > 0
      && r.value.patternType == SleepCorrelation
      && r.value.description.SleepText?
      && r.value.description.lowSleepAverage == Mean(Moods(LowSleepEntries(entries)))
      && r.value.description.goodSleepAverage == Mean(Moods(GoodSleepEntries(entries)))
      && r.value.description.goodSleepAverage - r.value.description.lowSleepAverage >= 0.8
      && r.value.confidence == Min((r.value.description.goodSleepAverage - r.value.description.lowSleepAverage) / 2.0, 1.0)
  {
    var withSleep := EntriesWithSleep(entries);
    if |withSleep| < 10 then None
    else
      var low := LowSleepEntries(entries);
      var good := GoodSleepEntries(entries);
      if |low| == 0 || |good| == 0 then None
      else
        var lowAvg := Mean(Moods(low));
        var goodAvg := Mean(Moods(good));
        if goodAvg - lowAvg >= 0.8 then
          Some(Pattern(SleepCorrelation, SleepText(lowAvg, goodAvg), Min((goodAvg - lowAvg) / 2.0, 1.0)))
        else None
  }

  /** Each group holds only entries with sleep data; no night is both short and good, and 6 to 7.5 hours is neither. */
  lemma SleepGroups(entries: seq<MoodEntry>, e: MoodEntry)
    ensures e in LowSleepEntries(entries) <==> e in entries && e.sleepHours.Some? && e.sleepHours.value < 6.0
    ensures e in GoodSleepEntries(entries) <==> e in entries && e.sleepHours.Some? && e.sleepHours.value >= 7.5
    ensures !(e in LowSleepEntries(entries) && e in GoodSleepEntries(entries))
    ensures e.sleepHours.Some? && 6.0 <= e.sleepHours.value < 7.5 ==>
      e !in LowSleepEntries(entries) && e !in GoodSleepEntries(entries)
  {
  }

  /** The sleep pattern fires exactly when both groups exist, there is enough data, and the gap is 0.8 or more. */
  lemma SleepFiresIff(entries: seq<MoodEntry>)
    ensures DetectSleepCorrelation(entries).Some? <==>
      && |EntriesWithSleep(entries)| >= 10
      && |LowSleepEntries(entries)| > 0 && |GoodSleepEntries(entries)| > 0
      && Mean(Moods(GoodSleepEntries(entries))) - Mean(Moods(LowSleepEntries(entries))) >= 0.8
  {
  }

  // ---------------------------------------------------------------------------
  // All detectors

  /** The detectors' findings, in the order streak, weekday, sleep. */
  function Assemble(streak: Option<Pattern>, weekday: Option<Pattern>, sleep: Option<Pattern>): seq<Pattern>
  {
    OptionToSeq(streak) + OptionToSeq(weekday) + OptionToSeq(sleep)
  }

  /** What `detectPatterns` returns. */
  function AllPatterns(entries: seq<MoodEntry>): seq<Pattern>
  {
    Assemble(StreakPattern(entries), DayOfWeekPattern(entries), DetectSleepCorrelation(entries))
  }

  /** `detectPatterns(in:)`: runs the three detectors and appends what each finds. */
  method DetectPatterns(entries: seq<MoodEntry>) returns (patterns: seq<Pattern>)
    ensures patterns == AllPatterns(entries)
  {
    patterns := [];
    var streakPattern := DetectStreaks(entries);
    patterns := AppendIfFound(patterns, streakPattern);
    EmptyIsLeftUnit(OptionToSeq(streakPattern));
    var dayPattern := DetectDayOfWeekPatterns(entries);
    patterns := AppendIfFound(patterns, dayPattern);
    var sleepPattern := DetectSleepCorrelation(entries);
    patterns := AppendIfFound(patterns, sleepPattern);
  }

  /** A streak pattern is of a streak kind, with confidence 3/7. */
  lemma StreakPatternShape(entries: seq<MoodEntry>)
    ensures StreakPattern(entries).Some? ==>
      && StreakPattern(entries).value.patternType.Stage() == 0
      && StreakPattern(entries).value.confidence == 3.0 / 7.0
      && 0.4 <= StreakPattern(entries).value.confidence <= 1.0
  {
  }

  /** A weekday pattern is of its own kind, with confidence between 0.5 and 1. */
  lemma DayOfWeekPatternShape(entries: seq<MoodEntry>)
    ensures DayOfWeekPattern(entries).Some? ==>
      DayOfWeekPattern(entries).value.patternType.Stage() == 1 && 0.5 <= DayOfWeekPattern(entries).value.confidence <= 1.0
  {
    if |entries| >= 14 {
      WeekdayPatternShape(DayAverages(entries, 8));
    }
  }

  /** A sleep pattern is of its own kind, with confidence min(gap / 2, 1), between 0.4 and 1. */
  lemma SleepPatternShape(entries: seq<MoodEntry>)
    ensures DetectSleepCorrelation(entries).Some? ==>
      && DetectSleepCorrelation(entries).value.patternType == SleepCorrelation
      && DetectSleepCorrelation(entries).value.confidence ==
           Min((Mean(Moods(GoodSleepEntries(entries))) - Mean(Moods(LowSleepEntries(entries)))) / 2.0, 1.0)
      && 0.4 <= DetectSleepCorrelation(entries).value.confidence <= 1.0
  {
  }

  /** Three findings of the three stages, each confident enough, assemble in stage order. */
  lemma AssembleShape(ps: seq<Pattern>, streak: Option<Pattern>, weekday: Option<Pattern>, sleep: Option<Pattern>)
    requires ps == Assemble(streak, weekday, sleep)
    requires streak.Some? ==> streak.value.patternType.Stage() == 0 && 0.4 <= streak.value.confidence <= 1.0
    requires weekday.Some? ==> weekday.value.patternType.Stage() == 1 && 0.4 <= weekday.value.confidence <= 1.0
    requires sleep.Some? ==> sleep.value.patternType.Stage() == 2 && 0.4 <= sleep.value.confidence <= 1.0
    ensures |ps| <= 3
    ensures forall i, j :: 0 <= i < j < |ps| ==> ps[i].patternType.Stage() < ps[j].patternType.Stage()
    ensures forall i :: 0 <= i < |ps| ==> 0.4 <= ps[i].confidence <= 1.0
    ensures forall i :: 0 <= i < |ps| ==> ps[i].patternType != ActivityGap
  {
    var s := OptionToSeq(streak);
    var d := OptionToSeq(weekday);
    var l := OptionToSeq(sleep);
    assert ps == s + d + l;
    forall i | 0 <= i < |ps|
      ensures ps[i] in s || ps[i] in d || ps[i] in l
    {
    }
    forall i, j | 0 <= i < j < |ps|
      ensures ps[i].patternType.Stage() < ps[j].patternType.Stage()
    {
      if i < |s| {
        assert ps[i] in s;
        assert ps[j] in d || ps[j] in l;
      } else if i < |s| + |d| {
        assert ps[i] in d;
        assert ps[j] in l;
      }
    }
  }

  /**
   * At most three patterns, in the order streak, weekday, sleep, each kind at
   * most once, each with a confidence between 0.4 and 1.
   */
  lemma AllPatternsShape(entries: seq<MoodEntry>)
    ensures var ps := AllPatterns(entries);
      && |ps| <= 3
      && (forall i, j :: 0 <= i < j < |ps| ==> ps[i].patternType.Stage() < ps[j].patternType.Stage())
      && (forall i :: 0 <= i < |ps| ==> 0.4 <= ps[i].confidence <= 1.0)
      && (forall i :: 0 <= i < |ps| ==> ps[i].patternType != ActivityGap)
  {
    StreakPatternShape(entries);
    DayOfWeekPatternShape(entries);
    SleepPatternShape(entries);
    AssembleShape(AllPatterns(entries), StreakPattern(entries), DayOfWeekPattern(entries), DetectSleepCorrelation(entries));
  }

}
