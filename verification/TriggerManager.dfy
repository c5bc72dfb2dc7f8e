/**
 * The proactive alerts: four rules look at the mood log, the stored
 * correlations and the log of alerts already fired, and at most one alert —
 * the one of highest priority — is raised. Each rule stays quiet while an
 * alert of its own type fired within its cool-down window.
 */
module TriggerManager {
  import opened Models
  import opened Sequences
  import opened Sorting

  datatype TriggerType = MissedHelpfulActivity | LowMoodStreak | SleepWarning | PositiveStreak
  {
    /** The type string stored in the trigger log. */
    function RawValue(): string
    {
      match this
      case MissedHelpfulActivity => "missed_helpful_activity"
      case LowMoodStreak => "low_mood_streak"
      case SleepWarning => "sleep_warning"
      case PositiveStreak => "positive_streak"
    }

    /** The window, in days, in which an alert of this type is not repeated. */
    function CoolDownDays(): int
    {
      if this == PositiveStreak then 14 else 7
    }
  }

  /** Distinct trigger types are logged under distinct strings. */
  lemma RawValuesDistinct(a: TriggerType, b: TriggerType)
    requires a != b
    ensures a.RawValue() != b.RawValue()
  {
  }

  /** An alert that should fire: its type, its message and its priority (higher is more urgent). */
  datatype PendingTrigger = PendingTrigger(triggerType: TriggerType, message: Message, priority: int)

  /** `hasFiredRecently(type:within:existingTriggers:)`, a linear search of the log. */
  function HasFiredRecently(triggerType: TriggerType, days: int, existing: seq<Trigger>, now: Timestamp): (fired: bool)
    ensures fired <==> exists t :: t in existing && t.triggerType == triggerType.RawValue() && t.firedAt >= DaysBefore(now, days)
  {
    if |existing| == 0 then false
    else
      assert existing == [existing[0]] + existing[1..];
      (existing[0].triggerType == triggerType.RawValue() && existing[0].firedAt >= DaysBefore(now, days))
      || HasFiredRecently(triggerType, days, existing[1..], now)
  }

  /** `thresholdDays(for:)`: how many days without an activity count as missing it. */
  function ThresholdDays(activityId: string): (days: int)
    ensures 3 <= days <= 5
    ensures days == 3 <==> activityId == "exercise"
    ensures days == 5 <==> activityId == "social_time" || activityId == "friends" || activityId == "family"
  {
    match activityId
    case "exercise" => 3
    case "social_time" => 5
    case "friends" => 5
    case "family" => 5
    case _ => 4
  }

  /** `Int(x)`: conversion to an integer, truncating toward zero. */
  function TruncateToInt(x: real): (n: int)
    ensures x >= 0.0 ==> 0 <= n && n as real <= x < n as real + 1.0
    ensures x < 0.0 ==> n <= 0 && n as real - 1.0 < x <= n as real
  {
    if x >= 0.0 then x.Floor else -((-x).Floor)
  }

  // ---------------------------------------------------------------------------
  // Missed helpful activity

  /** A correlation is helpful above a 70% success rate. */
  predicate IsHelpful(c: ActivityCorrelation)
  {
    c.successRate > 0.7
  }

  predicate HasActivity(activityId: string, e: MoodEntry)
  {
    activityId in e.activities
  }

  /** The latest date among the entries that record the activity, if any. */
  function LastDone(activityId: string, entries: seq<MoodEntry>): (last: Option<Timestamp>)
    ensures last.None? <==> forall e :: e in entries ==> activityId !in e.activities
    ensures last.Some? ==> exists e :: e in entries && activityId in e.activities && e.date == last.value
    ensures last.Some? ==> forall e :: e in entries && activityId in e.activities ==> e.date <= last.value
  {
    if |entries| == 0 then None
    else
      var init := entries[..|entries| - 1];
      var e := entries[|entries| - 1];
      assert entries == init + [e];
      var rest := LastDone(activityId, init);
      if activityId !in e.activities then rest
      else if rest.Some? && rest.value >= e.date then rest
      else Some(e.date)
  }

  /** The head of a newest-first ordering is an element with the latest date. */
  lemma NewestFirstHead(s: seq<MoodEntry>)
    ensures |NewestFirst(s)| == 0 <==> |s| == 0
    ensures |s| > 0 ==> NewestFirst(s)[0] in s && forall e :: e in s ==> e.date <= NewestFirst(s)[0].date
  {
    var newest := NewestFirst(s);
    if |s| > 0 {
      assert newest[0] in multiset(s);
      forall e | e in s
        ensures e.date <= newest[0].date
      {
        assert e in multiset(newest);
        var j :| 0 <= j < |newest| && newest[j] == e;
      }
    }
  }

  /**
   * `entries.filter { $0.activities.contains(id) }.sorted { $0.date > $1.date }.first`:
   * the date of its result is `LastDone`.
   */
  method LastEntryDate(activityId: string, entries: seq<MoodEntry>) returns (last: Option<Timestamp>)
    ensures last == LastDone(activityId, entries)
  {
    var withActivity := Filter(entries, e => HasActivity(activityId, e));
    var sorted := NewestFirst(withActivity);
    NewestFirstHead(withActivity);
    if |sorted| == 0 {
      LatestOfMatching(activityId, entries, withActivity);
      return None;
    }
    last := Some(sorted[0].date);
    LatestOfMatching(activityId, entries, withActivity);
  }

  /** `LastDone` depends only on which entries record the activity. */
  lemma LatestOfMatching(activityId: string, entries: seq<MoodEntry>, matching: seq<MoodEntry>)
    requires forall e :: e in matching <==> e in entries && activityId in e.activities
    ensures |matching| == 0 <==> LastDone(activityId, entries).None?
    ensures |matching| > 0 ==> LastDone(activityId, entries).value == NewestFirst(matching)[0].date
  {
    NewestFirstHead(matching);
    var last := LastDone(activityId, entries);
    if |matching| > 0 {
      assert matching[0] in matching;
      var head := NewestFirst(matching)[0];
      var w :| w in entries && activityId in w.activities && w.date == last.value;
      assert w in matching;
      assert head.date <= last.value;
    }
  }

  /** The activity was done at some point, and not for at least its threshold number of days. */
  predicate Overdue(c: ActivityCorrelation, entries: seq<MoodEntry>, now: Timestamp)
  {
    var last := LastDone(c.activityId, entries);
    last.Some? && WholeDaysBetween(last.value, now) >= ThresholdDays(c.activityId)
  }

  /** `Overdue` for a fixed log and time, as a predicate on correlations. */
  function OverdueAt(entries: seq<MoodEntry>, now: Timestamp): ActivityCorrelation -> bool
  {
    c => Overdue(c, entries, now)
  }

  /** The alert for an overdue activity, with the whole days since it was last done and its success percentage. */
  function MissedTrigger(c: ActivityCorrelation, entries: seq<MoodEntry>, now: Timestamp): PendingTrigger
    requires Overdue(c, entries, now)
  {
    var daysSince := WholeDaysBetween(LastDone(c.activityId, entries).value, now);
    PendingTrigger(MissedHelpfulActivity, MissedActivity(c.activityId, daysSince, TruncateToInt(c.successRate * 100.0)), 2)
  }

  /**
   * The missed-helpful-activity rule: unless such an alert fired in the last
   * seven days, the first helpful correlation whose activity is overdue.
   */
  function MissedHelpfulTrigger(entries: seq<MoodEntry>, correlations: seq<ActivityCorrelation>, existing: seq<Trigger>, now: Timestamp): (r: Option<PendingTrigger>)
    ensures r.Some? ==> !HasFiredRecently(MissedHelpfulActivity, 7, existing, now)
    ensures r.Some? ==> r.value.triggerType == MissedHelpfulActivity && r.value.priority == 2
  {
    var helpful := Filter(correlations, IsHelpful);
    var k := FirstIndex(helpful, OverdueAt(entries, now));
    if HasFiredRecently(MissedHelpfulActivity, 7, existing, now) || k == |helpful| then None
    else Some(MissedTrigger(helpful[k], entries, now))
  }

  /**
   * Outside the cool-down, the alert names the first helpful correlation, in
   * list order, whose activity is overdue.
   */
  lemma MissedHelpfulPicksFirstOverdue(entries: seq<MoodEntry>, correlations: seq<ActivityCorrelation>, existing: seq<Trigger>, now: Timestamp, k: int)
    requires !HasFiredRecently(MissedHelpfulActivity, 7, existing, now)
    requires 0 <= k < |Filter(correlations, IsHelpful)|
    requires Overdue(Filter(correlations, IsHelpful)[k], entries, now)
    requires forall j :: 0 <= j < k ==> !Overdue(Filter(correlations, IsHelpful)[j], entries, now)
    ensures MissedHelpfulTrigger(entries, correlations, existing, now) == Some(MissedTrigger(Filter(correlations, IsHelpful)[k], entries, now))
  {
    var helpful := Filter(correlations, IsHelpful);
    FirstIndexIs(helpful, OverdueAt(entries, now), k);
  }

  /**
   * The rule fires exactly when no such alert is in its cool-down and some
   * helpful correlation's activity is overdue.
   */
  lemma MissedHelpfulFiresIff(entries: seq<MoodEntry>, correlations: seq<ActivityCorrelation>, existing: seq<Trigger>, now: Timestamp)
    ensures MissedHelpfulTrigger(entries, correlations, existing, now).Some? <==>
      && !HasFiredRecently(MissedHelpfulActivity, 7, existing, now)
      && exists c :: c in correlations && c.successRate > 0.7 && Overdue(c, entries, now)
  {
    var helpful := Filter(correlations, IsHelpful);
    var k := FirstIndex(helpful, OverdueAt(entries, now));
    if exists c :: c in correlations && c.successRate > 0.7 && Overdue(c, entries, now) {
      var c :| c in correlations && c.successRate > 0.7 && Overdue(c, entries, now);
      assert c in helpful;
      var j :| 0 <= j < |helpful| && helpful[j] == c;
      assert OverdueAt(entries, now)(helpful[j]);
    }
    if k < |helpful| {
      assert helpful[k] in helpful;
      assert OverdueAt(entries, now)(helpful[k]);
    }
  }

  /**
   * The alert carries the whole days since the activity was last done, at
   * least its threshold, and its success rate times 100 truncated to an
   * integer, at least 70.
   */
  lemma MissedTriggerMessage(c: ActivityCorrelation, entries: seq<MoodEntry>, now: Timestamp)
    requires c.successRate > 0.7 && Overdue(c, entries, now)
    ensures var t := MissedTrigger(c, entries, now);
      && t.triggerType == MissedHelpfulActivity && t.priority == 2
      && t.message == MissedActivity(c.activityId, t.message.daysSince, t.message.successPercent)
      && t.message.daysSince == WholeDaysBetween(LastDone(c.activityId, entries).value, now)
      && t.message.daysSince >= ThresholdDays(c.activityId)
      && t.message.successPercent as real <= c.successRate * 100.0 < t.message.successPercent as real + 1.0
      && 70 <= t.message.successPercent
  {
  }

  /** `checkMissedHelpfulActivity`: walks the helpful correlations, skipping those never done or not yet overdue. */
  method CheckMissedHelpfulActivity(entries: seq<MoodEntry>, correlations: seq<ActivityCorrelation>, existing: seq<Trigger>, now: Timestamp)
    returns (r: Option<PendingTrigger>)
    ensures r == MissedHelpfulTrigger(entries, correlations, existing, now)
  {
    var helpful := Filter(correlations, IsHelpful);
    ghost var fired := HasFiredRecently(MissedHelpfulActivity, 7, existing, now);
    for i := 0 to |helpful|
      invariant !fired ==> forall j :: 0 <= j < i ==> !Overdue(helpful[j], entries, now)
    {
      var activity := helpful[i];
      var last := LastEntryDate(activity.activityId, entries);
      if last.None? {
        continue;
      }
      var daysSince := WholeDaysBetween(last.value, now);
      var threshold := ThresholdDays(activity.activityId);
      if daysSince >= threshold {
        if HasFiredRecently(MissedHelpfulActivity, 7, existing, now) {
          continue;
        }
        var successPercent := TruncateToInt(activity.successRate * 100.0);
        FirstIndexIs(helpful, OverdueAt(entries, now), i);
        return Some(PendingTrigger(MissedHelpfulActivity, MissedActivity(activity.activityId, daysSince, successPercent), 2));
      }
    }
    if !fired {
      FirstIndexIs(helpful, OverdueAt(entries, now), |helpful|);
    }
    return None;
  }

  // ---------------------------------------------------------------------------
  // Mood and sleep rules

  const LowMoodText: string := "Rough few days. Here are 3 things that have helped you before"
  const PositiveText: string := "Great week! Keep up whatever you're doing"

  /** `allSatisfy { $0 <= bound }`. */
  predicate AllAtMost(moods: seq<int>, bound: int)
  {
    forall i :: 0 <= i < |moods| ==> moods[i] <= bound
  }

  /** `allSatisfy { $0 >= bound }`. */
  predicate AllAtLeast(moods: seq<int>, bound: int)
  {
    forall i :: 0 <= i < |moods| ==> moods[i] >= bound
  }

  /** `checkLowMoodStreak`: the three newest moods are all at most 2 (priority 3). */
  function LowMoodStreakTrigger(entries: seq<MoodEntry>, existing: seq<Trigger>, now: Timestamp): (r: Option<PendingTrigger>)
    ensures r.Some? <==>
      && |entries| >= 3
      && (forall i :: 0 <= i < 3 ==> NewestFirst(entries)[i].mood <= 2)
      && !HasFiredRecently(LowMoodStreak, 7, existing, now)
    ensures r.Some? ==> r.value == PendingTrigger(LowMoodStreak, Literal(LowMoodText), 3)
  {
    var sorted := NewestFirst(entries);
    if |sorted| < 3 then None
    else if AllAtMost(Moods(sorted[..3]), 2) then
      if HasFiredRecently(LowMoodStreak, 7, existing, now) then None
      else Some(PendingTrigger(LowMoodStreak, Literal(LowMoodText), 3))
    else None
  }

  /** `checkPositiveStreak`: the five newest moods are all at least 4 (priority 1, 14-day cool-down). */
  function PositiveStreakTrigger(entries: seq<MoodEntry>, existing: seq<Trigger>, now: Timestamp): (r: Option<PendingTrigger>)
    ensures r.Some? <==>
      && |entries| >= 5
      && (forall i :: 0 <= i < 5 ==> NewestFirst(entries)[i].mood >= 4)
      && !HasFiredRecently(PositiveStreak, 14, existing, now)
    ensures r.Some? ==> r.value == PendingTrigger(PositiveStreak, Literal(PositiveText), 1)
  {
    var sorted := NewestFirst(entries);
    if |sorted| < 5 then None
    else if AllAtLeast(Moods(sorted[..5]), 4) then
      if HasFiredRecently(PositiveStreak, 14, existing, now) then None
      else Some(PendingTrigger(PositiveStreak, Literal(PositiveText), 1))
    else None
  }

  /** A low streak and a positive streak never fire together: they disagree on the newest mood. */
  lemma LowAndPositiveStreaksExclusive(entries: seq<MoodEntry>, existing: seq<Trigger>, now: Timestamp)
    ensures LowMoodStreakTrigger(entries, existing, now).None? || PositiveStreakTrigger(entries, existing, now).None?
  {
    if |entries| >= 3 {
      var newest := NewestFirst(entries)[0];
    }
  }

  predicate HasSleep(e: MoodEntry)
  {
    e.sleepHours.Some?
  }

  /** `compactMap { $0.sleepHours }`: the recorded sleep hours, in order. */
  function SleepHours(entries: seq<MoodEntry>): (hours: seq<real>)
    ensures |hours| <= |entries|
    ensures (forall i :: 0 <= i < |entries| ==> HasSleep(entries[i])) ==>
      |hours| == |entries| && forall i :: 0 <= i < |entries| ==> hours[i] == entries[i].sleepHours.value
  {
    if |entries| == 0 then []
    else
      var init := SleepHours(entries[..|entries| - 1]);
      match entries[|entries| - 1].sleepHours
      case None => init
      case Some(h) => init + [h]
  }

  /** The entries that record sleep, newest first. */
  function SleepEntriesNewestFirst(entries: seq<MoodEntry>): (r: seq<MoodEntry>)
    ensures forall i :: 0 <= i < |r| ==> HasSleep(r[i]) && r[i] in entries
    ensures forall i, j :: 0 <= i < j < |r| ==> r[i].date >= r[j].date
    ensures forall e :: e in entries && HasSleep(e) ==> e in r
    ensures multiset(r) == multiset(Filter(entries, HasSleep))
  {
    NewestFirstMembers(Filter(entries, HasSleep));
    NewestFirst(Filter(entries, HasSleep))
  }

  /**
   * `checkSleepWarning`: with at least five entries that record sleep, the
   * mean of the five newest is below six hours (priority 2).
   */
  function SleepWarningTrigger(entries: seq<MoodEntry>, existing: seq<Trigger>, now: Timestamp): (r: Option<PendingTrigger>)
    ensures var recent := SleepEntriesNewestFirst(entries);
      r.Some? <==>
        && |recent| >= 5
        && SumReals(SleepHours(recent[..5])) < 30.0
        && !HasFiredRecently(SleepWarning, 7, existing, now)
    ensures r.Some? ==>
      && r.value.triggerType == SleepWarning && r.value.priority == 2
      && r.value.message.SleepAverage?
      && r.value.message.avgSleep < 6.0
      && r.value.message.avgSleep * 5.0 == SumReals(SleepHours(SleepEntriesNewestFirst(entries)[..5]))
  {
    var recent := SleepEntriesNewestFirst(entries);
    if |recent| < 5 then None
    else
      // `recentEntries.count` is 5 here: the list was cut to five and has at least five.
      var avgSleep := SumReals(SleepHours(recent[..5])) / 5.0;
      if avgSleep < 6.0 then
        if HasFiredRecently(SleepWarning, 7, existing, now) then None
        else Some(PendingTrigger(SleepWarning, SleepAverage(avgSleep), 2))
      else None
  }

  // ---------------------------------------------------------------------------
  // Choosing the alert

  predicate HigherOrSamePriority(a: PendingTrigger, b: PendingTrigger)
  {
    a.priority >= b.priority
  }

  /**
   * `sorted { $0.priority > $1.priority }.prefix(1)`: the first of the
   * pending alerts with the highest priority; on a tie the rule evaluated
   * first wins.
   */
  function HighestPriority(pending: seq<PendingTrigger>): (r: seq<PendingTrigger>)
    ensures |r| <= 1
    ensures |r| == 0 <==> |pending| == 0
    ensures |r| == 1 ==> exists k :: (0 <= k < |pending| && r[0] == pending[k]
      && (forall j :: 0 <= j < |pending| ==> pending[j].priority <= r[0].priority)
      && (forall j :: 0 <= j < k ==> pending[j].priority < r[0].priority))
  {
    if |pending| == 0 then []
    else
      assert IsTotalPreorder(HigherOrSamePriority);
      InsertionSortHead(pending, HigherOrSamePriority);
      [InsertionSort(pending, HigherOrSamePriority)[0]]
  }

  /** The alerts the four rules raise, in evaluation order. */
  function PendingTriggers(entries: seq<MoodEntry>, correlations: seq<ActivityCorrelation>, existing: seq<Trigger>, now: Timestamp): seq<PendingTrigger>
  {
    OptionToSeq(MissedHelpfulTrigger(entries, correlations, existing, now))
    + OptionToSeq(LowMoodStreakTrigger(entries, existing, now))
    + OptionToSeq(SleepWarningTrigger(entries, existing, now))
    + OptionToSeq(PositiveStreakTrigger(entries, existing, now))
  }

  /** What `checkAllTriggers` returns. */
  function AllTriggers(entries: seq<MoodEntry>, correlations: seq<ActivityCorrelation>, existing: seq<Trigger>, now: Timestamp): seq<PendingTrigger>
  {
    HighestPriority(PendingTriggers(entries, correlations, existing, now))
  }

  /** `checkAllTriggers`: evaluates the four rules in order and keeps the most urgent alert. */
  method CheckAllTriggers(entries: seq<MoodEntry>, correlations: seq<ActivityCorrelation>, existing: seq<Trigger>, now: Timestamp)
    returns (fired: seq<PendingTrigger>)
    ensures fired == AllTriggers(entries, correlations, existing, now)
  {
    var pending: seq<PendingTrigger> := [];
    var missed := CheckMissedHelpfulActivity(entries, correlations, existing, now);
    pending := AppendIfFound(pending, missed);
    EmptyIsLeftUnit(OptionToSeq(missed));
    pending := AppendIfFound(pending, LowMoodStreakTrigger(entries, existing, now));
    pending := AppendIfFound(pending, SleepWarningTrigger(entries, existing, now));
    pending := AppendIfFound(pending, PositiveStreakTrigger(entries, existing, now));
    fired := HighestPriority(pending);
  }

  /** An alert that outranks every other pending alert is the one chosen. */
  lemma HighestIsStrictMaximum(pending: seq<PendingTrigger>, x: PendingTrigger)
    requires x in pending
    requires forall y :: y in pending && y != x ==> y.priority < x.priority
    ensures HighestPriority(pending) == [x]
  {
    var r := HighestPriority(pending);
    var k :| 0 <= k < |pending| && r[0] == pending[k]
      && (forall j :: 0 <= j < |pending| ==> pending[j].priority <= r[0].priority);
    var i :| 0 <= i < |pending| && pending[i] == x;
    assert pending[i].priority <= r[0].priority;
  }

  /** When the first pending alert is of the highest priority, it is the one chosen. */
  lemma HighestIsFirstOnTie(pending: seq<PendingTrigger>)
    requires |pending| > 0
    requires forall j :: 0 <= j < |pending| ==> pending[j].priority <= pending[0].priority
    ensures HighestPriority(pending) == [pending[0]]
  {
    var r := HighestPriority(pending);
    var k :| 0 <= k < |pending| && r[0] == pending[k]
      && (forall j :: 0 <= j < |pending| ==> pending[j].priority <= r[0].priority)
      && (forall j :: 0 <= j < k ==> pending[j].priority < r[0].priority);
    assert pending[k].priority <= pending[0].priority;
  }

  /**
   * Selection among alerts of priorities 2, 3, 2 and 1, raised in that order:
   * the priority-3 alert if present, else the first priority-2 alert, else
   * the priority-1 alert.
   */
  lemma SelectByPriority(m: Option<PendingTrigger>, l: Option<PendingTrigger>, s: Option<PendingTrigger>, p: Option<PendingTrigger>)
    requires m.Some? ==> m.value.priority == 2
    requires l.Some? ==> l.value.priority == 3
    requires s.Some? ==> s.value.priority == 2
    requires p.Some? ==> p.value.priority == 1
    ensures var r := HighestPriority(OptionToSeq(m) + OptionToSeq(l) + OptionToSeq(s) + OptionToSeq(p));
      && |r| <= 1
      && (|r| == 1 <==> m.Some? || l.Some? || s.Some? || p.Some?)
      && (l.Some? ==> r == [l.value])
      && (l.None? && m.Some? ==> r == [m.value])
      && (l.None? && m.None? && s.Some? ==> r == [s.value])
      && (l.None? && m.None? && s.None? && p.Some? ==> r == [p.value])
  {
    var pending := OptionToSeq(m) + OptionToSeq(l) + OptionToSeq(s) + OptionToSeq(p);
    assert forall j :: 0 <= j < |pending| ==> pending[j].priority <= 3 && (pending[j].priority == 3 ==> l.Some? && pending[j] == l.value);
    if l.Some? {
      assert l.value in pending;
      HighestIsStrictMaximum(pending, l.value);
    } else if m.Some? {
      assert pending[0] == m.value;
      HighestIsFirstOnTie(pending);
    } else if s.Some? {
      assert pending[0] == s.value;
      HighestIsFirstOnTie(pending);
    } else if p.Some? {
      assert pending == [p.value];
      HighestIsFirstOnTie(pending);
    }
  }

  /**
   * `checkAllTriggers` raises at most one alert, and one exactly when some
   * rule fires: the low-mood streak first, then the missed activity (which
   * wins the tie with the sleep warning), then the sleep warning, then the
   * positive streak.
   */
  lemma AllTriggersSelection(entries: seq<MoodEntry>, correlations: seq<ActivityCorrelation>, existing: seq<Trigger>, now: Timestamp)
    ensures var r := AllTriggers(entries, correlations, existing, now);
      var m := MissedHelpfulTrigger(entries, correlations, existing, now);
      var l := LowMoodStreakTrigger(entries, existing, now);
      var s := SleepWarningTrigger(entries, existing, now);
      var p := PositiveStreakTrigger(entries, existing, now);
      && |r| <= 1
      && (|r| == 1 <==> m.Some? || l.Some? || s.Some? || p.Some?)
      && (l.Some? ==> r == [l.value])
      && (l.None? && m.Some? ==> r == [m.value])
      && (l.None? && m.None? && s.Some? ==> r == [s.value])
      && (l.None? && m.None? && s.None? && p.Some? ==> r == [p.value])
  {
    SelectByPriority(MissedHelpfulTrigger(entries, correlations, existing, now), LowMoodStreakTrigger(entries, existing, now),
      SleepWarningTrigger(entries, existing, now), PositiveStreakTrigger(entries, existing, now));
  }

  // ---------------------------------------------------------------------------
  // The trigger log

  /** The log record for an alert fired at `now`, not yet dismissed. */
  function Logged(pending: PendingTrigger, now: Timestamp): Trigger
  {
    Trigger(pending.triggerType.RawValue(), now, false, pending.message)
  }

  /** The fired alerts, oldest first. */
  class TriggerLog {
    var triggers: seq<Trigger>

    constructor()
      ensures triggers == []
    {
      triggers := [];
    }

    /** `logTrigger(_:)`: records one alert; earlier records are kept as they are. */
    method LogTrigger(pending: PendingTrigger, now: Timestamp)
      modifies this
      ensures triggers == old(triggers) + [Logged(pending, now)]
    {
      triggers := triggers + [Logged(pending, now)];
    }
  }

  /** Logging an alert makes its type count as fired for the whole window after it. */
  lemma LoggingStartsCoolDown(existing: seq<Trigger>, pending: PendingTrigger, now: Timestamp, later: Timestamp, days: int)
    requires DaysBefore(later, days) <= now
    ensures HasFiredRecently(pending.triggerType, days, existing + [Logged(pending, now)], later)
  {
    assert Logged(pending, now) in existing + [Logged(pending, now)];
  }

  /** Logging an alert leaves the cool-downs of the other types as they were. */
  lemma LoggingKeepsOtherCoolDowns(existing: seq<Trigger>, pending: PendingTrigger, now: Timestamp, other: TriggerType, later: Timestamp, days: int)
    requires other != pending.triggerType
    ensures HasFiredRecently(other, days, existing + [Logged(pending, now)], later) == HasFiredRecently(other, days, existing, later)
  {
    RawValuesDistinct(other, pending.triggerType);
    var log := existing + [Logged(pending, now)];
    if HasFiredRecently(other, days, log, later) {
      var t :| t in log && t.triggerType == other.RawValue() && t.firedAt >= DaysBefore(later, days);
      assert t in existing;
    }
  }

  /**
   * Once an alert is logged at `now`, the rule that raised it stays quiet
   * until its cool-down has passed.
   */
  lemma LoggedRuleStaysQuiet(entries: seq<MoodEntry>, correlations: seq<ActivityCorrelation>, existing: seq<Trigger>,
                             pending: PendingTrigger, now: Timestamp, later: Timestamp)
    requires DaysBefore(later, pending.triggerType.CoolDownDays()) <= now
    ensures var log := existing + [Logged(pending, now)];
      && (pending.triggerType == MissedHelpfulActivity ==> MissedHelpfulTrigger(entries, correlations, log, later).None?)
      && (pending.triggerType == LowMoodStreak ==> LowMoodStreakTrigger(entries, log, later).None?)
      && (pending.triggerType == SleepWarning ==> SleepWarningTrigger(entries, log, later).None?)
      && (pending.triggerType == PositiveStreak ==> PositiveStreakTrigger(entries, log, later).None?)
  {
    LoggingStartsCoolDown(existing, pending, now, later, pending.triggerType.CoolDownDays());
  }
}
