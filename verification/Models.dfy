/**
 * The persisted records the analytics read and write (MoodEntry, Trigger,
 * ActivityCorrelation), with the calendar arithmetic they need.
 *
 * Dates are whole seconds since the Unix epoch. Calendar days are UTC days of
 * 86400 seconds, so "n days ago" is `now - n * 86400`.
 */
module Models {
  import opened Sequences
  import opened Sorting

  datatype Option<+T> = None | Some(value: T)

  /** The found value as a list of at most one element. */
  function OptionToSeq<T>(o: Option<T>): (s: seq<T>)
    ensures |s| <= 1
    ensures o.None? ==> s == []
    ensures o.Some? ==> s == [o.value]
  {
    if o.Some? then [o.value] else []
  }

  lemma EmptyIsLeftUnit<T>(s: seq<T>)
    ensures [] + s == s
  {
  }

  /** `if let x = found { list.append(x) }`. */
  method AppendIfFound<T>(list: seq<T>, found: Option<T>) returns (r: seq<T>)
    ensures r == list + OptionToSeq(found)
  {
    r := list;
    if found.Some? {
      r := r + [found.value];
    }
  }

  type Timestamp = int

  const SecondsPerDay: int := 86400

  /** `Calendar.date(byAdding: .day, value: -days, to: now)`. */
  function DaysBefore(now: Timestamp, days: int): Timestamp
  {
    now - days * SecondsPerDay
  }

  /** Index of the calendar day holding `t`; day 0 is 1 January 1970. */
  function DayNumber(t: Timestamp): int
  {
    t / SecondsPerDay
  }

  /** `Calendar.startOfDay(for:)`. */
  function StartOfDay(t: Timestamp): (s: Timestamp)
    ensures s <= t < s + SecondsPerDay
    ensures s % SecondsPerDay == 0
  {
    DayNumber(t) * SecondsPerDay
  }

  /**
   * `dateComponents([.day], from:, to:).day`: the number of whole days elapsed,
   * truncated toward zero when `to` precedes `from`.
   */
  function WholeDaysBetween(from: Timestamp, to: Timestamp): (d: int)
    ensures from <= to ==> 0 <= d && d * SecondsPerDay <= to - from < (d + 1) * SecondsPerDay
    ensures to <= from ==> d <= 0 && -d * SecondsPerDay <= from - to < (-d + 1) * SecondsPerDay
  {
    if from <= to then (to - from) / SecondsPerDay else -((from - to) / SecondsPerDay)
  }

  /** `Calendar.component(.weekday, from:)`: 1 is Sunday, 7 is Saturday (1 January 1970 was a Thursday). */
  function Weekday(t: Timestamp): (w: int)
    ensures 1 <= w <= 7
  {
    (DayNumber(t) + 4) % 7 + 1
  }

  /** 1 January 1970 was a Thursday (5), and each day follows the one before, Saturday (7) wrapping to Sunday (1). */
  lemma WeekdaysInOrder(t: Timestamp)
    ensures Weekday(0) == 5
    ensures Weekday(t + SecondsPerDay) == Weekday(t) % 7 + 1
  {
    assert DayNumber(t + SecondsPerDay) == DayNumber(t) + 1;
  }

  /** A mood check-in (the fields the analytics read). */
  datatype MoodEntry = MoodEntry(
    date: Timestamp,
    mood: int,
    activities: seq<string>,
    sleepHours: Option<real>)

  /** The moods of `entries`, in order (`entries.map { $0.mood }`). */
  function Moods(entries: seq<MoodEntry>): (r: seq<int>)
    ensures |r| == |entries|
    ensures forall i :: 0 <= i < |entries| ==> r[i] == entries[i].mood
  {
    seq(|entries|, i requires 0 <= i < |entries| => entries[i].mood)
  }

  lemma MoodsAppend(a: seq<MoodEntry>, b: seq<MoodEntry>)
    ensures Moods(a + b) == Moods(a) + Moods(b)
  {
    assert forall i :: 0 <= i < |a + b| ==> Moods(a + b)[i] == (Moods(a) + Moods(b))[i];
  }

  predicate AllMoodsIn(entries: seq<MoodEntry>, lo: int, hi: int)
  {
    forall i :: 0 <= i < |entries| ==> lo <= entries[i].mood <= hi
  }

  predicate NewerOrSame(a: MoodEntry, b: MoodEntry) { a.date >= b.date }

  predicate OlderOrSame(a: MoodEntry, b: MoodEntry) { a.date <= b.date }

  /** `entries.sorted { $0.date > $1.date }`: the most recent entry first. */
  function NewestFirst(entries: seq<MoodEntry>): (r: seq<MoodEntry>)
    ensures multiset(r) == multiset(entries) && |r| == |entries|
    ensures forall i, j :: 0 <= i < j < |r| ==> r[i].date >= r[j].date
  {
    assert IsTotalPreorder(NewerOrSame);
    InsertionSortSorted(entries, NewerOrSame);
    InsertionSort(entries, NewerOrSame)
  }

  /** Sorting newest first neither adds nor loses an entry. */
  lemma NewestFirstMembers(entries: seq<MoodEntry>)
    ensures forall e :: e in NewestFirst(entries) <==> e in entries
  {
    var r := NewestFirst(entries);
    assert forall e :: e in r <==> e in multiset(r);
    assert forall e :: e in entries <==> e in multiset(entries);
  }

  /** `entries.sorted { $0.date < $1.date }`: the oldest entry first. */
  function OldestFirst(entries: seq<MoodEntry>): (r: seq<MoodEntry>)
    ensures multiset(r) == multiset(entries) && |r| == |entries|
    ensures forall i, j :: 0 <= i < j < |r| ==> r[i].date <= r[j].date
  {
    assert IsTotalPreorder(OlderOrSame);
    InsertionSortSorted(entries, OlderOrSame);
    InsertionSort(entries, OlderOrSame)
  }

  /** The text of a trigger message, with its interpolated values kept unformatted. */
  datatype Message =
    | Literal(text: string)
    | MissedActivity(activityId: string, daysSince: int, successPercent: int)
    | SleepAverage(avgSleep: real)

  /** A fired proactive alert, as stored in the trigger log. */
  datatype Trigger = Trigger(
    triggerType: string,
    firedAt: Timestamp,
    userDismissed: bool,
    message: Message)

  /** A stored activity/mood statistic. */
  datatype ActivityCorrelation = ActivityCorrelation(
    activityId: string,
    avgMoodWith: real,
    avgMoodWithout: real,
    successRate: real,
    timesObserved: int,
    lastCalculated: Timestamp)
  {
    /**
     * How far the mean mood with the activity exceeds the mean without it:
     * positive exactly when the activity goes with better moods, zero
     * exactly when it makes no difference.
     */
    function CorrelationStrength(): (strength: real)
      ensures avgMoodWithout + strength == avgMoodWith
      ensures strength > 0.0 <==> avgMoodWith > avgMoodWithout
      ensures strength == 0.0 <==> avgMoodWith == avgMoodWithout
    {
      avgMoodWith - avgMoodWithout
    }
  }
}
