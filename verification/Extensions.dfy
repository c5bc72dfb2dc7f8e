/**
 * Helpers the views and analytics share: the recent-entries window, the mean
 * mood, the streak of consecutive logged days, and the tables that turn a mood
 * value or an activity identifier into display text.
 */
module Extensions {
  import opened Models
  import opened Sequences
  import opened Text

  /** `last(_:)`: the entries dated no earlier than `days` days before `now`, in their original order. */
  function Last(entries: seq<MoodEntry>, days: int, now: Timestamp): (r: seq<MoodEntry>)
    ensures |r| <= |entries|
    ensures forall e :: e in r <==> e in entries && e.date >= DaysBefore(now, days)
  {
    Filter(entries, (e: MoodEntry) => e.date >= DaysBefore(now, days))
  }

  /** The window drops no occurrence of an entry inside it: duplicates are kept as often as they occur. */
  lemma LastKeepsMultiplicity(entries: seq<MoodEntry>, days: int, now: Timestamp)
    ensures forall e :: multiset(Last(entries, days, now))[e] == if e.date >= DaysBefore(now, days) then multiset(entries)[e] else 0
  {
    FilterMultiset(entries, (e: MoodEntry) => e.date >= DaysBefore(now, days));
  }

  /** The window keeps relative order: it distributes over concatenation. */
  lemma LastPreservesOrder(a: seq<MoodEntry>, b: seq<MoodEntry>, days: int, now: Timestamp)
    ensures Last(a + b, days, now) == Last(a, days, now) + Last(b, days, now)
  {
    FilterAppend(a, b, (e: MoodEntry) => e.date >= DaysBefore(now, days));
  }

  /** A window that already lies inside the cut-off is returned whole. */
  lemma LastOfRecentIsIdentity(entries: seq<MoodEntry>, days: int, now: Timestamp)
    requires forall i :: 0 <= i < |entries| ==> entries[i].date >= DaysBefore(now, days)
    ensures Last(entries, days, now) == entries
  {
    FilterKeepsAll(entries, (e: MoodEntry) => e.date >= DaysBefore(now, days));
  }

  /** `averageMood`: 0 for no entries, otherwise the arithmetic mean of the moods. */
  function AverageMood(entries: seq<MoodEntry>): (r: real)
    ensures |entries| == 0 ==> r == 0.0
    ensures |entries| > 0 ==> IsMeanOf(r, Moods(entries))
  {
    if |entries| == 0 then 0.0
    else
      MeanIsQuotient(Moods(entries));
      Mean(Moods(entries))
  }

  /** With moods on the 1-5 scale, a non-empty average lies in [1, 5]. */
  lemma AverageMoodOnScale(entries: seq<MoodEntry>)
    requires |entries| > 0
    requires AllMoodsIn(entries, 1, 5)
    ensures 1.0 <= AverageMood(entries) <= 5.0
  {
    MeanBounds(Moods(entries), 1, 5);
  }

  /** Calendar days between entry `i` and the next older entry `i + 1` of a newest-first list. */
  function DayGap(sorted: seq<MoodEntry>, i: int): int
    requires 0 <= i < |sorted| - 1
  {
    WholeDaysBetween(StartOfDay(sorted[i + 1].date), StartOfDay(sorted[i].date))
  }

  /**
   * `currentStreak()`: walking from the newest entry, the number of entries
   * reached through gaps of exactly one calendar day. A same-day pair (gap 0)
   * or a longer gap ends the streak.
   */
  method CurrentStreak(entries: seq<MoodEntry>) returns (streak: int)
    ensures |entries| == 0 ==> streak == 0
    ensures |entries| > 0 ==> 1 <= streak <= |entries|
    ensures forall k :: 0 <= k < streak - 1 ==> DayGap(NewestFirst(entries), k) == 1
    ensures 0 < streak < |entries| ==> DayGap(NewestFirst(entries), streak - 1) != 1
  {
    var sorted := NewestFirst(entries);
    if |sorted| == 0 {
      return 0;
    }
    streak := 1;
    for i := 0 to |sorted| - 1
      invariant streak == i + 1
      invariant forall k :: 0 <= k < i ==> DayGap(sorted, k) == 1
    {
      if DayGap(sorted, i) == 1 {
        streak := streak + 1;
      } else {
        break;
      }
    }
  }

  /** The five faces, indexed by mood - 1. */
  const MoodFaces: seq<string> := ["\U{1F61E}", "\U{1F615}", "\U{1F610}", "\U{1F642}", "\U{1F604}"]

  /** `moodEmoji`: the face for a mood; values off the scale get the neutral face of mood 3. */
  function MoodEmoji(mood: int): (face: string)
    ensures 1 <= mood <= 5 ==> face == MoodFaces[mood - 1]
    ensures !(1 <= mood <= 5) ==> face == MoodFaces[2]
  {
    match mood
    case 1 => "\U{1F61E}"
    case 2 => "\U{1F615}"
    case 3 => "\U{1F610}"
    case 4 => "\U{1F642}"
    case 5 => "\U{1F604}"
    case _ => "\U{1F610}"
  }

  /** The five labels, indexed by mood - 1. */
  const MoodLabels: seq<string> := ["Terrible", "Bad", "Okay", "Good", "Great"]

  /** `moodLabel`: the label for a mood; values off the scale are "Unknown". */
  function MoodLabel(mood: int): (text: string)
    ensures 1 <= mood <= 5 ==> text == MoodLabels[mood - 1]
    ensures !(1 <= mood <= 5) <==> text == "Unknown"
  {
    match mood
    case 1 => "Terrible"
    case 2 => "Bad"
    case 3 => "Okay"
    case 4 => "Good"
    case 5 => "Great"
    case _ => "Unknown"
  }

  /** Distinct moods on the scale have distinct faces and distinct labels. */
  lemma MoodTablesInjective(a: int, b: int)
    requires 1 <= a <= 5 && 1 <= b <= 5 && a != b
    ensures MoodEmoji(a) != MoodEmoji(b)
    ensures MoodLabel(a) != MoodLabel(b)
  {
  }

  /**
   * `activityDisplayName`: underscores become spaces and every word is
   * capitalized, where a word starts at the front or after a non-letter.
   */
  function ActivityDisplayName(id: string): (name: string)
    ensures |name| == |id|
    ensures forall i {:trigger name[i]} :: 0 <= i < |id| ==>
      name[i] == if id[i] == '_' then ' '
                 else if i == 0 || !IsAsciiLetter(id[i - 1]) then ToUpper(id[i])
                 else ToLower(id[i])
    ensures '_' !in name
  {
    var spaced := ReplaceUnderscores(id);
    assert forall i :: 0 <= i < |id| ==> IsAsciiLetter(spaced[i]) == IsAsciiLetter(id[i]);
    Capitalized(spaced)
  }

  /** Formatting an already formatted name changes nothing. */
  lemma ActivityDisplayNameIdempotent(id: string)
    ensures ActivityDisplayName(ActivityDisplayName(id)) == ActivityDisplayName(id)
  {
    var once := ActivityDisplayName(id);
    var twice := ActivityDisplayName(once);
    forall i | 0 <= i < |id|
      ensures twice[i] == once[i]
    {
      var starts := i == 0 || !IsAsciiLetter(id[i - 1]);
      assert i > 0 ==> IsAsciiLetter(once[i - 1]) == IsAsciiLetter(id[i - 1]);
      assert once[i] != '_';
      if id[i] == '_' {
        assert once[i] == ' ';
      } else if starts {
        assert once[i] == ToUpper(id[i]);
        assert twice[i] == ToUpper(once[i]);
      } else {
        assert once[i] == ToLower(id[i]);
        assert twice[i] == ToLower(once[i]);
      }
    }
  }
}
