/**
 * The journal prompt shown after a check-in. Four rules are tried in order —
 * a drop below the recent average, a rise above it, a mood that has held for
 * the last three check-ins, a recognised activity — and the first that
 * applies chooses the prompt; otherwise a default prompt is used. Where the
 * app picks at random, the model takes a `seed` and picks element
 * `seed % |list|`.
 */
module PromptGenerator {
  import opened Models
  import opened Sequences
  import opened Text
  import opened Extensions

  const RecentDays: int := 7
  /** The recent average assumed when no entry falls in the window. */
  const NeutralAverage: real := 3.0

  const WorkDropPrompt: string := "What about work felt especially hard today?"
  const SocialDropPrompt: string := "How did social time feel different than usual?"
  const GenericDropPrompt: string := "Something shifted today. What changed?"
  const BrighterPrompt: string := "You seem brighter! What helped today?"

  const DefaultPrompts: seq<string> := [
    "What's the main thing affecting how you feel?",
    "What's on your mind right now?",
    "How are you really doing today?",
    "What's one thing you're grateful for today?",
    "What would make tomorrow better?"
  ]

  const ExercisePrompts: seq<string> := [
    "How did the workout feel?",
    "Did exercise help or drain you today?",
    "How's your body feeling after that?"
  ]

  const WorkPrompts: seq<string> := [
    "What about work felt especially challenging?",
    "Work today - what stood out?",
    "How was the work situation today?"
  ]

  const SocialPrompts: seq<string> := [
    "How did social time feel today?",
    "What was it like connecting with people?",
    "Did social time energize or drain you?"
  ]

  /** `randomElement()` on a non-empty list, driven by `seed`. */
  function Pick(list: seq<string>, seed: nat): (s: string)
    requires |list| > 0
    ensures s in list
  {
    list[seed % |list|]
  }

  /**
   * `calculateRecentAverage(entries:days: 7)`: the mean mood of the entries of
   * the last seven days, or 3 when there are none.
   */
  function RecentAverage(entries: seq<MoodEntry>, now: Timestamp): (avg: real)
    ensures var recent := Last(entries, RecentDays, now);
      && (|recent| == 0 ==> avg == NeutralAverage)
      && (|recent| > 0 ==> IsMeanOf(avg, Moods(recent)))
  {
    var recent := Last(entries, RecentDays, now);
    if |recent| == 0 then NeutralAverage else AverageMood(recent)
  }

  /** With moods on the 1-5 scale the recent average lies in [1, 5]. */
  lemma RecentAverageOnScale(entries: seq<MoodEntry>, now: Timestamp)
    requires AllMoodsIn(entries, 1, 5)
    ensures 1.0 <= RecentAverage(entries, now) <= 5.0
  {
    var recent := Last(entries, RecentDays, now);
    if |recent| > 0 {
      forall i | 0 <= i < |recent|
        ensures 1 <= recent[i].mood <= 5
      {
        assert recent[i] in entries;
      }
      AverageMoodOnScale(recent);
    }
  }

  /** `formatActivityName`: underscores become spaces and letters are lower-cased. */
  function FormatActivityName(activity: string): (name: string)
    ensures |name| == |activity|
    ensures forall i :: 0 <= i < |activity| ==> name[i] == if activity[i] == '_' then ' ' else ToLower(activity[i])
  {
    Lowercased(ReplaceUnderscores(activity))
  }

  /** Formatting an already formatted name changes nothing. */
  lemma FormatActivityNameIdempotent(activity: string)
    ensures FormatActivityName(FormatActivityName(activity)) == FormatActivityName(activity)
  {
    var once := FormatActivityName(activity);
    var twice := FormatActivityName(once);
    forall i | 0 <= i < |once|
      ensures twice[i] == once[i]
    {
      if activity[i] != '_' {
        assert once[i] == ToLower(activity[i]);
      }
    }
  }

  /** The words for moods 1 to 5. */
  const PromptMoodWords: seq<string> := ["terrible", "down", "okay", "good", "great"]

  /** `moodLabel(for:)`: the lower-case word used in the continuation prompt. */
  function PromptMoodLabel(mood: int): (word: string)
    ensures 1 <= mood <= 5 ==> word == PromptMoodWords[mood - 1]
    ensures word == "neutral" <==> !(1 <= mood <= 5)
    ensures |word| > 0
  {
    match mood
    case 1 => "terrible"
    case 2 => "down"
    case 3 => "okay"
    case 4 => "good"
    case 5 => "great"
    case _ => "neutral"
  }

  /** Distinct moods on the scale get distinct words. */
  lemma PromptMoodLabelInjective(a: int, b: int)
    requires 1 <= a <= 5 && 1 <= b <= 5 && a != b
    ensures PromptMoodLabel(a) != PromptMoodLabel(b)
  {
  }

  // ---------------------------------------------------------------------------
  // The rules

  predicate HasWork(activities: seq<string>)
  {
    "work" in activities || "work_hours" in activities
  }

  predicate HasSocial(activities: seq<string>)
  {
    "social_time" in activities || "friends" in activities
  }

  /**
   * `promptForMoodDrop`: the mood is more than one point below the recent
   * average; work is asked about before social time.
   */
  function MoodDropPrompt(currentMood: int, entries: seq<MoodEntry>, activities: seq<string>, now: Timestamp): (r: Option<string>)
    ensures r.Some? <==> currentMood as real < RecentAverage(entries, now) - 1.0
    ensures r.Some? && HasWork(activities) ==> r.value == WorkDropPrompt
    ensures r.Some? && !HasWork(activities) && HasSocial(activities) ==> r.value == SocialDropPrompt
    ensures r.Some? && !HasWork(activities) && !HasSocial(activities) ==> r.value == GenericDropPrompt
  {
    if currentMood as real < RecentAverage(entries, now) - 1.0 then
      if HasWork(activities) then Some(WorkDropPrompt)
      else if HasSocial(activities) then Some(SocialDropPrompt)
      else Some(GenericDropPrompt)
    else None
  }

  /** Every activity recorded in any of the entries (`Set(recentEntries.flatMap { $0.activities })`). */
  function LoggedActivities(entries: seq<MoodEntry>): (logged: set<string>)
    ensures forall a :: a in logged <==> exists e :: e in entries && a in e.activities
  {
    set e, a | e in entries && a in e.activities :: a
  }

  /**
   * The first selected activity that none of the entries records
   * (`activities.filter { !recentActivities.contains($0) }.first`).
   */
  function FirstNewActivity(activities: seq<string>, entries: seq<MoodEntry>): (r: Option<string>)
    ensures r.None? <==> forall a :: a in activities ==> a in LoggedActivities(entries)
    ensures r.Some? ==> exists k :: (0 <= k < |activities| && activities[k] == r.value
      && r.value !in LoggedActivities(entries)
      && forall j :: 0 <= j < k ==> activities[j] in LoggedActivities(entries))
  {
    var logged := LoggedActivities(entries);
    var isNew := (a: string) => a !in logged;
    var unseen := Filter(activities, isNew);
    FilterHeadIsFirst(activities, isNew);
    if |unseen| == 0 then None
    else
      var k := FirstIndex(activities, isNew);
      assert activities[k] == unseen[0];
      Some(unseen[0])
  }

  /**
   * `promptForMoodImprovement`: the mood is more than one point above the
   * recent average; a selected activity never logged before is asked about.
   */
  function MoodImprovementPrompt(currentMood: int, entries: seq<MoodEntry>, activities: seq<string>, now: Timestamp): (r: Option<string>)
    ensures r.Some? <==> currentMood as real > RecentAverage(entries, now) + 1.0
    ensures r.Some? && FirstNewActivity(activities, entries).Some? ==>
      r.value == "First time trying " + FormatActivityName(FirstNewActivity(activities, entries).value) + " - how was it?"
    ensures r.Some? && FirstNewActivity(activities, entries).None? ==> r.value == BrighterPrompt
  {
    if currentMood as real > RecentAverage(entries, now) + 1.0 then
      (match FirstNewActivity(activities, entries)
       case Some(newActivity) => Some("First time trying " + FormatActivityName(newActivity) + " - how was it?")
       case None => Some(BrighterPrompt))
    else None
  }

  /** The drop and improvement rules never both apply. */
  lemma DropAndImprovementExclusive(currentMood: int, entries: seq<MoodEntry>, activities: seq<string>, now: Timestamp)
    ensures MoodDropPrompt(currentMood, entries, activities, now).None? || MoodImprovementPrompt(currentMood, entries, activities, now).None?
  {
  }

  /** `allSatisfy { abs($0 - mood) <= 1 }`. */
  predicate AllWithinOne(moods: seq<int>, mood: int)
  {
    forall i :: 0 <= i < |moods| ==> -1 <= moods[i] - mood <= 1
  }

  /**
   * `promptForPatternContinuation`: the three newest entries are all within
   * one point of the current mood.
   */
  function ContinuationPrompt(currentMood: int, entries: seq<MoodEntry>): (r: Option<string>)
    ensures r.Some? <==> |entries| >= 3 && forall i :: 0 <= i < 3 ==> -1 <= NewestFirst(entries)[i].mood - currentMood <= 1
    ensures r.Some? ==> r.value == "You've felt " + PromptMoodLabel(currentMood) + " for a few days. What's been on your mind?"
  {
    var sorted := NewestFirst(entries);
    if |sorted| < 3 then None
    else if AllWithinOne(Moods(sorted[..3]), currentMood) then
      Some("You've felt " + PromptMoodLabel(currentMood) + " for a few days. What's been on your mind?")
    else
      None
  }

  /** `promptForSpecificActivity`: a template for exercise, else work, else social time. */
  function ActivityPrompt(activities: seq<string>, seed: nat): (r: Option<string>)
    ensures r.Some? <==> "exercise" in activities || HasWork(activities) || HasSocial(activities)
    ensures "exercise" in activities ==> r.Some? && r.value in ExercisePrompts
    ensures "exercise" !in activities && HasWork(activities) ==> r.Some? && r.value in WorkPrompts
    ensures "exercise" !in activities && !HasWork(activities) && HasSocial(activities) ==> r.Some? && r.value in SocialPrompts
  {
    if "exercise" in activities then Some(Pick(ExercisePrompts, seed))
    else if HasWork(activities) then Some(Pick(WorkPrompts, seed))
    else if HasSocial(activities) then Some(Pick(SocialPrompts, seed))
    else None
  }

  /** No template in the prompt lists is empty. */
  lemma TemplatesAreNonEmpty()
    ensures forall i :: 0 <= i < |DefaultPrompts| ==> |DefaultPrompts[i]| > 0
    ensures forall i :: 0 <= i < |ExercisePrompts| ==> |ExercisePrompts[i]| > 0
    ensures forall i :: 0 <= i < |WorkPrompts| ==> |WorkPrompts[i]| > 0
    ensures forall i :: 0 <= i < |SocialPrompts| ==> |SocialPrompts[i]| > 0
  {
  }

  /**
   * `generatePrompt(currentMood:selectedActivities:recentEntries:)`: the
   * first rule that applies, else a default prompt. The lemmas below state
   * which prompt each situation gets.
   */
  function GeneratePrompt(currentMood: int, activities: seq<string>, entries: seq<MoodEntry>, now: Timestamp, seed: nat): (prompt: string)
    ensures |prompt| > 0
  {
    TemplatesAreNonEmpty();
    match MoodDropPrompt(currentMood, entries, activities, now)
    case Some(p) => p
    case None =>
      match MoodImprovementPrompt(currentMood, entries, activities, now)
      case Some(p) => p
      case None =>
        match ContinuationPrompt(currentMood, entries)
        case Some(p) => p
        case None =>
          match ActivityPrompt(activities, seed)
          case Some(p) => p
          case None => Pick(DefaultPrompts, seed)
  }

  /** A mood more than one point below the recent average always gets a drop prompt, whatever else holds. */
  lemma DropPromptComesFirst(currentMood: int, activities: seq<string>, entries: seq<MoodEntry>, now: Timestamp, seed: nat)
    requires currentMood as real < RecentAverage(entries, now) - 1.0
    ensures GeneratePrompt(currentMood, activities, entries, now, seed) ==
      if HasWork(activities) then WorkDropPrompt
      else if HasSocial(activities) then SocialDropPrompt
      else GenericDropPrompt
  {
  }

  /**
   * A mood more than one point above the recent average asks about the
   * first selected activity never logged before, or else asks what went well.
   */
  lemma ImprovementPromptComesSecond(currentMood: int, activities: seq<string>, entries: seq<MoodEntry>, now: Timestamp, seed: nat)
    requires currentMood as real > RecentAverage(entries, now) + 1.0
    ensures var prompt := GeneratePrompt(currentMood, activities, entries, now, seed);
      && (FirstNewActivity(activities, entries).Some? ==>
            prompt == "First time trying " + FormatActivityName(FirstNewActivity(activities, entries).value) + " - how was it?")
      && (FirstNewActivity(activities, entries).None? ==> prompt == BrighterPrompt)
  {
  }

  /**
   * With the mood within a point of the recent average, three newest moods
   * all within a point of the current one ask what has been on the user's mind.
   */
  lemma ContinuationPromptComesThird(currentMood: int, activities: seq<string>, entries: seq<MoodEntry>, now: Timestamp, seed: nat)
    requires RecentAverage(entries, now) - 1.0 <= currentMood as real <= RecentAverage(entries, now) + 1.0
    requires |entries| >= 3 && forall i :: 0 <= i < 3 ==> -1 <= NewestFirst(entries)[i].mood - currentMood <= 1
    ensures GeneratePrompt(currentMood, activities, entries, now, seed) ==
      "You've felt " + PromptMoodLabel(currentMood) + " for a few days. What's been on your mind?"
  {
  }

  /**
   * Otherwise a recognised activity gets one of its templates: exercise
   * first, then work, then social time.
   */
  lemma ActivityPromptComesFourth(currentMood: int, activities: seq<string>, entries: seq<MoodEntry>, now: Timestamp, seed: nat)
    requires RecentAverage(entries, now) - 1.0 <= currentMood as real <= RecentAverage(entries, now) + 1.0
    requires |entries| < 3 || exists i :: 0 <= i < 3 && !(-1 <= NewestFirst(entries)[i].mood - currentMood <= 1)
    ensures var prompt := GeneratePrompt(currentMood, activities, entries, now, seed);
      && ("exercise" in activities ==> prompt in ExercisePrompts)
      && ("exercise" !in activities && HasWork(activities) ==> prompt in WorkPrompts)
      && ("exercise" !in activities && !HasWork(activities) && HasSocial(activities) ==> prompt in SocialPrompts)
  {
  }

  /**
   * When no rule applies — the mood is within one point of the recent
   * average, the last three moods do not all agree with it and no
   * recognised activity was selected — the prompt is one of the defaults.
   */
  lemma QuietDayGetsDefaultPrompt(currentMood: int, activities: seq<string>, entries: seq<MoodEntry>, now: Timestamp, seed: nat)
    requires RecentAverage(entries, now) - 1.0 <= currentMood as real <= RecentAverage(entries, now) + 1.0
    requires |entries| < 3 || exists i :: 0 <= i < 3 && !(-1 <= NewestFirst(entries)[i].mood - currentMood <= 1)
    requires "exercise" !in activities && !HasWork(activities) && !HasSocial(activities)
    ensures GeneratePrompt(currentMood, activities, entries, now, seed) in DefaultPrompts
  {
  }
}
