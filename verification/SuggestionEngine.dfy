/**
 * The suggestion engine: turns stored activity correlations into at most three
 * recommendations, best first, holding back activities done in the last week
 * unless they work very well; with no correlations at all it falls back on
 * three generic suggestions.
 */
module SuggestionEngine {
  import opened Models
  import opened Sequences
  import opened Sorting
  import opened Text
  import opened Extensions

  datatype Suggestion = Suggestion(
    activityId: string,
    activityName: string,
    successRate: real,
    timesObserved: int,
    reason: string)

  const MinimumSuccessRate: real := 0.6
  const MinimumObservations: int := 3
  /** A recently done activity is still suggested from this success rate on. */
  const RecentOverrideRate: real := 0.85
  const RecentWindowDays: int := 7
  const MaximumSuggestions: int := 3

  /** `formatActivityName`: underscores become spaces, then every word is capitalized. */
  function FormatActivityName(activityId: string): (name: string)
    ensures |name| == |activityId|
    ensures '_' !in name
  {
    Capitalized(ReplaceUnderscores(activityId))
  }

  /** The engine's formatting and the shared display-name helper agree on every identifier. */
  lemma FormatAgreesWithDisplayName(activityId: string)
    ensures FormatActivityName(activityId) == ActivityDisplayName(activityId)
  {
  }

  /** `fallbackSuggestions()`: three generic suggestions with an estimated 75% success rate. */
  function FallbackSuggestions(): (r: seq<Suggestion>)
    ensures |r| == 3
    ensures forall i :: 0 <= i < |r| ==>
      r[i].successRate == 0.75 && r[i].timesObserved == 0 && r[i].reason == "Research-backed"
    ensures r[0].activityId == "walk" && r[1].activityId == "social" && r[2].activityId == "breathing"
  {
    [ Suggestion("walk", "Take a 10-minute walk outside", 0.75, 0, "Research-backed"),
      Suggestion("social", "Call or text a friend", 0.75, 0, "Research-backed"),
      Suggestion("breathing", "Try 5 minutes of deep breathing", 0.75, 0, "Research-backed") ]
  }

  /** The minimum criteria: a 60% success rate over at least three observations. */
  predicate IsValid(c: ActivityCorrelation)
  {
    c.successRate >= MinimumSuccessRate && c.timesObserved >= MinimumObservations
  }

  /**
   * The non-strict form of the sort's comparator: `a` may precede `b` when its
   * success rate is higher, or equal with at least as many observations.
   */
  predicate RanksBefore(a: ActivityCorrelation, b: ActivityCorrelation)
  {
    a.successRate > b.successRate || (a.successRate == b.successRate && a.timesObserved >= b.timesObserved)
  }

  lemma RanksBeforeIsTotalPreorder()
    ensures IsTotalPreorder(RanksBefore)
  {
  }

  /** The activities of the entries dated within the last seven days. */
  function RecentActivities(entries: seq<MoodEntry>, now: Timestamp): (recent: set<string>)
    ensures forall a :: a in recent <==>
      exists e :: e in entries && e.date >= DaysBefore(now, RecentWindowDays) && a in e.activities
  {
    set e, a | e in Last(entries, RecentWindowDays, now) && a in e.activities :: a
  }

  /** A candidate survives the recency filter if it was not done recently or works very well. */
  predicate Survives(c: ActivityCorrelation, recent: set<string>)
  {
    c.activityId !in recent || c.successRate >= RecentOverrideRate
  }

  /** The valid correlations, best first. */
  function Ranked(correlations: seq<ActivityCorrelation>): (r: seq<ActivityCorrelation>)
    ensures multiset(r) == multiset(Filter(correlations, IsValid))
    ensures SortedBy(r, RanksBefore)
  {
    RanksBeforeIsTotalPreorder();
    InsertionSortSorted(Filter(correlations, IsValid), RanksBefore);
    InsertionSort(Filter(correlations, IsValid), RanksBefore)
  }

  /** The ranked candidates that survive the recency filter. */
  function Candidates(correlations: seq<ActivityCorrelation>, entries: seq<MoodEntry>, now: Timestamp): (r: seq<ActivityCorrelation>)
    ensures SortedBy(r, RanksBefore)
    ensures forall c :: c in r <==> c in correlations && IsValid(c) && Survives(c, RecentActivities(entries, now))
    ensures forall c :: multiset(r)[c] == (if IsValid(c) && Survives(c, RecentActivities(entries, now)) then multiset(correlations)[c] else 0)
  {
    var recent := RecentActivities(entries, now);
    var ranked := Ranked(correlations);
    FilterKeepsSorted(ranked, c => Survives(c, recent), RanksBefore);
    assert forall c :: c in ranked <==> c in multiset(ranked);
    FilterMultiset(correlations, IsValid);
    FilterMultiset(ranked, c => Survives(c, recent));
    Filter(ranked, c => Survives(c, recent))
  }

  function ToSuggestion(c: ActivityCorrelation): Suggestion
  {
    Suggestion(c.activityId, FormatActivityName(c.activityId), c.successRate, c.timesObserved, "Based on your history")
  }

  /** `prefix(3)`. */
  function Top(candidates: seq<ActivityCorrelation>): (top: seq<ActivityCorrelation>)
    ensures |top| == if |candidates| <= MaximumSuggestions then |candidates| else MaximumSuggestions
    ensures forall i :: 0 <= i < |top| ==> top[i] == candidates[i]
  {
    if |candidates| <= MaximumSuggestions then candidates else candidates[..MaximumSuggestions]
  }

  function ToSuggestions(top: seq<ActivityCorrelation>): (r: seq<Suggestion>)
    ensures |r| == |top|
    ensures forall i :: 0 <= i < |top| ==> r[i] == ToSuggestion(top[i])
  {
    seq(|top|, i requires 0 <= i < |top| => ToSuggestion(top[i]))
  }

  /** `suggestionsFromCorrelations`: the first three candidates, as suggestions. */
  function SuggestionsFromCorrelations(correlations: seq<ActivityCorrelation>, entries: seq<MoodEntry>, now: Timestamp): (r: seq<Suggestion>)
    ensures |r| <= MaximumSuggestions
  {
    ToSuggestions(Top(Candidates(correlations, entries, now)))
  }

  /**
   * `generateSuggestions(from:currentMood:recentEntries:)`: the fallback list
   * when there are no correlations at all, otherwise the ranked suggestions.
   * The current mood is accepted and not used.
   */
  function GenerateSuggestions(correlations: seq<ActivityCorrelation>, currentMood: int, entries: seq<MoodEntry>, now: Timestamp): (r: seq<Suggestion>)
    ensures |correlations| == 0 ==> r == FallbackSuggestions()
    ensures |correlations| > 0 ==> r == SuggestionsFromCorrelations(correlations, entries, now)
  {
    if |correlations| > 0 then SuggestionsFromCorrelations(correlations, entries, now) else FallbackSuggestions()
  }

  /**
   * With correlations present there are at most three suggestions, each made
   * from a correlation that meets the minimum criteria and survives the
   * recency filter.
   */
  lemma SuggestionsComeFromQualifyingCorrelations(correlations: seq<ActivityCorrelation>, currentMood: int, entries: seq<MoodEntry>, now: Timestamp)
    requires |correlations| > 0
    ensures var r := GenerateSuggestions(correlations, currentMood, entries, now);
      && |r| <= 3
      && forall i :: 0 <= i < |r| ==>
           exists c :: (c in correlations && r[i] == ToSuggestion(c)
             && c.successRate >= 0.6 && c.timesObserved >= 3
             && (c.activityId !in RecentActivities(entries, now) || c.successRate >= 0.85))
  {
    var candidates := Candidates(correlations, entries, now);
    var r := GenerateSuggestions(correlations, currentMood, entries, now);
    forall i | 0 <= i < |r|
      ensures exists c :: (c in correlations && r[i] == ToSuggestion(c)
        && c.successRate >= 0.6 && c.timesObserved >= 3
        && (c.activityId !in RecentActivities(entries, now) || c.successRate >= 0.85))
    {
      var c := candidates[i];
      assert r[i] == ToSuggestion(c);
      assert c in candidates;
      assert c in correlations && IsValid(c) && Survives(c, RecentActivities(entries, now));
    }
  }

  /** Suggestions come best first: higher success rate, then more observations. */
  lemma SuggestionsAreRanked(correlations: seq<ActivityCorrelation>, currentMood: int, entries: seq<MoodEntry>, now: Timestamp)
    requires |correlations| > 0
    ensures var r := GenerateSuggestions(correlations, currentMood, entries, now);
      forall i, j :: 0 <= i < j < |r| ==>
        r[i].successRate > r[j].successRate || (r[i].successRate == r[j].successRate && r[i].timesObserved >= r[j].timesObserved)
  {
    var candidates := Candidates(correlations, entries, now);
    var r := GenerateSuggestions(correlations, currentMood, entries, now);
    forall i, j | 0 <= i < j < |r|
      ensures r[i].successRate > r[j].successRate || (r[i].successRate == r[j].successRate && r[i].timesObserved >= r[j].timesObserved)
    {
      assert r[i] == ToSuggestion(candidates[i]) && r[j] == ToSuggestion(candidates[j]);
      assert RanksBefore(candidates[i], candidates[j]);
    }
  }

  /**
   * No qualifying candidate is skipped: each one is suggested, or three
   * suggestions that rank at least as high fill the list.
   */
  lemma NoQualifyingCandidateSkipped(correlations: seq<ActivityCorrelation>, currentMood: int, entries: seq<MoodEntry>, now: Timestamp, c: ActivityCorrelation)
    requires c in correlations && IsValid(c) && Survives(c, RecentActivities(entries, now))
    ensures var r := GenerateSuggestions(correlations, currentMood, entries, now);
      || (exists i :: 0 <= i < |r| && r[i] == ToSuggestion(c))
      || (|r| == 3 && forall i :: 0 <= i < |r| ==>
            r[i].successRate > c.successRate || (r[i].successRate == c.successRate && r[i].timesObserved >= c.timesObserved))
  {
    var candidates := Candidates(correlations, entries, now);
    var r := GenerateSuggestions(correlations, currentMood, entries, now);
    assert c in candidates;
    var k :| 0 <= k < |candidates| && candidates[k] == c;
    if k < MaximumSuggestions {
      assert r[k] == ToSuggestion(c);
    } else {
      forall i | 0 <= i < |r|
        ensures r[i].successRate > c.successRate || (r[i].successRate == c.successRate && r[i].timesObserved >= c.timesObserved)
      {
        assert r[i] == ToSuggestion(candidates[i]);
        assert RanksBefore(candidates[i], candidates[k]);
      }
    }
  }

  /** Correlations that all fail the filters give no suggestions, not the fallbacks. */
  lemma AllFilteredGivesNothing(correlations: seq<ActivityCorrelation>, currentMood: int, entries: seq<MoodEntry>, now: Timestamp)
    requires |correlations| > 0
    requires forall c :: c in correlations ==> !IsValid(c) || !Survives(c, RecentActivities(entries, now))
    ensures GenerateSuggestions(correlations, currentMood, entries, now) == []
  {
    NoMembersIsEmpty(Candidates(correlations, entries, now));
  }

  /** `isFeasible(activityId:at:)` for the hour of the day: no exercise from 22:00, no caffeine from 16:00. */
  function IsFeasible(activityId: string, hour: int): (feasible: bool)
    ensures activityId == "exercise" ==> (feasible <==> hour < 22)
    ensures activityId == "caffeine" ==> (feasible <==> hour < 16)
    ensures activityId != "exercise" && activityId != "caffeine" ==> feasible
  {
    if activityId == "exercise" && hour >= 22 then false
    else if activityId == "caffeine" && hour >= 16 then false
    else true
  }
}
