/**
 * The correlation engine: for every tracked activity, the mean mood on days
 * with and without it, the share of its days with a good mood (4 or 5), and how
 * often it was logged; plus the store whose whole content each recomputation
 * replaces.
 */
module CorrelationCalculator {
  import opened Models
  import opened Sequences

  /** Fewer entries than this yield no correlations at all. */
  const MinimumTotalEntries: int := 10

  /** An activity logged on fewer entries than this gets no row. */
  const MinimumActivityObservations: int := 3

  /** The entries whose activities include `activityId`, in order. */
  function EntriesWith(entries: seq<MoodEntry>, activityId: string): seq<MoodEntry>
  {
    Filter(entries, (e: MoodEntry) => activityId in e.activities)
  }

  /** The entries whose activities do not include `activityId`, in order. */
  function EntriesWithout(entries: seq<MoodEntry>, activityId: string): seq<MoodEntry>
  {
    Filter(entries, (e: MoodEntry) => activityId !in e.activities)
  }

  /** The entries with a good mood (4 or above), in order. */
  function GoodMoodEntries(entries: seq<MoodEntry>): seq<MoodEntry>
  {
    Filter(entries, (e: MoodEntry) => e.mood >= 4)
  }

  /**
   * `calculateCorrelation(for:in:)`: no row while the activity has fewer than
   * three observations; otherwise the row holds the mean mood of the entries
   * with the activity, the mean mood of the others (0 when there are none),
   * the share of good-mood entries among those with it, and their number.
   */
  function CalculateCorrelation(activityId: string, entries: seq<MoodEntry>, now: Timestamp): (r: Option<ActivityCorrelation>)
    ensures r.None? <==> |EntriesWith(entries, activityId)| < MinimumActivityObservations
    ensures r.Some? ==>
      var with := EntriesWith(entries, activityId);
      var without := EntriesWithout(entries, activityId);
      && r.value.activityId == activityId
      && r.value.timesObserved == |with|
      && r.value.avgMoodWith == Mean(Moods(with))
      && r.value.avgMoodWithout == (if |without| == 0 then 0.0 else Mean(Moods(without)))
      && r.value.successRate == Ratio(|GoodMoodEntries(with)|, |with|)
      && r.value.lastCalculated == now
  {
    var with := EntriesWith(entries, activityId);
    var without := EntriesWithout(entries, activityId);
    if |with| < MinimumActivityObservations then None
    else
      var avgMoodWith := Mean(Moods(with));
      var avgMoodWithout := if |without| == 0 then 0.0 else Mean(Moods(without));
      var successRate := Ratio(|GoodMoodEntries(with)|, |with|);
      Some(ActivityCorrelation(activityId, avgMoodWith, avgMoodWithout, successRate, |with|, now))
  }

  /** The present results of `f` over `keys`, in the order of `keys`. */
  function Collect(keys: seq<string>, f: string -> Option<ActivityCorrelation>): seq<ActivityCorrelation>
  {
    if |keys| == 0 then []
    else
      var row := f(keys[|keys| - 1]);
      Collect(keys[..|keys| - 1], f) + (if row.Some? then [row.value] else [])
  }

  /** The rows for `tracked`, in the order of `tracked`, skipping activities without enough observations. */
  function RowsFor(tracked: seq<string>, entries: seq<MoodEntry>, now: Timestamp): seq<ActivityCorrelation>
  {
    Collect(tracked, id => CalculateCorrelation(id, entries, now))
  }

  /** What `calculateAllCorrelations` returns. */
  function AllCorrelations(entries: seq<MoodEntry>, tracked: seq<string>, now: Timestamp): seq<ActivityCorrelation>
  {
    if |entries| < MinimumTotalEntries then [] else RowsFor(tracked, entries, now)
  }

  /** `calculateAllCorrelations(entries:trackedActivities:)`: the rows gathered activity by activity. */
  method CalculateAllCorrelations(entries: seq<MoodEntry>, tracked: seq<string>, now: Timestamp)
    returns (correlations: seq<ActivityCorrelation>)
    ensures |entries| < MinimumTotalEntries ==> correlations == []
    ensures correlations == AllCorrelations(entries, tracked, now)
  {
    if |entries| < MinimumTotalEntries {
      return [];
    }
    correlations := [];
    for i := 0 to |tracked|
      invariant correlations == RowsFor(tracked[..i], entries, now)
    {
      assert tracked[..i + 1][..i] == tracked[..i];
      var row := CalculateCorrelation(tracked[i], entries, now);
      if row.Some? {
        correlations := correlations + [row.value];
      }
    }
    assert tracked[..|tracked|] == tracked;
  }

  /** `a` can be obtained from `b` by deleting elements. */
  predicate IsSubsequence(a: seq<string>, b: seq<string>)
  {
    if |a| == 0 then true
    else if |b| == 0 then false
    else if a[|a| - 1] == b[|b| - 1] then IsSubsequence(a[..|a| - 1], b[..|b| - 1])
    else IsSubsequence(a, b[..|b| - 1])
  }

  function ActivityIds(rows: seq<ActivityCorrelation>): (ids: seq<string>)
    ensures |ids| == |rows|
    ensures forall i :: 0 <= i < |rows| ==> ids[i] == rows[i].activityId
  {
    seq(|rows|, i requires 0 <= i < |rows| => rows[i].activityId)
  }

  /** Appending to the longer sequence keeps a subsequence a subsequence. */
  lemma {:induction false} SubsequenceExtend(a: seq<string>, b: seq<string>, x: string)
    requires IsSubsequence(a, b)
    ensures IsSubsequence(a, b + [x])
    decreases |a| + |b|, 1
  {
    if |a| > 0 {
      var b' := b + [x];
      assert b'[..|b'| - 1] == b;
      if a[|a| - 1] == x {
        SubsequenceDropLast(a, b);
      }
    }
  }

  /** Dropping the last element of a subsequence keeps it a subsequence. */
  lemma {:induction false} SubsequenceDropLast(a: seq<string>, b: seq<string>)
    requires |a| > 0 && IsSubsequence(a, b)
    ensures IsSubsequence(a[..|a| - 1], b)
    decreases |a| + |b|, 0
  {
    var a' := a[..|a| - 1];
    var b' := b[..|b| - 1];
    assert b' + [b[|b| - 1]] == b;
    if a[|a| - 1] == b[|b| - 1] {
      SubsequenceExtend(a', b', b[|b| - 1]);
    } else {
      SubsequenceDropLast(a, b');
      SubsequenceExtend(a', b', b[|b| - 1]);
    }
  }

  /** `f` answers every activity with a row for that same activity, or with none. */
  ghost predicate KeepsActivity(f: string -> Option<ActivityCorrelation>)
  {
    forall id :: f(id).Some? ==> f(id).value.activityId == id
  }

  /** The collected rows follow the order of `keys`. */
  lemma {:induction false} CollectFollowsKeys(keys: seq<string>, f: string -> Option<ActivityCorrelation>)
    requires KeepsActivity(f)
    ensures IsSubsequence(ActivityIds(Collect(keys, f)), keys)
  {
    if |keys| > 0 {
      var init := keys[..|keys| - 1];
      var last := keys[|keys| - 1];
      CollectFollowsKeys(init, f);
      var prev := ActivityIds(Collect(init, f));
      var ids := ActivityIds(Collect(keys, f));
      if f(last).Some? {
        assert ids == prev + [last];
        assert ids[..|ids| - 1] == prev;
      } else {
        assert ids == prev;
        SubsequenceExtend(prev, init, last);
        assert init + [last] == keys;
      }
    }
  }

  /** Every collected row is the answer of `f` for a key. */
  lemma {:induction false} CollectMembers(keys: seq<string>, f: string -> Option<ActivityCorrelation>)
    requires KeepsActivity(f)
    ensures forall row :: row in Collect(keys, f) ==> row.activityId in keys && f(row.activityId) == Some(row)
  {
    if |keys| > 0 {
      var init := keys[..|keys| - 1];
      CollectMembers(init, f);
      assert forall id :: id in init ==> id in keys;
    }
  }

  /** A key has a collected row exactly when `f` answers it with one. */
  lemma {:induction false} CollectCovers(keys: seq<string>, f: string -> Option<ActivityCorrelation>)
    requires KeepsActivity(f)
    ensures forall id :: id in keys ==> (id in ActivityIds(Collect(keys, f)) <==> f(id).Some?)
  {
    if |keys| > 0 {
      var init := keys[..|keys| - 1];
      var last := keys[|keys| - 1];
      CollectCovers(init, f);
      CollectMembers(keys, f);
      var rows := Collect(keys, f);
      var initRows := Collect(init, f);
      assert rows[..|initRows|] == initRows;
      forall id | id in keys
        ensures id in ActivityIds(rows) <==> f(id).Some?
      {
        if id in ActivityIds(rows) {
          var k :| 0 <= k < |rows| && ActivityIds(rows)[k] == id;
          assert rows[k] in rows;
        }
        if f(id).Some? {
          if id == last {
            assert ActivityIds(rows)[|rows| - 1] == id;
          } else {
            assert keys == init + [last];
            assert id in init;
            var k :| 0 <= k < |initRows| && ActivityIds(initRows)[k] == id;
            assert ActivityIds(rows)[k] == id;
          }
        }
      }
    }
  }

  /** The rows follow the order of the tracked list, at most one per occurrence of an activity in it. */
  lemma RowIdsFollowTracked(tracked: seq<string>, entries: seq<MoodEntry>, now: Timestamp)
    ensures IsSubsequence(ActivityIds(RowsFor(tracked, entries, now)), tracked)
  {
    CollectFollowsKeys(tracked, id => CalculateCorrelation(id, entries, now));
  }

  /** Every row is the correlation of its own activity, with at least three observations. */
  lemma RowsAreCorrelations(tracked: seq<string>, entries: seq<MoodEntry>, now: Timestamp)
    ensures forall row :: row in RowsFor(tracked, entries, now) ==>
      && row.activityId in tracked
      && CalculateCorrelation(row.activityId, entries, now) == Some(row)
      && row.timesObserved >= MinimumActivityObservations
  {
    CollectMembers(tracked, id => CalculateCorrelation(id, entries, now));
  }

  /** A tracked activity gets a row exactly when it was observed at least three times. */
  lemma RowsCoverObservedActivities(tracked: seq<string>, entries: seq<MoodEntry>, now: Timestamp)
    ensures forall id :: id in tracked ==>
      (id in ActivityIds(RowsFor(tracked, entries, now)) <==> |EntriesWith(entries, id)| >= MinimumActivityObservations)
  {
    CollectCovers(tracked, id => CalculateCorrelation(id, entries, now));
  }

  /** With fewer than ten entries there are no rows, whatever the entries hold. */
  lemma TooFewEntriesGiveNoRows(entries: seq<MoodEntry>, tracked: seq<string>, now: Timestamp)
    requires |entries| < MinimumTotalEntries
    ensures AllCorrelations(entries, tracked, now) == []
  {
  }

  /** "With" and "without" split the entries: disjoint, and together all of them. */
  lemma WithAndWithoutPartition(entries: seq<MoodEntry>, activityId: string)
    ensures multiset(EntriesWith(entries, activityId)) + multiset(EntriesWithout(entries, activityId)) == multiset(entries)
    ensures |EntriesWith(entries, activityId)| + |EntriesWithout(entries, activityId)| == |entries|
    ensures forall e :: !(e in EntriesWith(entries, activityId) && e in EntriesWithout(entries, activityId))
  {
    FilterPartition(entries, (e: MoodEntry) => activityId in e.activities, (e: MoodEntry) => activityId !in e.activities);
  }

  /**
   * On the 1-5 mood scale a row's averages lie on the scale (the "without"
   * average may be the sentinel 0), its success rate lies in [0, 1], its
   * observation count is the number of entries that include the activity,
   * and its strength lies in [-4, 5].
   */
  lemma RowBounds(activityId: string, entries: seq<MoodEntry>, now: Timestamp)
    requires AllMoodsIn(entries, 1, 5)
    requires CalculateCorrelation(activityId, entries, now).Some?
    ensures var row := CalculateCorrelation(activityId, entries, now).value;
      && 1.0 <= row.avgMoodWith <= 5.0
      && (row.avgMoodWithout == 0.0 || 1.0 <= row.avgMoodWithout <= 5.0)
      && 0.0 <= row.successRate <= 1.0
      && row.timesObserved == |EntriesWith(entries, activityId)| >= MinimumActivityObservations
      && row.CorrelationStrength() == row.avgMoodWith - row.avgMoodWithout
      && -4.0 <= row.CorrelationStrength() <= 5.0
  {
    var with := EntriesWith(entries, activityId);
    var without := EntriesWithout(entries, activityId);
    assert forall i :: 0 <= i < |with| ==> with[i] in entries;
    assert forall i :: 0 <= i < |without| ==> without[i] in entries;
    MeanBounds(Moods(with), 1, 5);
    if |without| > 0 {
      MeanBounds(Moods(without), 1, 5);
    }
    QuotientBounds(|GoodMoodEntries(with)|, |with|, 0, 1);
  }

  /** The store of computed correlations (the SwiftData `ActivityCorrelation` table). */
  class CorrelationStore {
    var rows: seq<ActivityCorrelation>

    constructor ()
      ensures rows == []
    {
      rows := [];
    }

    /**
     * `updateCorrelations(for:trackedActivities:)`: deletes every stored row,
     * then inserts the freshly calculated ones.
     */
    method UpdateCorrelations(entries: seq<MoodEntry>, tracked: seq<string>, now: Timestamp)
      modifies this
      ensures rows == AllCorrelations(entries, tracked, now)
    {
      rows := [];
      var correlations := CalculateAllCorrelations(entries, tracked, now);
      for i := 0 to |correlations|
        invariant rows == correlations[..i]
      {
        rows := rows + [correlations[i]];
      }
      assert correlations[..|correlations|] == correlations;
    }
  }
}
