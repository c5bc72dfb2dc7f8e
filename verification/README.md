# moodly analytics, modelled in Dafny

This project models moodly's analytics layer, the part of the app that turns a list of mood check-ins into statistics, observations, alerts and prompts:

- **Correlation calculator.** For every tracked activity it computes the mean mood with and without that activity, the share of good days (mood 4 or more) and the number of observations. A store object is refreshed wholesale with these rows.
- **Pattern detector.** It reports up to three observations, in a fixed order:
  - the first run of three check-ins in the same mood category;
  - a weekday whose mean mood stands apart;
  - a link between short sleep and low mood.
- **Suggestion engine.** It ranks the qualifying correlations and holds back activities done in the last week unless they work very well. It returns at most three suggestions, and three generic fallbacks when there is nothing to rank.
- **Trigger manager.** It checks four proactive alert rules, each with its own cool-down, and returns the one alert of highest priority. `logTrigger` appends to the trigger log.
- **Prompt generator.** It chooses the journal prompt by a first-match chain of rules: mood drop, mood rise, a mood that has held, a recognised activity, and otherwise a default.
- **Helpers** on check-in lists and mood values: the last-N-days filter, the average mood, the current day streak, the emoji and label tables, and activity display names.
- **`Color(hex:)`.** It turns "RRGGBB" or "AARRGGBB" text into four 8-bit channels.

## Conventions

- **Time.**
  - A date is an integer count of seconds in UTC (`Models.Timestamp`).
  - A day is 86400 seconds.
  - Every operation that reads the clock takes `now` as a parameter instead.
  - The weekday is derived from the timestamp (1 is Sunday), and the hour for `isFeasible` is a supplied integer.
- **Numbers.** `Double` quantities (means, rates, sleep hours) are `real`.
- **Randomness.** `randomElement()` picks element `seed % |list|` for a supplied `seed`. Only membership in the list is claimed.
- **Sorting.** `sorted(by:)` is a stable insertion sort under the non-strict form of the comparator, so ties keep their input order.
- **Weekday grouping.** `detectDayOfWeekPatterns` iterates a dictionary. The model visits weekdays 1 to 7 in order; only the weekday reported on an exact tie depends on this.
- **Where the code decides.**
  - `detectDayOfWeekPatterns` reports the weekday whose mean lies *closest* to the overall mean, because it uses `min(by:)`. Its comment speaks of the biggest deviation, and the model follows the code.
  - The overall mean is the mean of the per-weekday means over the weekdays that occur, not over seven buckets.
  - `generateSuggestions` ignores its `currentMood` argument, and so does the model.
- **Imperative parts.** The imperative parts of the code are methods with loops, proved equal to the functions that state what they compute:
  - `calculateAllCorrelations`, `detectStreaks`, the grouping and averaging loops of `detectDayOfWeekPatterns`, and `detectPatterns`;
  - the missed-activity loop and `checkAllTriggers`;
  - `currentStreak`.

  The correlation store and the trigger log are classes whose methods replace or extend a `seq`.

## Model

| member | source | states |
|---|---|---|
| Models.StartOfDay | MoodTrackerApp/Utilities/Extensions.swift:18-20 | the start of the day holding `t`: a whole day boundary at most one day before `t` |
| Models.WholeDaysBetween | MoodTrackerApp/Utilities/Extensions.swift:74 | the number of whole days from `from` to `to`, truncated toward zero, negative when `to` is earlier |
| Models.Weekday | MoodTrackerApp/Analytics/PatternDetector.swift:96 | the weekday component always lies in 1..7 |
| Models.WeekdaysInOrder | MoodTrackerApp/Analytics/PatternDetector.swift:96 | 1 January 1970 is a Thursday (5), and the next day's weekday follows, Saturday (7) wrapping to Sunday (1) |
| Models.NewestFirst | MoodTrackerApp/Utilities/Extensions.swift:64 | the entries reordered newest first: a permutation of the input ordered by non-increasing date |
| Models.NewestFirstMembers | MoodTrackerApp/Analytics/TriggerManager.swift:93 | reordering newest first neither adds nor drops an entry |
| Models.OldestFirst | MoodTrackerApp/Analytics/PatternDetector.swift:46 | the entries reordered oldest first: a permutation of the input ordered by non-decreasing date |
| Models.Moods | MoodTrackerApp/Utilities/Extensions.swift:59 | `map { $0.mood }`: same length, each element the mood of the entry at that index |
| Models.OptionToSeq | MoodTrackerApp/Analytics/PatternDetector.swift:27-29 | an `if let` result as a list of at most one element, empty exactly when nothing was found |
| Models.AppendIfFound | MoodTrackerApp/Analytics/PatternDetector.swift:27-29 | `if let x { list.append(x) }` extends the list by the found value and by nothing otherwise |
| Models.ActivityCorrelation.CorrelationStrength | MoodTrackerApp/Models/ActivityCorrelation.swift:47-49 | mean with = mean without + strength; positive exactly when the activity goes with better moods, zero exactly when it makes no difference |
| Extensions.Last | MoodTrackerApp/Utilities/Extensions.swift:51-54 | `last(days)` keeps exactly the entries dated on or after `now` minus `days` days |
| Extensions.LastKeepsMultiplicity | MoodTrackerApp/Utilities/Extensions.swift:51-54 | each kept entry keeps its multiplicity, and every other entry is dropped |
| Extensions.LastPreservesOrder | MoodTrackerApp/Utilities/Extensions.swift:53 | the filter distributes over concatenation, so kept entries stay in their original order |
| Extensions.LastOfRecentIsIdentity | MoodTrackerApp/Utilities/Extensions.swift:53 | a list already inside the window is returned unchanged |
| Extensions.AverageMood | MoodTrackerApp/Utilities/Extensions.swift:57-60 | 0 for an empty list, otherwise the arithmetic mean of the moods (mean times count equals their sum) |
| Extensions.AverageMoodOnScale | MoodTrackerApp/Utilities/Extensions.swift:57-60 | the average of moods on the 1..5 scale lies in [1, 5] |
| Extensions.CurrentStreak | MoodTrackerApp/Utilities/Extensions.swift:63-84 | 0 for no entries; otherwise 1 + the number of leading newest-first neighbours exactly one calendar day apart, stopped by the first gap that is not 1 |
| Extensions.MoodEmoji | MoodTrackerApp/Utilities/Extensions.swift:91-100 | moods 1..5 map to their face; any other value gets the face of 3 |
| Extensions.MoodLabel | MoodTrackerApp/Utilities/Extensions.swift:115-124 | moods 1..5 map to Terrible/Bad/Okay/Good/Great; "Unknown" exactly for values outside 1..5 |
| Extensions.MoodTablesInjective | MoodTrackerApp/Utilities/Extensions.swift:91-124 | distinct moods on the scale get distinct faces and distinct labels |
| Extensions.ActivityDisplayName | MoodTrackerApp/Utilities/Extensions.swift:131-133 | same length, no underscore left, each letter upper-case at a word start and lower-case elsewhere |
| Extensions.ActivityDisplayNameIdempotent | MoodTrackerApp/Utilities/Extensions.swift:131-133 | formatting a display name again leaves it unchanged |
| Text.ReplaceUnderscores | MoodTrackerApp/Analytics/SuggestionEngine.swift:119 | every '_' becomes ' ', every other character stays |
| Text.Capitalized | MoodTrackerApp/Analytics/SuggestionEngine.swift:120 | `.capitalized`: a letter after a non-letter (or at the start) is upper-cased, every other letter lower-cased |
| Text.Lowercased | MoodTrackerApp/Utilities/PromptGenerator.swift:124 | `.lowercased()`: every character lower-cased, length kept |
| CorrelationCalculator.CalculateCorrelation | MoodTrackerApp/Analytics/CorrelationCalculator.swift:33-58 | no row exactly when the activity has fewer than 3 observations; otherwise the row's count, the mean moods of the with/without partitions (0 when nobody skipped it) and the good-mood share of the "with" side |
| CorrelationCalculator.CalculateAllCorrelations | MoodTrackerApp/Analytics/CorrelationCalculator.swift:16-30 | fewer than 10 entries give no rows; otherwise the loop yields the rows of the tracked activities that have a correlation, in tracked order |
| CorrelationCalculator.TooFewEntriesGiveNoRows | MoodTrackerApp/Analytics/CorrelationCalculator.swift:17-19 | fewer than 10 entries give an empty result whatever their content |
| CorrelationCalculator.RowIdsFollowTracked | MoodTrackerApp/Analytics/CorrelationCalculator.swift:23-27 | the row ids form a subsequence of the tracked ids (order kept, at most one row per tracked id) |
| CorrelationCalculator.RowsAreCorrelations | MoodTrackerApp/Analytics/CorrelationCalculator.swift:23-27 | every row belongs to a tracked id, is that id's correlation and has at least 3 observations |
| CorrelationCalculator.RowsCoverObservedActivities | MoodTrackerApp/Analytics/CorrelationCalculator.swift:23-41 | a tracked id has a row exactly when at least 3 entries include it |
| CorrelationCalculator.WithAndWithoutPartition | MoodTrackerApp/Analytics/CorrelationCalculator.swift:35-36 | the "with" and "without" lists are disjoint, together a permutation of the entries, and their sizes add up to the entry count |
| CorrelationCalculator.RowBounds | MoodTrackerApp/Analytics/CorrelationCalculator.swift:44-56 | for moods on 1..5: mean with in [1, 5], mean without 0 or in [1, 5], success rate in [0, 1], observations = entries containing the id ≥ 3, strength = with − without, within [−4, 5] |
| CorrelationCalculator.CollectFollowsKeys | MoodTrackerApp/Analytics/CorrelationCalculator.swift:23-27 | the append-if-found loop over any key list keeps key order |
| CorrelationCalculator.CollectMembers | MoodTrackerApp/Analytics/CorrelationCalculator.swift:23-27 | every collected row comes from its own key |
| CorrelationCalculator.CollectCovers | MoodTrackerApp/Analytics/CorrelationCalculator.swift:23-27 | a key is represented exactly when it produced a row |
| CorrelationCalculator.CorrelationStore.constructor | MoodTrackerApp/Analytics/CorrelationCalculator.swift:61-63 | a fresh store holds no rows |
| CorrelationCalculator.CorrelationStore.UpdateCorrelations | MoodTrackerApp/Analytics/CorrelationCalculator.swift:61-74 | afterwards the store holds exactly the freshly calculated rows and none of the old ones |
| PatternDetector.MoodCategoryOf | MoodTrackerApp/Analytics/PatternDetector.swift:150-157 | 1–2 low, 4–5 high, every other value (3 included) neutral |
| PatternDetector.CategoryNamesDistinct | MoodTrackerApp/Analytics/PatternDetector.swift:150-157 | the three category names differ |
| PatternDetector.DayName | MoodTrackerApp/Analytics/PatternDetector.swift:159-162 | the name at the weekday's index, non-empty for 1..7 |
| PatternDetector.Categories | MoodTrackerApp/Analytics/PatternDetector.swift:56-57 | the category of every entry, index by index |
| PatternDetector.FirstTripleFrom | MoodTrackerApp/Analytics/PatternDetector.swift:52-82 | a found index ends three equal categories |
| PatternDetector.FirstTripleIsFirst | MoodTrackerApp/Analytics/PatternDetector.swift:52-82 | no earlier index ends such a triple, and when none is found none exists |
| PatternDetector.DetectStreaks | MoodTrackerApp/Analytics/PatternDetector.swift:45-85 | the early-exit loop returns the streak pattern of the entries in date order |
| PatternDetector.StreakIsFirstTriple | MoodTrackerApp/Analytics/PatternDetector.swift:46-84 | no streak exactly when no three consecutive check-ins (oldest first) share a category; otherwise the first such run, reported with length 3 and confidence 3/7 |
| PatternDetector.MoodsOnWeekday | MoodTrackerApp/Analytics/PatternDetector.swift:95-98 | one weekday's bucket holds at most as many moods as there are entries |
| PatternDetector.MoodsOnWeekdayIsFilter | MoodTrackerApp/Analytics/PatternDetector.swift:95-98 | a weekday's bucket is the moods of the entries on that weekday, in entry order |
| PatternDetector.SingleOnWeekday | MoodTrackerApp/Analytics/PatternDetector.swift:96-97 | one entry lands in its own weekday's bucket and no other |
| PatternDetector.MoodsOnWeekdayPresent | MoodTrackerApp/Analytics/PatternDetector.swift:95-98 | a bucket exists exactly when some entry falls on that weekday |
| PatternDetector.GroupByWeekday | MoodTrackerApp/Analytics/PatternDetector.swift:91-98 | the grouping loop builds a dictionary keyed by exactly the weekdays that occur, each holding that weekday's moods |
| PatternDetector.DayAverages | MoodTrackerApp/Analytics/PatternDetector.swift:101-105 | no more averages than weekdays below the bound, each for a weekday in that range |
| PatternDetector.DayAveragesSound | MoodTrackerApp/Analytics/PatternDetector.swift:101-105 | each weekday appears at most once, in increasing order, and only if it has entries, carrying the mean of that weekday's moods |
| PatternDetector.DayAveragesCover | MoodTrackerApp/Analytics/PatternDetector.swift:101-105 | every occupied weekday contributes its mean mood |
| PatternDetector.DayAveragesNonEmpty | MoodTrackerApp/Analytics/PatternDetector.swift:101-108 | some check-in gives at least one weekday average, so the overall mean is defined |
| PatternDetector.Averages | MoodTrackerApp/Analytics/PatternDetector.swift:108 | the per-weekday means, index by index |
| PatternDetector.ClosestToOverall | MoodTrackerApp/Analytics/PatternDetector.swift:111 | `min(by:)`: a weekday of least deviation from the overall mean, the first one on ties |
| PatternDetector.DetectDayOfWeekPatterns | MoodTrackerApp/Analytics/PatternDetector.swift:88-122 | the grouping and averaging loops produce the weekday pattern |
| PatternDetector.WeekdayPatternFiresIffAllDeviate | MoodTrackerApp/Analytics/PatternDetector.swift:108-119 | it fires exactly when every weekday mean is at least 1.0 from the overall mean, and then it names a weekday of least deviation |
| PatternDetector.WeekdayPatternShape | MoodTrackerApp/Analytics/PatternDetector.swift:114-118 | a reported weekday pattern has type dayOfWeek and confidence min(d/2, 1), where d is the least deviation of a weekday mean from the overall mean, hence in [0.5, 1] |
| PatternDetector.DayOfWeekNeedsTwoWeeks | MoodTrackerApp/Analytics/PatternDetector.swift:89 | fewer than 14 entries give no weekday pattern |
| PatternDetector.DetectSleepCorrelation | MoodTrackerApp/Analytics/PatternDetector.swift:125-146 | a reported sleep pattern needs 10 entries with sleep data and both groups non-empty, carries the two group means, which differ by at least 0.8, and has confidence min((good − low)/2, 1) |
| PatternDetector.SleepGroups | MoodTrackerApp/Analytics/PatternDetector.swift:129-130 | short sleep is < 6.0 h, good sleep is ≥ 7.5 h, no entry is in both, and 6.0–7.5 h is in neither |
| PatternDetector.SleepFiresIff | MoodTrackerApp/Analytics/PatternDetector.swift:126-137 | the sleep pattern fires exactly when all four conditions hold |
| PatternDetector.DetectPatterns | MoodTrackerApp/Analytics/PatternDetector.swift:23-42 | the appending method returns the detectors' results in order |
| PatternDetector.StreakPatternShape | MoodTrackerApp/Analytics/PatternDetector.swift:76-80 | a streak pattern has confidence exactly 3/7 |
| PatternDetector.DayOfWeekPatternShape | MoodTrackerApp/Analytics/PatternDetector.swift:114-118 | a weekday pattern has confidence in [0.5, 1] |
| PatternDetector.SleepPatternShape | MoodTrackerApp/Analytics/PatternDetector.swift:138-142 | a sleep pattern has confidence min((good mean − short mean)/2, 1), which lies in [0.4, 1] |
| PatternDetector.AssembleShape | MoodTrackerApp/Analytics/PatternDetector.swift:24-41 | appending the three optional results keeps their order, at most one of each |
| PatternDetector.AllPatternsShape | MoodTrackerApp/Analytics/PatternDetector.swift:23-42 | at most 3 patterns, in the order streak, weekday, sleep, each at most once, every confidence in [0.4, 1], never an activity-gap pattern |
| SuggestionEngine.FormatActivityName | MoodTrackerApp/Analytics/SuggestionEngine.swift:117-121 | same length as the id, with no underscore left |
| SuggestionEngine.FormatAgreesWithDisplayName | MoodTrackerApp/Analytics/SuggestionEngine.swift:117-121 | the engine's formatting equals `activityDisplayName` on every identifier |
| SuggestionEngine.FallbackSuggestions | MoodTrackerApp/Analytics/SuggestionEngine.swift:80-96 | exactly walk, social, breathing, each with rate 0.75, 0 observations and reason "Research-backed" |
| SuggestionEngine.RanksBeforeIsTotalPreorder | MoodTrackerApp/Analytics/SuggestionEngine.swift:49-54 | the ranking comparator is a total preorder, so the sort is well defined |
| SuggestionEngine.RecentActivities | MoodTrackerApp/Analytics/SuggestionEngine.swift:57-60 | exactly the activities of entries dated within the last 7 days |
| SuggestionEngine.Ranked | MoodTrackerApp/Analytics/SuggestionEngine.swift:43-54 | a permutation of the correlations meeting both minimums, best first |
| SuggestionEngine.Candidates | MoodTrackerApp/Analytics/SuggestionEngine.swift:43-65 | best first, holding exactly the qualifying correlations that were not done recently or have a rate ≥ 0.85, each as often as in the input |
| SuggestionEngine.Top | MoodTrackerApp/Analytics/SuggestionEngine.swift:68 | `prefix(3)`: the first min(3, n) candidates |
| SuggestionEngine.ToSuggestions | MoodTrackerApp/Analytics/SuggestionEngine.swift:68-76 | one suggestion per candidate, in order |
| SuggestionEngine.SuggestionsFromCorrelations | MoodTrackerApp/Analytics/SuggestionEngine.swift:38-77 | at most three suggestions |
| SuggestionEngine.GenerateSuggestions | MoodTrackerApp/Analytics/SuggestionEngine.swift:23-35 | the fallbacks exactly when there are no correlations, otherwise the ranked suggestions |
| SuggestionEngine.SuggestionsComeFromQualifyingCorrelations | MoodTrackerApp/Analytics/SuggestionEngine.swift:43-68 | with correlations present: at most 3 suggestions, each from a correlation with rate ≥ 0.6 and ≥ 3 observations that survives the recency filter |
| SuggestionEngine.SuggestionsAreRanked | MoodTrackerApp/Analytics/SuggestionEngine.swift:49-54 | suggestions come by rate descending, ties by observations descending |
| SuggestionEngine.NoQualifyingCandidateSkipped | MoodTrackerApp/Analytics/SuggestionEngine.swift:63-68 | every surviving candidate is suggested, unless three suggestions that rank at least as high fill the list |
| SuggestionEngine.AllFilteredGivesNothing | MoodTrackerApp/Analytics/SuggestionEngine.swift:29-31 | correlations that all fail the filters give an empty list, not the fallbacks |
| SuggestionEngine.IsFeasible | MoodTrackerApp/Analytics/SuggestionEngine.swift:99-113 | exercise is feasible exactly before 22:00, caffeine exactly before 16:00, anything else always |
| TriggerManager.RawValuesDistinct | MoodTrackerApp/Analytics/TriggerManager.swift:14-19 | the four trigger types have distinct raw values, so cool-downs never mix |
| TriggerManager.HasFiredRecently | MoodTrackerApp/Analytics/TriggerManager.swift:175-181 | true exactly when a logged trigger has the type's raw value and fired on or after `now` minus `days` days |
| TriggerManager.ThresholdDays | MoodTrackerApp/Analytics/TriggerManager.swift:183-189 | 3 exactly for exercise, 5 exactly for social_time/friends/family, 4 otherwise |
| TriggerManager.TruncateToInt | MoodTrackerApp/Analytics/TriggerManager.swift:79 | `Int(x)` truncates toward zero |
| TriggerManager.LastDone | MoodTrackerApp/Analytics/TriggerManager.swift:62-66 | none exactly when no entry has the activity; otherwise the latest date among the entries that have it |
| TriggerManager.NewestFirstHead | MoodTrackerApp/Analytics/TriggerManager.swift:64-66 | the head of the newest-first order is an entry with the latest date |
| TriggerManager.LastEntryDate | MoodTrackerApp/Analytics/TriggerManager.swift:62-66 | filtering, sorting and taking `first` gives the latest date the activity was done |
| TriggerManager.LatestOfMatching | MoodTrackerApp/Analytics/TriggerManager.swift:62-66 | the head of any sorted list of the matching entries carries that latest date |
| TriggerManager.MissedHelpfulTrigger | MoodTrackerApp/Analytics/TriggerManager.swift:52-89 | a missed-activity alert has priority 2 and never fires within 7 days of the last one |
| TriggerManager.MissedHelpfulPicksFirstOverdue | MoodTrackerApp/Analytics/TriggerManager.swift:58-85 | outside the cool-down, the first overdue helpful activity in list order is the one reported |
| TriggerManager.MissedHelpfulFiresIff | MoodTrackerApp/Analytics/TriggerManager.swift:58-88 | it fires exactly when outside the cool-down some correlation with rate > 0.7 is overdue (done before, and at least its threshold of days ago) |
| TriggerManager.MissedTriggerMessage | MoodTrackerApp/Analytics/TriggerManager.swift:68-84 | the message names the activity, the whole days since it was last done (at least its threshold), and the success rate times 100 truncated to an integer (at least 70) |
| TriggerManager.CheckMissedHelpfulActivity | MoodTrackerApp/Analytics/TriggerManager.swift:52-89 | the loop with `continue` and early return computes the missed-activity rule |
| TriggerManager.LowMoodStreakTrigger | MoodTrackerApp/Analytics/TriggerManager.swift:92-113 | fires exactly with ≥ 3 entries whose 3 newest moods are all ≤ 2, outside the 7-day cool-down; priority 3 and the fixed text |
| TriggerManager.PositiveStreakTrigger | MoodTrackerApp/Analytics/TriggerManager.swift:142-161 | fires exactly with ≥ 5 entries whose 5 newest moods are all ≥ 4, outside the 14-day cool-down; priority 1 and the fixed text |
| TriggerManager.LowAndPositiveStreaksExclusive | MoodTrackerApp/Analytics/TriggerManager.swift:92-161 | the low-mood and positive streak alerts never both fire |
| TriggerManager.SleepHours | MoodTrackerApp/Analytics/TriggerManager.swift:124 | `compactMap { $0.sleepHours }`: the recorded hours, all of them when every entry has sleep data |
| TriggerManager.SleepEntriesNewestFirst | MoodTrackerApp/Analytics/TriggerManager.swift:117-119 | a permutation of the entries with sleep data (multiplicities kept), ordered newest first |
| TriggerManager.SleepWarningTrigger | MoodTrackerApp/Analytics/TriggerManager.swift:116-139 | fires exactly with ≥ 5 entries with sleep data, the 5 newest summing under 30 h, outside the 7-day cool-down; priority 2, carrying their mean, which is < 6.0 |
| TriggerManager.HighestPriority | MoodTrackerApp/Analytics/TriggerManager.swift:48 | at most one result, none only for no candidates, otherwise a candidate of maximum priority that no earlier candidate ties |
| TriggerManager.HighestIsStrictMaximum | MoodTrackerApp/Analytics/TriggerManager.swift:48 | a strictly highest candidate is the one returned |
| TriggerManager.HighestIsFirstOnTie | MoodTrackerApp/Analytics/TriggerManager.swift:48 | on a tie for the top priority the earliest candidate wins |
| TriggerManager.SelectByPriority | MoodTrackerApp/Analytics/TriggerManager.swift:28-48 | with the rules' priorities, low mood beats missed activity, which beats sleep, which beats positive streak |
| TriggerManager.CheckAllTriggers | MoodTrackerApp/Analytics/TriggerManager.swift:23-49 | the appending method returns the priority selection over the four rules |
| TriggerManager.AllTriggersSelection | MoodTrackerApp/Analytics/TriggerManager.swift:23-49 | at most one alert, present exactly when some rule fires, chosen in the order low mood, missed activity, sleep, positive streak |
| TriggerManager.TriggerLog.constructor | MoodTrackerApp/Analytics/TriggerManager.swift:164-171 | a fresh log is empty |
| TriggerManager.TriggerLog.LogTrigger | MoodTrackerApp/Analytics/TriggerManager.swift:164-171 | appends exactly one undismissed trigger carrying the pending type's raw value, the logging time and the message, and leaves earlier entries unchanged |
| TriggerManager.LoggingStartsCoolDown | MoodTrackerApp/Analytics/TriggerManager.swift:164-181 | once logged, the type counts as recently fired for any window reaching back to the logging time |
| TriggerManager.LoggingKeepsOtherCoolDowns | MoodTrackerApp/Analytics/TriggerManager.swift:164-181 | logging one type leaves every other type's cool-down as it was |
| TriggerManager.LoggedRuleStaysQuiet | MoodTrackerApp/Analytics/TriggerManager.swift:75-160 | a rule whose alert was logged stays silent for its whole cool-down |
| PromptGenerator.Pick | MoodTrackerApp/Utilities/PromptGenerator.swift:98-106 | `randomElement()` returns a member of the list |
| PromptGenerator.RecentAverage | MoodTrackerApp/Utilities/PromptGenerator.swift:114-121 | 3.0 when no entry is dated within 7 days, otherwise the mean mood of those entries |
| PromptGenerator.RecentAverageOnScale | MoodTrackerApp/Utilities/PromptGenerator.swift:114-121 | for moods on 1..5 the recent average lies in [1, 5] |
| PromptGenerator.FormatActivityName | MoodTrackerApp/Utilities/PromptGenerator.swift:123-125 | '_' becomes ' ' and every other character is lower-cased |
| PromptGenerator.FormatActivityNameIdempotent | MoodTrackerApp/Utilities/PromptGenerator.swift:123-125 | formatting twice changes nothing more |
| PromptGenerator.PromptMoodLabel | MoodTrackerApp/Utilities/PromptGenerator.swift:127-136 | moods 1..5 map to terrible/down/okay/good/great; "neutral" exactly for values outside 1..5; never empty |
| PromptGenerator.PromptMoodLabelInjective | MoodTrackerApp/Utilities/PromptGenerator.swift:127-136 | distinct moods on the scale get distinct words |
| PromptGenerator.MoodDropPrompt | MoodTrackerApp/Utilities/PromptGenerator.swift:39-56 | fires exactly when the mood is more than 1 below the recent average; work beats social beats the generic text |
| PromptGenerator.LoggedActivities | MoodTrackerApp/Utilities/PromptGenerator.swift:64 | exactly the activities of any given entry, whatever its date |
| PromptGenerator.FirstNewActivity | MoodTrackerApp/Utilities/PromptGenerator.swift:65-67 | the first selected activity never logged before, none exactly when all were logged |
| PromptGenerator.MoodImprovementPrompt | MoodTrackerApp/Utilities/PromptGenerator.swift:59-75 | fires exactly when the mood is more than 1 above the recent average; names the first new activity, else the brighter text |
| PromptGenerator.DropAndImprovementExclusive | MoodTrackerApp/Utilities/PromptGenerator.swift:42-62 | the drop and improvement rules never both apply |
| PromptGenerator.ContinuationPrompt | MoodTrackerApp/Utilities/PromptGenerator.swift:78-92 | fires exactly with ≥ 3 entries whose 3 newest moods are within 1 of the current mood, with the mood's word in the text |
| PromptGenerator.ActivityPrompt | MoodTrackerApp/Utilities/PromptGenerator.swift:95-110 | fires exactly for exercise, work or social activities, in that precedence, with a prompt from the matching template list |
| PromptGenerator.DropPromptComesFirst | MoodTrackerApp/Utilities/PromptGenerator.swift:12-15 | a drop prompt wins over every later rule |
| PromptGenerator.ImprovementPromptComesSecond | MoodTrackerApp/Utilities/PromptGenerator.swift:17-20 | otherwise a rise above the average gets the improvement prompt |
| PromptGenerator.ContinuationPromptComesThird | MoodTrackerApp/Utilities/PromptGenerator.swift:22-25 | with neither, a held mood gets the continuation prompt |
| PromptGenerator.ActivityPromptComesFourth | MoodTrackerApp/Utilities/PromptGenerator.swift:27-30 | with none of those, a recognised activity gets one of its templates |
| PromptGenerator.GeneratePrompt | MoodTrackerApp/Utilities/PromptGenerator.swift:7-34 | the prompt is never empty; it comes from the first rule that applies (drop, rise, held mood, recognised activity), otherwise it is one of the defaults, as the four ordering lemmas and QuietDayGetsDefaultPrompt state |
| PromptGenerator.QuietDayGetsDefaultPrompt | MoodTrackerApp/Utilities/PromptGenerator.swift:32-33 | when no rule applies the prompt is one of the five defaults |
| HexColor.AlphanumericEnd | MoodTrackerApp/Views/MoodEntry/MoodPickerView.swift:74 | one past the last alphanumeric character, with none after it |
| HexColor.Trim | MoodTrackerApp/Views/MoodEntry/MoodPickerView.swift:74 | the trimmed text is empty or starts and ends with an alphanumeric character |
| HexColor.TrimRemovesOnlySeparators | MoodTrackerApp/Views/MoodEntry/MoodPickerView.swift:74 | the trimmed text is a slice of the input, and only non-alphanumerics lie outside it |
| HexColor.TrimIdempotent | MoodTrackerApp/Views/MoodEntry/MoodPickerView.swift:74 | trimming twice is trimming once |
| HexColor.TrimDropsLeadingSeparator | MoodTrackerApp/Views/MoodEntry/MoodPickerView.swift:74 | a leading separator does not change the trimmed text |
| HexColor.HashPrefixIgnored | MoodTrackerApp/Views/MoodEntry/MoodPickerView.swift:72-85 | "#RRGGBB" and "RRGGBB" give the same colour |
| HexColor.HexValue | MoodTrackerApp/Views/MoodEntry/MoodPickerView.swift:75-76 | a run of n hex digits is worth less than 16^n |
| HexColor.HexValueAppend | MoodTrackerApp/Views/MoodEntry/MoodPickerView.swift:75-76 | the value of a concatenation is the first part shifted by 4 bits per digit of the second, plus the second |
| HexColor.LeadingHexValue | MoodTrackerApp/Views/MoodEntry/MoodPickerView.swift:75-76 | the value of the leading digit run, which is the whole text's value when it is all hex digits |
| HexColor.ScanHex | MoodTrackerApp/Views/MoodEntry/MoodPickerView.swift:75-76 | `scanHexInt64`: skips a "0x"/"0X" marker, reads the leading digits, and agrees with the text's value when it is all hex digits |
| HexColor.Channels | MoodTrackerApp/Views/MoodEntry/MoodPickerView.swift:78-85 | lengths other than 6 and 8 give opaque black; length 6 is fully opaque |
| HexColor.ColorFromHex | MoodTrackerApp/Views/MoodEntry/MoodPickerView.swift:72-93 | every channel is a byte, whatever the input |
| HexColor.SixDigitValue | MoodTrackerApp/Views/MoodEntry/MoodPickerView.swift:79-80 | six digits are worth RR·2^16 + GG·2^8 + BB |
| HexColor.EightDigitValue | MoodTrackerApp/Views/MoodEntry/MoodPickerView.swift:81-82 | eight digits are worth AA·2^24 + RR·2^16 + GG·2^8 + BB |
| HexColor.SixDigitSplit | MoodTrackerApp/Views/MoodEntry/MoodPickerView.swift:79-80 | the shifts and masks recover the three bytes, with alpha 255 |
| HexColor.EightDigitSplit | MoodTrackerApp/Views/MoodEntry/MoodPickerView.swift:81-82 | the shifts and masks recover the four bytes |
| HexColor.SixDigitColor | MoodTrackerApp/Views/MoodEntry/MoodPickerView.swift:74-80 | six hex digits (after trimming) give alpha 255 and the channels RR, GG, BB |
| HexColor.EightDigitColor | MoodTrackerApp/Views/MoodEntry/MoodPickerView.swift:74-82 | eight hex digits give AA, RR, GG, BB |
| HexColor.OtherLengthIsBlack | MoodTrackerApp/Views/MoodEntry/MoodPickerView.swift:83-84 | any other trimmed length gives (255, 0, 0, 0) |

## Left out

- **Persistence.** SwiftData persistence is not part of this model:
  - the `ModelContext` insert, delete and save calls;
  - failures that `try?` swallows.

  The correlation store and the trigger log are plain sequences, and every save is taken to succeed.
- **Concurrency.** The `async` on `calculateAllCorrelations` and `updateCorrelations` is nominal: there is no concurrency to model.
- **Calendar and clock.**
  - Days are UTC days of 86400 seconds: there are no time zones and no daylight-saving changes, and `Calendar.date(byAdding:)` never fails. The `?? Date()` fallbacks are therefore unreachable.
  - The hour for `isFeasible` is supplied instead of read from the date.
  - `isToday`, `isInCurrentWeek`, `endOfDay` and `relativeFormatted` are not modelled; they only serve the views.
- **Message text.** `String(format: "%.1f")` in messages is not modelled:
  - pattern texts keep their interpolated numbers as unformatted values, and trigger messages keep theirs as a `Message` value;
  - `Suggestion.displayText` is not modelled.
- **Floating point.**
  - `Double` arithmetic is exact `real` arithmetic, with no rounding.
  - `Int(successRate * 100)` is a truncation of the exact product.
  - The SwiftUI `Color` built from channel/255 is not modelled; the model stops at the integer channels.
- **moodColor.** Its five hex literals and the `.gray` default are not modelled, because they only feed SwiftUI.
- **Randomness.** `randomElement()` is an element chosen by a supplied `seed`. Only membership in the template list is claimed.
- **Text.**
  - Letters, digits and case mapping are ASCII.
  - `CharacterSet.alphanumerics` and `.capitalized` also treat non-ASCII letters and digits as such; this model does not.
  - `count` is the number of `char`s, not of grapheme clusters.
- **Sort stability.** Swift's `sorted(by:)` is not documented as stable. The model sorts stably, so ties (equal success rate and observations, equal dates, equal trigger priority) keep their input order.
- **Hex scanning.** `Scanner` reads into a `UInt64`, and the model does not bound the scanned value.
  - This never matters for the colour: only trimmed lengths 6 and 8 use the value, and eight digits cannot overflow.
  - Leading whitespace, which `Scanner` would skip, cannot survive the trim.
- HexColor.Channels: for length 6 it does not itself bound the red channel, and for length 8 it does not bound alpha. `ColorFromHex` proves both bounds from the scanned value's range, and `SixDigitColor`/`EightDigitColor` give the exact channels.
- PatternDetector.MoodsOnWeekday: its own contract gives only the length bound. Its contents are stated by `MoodsOnWeekdayIsFilter` and `MoodsOnWeekdayPresent`.
- SuggestionEngine.SuggestionsFromCorrelations: its own contract gives only the size bound. What the suggestions are is stated by `SuggestionsComeFromQualifyingCorrelations`, `SuggestionsAreRanked` and `NoQualifyingCandidateSkipped`.
- TriggerManager.MissedHelpfulTrigger: its own contract gives only the cool-down and the priority. When it fires and which activity it names are stated by `MissedHelpfulFiresIff`, `MissedHelpfulPicksFirstOverdue` and `MissedTriggerMessage`.
- **Views and app wiring.** The SwiftUI views, app entry points, `NotificationManager` and `JSONLoader` are not part of this model.
