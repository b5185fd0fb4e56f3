# Match statistics engine of the club backend, in Dafny

This project models the computational core of a Laravel backend for a
basketball club. It covers the following parts.

- **Player aggregation** (`PlayerStatsService`). Per-game averages and
  shooting percentages over a player's stored per-match event logs. The
  per-match series of one named statistic. The four-quarter breakdown of one
  match.
- **Team aggregation** (`TeamStatsService`):
  - the season overview;
  - the points conceded in wins and in losses;
  - the team shooting splits;
  - the leaderboard of players by average points;
  - the per-quarter carry-forward walk over the raw match logs, and the
    cumulative "evolution" series built from it.
- **Recap import** (`MatchRecapImportService::execute`). One transaction
  writes the encounter's score, the raw recap keyed by encounter, and one
  player log per mapped player keyed by (encounter, user).
- **Recap endpoints** (`MatchRecapController`). `prepareRecap` reconciles
  the log's players with the team roster by licence number. `importRecap`
  runs the validate / 404 / 500 flow around the importer.
- **Secondary cores:**
  - the membership and coach guards of `TeamService`;
  - the "activating a season deactivates the others" rule of
    `SeasonService::updateSeason`, with the null filter of
    `UpdateSeasonDTO::toArray`;
  - the role decision table of `UserPolicy`, behind the admin gate
    registered in `AuthServiceProvider`.

The modelling choices are these.

- **Events and logs** are typed datatypes (`Events`). Each has a type,
  plus an optional period, points, value, success flag and player id. A key
  missing from the JSON is `None`. Where PHP reads a missing key as null,
  the model reads 0 or false, the value PHP computes with.
- **Rounding.** Every "rounded to one decimal" value is an integer number of
  tenths (66.7 is 667), computed exactly by `Rounding.RoundTenths`. This is
  PHP's `round($x, 1)` with halves away from zero.
- **Sorting.** PHP 8's `sortBy` and `usort` are stable sorts. They are
  modelled by one stable insertion sort on an integer key (`Sorting.SortBy`).
  A descending sort uses the negated key.
- **Collection filters.** Laravel's `where` compares loosely, so
  `where('is_victory', false)` also matches a null flag
  (`TeamStats.IsLossBucket`). `avg` skips nulls and is null when no value is
  left (`TeamStats.AvgTenths`).
- **Stateful code.**
  - The import store is a class with three maps (`RecapImport.StatsStore`).
  - A team is a class with a member set and a coach field
    (`TeamService.Team`).
  - The seasons table is a class with a map (`SeasonService.SeasonStore`).
- **Loops** in the source are methods with loop invariants. Each is proved
  equal to a fold function, and the properties are proved about that
  function.

## Model

| member | source | states |
|---|---|---|
| Rounding.RoundTenths | app/Domain/Statistics/Services/PlayerStatsService.php:207 | the result is the tenth nearest to num/den, with a tie going away from zero (both signs) |
| Rounding.RoundTenthsOfFraction | app/Domain/Statistics/Services/PlayerStatsService.php:219 | a ratio between 0 and 1 scaled by 100 rounds to a percentage between 0.0 and 100.0 |
| Common.FilterPartition | app/Domain/Statistics/Services/TeamStatsService.php:19-21 | a filter and its complement together hold every element once, so `losses = matchesPlayed - wins` counts the non-wins |
| Common.FilterKeeps | app/Http/Controllers/Api/MatchRecapController.php:56-63 | an element that satisfies the filter is kept |
| PlayerStats.AddShot | app/Domain/Statistics/Services/PlayerStatsService.php:170-196 | points 1 adds one to fta, 2 or 3 one to fga, and 3 one to 3pa; a successful shot also adds one to the matching ftm, fgm and 3pm; any other points value changes nothing; made ≤ attempted is kept |
| PlayerStats.ProcessShootEvent | app/Domain/Statistics/Services/PlayerStatsService.php:170-196 | a shot adds its points to the total exactly when it is made and worth 1, 2 or 3; its shot counters change as `AddShot` says; no other counter changes |
| PlayerStats.TallyEvent | app/Domain/Statistics/Services/PlayerStatsService.php:46-65 | a rebound, pass, steal, turnover or foul adds one to rebounds, assists, steals, turnovers or fouls respectively, and to nothing else; only a shoot event changes points and shot counters, and a shoot event is exactly `processShootEvent` |
| PlayerStats.TallyEvents | app/Domain/Statistics/Services/PlayerStatsService.php:45-66 | the walk over events keeps made ≤ attempted, 3pa ≤ fga and 3pm ≤ fgm, and never lowers a total |
| PlayerStats.TallyRecords | app/Domain/Statistics/Services/PlayerStatsService.php:41-67 | the totals over all records satisfy the shooting invariants; `TallyRecordsPointsAreTallied`, `TallyRecordsCountsAreSums` and `TallyRecordsShotsAreSums` state the points, the five counters and the six shot counters for all inputs |
| PlayerStats.CalculateAverage | app/Domain/Statistics/Services/PlayerStatsService.php:201-208 | 0 for a zero count, otherwise the nearest tenth to total/count |
| PlayerStats.CalculatePercentage | app/Domain/Statistics/Services/PlayerStatsService.php:213-220 | 0 when nothing was attempted; between 0.0 and 100.0 when made ≤ attempted; otherwise the nearest tenth to 100·made/attempted |
| Events.ParseType | app/Domain/Statistics/Services/PlayerStatsService.php:45-63 | reading an event's `type`: the eight known names select their type, any other string is kept as `Other` with that name, so a parsed type never has `Other` carrying a known name |
| Events.TypeName | app/Domain/Statistics/Services/PlayerStatsService.php:45-63 | writing a well-typed event type and parsing it back gives the same type, and the written name is a known name exactly when the type is not `Other` |
| Events.TypeNameOfParse | app/Domain/Statistics/Services/PlayerStatsService.php:45-63 | parsing any `type` string and writing the result back gives the string, so parsing loses nothing |
| PlayerStats.AverageStats | app/Domain/Statistics/Services/PlayerStatsService.php:14-81 | matchesPlayed is the number of records, including records without events; no records gives the all-zero result of `emptyStats` (lines 20-22, 225-228); percentages lie in 0.0..100.0; every field's value is stated for all inputs by `AverageStatsAreRoundedMeans` and `AveragePercentagesAreShotRatios` |
| PlayerStats.GetAverageStats | app/Domain/Statistics/Services/PlayerStatsService.php:14-81 | the nested loop over records and events computes exactly `AverageStats` |
| PlayerStats.AverageScenario | tests/Unit/PlayerStatsServiceTest.php:25-82 | 10 and 20 points and 5 and 1 rebounds over two matches give matchesPlayed 2, avgPoints 15.0 and avgRebounds 3.0 |
| PlayerStats.GetHistoricalStats | app/Domain/Statistics/Services/PlayerStatsService.php:86-114 | one entry per record, in non-decreasing match date, holding exactly the records' entries; an unknown statistic name yields 0 everywhere |
| PlayerStats.HistoryAgreesWithTally | app/Domain/Statistics/Services/PlayerStatsService.php:98-104 | when shots are worth 1, 2 or 3, each of a match's six series entries ("points" to "fouls") is what the averages' tally adds to the matching counter for that match |
| PlayerStats.TallyCountsAreHistoryCounts | app/Domain/Statistics/Services/PlayerStatsService.php:46-61 | for any events, the tally adds to rebounds, assists, steals, turnovers and fouls exactly the series' entries of those names; a pass counts as an assist |
| PlayerStats.TallyCountsAreCounts | app/Domain/Statistics/Services/PlayerStatsService.php:46-61 | the tally adds to each counter the number of events of its type |
| PlayerStats.TallyRecordsCountsAreSums | app/Domain/Statistics/Services/PlayerStatsService.php:41-61 | over all records, each counter (rebounds, assists, steals, turnovers, fouls) is the sum of the per-match counts of the series |
| PlayerStats.TallyRecordsPointsAreSums | app/Domain/Statistics/Services/PlayerStatsService.php:41-64 | when every shot is worth 1, 2 or 3, the points total over all records is the sum of the per-match points of the series |
| PlayerStats.AverageStatsAreRoundedMeans | app/Domain/Statistics/Services/PlayerStatsService.php:41-81 | for at least one record, each of avgRebounds to avgFouls is the per-match count summed over the records, divided by the record count and rounded to one decimal; avgPoints is the same over the points of the made shots worth 1, 2 or 3 (other values add nothing), and, when every shot is worth 1, 2 or 3, over the series' per-match points |
| PlayerStats.TallyShotsAreCounts | app/Domain/Statistics/Services/PlayerStatsService.php:170-196 | walking any events adds to fta/ftm the 1-point shoot events (made ones for ftm), to fga/fgm the 2- and 3-point ones, to 3pa/3pm the 3-point ones; shots with any other `points` value add nothing |
| PlayerStats.TallyRecordsShotsAreSums | app/Domain/Statistics/Services/PlayerStatsService.php:41-66 | over all records the six shooting counters equal the shoot events recounted class by class (`ShotCountsIn`) |
| PlayerStats.AveragePercentagesAreShotRatios | app/Domain/Statistics/Services/PlayerStatsService.php:78-80 | fgPercentage is made over attempted 2- and 3-point shots, threePtPercentage made over attempted 3-point shots, ftPercentage made over attempted 1-point shots, each via `calculatePercentage` (0 without attempts, else nearest tenth) |
| PlayerStats.PercentageScenario | app/Domain/Statistics/Services/PlayerStatsService.php:78-80 | a made 2-pointer, a made and a missed 3-pointer and a missed free throw give 66.7, 50.0 and 0.0, each in its own field |
| PlayerStats.TallyPointsAreMadePoints | app/Domain/Statistics/Services/PlayerStatsService.php:62-64 | when shots are worth 1, 2 or 3, the tally adds the points of the successful shots |
| PlayerStats.TallyPointsAreTalliedPoints | app/Domain/Statistics/Services/PlayerStatsService.php:170-196 | for any events, the tally adds exactly the points of the made shoot events worth 1, 2 or 3; a made shot of any other value adds nothing |
| PlayerStats.TalliedPointsOfClassified | app/Domain/Statistics/Services/PlayerStatsService.php:99 | when every shot is worth 1, 2 or 3, the points the tally adds are the series' `where('successful', true)->sum('points')` |
| PlayerStats.TallyRecordsPointsAreTallied | app/Domain/Statistics/Services/PlayerStatsService.php:41-66 | for any records, the points total is the made 1/2/3-point shots' points summed over every record |
| PlayerStats.StatValueByName | app/Domain/Statistics/Services/PlayerStatsService.php:98-106 | "points" is the points of the successful shots; "rebounds", "assists", "steals", "turnovers" and "fouls" count rebound, pass, steal, turnover and foul events |
| PlayerStats.StatValue | app/Domain/Statistics/Services/PlayerStatsService.php:98-106 | an unknown statistic name yields 0; every count entry is non-negative |
| PlayerStats.HistoryKeepsSameDayOrder | app/Domain/Statistics/Services/PlayerStatsService.php:90-113 | records played on the same date appear in the series in their input order |
| PlayerStats.FirstRecordFor | app/Domain/Statistics/Services/PlayerStatsService.php:118 | the record found belongs to the encounter; none is found exactly when no record does |
| PlayerStats.GetMatchStatsByPeriod | app/Domain/Statistics/Services/PlayerStatsService.php:116-165 | empty without a record for the encounter; otherwise four entries, entry k being `PeriodTally` of quarter k+1 over the record's events |
| PlayerStats.PeriodStep | app/Domain/Statistics/Services/PlayerStatsService.php:137-159 | one event adds the points of a successful shot (no 1/2/3 filter) and one to the counter of its type; the period label is kept |
| PlayerStats.PeriodFold | app/Domain/Statistics/Services/PlayerStatsService.php:131-160 | the walk over the events keeps the period label |
| PlayerStats.PeriodFoldIsQuarterHistory | app/Domain/Statistics/Services/PlayerStatsService.php:127-160 | quarter p's tallies are the points of the successful shots tagged p and the number of events of each type tagged p |
| PlayerStats.PeriodPointsAreQuarterPoints | app/Domain/Statistics/Services/PlayerStatsService.php:127-158 | quarter p's points are the raw points of the successful shots tagged p |
| PlayerStats.PeriodCountsAreQuarterCounts | app/Domain/Statistics/Services/PlayerStatsService.php:127-153 | quarter p's counters count the rebounds, passes, steals, turnovers and fouls tagged p |
| PlayerStats.PeriodTallyIsQuarterStatValues | app/Domain/Statistics/Services/PlayerStatsService.php:98-165 | each field of quarter p is the value the historical series computes for that statistic from the events tagged p alone |
| PlayerStats.UnperiodisedEventsIgnored | app/Domain/Statistics/Services/PlayerStatsService.php:127-131 | dropping the events whose period is missing or outside 1..4 leaves every quarter's tallies unchanged |
| Sorting.SortBy | app/Domain/Statistics/Services/TeamStatsService.php:150-152 | the result is ordered by the key and is a permutation of the input |
| Sorting.SortByIsStable | app/Domain/Statistics/Services/TeamStatsService.php:150-152 | for every key value, the elements with that key keep their input order |
| Sorting.MapSortByMultiset | app/Domain/Statistics/Services/PlayerStatsService.php:90-113 | mapping after sorting gives the same entries as mapping the input |
| TeamStats.AvgTenths | app/Domain/Statistics/Services/TeamStatsService.php:25-26 | null exactly when every value is null; otherwise the nearest tenth to the mean of the non-null values, a half-way mean rounding away from zero as PHP's `round` does |
| TeamStats.AvgOpponentScore | app/Domain/Statistics/Services/TeamStatsService.php:43-48 | null exactly when no encounter of the bucket has an opponent score; otherwise the mean of its opponent scores rounded to the nearest tenth, halves away from zero |
| TeamStats.GetSeasonOverview | app/Domain/Statistics/Services/TeamStatsService.php:14-36 | counts only scored encounters; wins are the true flags; losses are the rest, a null flag included; win percentage is 100·wins/played to the nearest tenth; points for and against are the mean team and opponent scores of the scored encounters to the nearest tenth (halves away from zero), 0 without a value; all zero when nothing is played |
| TeamStats.OverviewScenario | tests/Unit/TeamStatsServiceTest.php:30-58 | an 80-70 win and a 60-70 loss give 2 played, 1 win, 1 loss, 50.0 %, 70.0 for and 70.0 against |
| TeamStats.GetPointsConcededAnalysis | app/Domain/Statistics/Services/TeamStatsService.php:38-50 | each bucket is null (not 0) exactly when none of its encounters has an opponent score; a non-null bucket is the mean opponent score of its encounters (true flag for wins, false or null flag for losses) to the nearest tenth, halves away from zero |
| TeamStats.ConcededAgreesWithOverview | app/Domain/Statistics/Services/TeamStatsService.php:41-48 | when scored encounters carry an opponent score, the wins bucket is null iff the overview counts no win, and the losses bucket iff it counts no loss |
| TeamStats.ShotsOfEvents | app/Domain/Statistics/Services/TeamStatsService.php:79-103 | the walk over one log's shoot events keeps the shooting invariants |
| TeamStats.TeamShots | app/Domain/Statistics/Services/TeamStatsService.php:63-105 | the counters over every log of every encounter satisfy fgm ≤ fga, 3pm ≤ 3pa ≤ fga, ftm ≤ fta |
| TeamStats.GetTeamShootingStats | app/Domain/Statistics/Services/TeamStatsService.php:52-113 | the triple loop computes the percentages of `TeamShots`; the details are consistent and every percentage lies in 0.0..100.0 |
| TeamStats.PlayerAndTeamClassifyAlike | app/Domain/Statistics/Services/TeamStatsService.php:84-101 | the team walk and the player tally reach the same shot counters on any events |
| TeamStats.ShootingScenario | tests/Unit/TeamStatsServiceTest.php:61-109 | 2-of-3 field goals, 1-of-1 threes and 1-of-1 free throws give 66.7, 100.0 and 100.0 |
| TeamStats.LogsShotsAreCounts | app/Domain/Statistics/Services/TeamStatsService.php:64-101 | walking the documents of one encounter adds to each counter the shoot events of its class (1 point: free throws; 2 and 3: field goals; 3: three-pointers) |
| TeamStats.TeamShotsAreCounts | app/Domain/Statistics/Services/TeamStatsService.php:63-104 | the team counters equal the season's shoot events recounted class by class (`TeamCountsIn`) |
| TeamStats.TeamPercentagesAreShotRatios | app/Domain/Statistics/Services/TeamStatsService.php:106-111 | fg_percentage is made over attempted 2- and 3-point shots, three_pt_percentage made over attempted 3-point shots, ft_percentage made over attempted 1-point shots, and details are those counts |
| TeamStats.GetTeamPlayersStats | app/Domain/Statistics/Services/TeamStatsService.php:124-155 | one row per roster member, a permutation of their averages, non-increasing by avgPoints, ties in roster order |
| TeamStats.Leaderboard | app/Domain/Statistics/Services/TeamStatsService.php:150-152 | sorting the rows by descending points is ordered, keeps every row and keeps tied rows in order |
| TeamStats.MatchStep | app/Domain/Statistics/Services/TeamStatsService.php:212-237 | one event of the carry-forward walk keeps the quarter in force in 1..4 and four quarter totals |
| TeamStats.MatchFold | app/Domain/Statistics/Services/TeamStatsService.php:212-238 | the walk over a match keeps the state well formed |
| TeamStats.HasDataIffCountedShot | app/Domain/Statistics/Services/TeamStatsService.php:208-229 | a match is analysed iff it holds a made team shot with no period or a period in 1..4 (`successful` defaulting to false) |
| TeamStats.TeamPointsConserved | app/Domain/Statistics/Services/TeamStatsService.php:225-229 | the four quarters together gain exactly the points of the counted team shots |
| TeamStats.LastQuarter | app/Domain/Statistics/Services/TeamStatsService.php:210-216 | the quarter in force is always in 1..4 |
| TeamStats.MatchFoldByQuarter | app/Domain/Statistics/Services/TeamStatsService.php:210-237 | the walk from quarter 1 ends in the last quarter seen; each quarter gains exactly the made team shots' points and the opponent scores' points booked to it (own period, else the quarter in force); events booked outside 1..4 add nothing |
| TeamStats.OpponentDefaults | app/Domain/Statistics/Services/TeamStatsService.php:225-236 | an opponent score with only `value` 3 in Q2 adds 3; a missed opponent shot and a team shot without `successful` add nothing; `points` 2 wins over `value` 5; the match is not analysed |
| TeamStats.EncounterFold | app/Domain/Statistics/Services/TeamStatsService.php:170-243 | four quarter totals; the match count is the number of encounters whose first recap holds a made team shot the walk counts, at most the number with a recap |
| TeamStats.EncounterFoldByQuarter | app/Domain/Statistics/Services/TeamStatsService.php:170-243 | each quarter total is the sum over the encounters with a recap of the points their first recap books to it, analysed or not |
| TeamStats.Averages | app/Domain/Statistics/Services/TeamStatsService.php:252-258 | four quarter averages, all 0 when no match was analysed |
| TeamStats.Evolution | app/Domain/Statistics/Services/TeamStatsService.php:251-269 | one entry per quarter, entry i labelled quarter i+1 |
| TeamStats.EvolutionIsCumulative | app/Domain/Statistics/Services/TeamStatsService.php:260-267 | entry i holds the running sums of the rounded averages of quarters 1..i+1 and diff = team − opponent |
| TeamStats.PeriodStatsOf | app/Domain/Statistics/Services/TeamStatsService.php:157-276 | four quarters, four series entries; matchesAnalyzed counts the encounters whose first recap holds a counted made team shot |
| TeamStats.PerPeriodAverages | app/Domain/Statistics/Services/TeamStatsService.php:170-258 | quarter k of the result is the season's points booked to quarter k+1 divided by the number of analysed matches, rounded to tenths, for each side |
| TeamStats.WalkMatch | app/Domain/Statistics/Services/TeamStatsService.php:208-238 | the loop over one match's events computes the totals and the flag of `MatchFold`, the quarter in force starting at 1 |
| TeamStats.Summarise | app/Domain/Statistics/Services/TeamStatsService.php:246-275 | the loop over the quarters computes `Averages` and the cumulative series over them |
| TeamStats.GetPeriodStats | app/Domain/Statistics/Services/TeamStatsService.php:157-276 | the walk over every encounter's first recap computes `PeriodStatsOf`: four quarters, four series entries, and matchesAnalyzed the number of encounters whose first recap holds a counted made team shot |
| TeamStats.PeriodScenario | tests/Unit/TeamStatsServiceTest.php:112-160 | Q1 10-5 and Q2 5-10 in one match give quarter averages 10.0-5.0 and 5.0-10.0 and a series 10-5 then 15-15 |
| TeamStats.OutOfRangePeriodSkipped | app/Domain/Statistics/Services/TeamStatsService.php:221-223 | with the corrected guard, an event whose own period is outside 1..4 changes nothing |
| TeamStats.WrittenStep | app/Domain/Statistics/Services/TeamStatsService.php:212-237 | the walk as written, over a period-keyed array: the quarter in force follows the events and keys are only ever appended |
| TeamStats.WrittenAgreesAboveZero | app/Domain/Statistics/Services/TeamStatsService.php:221 | on an event with no period or a period ≥ 1, the written walk and the corrected walk stay in step |
| TeamStats.PeriodZeroAddsBucket | app/Domain/Statistics/Services/TeamStatsService.php:221-227 | a made 2-pointer tagged period 0 creates a fifth bucket after Q4 and marks the match analysed; the corrected walk ignores it |
| RecapImport.PluckKeys | app/Services/MatchRecapImportService.php:33 | the lookup has exactly the log player ids of the mappings |
| RecapImport.PluckLastWins | app/Services/MatchRecapImportService.php:33 | when an id appears more than once, the later mapping wins |
| RecapImport.PluckMappings | app/Services/MatchRecapImportService.php:33 | the lookup built entry by entry, a later entry overwriting an earlier one; its keys and values are stated by `PluckKeys` and `PluckLastWins` |
| RecapImport.PlayerEvents | app/Services/MatchRecapImportService.php:32 | every event kept carries the player's id and comes from the recap |
| RecapImport.PlayerEventsComplete | app/Services/MatchRecapImportService.php:32-43 | every event carrying the player's id is in the player's group |
| RecapImport.PlayerEventsInOrder | app/Services/MatchRecapImportService.php:32-43 | the group keeps recap order: it distributes over concatenation, and one event forms its own group exactly when it carries the id |
| RecapImport.ImportPlayers | app/Services/MatchRecapImportService.php:35-58 | no record is removed, and every new record is keyed by this encounter |
| RecapImport.ImportPlayersStep | app/Services/MatchRecapImportService.php:35-58 | each player of the loop performs one upsert of its record when it is mapped, and nothing otherwise |
| RecapImport.ImportStoresLastMapped | app/Services/MatchRecapImportService.php:35-58 | the record of (encounter, u) holds the identity and the own events of the last player mapped to u |
| RecapImport.ImportLeavesOthers | app/Services/MatchRecapImportService.php:37-41 | records of other encounters, or of users no player is mapped to, are neither created nor changed |
| RecapImport.ImportIsOverride | app/Services/MatchRecapImportService.php:52-58 | the upserts only override: the result is the old records overridden by the records written from an empty store |
| RecapImport.ImportIsIdempotent | app/Services/MatchRecapImportService.php:52-58 | importing the same players twice leaves what importing them once left |
| RecapImport.ImportDependsOnPlayersOnly | app/Services/MatchRecapImportService.php:35-41 | two lookups that agree on the recap's players import alike |
| RecapImport.ExtraMappingIgnored | app/Services/MatchRecapImportService.php:33-35 | a mapping whose id is no player's id has no effect, wherever it sits |
| RecapImport.StatsStore.Execute | app/Services/MatchRecapImportService.php:16-61 | on commit the score row, the raw recap and the per-player upserts are written; a throw at any write leaves all three tables as they were |
| RecapImport.ImportScenario | tests/Feature/Feature/MatchRecapImportTest.php:129-197 | with LIC12345 mapped to user 7, user 7 gets John's shot and foul and no other user gets a record |
| RecapController.Reconcile | app/Http/Controllers/Api/MatchRecapController.php:53-63 | matched and unmatched are the order-preserving filters of the players by "matched" and its negation, and together hold every player once |
| RecapController.ReconcileSplits | app/Http/Controllers/Api/MatchRecapController.php:56-63 | a player lands in matched iff its id is truthy and some roster licence equals it, and in unmatched otherwise |
| RecapController.PrepareRecap | app/Http/Controllers/Api/MatchRecapController.php:18-78 | 422 without a file, 422 on malformed JSON, 404 for an unknown encounter; otherwise the parsed document echoed as `recap_data`, the split (empty when `players` is missing) and one official entry per roster user |
| RecapController.ReconcileScenario | tests/Feature/Feature/MatchRecapImportTest.php:56-97 | with a roster holding LIC12345 and LIC67890, LIC12345 is matched and LIC99999 unmatched |
| RecapController.ImportRecap | app/Http/Controllers/Api/MatchRecapController.php:83-115 | invalid input gives 422 and an unknown encounter 404, both without calling the importer; for a valid request on a known encounter the answer is 200 exactly when none of the importer's writes throws (the store then holds the importer's writes), and 500 otherwise, with the store unchanged |
| TeamService.Team.AddPlayer | app/Services/TeamService.php:41-52 | 409 and no change for a member; otherwise the members become old ∪ {user}; the coach is untouched |
| TeamService.Team.RemovePlayer | app/Services/TeamService.php:54-63 | 404 and no change for a non-member; otherwise the members become old \ {user} |
| TeamService.Team.AssignCoach | app/Services/TeamService.php:65-80 | 422 for a non-coach, checked first; 409 when already the coach; otherwise the coach becomes the user; members untouched |
| TeamService.AddThenRemove | app/Services/TeamService.php:41-63 | adding a non-member and then removing them succeeds twice and restores the team |
| TeamService.AssignTwice | app/Services/TeamService.php:65-80 | a second assignment of the same coach is refused with 409 and the assignment stays |
| SeasonService.ToArray | app/DTOs/UpdateSeasonDTO.php:33-41 | a key is present exactly when the DTO field is not null; no other key |
| SeasonService.Fill | app/Services/SeasonService.php:41 | a column absent from the update array keeps its value |
| SeasonService.FillWritesNonNullFields | app/Services/SeasonService.php:41 | only the non-null fields are written; the others keep their values |
| SeasonService.DeactivateOthers | app/Services/SeasonService.php:38 | every other season becomes inactive and is otherwise unchanged; the target is untouched |
| SeasonService.SeasonStore.UpdateSeason | app/Services/SeasonService.php:32-42 | with is_active true, every other season is deactivated; otherwise no other season changes; the target takes the non-null fields |
| SeasonService.UpdatedSeasons | app/Services/SeasonService.php:32-42 | the same season ids; a season other than the target changes only when the update activates, and then only by becoming inactive |
| SeasonService.ActivationIsExclusive | app/Services/SeasonService.php:36-41 | after an update with is_active true, the target is the only active season |
| SeasonService.OthersUntouchedUnlessActivating | app/Services/SeasonService.php:36 | with is_active false or absent, no other season changes |
| SeasonService.UpdateIsIdempotent | app/Services/SeasonService.php:32-42 | applying the same update twice leaves what applying it once left |
| UserPolicy.ToLower | app/Policies/UserPolicy.php:29 | the role name with ASCII upper-case letters lowered, letter by letter |
| UserPolicy.ViewAny | app/Policies/UserPolicy.php:13-16 | listing users is for the exact roles admin, president, staff and coach |
| UserPolicy.View | app/Policies/UserPolicy.php:21-45 | oneself always; admin, president and staff in any letter case anyone; a coach in any letter case someone sharing a team; no one else |
| UserPolicy.Create | app/Policies/UserPolicy.php:50-53 | creating is for president and staff |
| UserPolicy.Update | app/Policies/UserPolicy.php:58-77 | oneself always; a president anyone; staff a coach or a player; a coach a player |
| UserPolicy.Delete | app/Policies/UserPolicy.php:82-101 | never oneself; otherwise the role rule of update |
| UserPolicy.Restore | app/Policies/UserPolicy.php:106-109 | restoring is for president and staff |
| UserPolicy.ForceDelete | app/Policies/UserPolicy.php:114-117 | force-deleting is for president only |
| UserPolicy.Authorize | app/Providers/AuthServiceProvider.php:35-39 | a user whose role is exactly "admin" is allowed everything; otherwise the policy decides |
| UserPolicy.CoachViewIffSharedTeam | app/Policies/UserPolicy.php:34-44 | a coach sees another user iff they share a team |
| UserPolicy.OthersSeeOnlyThemselves | app/Policies/UserPolicy.php:21-45 | a role other than admin, president, staff or coach (in any case) sees only itself |
| UserPolicy.ViewIgnoresCaseUpdateDoesNot | app/Policies/UserPolicy.php:29-68 | the role "Staff" passes the lower-cased test of `view` but not the exact test of `update` |
| UserPolicy.DeleteIsUpdateWithoutSelf | app/Policies/UserPolicy.php:58-101 | delete is allowed iff the target is someone else and update is allowed |
| UserPolicy.SelfRules | app/Policies/UserPolicy.php:21-101 | everyone may view and update themselves and no one may delete themselves through the policy |
| UserPolicy.SelfDeleteOnlyForAdmin | app/Policies/UserPolicy.php:84-86 | through the gate (with the admin gate of app/Providers/AuthServiceProvider.php:35-39), only an admin may delete their own account |
| UserPolicy.GateWhitelists | app/Policies/UserPolicy.php:13-109 | through the gate (with the admin gate of app/Providers/AuthServiceProvider.php:35-39), listing is for admin, president, staff and coach; create and restore are for admin, president and staff |
| UserPolicy.ForceDeleteGate | app/Policies/UserPolicy.php:114-117 | through the gate (with the admin gate of app/Providers/AuthServiceProvider.php:35-39), force-delete is for admin and president only |
| UserPolicy.ManageIsMonotone | app/Policies/UserPolicy.php:64-74 | whoever may update or delete a coach may also update or delete a player |

## Left out

- JSON encoding and decoding of stored logs and uploads. The parsed document is an input (`RecapController.Decoded`), and stored logs are typed values. Byte-level equality of the stored JSON is not modelled.
- Floating point. Every rounded value is exact integer tenths. Float artefacts of `/`, `avg` and `round` are not modelled.
- A missing array key reads as null (0, or falsy), as PHP computes it. Laravel turns the accompanying warning into an exception; that exception is not modelled.
- `in_array` and loose `==` on numeric strings. Licence numbers and player ids are compared as exact strings.
- A log player without an `id` is looked up, grouped and stored under the key "" (`RecapImport.JsonId`). PHP stores null in the document's `id`; the model stores "".
- A `recapData` without `score`, `players` or `events` passes validation and then fails inside the importer. The model's `Recap` always has all three. `ImportRecap` covers importer failures through the `failAt` parameter.
- Integer ids against numeric-string array keys: log player ids are strings, user and encounter ids integers.
- RecapImport.StatsStore.Execute writes the score columns as the test expects. The `Encounter` model (app/Models/Encounter.php:14-21) does not list them as fillable, so Eloquent's mass-assignment filter would drop them. That filter is not modelled.
- Eloquent mechanics: eager loading, `updateOrCreate`, transactions as a framework feature. The store is maps keyed by encounter and by (encounter, user). A transaction is a rollback to the saved maps.
- The repository calls behind `TeamService` and `SeasonService` are not part of this model: `isPlayerInTeam`, attach, detach, `assignCoach` and `update`. They are taken to do what their names say, to a set of member ids, a coach field and the fields of `toArray`.
- HTTP plumbing: routes, the form-request rules as a framework feature (`ValidImport` states their effect), response bodies beyond their status, and logging.
- `exists:users,id` is a lookup in the users table. It is a `users: set<int>` parameter.
- Concurrency: two imports of the same match at once.
- PlayerStats.GetHistoricalStats: gives the evidently intended series, not what the code does as written. `Encounter` declares no date cast for `happens_at` (app/Models/Encounter.php), so the attribute is the raw database string and `->format('Y-m-d')` at app/Domain/Statistics/Services/PlayerStatsService.php:109 fails for every player with a record. The model also keeps the date as an integer timestamp instead of the `Y-m-d` string.
- TeamStats.MatchStep: its own contract states only that the state stays well formed. Which quarter each event's points go to is stated over whole walks by `TeamStats.MatchFoldByQuarter`.
- TeamStats.MatchFold: its own contract states only that the state stays well formed. `TeamStats.MatchFoldByQuarter`, `TeamStats.HasDataIffCountedShot` and `TeamStats.OpponentDefaults` state what it computes.
- PlayerStats.TallyEvents: its own contract states only the shooting invariants and that points and rebounds never decrease. `TallyCountsAreCounts` states the five counters, `TallyShotsAreCounts` the six shot counters and `TallyPointsAreTalliedPoints` the points, each for all inputs.
- PlayerStats.PeriodFold: its own contract states only that the period label is kept. `PeriodFoldIsQuarterHistory` states every field.
- `TeamStatsService::calculatePercentage` (app/Domain/Statistics/Services/TeamStatsService.php:115-122) is identical to the player service's. Both are `PlayerStats.CalculatePercentage`.

## Findings

| source | as written | input that shows it | evidently intended | confidence | as-written member | corrected member |
|---|---|---|---|---|---|---|
| app/Domain/Statistics/Services/TeamStatsService.php:221 | `if ($period > 4) continue;` skips only periods above 4. An explicit period of 0 or below passes. Writing to it creates a new key in `$periodTotals`, iterated after Q4. `per_period` then has five entries, the series a fifth point "Q0", and the match counts as analysed. The bucket's missing side is read as null, with a warning. That is plain PHP. Under Laravel's error handler, the warning for the missing key at line 227 (or line 236) becomes an exception, so the request fails instead of returning a fifth bucket. | one recap whose only event is a made 2-pointer with `period` 0 (`TeamStats.QuarterEvent(Shoot, 0, 2)`) | skip every effective period outside 1..4, as the carry-forward test on line 214 does | not executed | TeamStats.PeriodZeroAddsBucket (over TeamStats.WrittenStep) | TeamStats.OutOfRangePeriodSkipped (over TeamStats.MatchStep, which the model uses) |
