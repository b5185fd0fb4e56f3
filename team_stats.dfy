/** Team aggregation: the season overview, the points conceded in wins and
    in losses, the team's shooting splits, the player leaderboard and the
    per-quarter score evolution. Rounded values are integer tenths. */
module TeamStats {
  import opened Common
  import opened Events
  import opened Rounding
  import opened PlayerStats
  import Sorting

  /** One encounter of the team with the relations the service loads:
      its nullable score columns and victory flag, its `individual_stats`
      documents and its `encounter_stats` raw recaps. */
  datatype Encounter = Encounter(
    teamScore: Option<int>,
    opponentScore: Option<int>,
    isVictory: Option<bool>,
    individualStats: seq<PlayerLog>,
    encounterStats: seq<Recap>)

  // ---------------------------------------------------------------------------
  // Collection helpers: whereNotNull, where(..., true/false), avg

  /** `whereNotNull('team_score')`: the encounters that have been scored. */
  function Played(encounters: seq<Encounter>): seq<Encounter> {
    Filter(encounters, IsScored)
  }

  predicate IsScored(e: Encounter) {
    e.teamScore.Some?
  }

  /** `where('is_victory', true)`. The comparison is PHP's loose `==`, so only
      a true flag matches. */
  predicate IsWin(e: Encounter) {
    e.isVictory == Some(true)
  }

  /** `where('is_victory', false)`: under loose `==`, `null == false` holds, so
      an encounter with no flag falls here too. */
  predicate IsLossBucket(e: Encounter) {
    e.isVictory != Some(true)
  }

  /** The non-null values, in order. */
  function NonNull(values: seq<Option<int>>): (r: seq<int>)
    ensures |r| == 0 <==> forall i :: 0 <= i < |values| ==> values[i].None?
  {
    if values == [] then []
    else
      var rest := NonNull(values[1..]);
      assert forall i :: 1 <= i < |values| ==> values[i] == values[1..][i - 1];
      if values[0].Some? then [values[0].value] + rest else rest
  }

  function Sum(xs: seq<int>): int {
    if xs == [] then 0 else xs[0] + Sum(xs[1..])
  }

  /** `v` tenths is the mean of the non-empty `xs` rounded to one decimal:
      the mean lies within half a tenth of `v`, and a mean exactly half-way
      between two tenths goes away from zero, as PHP's `round` does. */
  predicate IsRoundedMean(xs: seq<int>, v: int) {
    |xs| > 0
    && (Sum(xs) >= 0 ==> |xs| * (2 * v - 1) <= 20 * Sum(xs) < |xs| * (2 * v + 1))
    && (Sum(xs) < 0 ==> |xs| * (2 * v - 1) < 20 * Sum(xs) <= |xs| * (2 * v + 1))
  }

  /** `avg(...)` then `round(..., 1)`: null values are ignored and the result
      is null when no value is left. */
  function AvgTenths(values: seq<Option<int>>): (r: Option<int>)
    ensures r.None? <==> forall i :: 0 <= i < |values| ==> values[i].None?
    ensures r.Some? ==> IsRoundedMean(NonNull(values), r.value)
  {
    var xs := NonNull(values);
    if |xs| == 0 then None else Some(RoundTenths(Sum(xs), |xs|))
  }

  function TeamScoreOf(e: Encounter): Option<int> {
    e.teamScore
  }

  function OpponentScoreOf(e: Encounter): Option<int> {
    e.opponentScore
  }

  /** No encounter of `encounters` has an opponent score. */
  predicate NoOpponentScore(encounters: seq<Encounter>) {
    forall i :: 0 <= i < |encounters| ==> encounters[i].opponentScore.None?
  }

  /** `avg('opponent_score')` rounded, over the given encounters. */
  function AvgOpponentScore(encounters: seq<Encounter>): (r: Option<int>)
    ensures r.None? <==> NoOpponentScore(encounters)
    ensures r.Some? ==> IsRoundedMean(NonNull(Sorting.MapSeq(encounters, OpponentScoreOf)), r.value)
  {
    var values := Sorting.MapSeq(encounters, OpponentScoreOf);
    assert forall i :: 0 <= i < |encounters| ==> values[i] == encounters[i].opponentScore;
    AvgTenths(values)
  }

  // ---------------------------------------------------------------------------
  // Season overview and points conceded

  /** `TeamStatsOverviewDTO`, percentages and averages in tenths. */
  datatype Overview = Overview(
    matchesPlayed: nat, wins: nat, losses: int,
    winPercentage: int, avgPointsFor: int, avgPointsAgainst: int)

  /** `getSeasonOverview`. */
  function GetSeasonOverview(encounters: seq<Encounter>): (r: Overview)
    ensures r.matchesPlayed == |Played(encounters)|
    ensures r.wins == |Filter(Played(encounters), IsWin)|
    // a scored encounter without a victory flag is a loss
    ensures r.losses == |Filter(Played(encounters), IsLossBucket)|
    ensures 0 <= r.wins <= r.matchesPlayed && 0 <= r.winPercentage <= 1000
    ensures r.matchesPlayed == 0 ==> r.winPercentage == 0 && r.avgPointsFor == 0 && r.avgPointsAgainst == 0
    // the win percentage is the nearest tenth to 100 * wins / played
    ensures r.matchesPlayed > 0 ==>
      r.matchesPlayed * (2 * r.winPercentage - 1) <= 2000 * r.wins < r.matchesPlayed * (2 * r.winPercentage + 1)
    // the averages are the nearest tenths to the mean team and opponent scores, 0 without a value
    ensures var xs := NonNull(Sorting.MapSeq(Played(encounters), TeamScoreOf));
      if |xs| == 0 then r.avgPointsFor == 0 else IsRoundedMean(xs, r.avgPointsFor)
    ensures var xs := NonNull(Sorting.MapSeq(Played(encounters), OpponentScoreOf));
      if |xs| == 0 then r.avgPointsAgainst == 0 else IsRoundedMean(xs, r.avgPointsAgainst)
  {
    var played := Played(encounters);
    var matchesPlayed := |played|;
    var wins := |Filter(played, IsWin)|;
    FilterPartition(played, IsWin, IsLossBucket);
    var winPercentage := if matchesPlayed > 0 then CalculatePercentage(wins, matchesPlayed) else 0;
    var avgFor := AvgTenths(Sorting.MapSeq(played, TeamScoreOf)).GetOr(0);
    var avgAgainst := AvgTenths(Sorting.MapSeq(played, OpponentScoreOf)).GetOr(0);
    AvgOrZero(Sorting.MapSeq(played, TeamScoreOf));
    AvgOrZero(Sorting.MapSeq(played, OpponentScoreOf));
    assert matchesPlayed == 0 ==> played == [];
    Overview(matchesPlayed, wins, matchesPlayed - wins, winPercentage, avgFor, avgAgainst)
  }

  /** `avg(...) ?? 0` rounded: 0 without a non-null value, otherwise the
      rounded mean. */
  lemma AvgOrZero(values: seq<Option<int>>)
    ensures var xs := NonNull(values); var r := AvgTenths(values).GetOr(0);
      if |xs| == 0 then r == 0 else IsRoundedMean(xs, r)
  {
  }

  /** The unit-test scenario: an 80-70 win and a 60-70 loss give 2 played,
      1 win, 1 loss, 50.0 %, 70.0 points for and 70.0 against. */
  lemma OverviewScenario()
    ensures
      var win := Encounter(Some(80), Some(70), Some(true), [], []);
      var loss := Encounter(Some(60), Some(70), Some(false), [], []);
      GetSeasonOverview([win, loss]) == Overview(2, 1, 1, 500, 700, 700)
  {
    var win := Encounter(Some(80), Some(70), Some(true), [], []);
    var loss := Encounter(Some(60), Some(70), Some(false), [], []);
    var played := Played([win, loss]);
    ScenarioBuckets(win, loss);
    ScenarioAverages(played);
    assert CalculatePercentage(1, 2) == 500;
  }

  lemma ScenarioBuckets(win: Encounter, loss: Encounter)
    requires win.teamScore.Some? && IsWin(win) && loss.teamScore.Some? && !IsWin(loss)
    ensures Played([win, loss]) == [win, loss]
    ensures Filter([win, loss], IsWin) == [win]
  {
    assert [win, loss][..1] == [win];
    assert [win][..0] == [];
    assert Filter([win], IsScored) == [win];
    assert Filter([win], IsWin) == [win];
  }

  lemma ScenarioAverages(played: seq<Encounter>)
    requires played == [Encounter(Some(80), Some(70), Some(true), [], []), Encounter(Some(60), Some(70), Some(false), [], [])]
    ensures AvgTenths(Sorting.MapSeq(played, TeamScoreOf)) == Some(700)
    ensures AvgOpponentScore(played) == Some(700)
  {
    assert Sorting.MapSeq(played, TeamScoreOf) == [Some(80), Some(60)];
    assert NonNull([Some(80), Some(60)]) == [80, 60];
    assert Sorting.MapSeq(played, OpponentScoreOf) == [Some(70), Some(70)];
    assert NonNull([Some(70), Some(70)]) == [70, 70];
  }

  /** `getPointsConcededAnalysis`: average opponent score in wins and in
      losses, tenths; null (not 0) for a bucket with no opponent score. */
  datatype Conceded = Conceded(inWins: Option<int>, inLosses: Option<int>)

  function GetPointsConcededAnalysis(encounters: seq<Encounter>): (r: Conceded)
    ensures r.inWins.None? <==> NoOpponentScore(Filter(Played(encounters), IsWin))
    ensures r.inLosses.None? <==> NoOpponentScore(Filter(Played(encounters), IsLossBucket))
    // a non-null bucket is the nearest tenth to the mean opponent score of its encounters
    ensures r.inWins.Some? ==>
      IsRoundedMean(NonNull(Sorting.MapSeq(Filter(Played(encounters), IsWin), OpponentScoreOf)), r.inWins.value)
    ensures r.inLosses.Some? ==>
      IsRoundedMean(NonNull(Sorting.MapSeq(Filter(Played(encounters), IsLossBucket), OpponentScoreOf)), r.inLosses.value)
  {
    var played := Played(encounters);
    Conceded(AvgOpponentScore(Filter(played, IsWin)), AvgOpponentScore(Filter(played, IsLossBucket)))
  }

  /** When every scored encounter has an opponent score, the wins bucket is
      null exactly when the overview counts no win, and the losses bucket
      exactly when it counts no loss. */
  lemma ConcededAgreesWithOverview(encounters: seq<Encounter>)
    requires forall i :: 0 <= i < |encounters| && encounters[i].teamScore.Some? ==> encounters[i].opponentScore.Some?
    ensures GetPointsConcededAnalysis(encounters).inWins.None? <==> GetSeasonOverview(encounters).wins == 0
    ensures GetPointsConcededAnalysis(encounters).inLosses.None? <==> GetSeasonOverview(encounters).losses == 0
  {
    var played := Played(encounters);
    BucketHasOpponentScore(encounters, IsWin);
    BucketHasOpponentScore(encounters, IsLossBucket);
  }

  /** Under the same assumption, a non-empty bucket of scored encounters has
      an opponent score to average. */
  lemma BucketHasOpponentScore(encounters: seq<Encounter>, p: Encounter -> bool)
    requires forall i :: 0 <= i < |encounters| && encounters[i].teamScore.Some? ==> encounters[i].opponentScore.Some?
    ensures NoOpponentScore(Filter(Played(encounters), p)) <==> |Filter(Played(encounters), p)| == 0
  {
    var played := Played(encounters);
    var bucket := Filter(played, p);
    if |bucket| > 0 {
      assert bucket[0] in played;
      var j :| 0 <= j < |played| && played[j] == bucket[0];
      assert played[j] in encounters && IsScored(played[j]);
      var k :| 0 <= k < |encounters| && encounters[k] == played[j];
      assert bucket[0].opponentScore.Some?;
    }
  }

  // ---------------------------------------------------------------------------
  // Team shooting

  /** The shot counters after the shoot events of `events`. */
  function ShotsOfEvents(s: Shots, events: seq<Event>): (r: Shots)
    ensures ShotsValid(s) ==> ShotsValid(r)
  {
    if events == [] then s
    else
      var rest := ShotsOfEvents(s, events[..|events| - 1]);
      var e := events[|events| - 1];
      if e.kind == Shoot then AddShot(rest, e) else rest
  }

  /** The shot counters over every `individual_stats` document of every
      encounter of the team. */
  function TeamShots(encounters: seq<Encounter>): (r: Shots)
    ensures ShotsValid(r)
  {
    if encounters == [] then NoShots
    else LogsShots(TeamShots(encounters[..|encounters| - 1]), encounters[|encounters| - 1].individualStats)
  }

  function LogsShots(s: Shots, logs: seq<PlayerLog>): (r: Shots)
    ensures ShotsValid(s) ==> ShotsValid(r)
  {
    if logs == [] then s
    else ShotsOfEvents(LogsShots(s, logs[..|logs| - 1]), logs[|logs| - 1].events)
  }

  /** The result of `getTeamShootingStats`: three percentages in tenths and
      the raw counters. */
  datatype ShootingStats = ShootingStats(
    fgPercentage: int, threePtPercentage: int, ftPercentage: int, details: Shots)

  function ShootingOf(s: Shots): ShootingStats {
    ShootingStats(
      CalculatePercentage(s.fgm, s.fga),
      CalculatePercentage(s.tpm, s.tpa),
      CalculatePercentage(s.ftm, s.fta),
      s)
  }

  /** `getTeamShootingStats`: a nested walk over encounters, documents and
      events, classifying every shot the way the player service does. */
  method GetTeamShootingStats(encounters: seq<Encounter>) returns (r: ShootingStats)
    ensures r == ShootingOf(TeamShots(encounters))
    ensures ShotsValid(r.details)
    ensures 0 <= r.fgPercentage <= 1000 && 0 <= r.threePtPercentage <= 1000 && 0 <= r.ftPercentage <= 1000
  {
    var totals := NoShots;
    var i := 0;
    while i < |encounters|
      invariant 0 <= i <= |encounters|
      invariant totals == TeamShots(encounters[..i])
    {
      var logs := encounters[i].individualStats;
      var j := 0;
      while j < |logs|
        invariant 0 <= j <= |logs|
        invariant totals == LogsShots(TeamShots(encounters[..i]), logs[..j])
      {
        var events := logs[j].events;
        var k := 0;
        while k < |events|
          invariant 0 <= k <= |events|
          invariant totals == ShotsOfEvents(LogsShots(TeamShots(encounters[..i]), logs[..j]), events[..k])
        {
          assert events[..k + 1][..k] == events[..k];
          if events[k].kind == Shoot {
            totals := AddShot(totals, events[k]);
          }
          k := k + 1;
        }
        assert events[..k] == events;
        assert logs[..j + 1][..j] == logs[..j];
        j := j + 1;
      }
      assert logs[..j] == logs;
      assert encounters[..i + 1][..i] == encounters[..i];
      i := i + 1;
    }
    assert encounters[..i] == encounters;
    r := ShootingStats(
      CalculatePercentage(totals.fgm, totals.fga),
      CalculatePercentage(totals.tpm, totals.tpa),
      CalculatePercentage(totals.ftm, totals.fta),
      totals);
  }

  /** The team service and the player service classify shots alike: the
      counters the player's totals reach are those the team walk reaches. */
  lemma {:induction false} PlayerAndTeamClassifyAlike(t: Totals, events: seq<Event>)
    ensures TallyEvents(t, events).shots == ShotsOfEvents(t.shots, events)
  {
    if events != [] {
      PlayerAndTeamClassifyAlike(t, events[..|events| - 1]);
    }
  }

  /** The number of shots of one class over every document of every
      encounter. */
  function TeamCount(encounters: seq<Encounter>, pts: int, madeOnly: bool): nat {
    if encounters == [] then 0
    else
      TeamCount(encounters[..|encounters| - 1], pts, madeOnly)
      + LogsCount(encounters[|encounters| - 1].individualStats, pts, madeOnly)
  }

  function LogsCount(logs: seq<PlayerLog>, pts: int, madeOnly: bool): nat {
    if logs == [] then 0
    else LogsCount(logs[..|logs| - 1], pts, madeOnly) + CountShots(logs[|logs| - 1].events, pts, madeOnly)
  }

  /** Walking the documents adds, to each counter, the shots of its class. */
  lemma {:induction false} LogsShotsAreCounts(s: Shots, logs: seq<PlayerLog>)
    ensures var r := LogsShots(s, logs);
      r.fta == s.fta + LogsCount(logs, 1, false) && r.ftm == s.ftm + LogsCount(logs, 1, true)
      && r.fga == s.fga + LogsCount(logs, 2, false) + LogsCount(logs, 3, false)
      && r.fgm == s.fgm + LogsCount(logs, 2, true) + LogsCount(logs, 3, true)
      && r.tpa == s.tpa + LogsCount(logs, 3, false) && r.tpm == s.tpm + LogsCount(logs, 3, true)
  {
    if logs != [] {
      var init := logs[..|logs| - 1];
      LogsShotsAreCounts(s, init);
      var t := NoTotals.(shots := LogsShots(s, init));
      PlayerAndTeamClassifyAlike(t, logs[|logs| - 1].events);
      TallyShotsAreCounts(t, logs[|logs| - 1].events);
    }
  }

  /** The team counters recounted class by class over the season. */
  function TeamCountsIn(encounters: seq<Encounter>): Shots {
    Shots(
      TeamCount(encounters, 2, true) + TeamCount(encounters, 3, true),
      TeamCount(encounters, 2, false) + TeamCount(encounters, 3, false),
      TeamCount(encounters, 3, true), TeamCount(encounters, 3, false),
      TeamCount(encounters, 1, true), TeamCount(encounters, 1, false))
  }

  /** The team counters are the numbers of shots of each class over the
      season. */
  lemma {:induction false} TeamShotsAreCounts(encounters: seq<Encounter>)
    ensures TeamShots(encounters) == TeamCountsIn(encounters)
  {
    if encounters != [] {
      var init := encounters[..|encounters| - 1];
      TeamShotsAreCounts(init);
      LogsShotsAreCounts(TeamShots(init), encounters[|encounters| - 1].individualStats);
    }
  }

  /** The team's three percentages: made 2- and 3-point shots over those
      attempted, made 3-point shots over those attempted and made 1-point
      shots over those attempted, each 0 without attempts. */
  lemma TeamPercentagesAreShotRatios(encounters: seq<Encounter>)
    ensures var r := ShootingOf(TeamShots(encounters)); var c := TeamCountsIn(encounters);
      r.fgPercentage == CalculatePercentage(c.fgm, c.fga)
      && r.threePtPercentage == CalculatePercentage(c.tpm, c.tpa)
      && r.ftPercentage == CalculatePercentage(c.ftm, c.fta)
      && r.details == c
  {
    TeamShotsAreCounts(encounters);
  }

  /** The unit-test scenario: a made and a missed 2-pointer, a made
      3-pointer and a made free throw give 2/3, 1/1 and 1/1, that is
      66.7 %, 100.0 % and 100.0 %. */
  lemma ShootingScenario()
    ensures
      var events := [Shot(2, true), Shot(2, false), Shot(3, true), Shot(1, true)];
      var encounter := Encounter(None, None, None, [PlayerLog("", "", "", events)], []);
      ShootingOf(TeamShots([encounter])) == ShootingStats(667, 1000, 1000, Shots(2, 3, 1, 1, 1, 1))
  {
    var events := [Shot(2, true), Shot(2, false), Shot(3, true), Shot(1, true)];
    var encounter := Encounter(None, None, None, [PlayerLog("", "", "", events)], []);
    assert [encounter][..0] == [];
    assert [PlayerLog("", "", "", events)][..0] == [];
    assert events[..1][..0] == [];
    assert events[..2][..1] == events[..1];
    assert events[..3][..2] == events[..2];
    assert ShotsOfEvents(NoShots, events[..1]) == Shots(1, 1, 0, 0, 0, 0);
    assert ShotsOfEvents(NoShots, events[..2]) == Shots(1, 2, 0, 0, 0, 0);
    assert ShotsOfEvents(NoShots, events[..3]) == Shots(2, 3, 1, 1, 0, 0);
    assert ShotsOfEvents(NoShots, events) == Shots(2, 3, 1, 1, 1, 1);
    assert LogsShots(NoShots, [PlayerLog("", "", "", events)]) == Shots(2, 3, 1, 1, 1, 1);
    assert TeamShots([encounter]) == Shots(2, 3, 1, 1, 1, 1);
    assert CalculatePercentage(2, 3) == 667;
    assert CalculatePercentage(1, 1) == 1000;
  }

  // ---------------------------------------------------------------------------
  // The player leaderboard

  /** A roster member with their stored records. */
  datatype Member = Member(id: int, firstname: string, lastname: string, records: seq<StatRecord>)

  /** One leaderboard row: identity fields and the player's averages. */
  datatype PlayerRow = PlayerRow(id: int, firstname: string, lastname: string, stats: PlayerStatsDto)

  function RowOf(m: Member): PlayerRow {
    PlayerRow(m.id, m.firstname, m.lastname, AverageStats(m.records))
  }

  /** The sort key of `usort` with `$b['avgPoints'] <=> $a['avgPoints']`:
      descending average points is ascending negated average points. */
  function DescendingPoints(row: PlayerRow): int {
    -row.stats.avgPoints
  }

  /** `getTeamPlayersStats`: one row per roster member, then a stable sort by
      average points, highest first. */
  method GetTeamPlayersStats(users: seq<Member>) returns (r: seq<PlayerRow>)
    ensures |r| == |users|
    ensures forall i, j :: 0 <= i < j < |r| ==> r[i].stats.avgPoints >= r[j].stats.avgPoints
    ensures multiset(r) == multiset(Sorting.MapSeq(users, RowOf))
    // ties keep roster order
    ensures forall k :: Sorting.WithKey(r, DescendingPoints, k)
                     == Sorting.WithKey(Sorting.MapSeq(users, RowOf), DescendingPoints, k)
  {
    var rows: seq<PlayerRow> := [];
    var i := 0;
    while i < |users|
      invariant 0 <= i <= |users|
      invariant |rows| == i
      invariant forall k :: 0 <= k < i ==> rows[k] == RowOf(users[k])
    {
      var user := users[i];
      var stats := GetAverageStats(user.records);
      rows := rows + [PlayerRow(user.id, user.firstname, user.lastname, stats)];
      i := i + 1;
    }
    assert rows == Sorting.MapSeq(users, RowOf);
    r := Sorting.SortBy(rows, DescendingPoints);
    Leaderboard(rows);
  }

  /** Sorting the rows by descending points orders them highest first, keeps
      every row and keeps tied rows in their order. */
  lemma Leaderboard(rows: seq<PlayerRow>)
    ensures var r := Sorting.SortBy(rows, DescendingPoints);
      |r| == |rows|
      && (forall i, j :: 0 <= i < j < |r| ==> r[i].stats.avgPoints >= r[j].stats.avgPoints)
      && multiset(r) == multiset(rows)
      && forall k :: Sorting.WithKey(r, DescendingPoints, k) == Sorting.WithKey(rows, DescendingPoints, k)
  {
    var r := Sorting.SortBy(rows, DescendingPoints);
    forall i, j | 0 <= i < j < |r|
      ensures r[i].stats.avgPoints >= r[j].stats.avgPoints
    {
      assert DescendingPoints(r[i]) <= DescendingPoints(r[j]);
    }
    forall k ensures Sorting.WithKey(r, DescendingPoints, k) == Sorting.WithKey(rows, DescendingPoints, k) {
      Sorting.SortByIsStable(rows, DescendingPoints, k);
    }
  }

  // ---------------------------------------------------------------------------
  // Per-quarter evolution

  /** Points of the team and of the opponent in one quarter. */
  datatype PeriodScore = PeriodScore(team: int, opponent: int)

  const NoPeriodScores := [PeriodScore(0, 0), PeriodScore(0, 0), PeriodScore(0, 0), PeriodScore(0, 0)]

  /** The state of the walk over one match's events: the quarter in force,
      the four quarters' totals (index 0 is Q1) and whether a made team shot
      has been seen. */
  datatype MatchState = MatchState(current: int, totals: seq<PeriodScore>, hasData: bool)

  predicate MatchStateValid(st: MatchState) {
    1 <= st.current <= 4 && |st.totals| == 4
  }

  /** The quarter in force after `e`: its own period when that is 1..4. */
  function NextCurrent(e: Event, current: int): int {
    if e.period.Some? && 1 <= e.period.value <= 4 then e.period.value else current
  }

  /** A made team shot; `successful` defaults to false. */
  predicate IsTeamScore(e: Event) {
    e.kind == Shoot && e.successful.GetOr(false)
  }

  /** An opponent scoring event; `successful` defaults to true. */
  predicate IsOpponentScore(e: Event) {
    (e.kind == OpponentScore || e.kind == OpponentShoot) && e.successful.GetOr(true)
  }

  /** `$event['points'] ?? $event['value'] ?? 0`. */
  function OpponentPoints(e: Event): int {
    if e.points.Some? then e.points.value else e.value.GetOr(0)
  }

  function AddAt(totals: seq<PeriodScore>, p: int, team: int, opponent: int): (r: seq<PeriodScore>)
    requires |totals| == 4 && 1 <= p <= 4
    ensures |r| == 4
  {
    totals[p - 1 := PeriodScore(totals[p - 1].team + team, totals[p - 1].opponent + opponent)]
  }

  /** One event of the walk: the effective period is the event's own `period`
      if present, else the quarter in force; an event whose effective period
      is outside 1..4 is skipped. */
  function MatchStep(st: MatchState, e: Event): (r: MatchState)
    requires MatchStateValid(st)
    ensures MatchStateValid(r)
  {
    var current := NextCurrent(e, st.current);
    var p := e.period.GetOr(current);
    if p < 1 || p > 4 then st.(current := current)
    else
      MatchState(
        current,
        AddAt(st.totals, p,
          if IsTeamScore(e) then PointsOrZero(e) else 0,
          if IsOpponentScore(e) then OpponentPoints(e) else 0),
        st.hasData || IsTeamScore(e))
  }

  function MatchFold(st: MatchState, events: seq<Event>): (r: MatchState)
    requires MatchStateValid(st)
    ensures MatchStateValid(r)
  {
    if events == [] then st
    else MatchStep(MatchFold(st, events[..|events| - 1]), events[|events| - 1])
  }

  /** A made team shot that the walk counts: one with no period (it takes
      the quarter in force, always 1..4) or a period in 1..4. */
  predicate IsCountedTeamShot(e: Event) {
    IsTeamScore(e) && (e.period.None? || 1 <= e.period.value <= 4)
  }

  /** A match is analysed exactly when it holds a made team shot the walk
      counts. */
  lemma {:induction false} HasDataIffCountedShot(st: MatchState, events: seq<Event>)
    requires MatchStateValid(st)
    ensures MatchFold(st, events).hasData
        <==> st.hasData || exists i :: 0 <= i < |events| && IsCountedTeamShot(events[i])
  {
    if events != [] {
      var init := events[..|events| - 1];
      var e := events[|events| - 1];
      HasDataIffCountedShot(st, init);
      if exists i :: 0 <= i < |init| && IsCountedTeamShot(init[i]) {
        var i :| 0 <= i < |init| && IsCountedTeamShot(init[i]);
        assert events[i] == init[i];
      }
      if exists i :: 0 <= i < |events| && IsCountedTeamShot(events[i]) {
        var i :| 0 <= i < |events| && IsCountedTeamShot(events[i]);
        if i < |init| {
          assert init[i] == events[i];
        }
      }
    }
  }

  /** The team points a match adds: the points of its counted team shots. */
  function CountedTeamPoints(events: seq<Event>): int {
    if events == [] then 0
    else
      var e := events[|events| - 1];
      CountedTeamPoints(events[..|events| - 1]) + (if IsCountedTeamShot(e) then PointsOrZero(e) else 0)
  }

  function TeamTotal(totals: seq<PeriodScore>): int
    requires |totals| == 4
  {
    totals[0].team + totals[1].team + totals[2].team + totals[3].team
  }

  /** Nothing a counted team shot scores is lost: the four quarters together
      gain exactly the points of the counted team shots. */
  lemma {:induction false} TeamPointsConserved(st: MatchState, events: seq<Event>)
    requires MatchStateValid(st)
    ensures TeamTotal(MatchFold(st, events).totals) == TeamTotal(st.totals) + CountedTeamPoints(events)
  {
    if events != [] {
      TeamPointsConserved(st, events[..|events| - 1]);
    }
  }

  /** The quarter in force after a prefix of a match: the period of the last
      event whose period is in 1..4, or 1 when there is none. */
  function LastQuarter(events: seq<Event>): (r: int)
    ensures 1 <= r <= 4
  {
    if events == [] then 1
    else
      var e := events[|events| - 1];
      if e.period.Some? && 1 <= e.period.value <= 4 then e.period.value
      else LastQuarter(events[..|events| - 1])
  }

  /** The quarter event `i` is booked to: its own period when it has one
      (even outside 1..4), else the quarter in force before it. */
  function EffectivePeriod(events: seq<Event>, i: nat): int
    requires i < |events|
  {
    if events[i].period.Some? then events[i].period.value else LastQuarter(events[..i])
  }

  /** The points of the made team shots booked to quarter `q`. */
  function QuarterTeam(events: seq<Event>, q: int): int {
    if events == [] then 0
    else
      var n := |events| - 1;
      QuarterTeam(events[..n], q)
        + (if EffectivePeriod(events, n) == q && IsTeamScore(events[n]) then PointsOrZero(events[n]) else 0)
  }

  /** The points of the opponent scoring events booked to quarter `q`. */
  function QuarterOpponent(events: seq<Event>, q: int): int {
    if events == [] then 0
    else
      var n := |events| - 1;
      QuarterOpponent(events[..n], q)
        + (if EffectivePeriod(events, n) == q && IsOpponentScore(events[n]) then OpponentPoints(events[n]) else 0)
  }

  /** The walk over one match, from quarter 1, ends in the last quarter seen
      and adds to each quarter exactly the team and opponent points of the
      events booked to it; events booked outside 1..4 add nothing anywhere. */
  lemma {:induction false} MatchFoldByQuarter(totals: seq<PeriodScore>, events: seq<Event>)
    requires |totals| == 4
    ensures var r := MatchFold(MatchState(1, totals, false), events);
      r.current == LastQuarter(events)
      && forall k :: 0 <= k < 4 ==>
        r.totals[k] == PeriodScore(totals[k].team + QuarterTeam(events, k + 1),
                                   totals[k].opponent + QuarterOpponent(events, k + 1))
  {
    if events != [] {
      var n := |events| - 1;
      var init := events[..n];
      var e := events[n];
      MatchFoldByQuarter(totals, init);
      var before := MatchFold(MatchState(1, totals, false), init);
      var after := MatchStep(before, e);
      assert MatchFold(MatchState(1, totals, false), events) == after;
      assert EffectivePeriod(events, n) == e.period.GetOr(NextCurrent(e, before.current));
    }
  }

  /** The opponent rule: `successful` defaults to true for the opponent, to
      false for the team; the opponent's points are `points`, else `value`,
      else 0. A missed opponent shot and a team shot with no `successful`
      score nothing; the walk stays in quarter 2 after the first event. */
  lemma OpponentDefaults()
    ensures
      var z := PeriodScore(0, 0);
      MatchFold(MatchState(1, NoPeriodScores, false),
        [Event(OpponentScore, Some(2), None, Some(3), None, None),
         Event(OpponentShoot, None, Some(2), None, Some(false), None),
         Event(Shoot, None, Some(2), None, None, None),
         Event(OpponentShoot, None, Some(2), Some(5), None, None)])
      == MatchState(2, [z, PeriodScore(0, 5), z, z], false)
  {
    var events := [Event(OpponentScore, Some(2), None, Some(3), None, None),
      Event(OpponentShoot, None, Some(2), None, Some(false), None),
      Event(Shoot, None, Some(2), None, None, None),
      Event(OpponentShoot, None, Some(2), Some(5), None, None)];
    var start := MatchState(1, NoPeriodScores, false);
    var z := PeriodScore(0, 0);
    assert events[..1][..0] == [];
    assert MatchFold(start, events[..1]) == MatchState(2, [z, PeriodScore(0, 3), z, z], false);
    assert events[..2][..1] == events[..1];
    assert MatchFold(start, events[..2]) == MatchState(2, [z, PeriodScore(0, 3), z, z], false);
    assert events[..3][..2] == events[..2];
    assert MatchFold(start, events[..3]) == MatchState(2, [z, PeriodScore(0, 3), z, z], false);
    assert events[..4][..3] == events[..3];
    assert events[..4] == events;
  }

  /** The accumulated totals over the encounters and the number of analysed
      matches. */
  datatype Accumulated = Accumulated(totals: seq<PeriodScore>, matchCount: nat)

  /** The walk over the team's encounters: an encounter without a raw recap
      is skipped; otherwise only its first recap is read, the quarter in force
      starts at 1, and the match counts if a made team shot was seen. */
  function EncounterFold(encounters: seq<Encounter>): (r: Accumulated)
    ensures |r.totals| == 4
    ensures r.matchCount == |Filter(encounters, IsAnalysed)|
    ensures r.matchCount <= |Filter(encounters, HasRecap)|
  {
    if encounters == [] then Accumulated(NoPeriodScores, 0)
    else
      var init := encounters[..|encounters| - 1];
      var enc := encounters[|encounters| - 1];
      var acc := EncounterFold(init);
      FilterSnoc(init, enc, HasRecap);
      FilterSnoc(init, enc, IsAnalysed);
      assert init + [enc] == encounters;
      if |enc.encounterStats| == 0 then acc
      else
        var m := MatchFold(MatchState(1, acc.totals, false), enc.encounterStats[0].events);
        HasDataIffCountedShot(MatchState(1, acc.totals, false), enc.encounterStats[0].events);
        Accumulated(m.totals, acc.matchCount + (if m.hasData then 1 else 0))
  }

  predicate HasRecap(e: Encounter) {
    |e.encounterStats| > 0
  }

  /** An encounter the averages divide by: its first raw recap holds a made
      team shot that the walk counts. */
  predicate IsAnalysed(e: Encounter) {
    |e.encounterStats| > 0
    && exists i :: 0 <= i < |e.encounterStats[0].events| && IsCountedTeamShot(e.encounterStats[0].events[i])
  }

  /** Quarter `q`'s points over a season: every encounter with a raw recap
      contributes the points its first recap books to `q`, whether or not
      the match counts as analysed. */
  function SeasonQuarter(encounters: seq<Encounter>, q: int): PeriodScore {
    if encounters == [] then PeriodScore(0, 0)
    else
      var before := SeasonQuarter(encounters[..|encounters| - 1], q);
      var enc := encounters[|encounters| - 1];
      if HasRecap(enc) then
        var events := enc.encounterStats[0].events;
        PeriodScore(before.team + QuarterTeam(events, q), before.opponent + QuarterOpponent(events, q))
      else before
  }

  /** The season walk's totals are the per-quarter season sums. */
  lemma {:induction false} EncounterFoldByQuarter(encounters: seq<Encounter>)
    ensures forall k :: 0 <= k < 4 ==> EncounterFold(encounters).totals[k] == SeasonQuarter(encounters, k + 1)
  {
    if encounters != [] {
      var init := encounters[..|encounters| - 1];
      var enc := encounters[|encounters| - 1];
      EncounterFoldByQuarter(init);
      if HasRecap(enc) {
        MatchFoldByQuarter(EncounterFold(init).totals, enc.encounterStats[0].events);
      }
    }
  }

  /** One entry of the cumulative series ("Q1".."Q4"): running sums of the
      rounded quarter averages and their difference. */
  datatype EvolutionEntry = EvolutionEntry(period: nat, teamScore: int, opponentScore: int, diff: int)

  /** The per-quarter averages, tenths; 0 when no match was analysed. */
  function Averages(totals: seq<PeriodScore>, matchCount: nat): (r: seq<PeriodScore>)
    requires |totals| == 4
    ensures |r| == 4
    ensures matchCount == 0 ==> forall k :: 0 <= k < 4 ==> r[k] == PeriodScore(0, 0)
  {
    seq(4, k requires 0 <= k < 4 =>
      PeriodScore(CalculateAverage(totals[k].team, matchCount), CalculateAverage(totals[k].opponent, matchCount)))
  }

  function SumTeam(avgs: seq<PeriodScore>): int {
    if avgs == [] then 0 else SumTeam(avgs[..|avgs| - 1]) + avgs[|avgs| - 1].team
  }

  function SumOpponent(avgs: seq<PeriodScore>): int {
    if avgs == [] then 0 else SumOpponent(avgs[..|avgs| - 1]) + avgs[|avgs| - 1].opponent
  }

  /** The cumulative series over the quarter averages. */
  function Evolution(avgs: seq<PeriodScore>): (r: seq<EvolutionEntry>)
    ensures |r| == |avgs|
    ensures forall i :: 0 <= i < |r| ==> r[i].period == i + 1
  {
    if avgs == [] then []
    else
      var n := |avgs|;
      var team := SumTeam(avgs);
      var opponent := SumOpponent(avgs);
      Evolution(avgs[..n - 1]) + [EvolutionEntry(n, team, opponent, team - opponent)]
  }

  /** Entry i of the series holds the running sums of quarters 1..i+1 and
      the difference of the two. */
  lemma {:induction false} EvolutionIsCumulative(avgs: seq<PeriodScore>, i: nat)
    requires i < |avgs|
    ensures Evolution(avgs)[i].teamScore == SumTeam(avgs[..i + 1])
    ensures Evolution(avgs)[i].opponentScore == SumOpponent(avgs[..i + 1])
    ensures Evolution(avgs)[i].diff == Evolution(avgs)[i].teamScore - Evolution(avgs)[i].opponentScore
  {
    var n := |avgs|;
    if i < n - 1 {
      EvolutionIsCumulative(avgs[..n - 1], i);
      assert avgs[..n - 1][..i + 1] == avgs[..i + 1];
    } else {
      assert avgs[..i + 1] == avgs;
    }
  }

  /** The result of `getPeriodStats`. */
  datatype PeriodStats = PeriodStats(perPeriod: seq<PeriodScore>, evolution: seq<EvolutionEntry>, matchesAnalyzed: nat)

  function PeriodStatsOf(encounters: seq<Encounter>): (r: PeriodStats)
    ensures |r.perPeriod| == 4 && |r.evolution| == 4
    ensures r.matchesAnalyzed == |Filter(encounters, IsAnalysed)|
  {
    var acc := EncounterFold(encounters);
    var avgs := Averages(acc.totals, acc.matchCount);
    PeriodStats(avgs, Evolution(avgs), acc.matchCount)
  }

  /** Each quarter of the result is the season's points booked to that
      quarter divided by the number of analysed matches, rounded to tenths. */
  lemma PerPeriodAverages(encounters: seq<Encounter>, k: nat)
    requires k < 4
    ensures var n := |Filter(encounters, IsAnalysed)|;
      var total := SeasonQuarter(encounters, k + 1);
      PeriodStatsOf(encounters).perPeriod[k]
        == PeriodScore(CalculateAverage(total.team, n), CalculateAverage(total.opponent, n))
  {
    EncounterFoldByQuarter(encounters);
  }

  /** `getPeriodStats`: the carry-forward walk over every encounter's first
      raw recap, then the averages and the cumulative series. */
  method GetPeriodStats(encounters: seq<Encounter>) returns (r: PeriodStats)
    ensures r == PeriodStatsOf(encounters)
    ensures |r.perPeriod| == 4 && |r.evolution| == 4
    ensures r.matchesAnalyzed == |Filter(encounters, IsAnalysed)|
    ensures r.matchesAnalyzed <= |Filter(encounters, HasRecap)|
  {
    var periodTotals := NoPeriodScores;
    var matchCount: nat := 0;
    var i := 0;
    while i < |encounters|
      invariant 0 <= i <= |encounters|
      invariant EncounterFold(encounters[..i]) == Accumulated(periodTotals, matchCount)
    {
      assert encounters[..i + 1][..i] == encounters[..i];
      var encounter := encounters[i];
      if |encounter.encounterStats| > 0 {
        var hasData;
        periodTotals, hasData := WalkMatch(encounter.encounterStats[0].events, periodTotals);
        if hasData {
          matchCount := matchCount + 1;
        }
      }
      i := i + 1;
    }
    assert encounters[..i] == encounters;
    r := Summarise(periodTotals, matchCount);
  }

  /** The walk over one match's events, the quarter in force starting at 1. */
  method WalkMatch(events: seq<Event>, totals: seq<PeriodScore>) returns (periodTotals: seq<PeriodScore>, hasData: bool)
    requires |totals| == 4
    ensures MatchFold(MatchState(1, totals, false), events).totals == periodTotals
    ensures MatchFold(MatchState(1, totals, false), events).hasData == hasData
  {
    periodTotals := totals;
    hasData := false;
    var currentPeriod := 1;
    var j := 0;
    while j < |events|
      invariant 0 <= j <= |events|
      invariant MatchFold(MatchState(1, totals, false), events[..j]) == MatchState(currentPeriod, periodTotals, hasData)
    {
      assert events[..j + 1][..j] == events[..j];
      var event := events[j];
      currentPeriod := NextCurrent(event, currentPeriod);
      var period := if event.period.Some? then event.period.value else currentPeriod;
      if 1 <= period <= 4 {
        if IsTeamScore(event) {
          periodTotals := AddAt(periodTotals, period, PointsOrZero(event), 0);
          hasData := true;
        }
        if IsOpponentScore(event) {
          periodTotals := AddAt(periodTotals, period, 0, OpponentPoints(event));
        }
      }
      j := j + 1;
    }
    assert events[..j] == events;
  }

  /** The per-quarter averages and the cumulative series built from them. */
  method Summarise(periodTotals: seq<PeriodScore>, matchCount: nat) returns (r: PeriodStats)
    requires |periodTotals| == 4
    ensures r.perPeriod == Averages(periodTotals, matchCount)
    ensures r.evolution == Evolution(r.perPeriod)
    ensures r.matchesAnalyzed == matchCount
  {
    var averages: seq<PeriodScore> := [];
    var evolution: seq<EvolutionEntry> := [];
    var cumulativeTeam := 0;
    var cumulativeOpponent := 0;
    ghost var avgs := Averages(periodTotals, matchCount);
    var p := 1;
    while p <= 4
      invariant 1 <= p <= 5
      invariant averages == avgs[..p - 1]
      invariant evolution == Evolution(averages)
      invariant cumulativeTeam == SumTeam(averages) && cumulativeOpponent == SumOpponent(averages)
    {
      var avgTeam := CalculateAverage(periodTotals[p - 1].team, matchCount);
      var avgOpponent := CalculateAverage(periodTotals[p - 1].opponent, matchCount);
      assert avgs[p - 1] == PeriodScore(avgTeam, avgOpponent);
      var before := averages;
      averages := averages + [PeriodScore(avgTeam, avgOpponent)];
      assert averages == avgs[..p];
      assert averages[..p - 1] == before;
      cumulativeTeam := cumulativeTeam + avgTeam;
      cumulativeOpponent := cumulativeOpponent + avgOpponent;
      assert SumTeam(averages) == cumulativeTeam && SumOpponent(averages) == cumulativeOpponent;
      assert Evolution(averages) == evolution + [EvolutionEntry(p, cumulativeTeam, cumulativeOpponent, cumulativeTeam - cumulativeOpponent)];
      evolution := evolution + [EvolutionEntry(p, cumulativeTeam, cumulativeOpponent, cumulativeTeam - cumulativeOpponent)];
      p := p + 1;
    }
    assert averages == avgs;
    r := PeriodStats(averages, evolution, matchCount);
  }

  /** The events of the unit-test scenario: Q1 made shots worth 2, 3, 2 and
      3 and an opponent score of 5; Q2 made shots worth 2 and 3 and an
      opponent score of 10. */
  function ScenarioEvents(): seq<Event> {
    [QuarterEvent(Shoot, 1, 2), QuarterEvent(Shoot, 1, 3), QuarterEvent(Shoot, 1, 2), QuarterEvent(Shoot, 1, 3),
     QuarterEvent(OpponentScore, 1, 5),
     QuarterEvent(Shoot, 2, 2), QuarterEvent(Shoot, 2, 3),
     QuarterEvent(OpponentScore, 2, 10)]
  }

  lemma ScenarioWalk()
    ensures MatchFold(MatchState(1, NoPeriodScores, false), ScenarioEvents())
         == MatchState(2, [PeriodScore(10, 5), PeriodScore(5, 10), PeriodScore(0, 0), PeriodScore(0, 0)], true)
  {
    var events := ScenarioEvents();
    var start := MatchState(1, NoPeriodScores, false);
    var z := PeriodScore(0, 0);
    assert events[..1][..0] == [];
    assert MatchFold(start, events[..1]) == MatchState(1, [PeriodScore(2, 0), z, z, z], true);
    assert events[..2][..1] == events[..1];
    assert MatchFold(start, events[..2]) == MatchState(1, [PeriodScore(5, 0), z, z, z], true);
    assert events[..3][..2] == events[..2];
    assert MatchFold(start, events[..3]) == MatchState(1, [PeriodScore(7, 0), z, z, z], true);
    assert events[..4][..3] == events[..3];
    assert MatchFold(start, events[..4]) == MatchState(1, [PeriodScore(10, 0), z, z, z], true);
    assert events[..5][..4] == events[..4];
    assert MatchFold(start, events[..5]) == MatchState(1, [PeriodScore(10, 5), z, z, z], true);
    assert events[..6][..5] == events[..5];
    assert MatchFold(start, events[..6]) == MatchState(2, [PeriodScore(10, 5), PeriodScore(2, 0), z, z], true);
    assert events[..7][..6] == events[..6];
    assert MatchFold(start, events[..7]) == MatchState(2, [PeriodScore(10, 5), PeriodScore(5, 0), z, z], true);
    assert events[..8][..7] == events[..7];
    assert events[..8] == events;
  }

  /** The unit-test scenario: one analysed match scoring 10-5 in Q1 and 5-10
      in Q2 gives quarter averages 10.0-5.0 and 5.0-10.0 and a series that
      reads 10.0-5.0 after Q1 and 15.0-15.0 after Q2. */
  lemma PeriodScenario()
    ensures
      var r := PeriodStatsOf([Encounter(None, None, None, [], [Recap(Score(0, 0), [], ScenarioEvents())])]);
      r.matchesAnalyzed == 1
      && r.perPeriod[0] == PeriodScore(100, 50) && r.perPeriod[1] == PeriodScore(50, 100)
      && r.evolution[0] == EvolutionEntry(1, 100, 50, 50)
      && r.evolution[1] == EvolutionEntry(2, 150, 150, 0)
  {
    var encounter := Encounter(None, None, None, [], [Recap(Score(0, 0), [], ScenarioEvents())]);
    var totals := [PeriodScore(10, 5), PeriodScore(5, 10), PeriodScore(0, 0), PeriodScore(0, 0)];
    ScenarioWalk();
    assert [encounter][..0] == [];
    assert EncounterFold([encounter]) == Accumulated(totals, 1);
    var avgs := Averages(totals, 1);
    assert avgs[0] == PeriodScore(100, 50) && avgs[1] == PeriodScore(50, 100);
    EvolutionIsCumulative(avgs, 0);
    EvolutionIsCumulative(avgs, 1);
    assert avgs[..2][..1] == avgs[..1];
    assert avgs[..1][..0] == [];
  }

  /** A scoring event with an explicit period, made. */
  function QuarterEvent(kind: EventType, period: int, points: int): Event {
    Event(kind, Some(period), Some(points), None, Some(true), None)
  }

  /** The corrected guard: an event whose own period is outside 1..4 changes
      nothing at all. */
  lemma OutOfRangePeriodSkipped(st: MatchState, e: Event)
    requires MatchStateValid(st)
    requires e.period.Some? && (e.period.value < 1 || e.period.value > 4)
    ensures MatchStep(st, e) == st
  {
  }

  // ---------------------------------------------------------------------------
  // The guard as written

  /** The walk's state as written: the totals are a PHP array keyed by period,
      created with keys 1..4; `keys` is its iteration order, which a write
      to a new key extends at the end. */
  datatype WrittenState = WrittenState(current: int, totals: map<int, PeriodScore>, keys: seq<int>, hasData: bool)

  const WrittenStart := WrittenState(1,
    map[1 := PeriodScore(0, 0), 2 := PeriodScore(0, 0), 3 := PeriodScore(0, 0), 4 := PeriodScore(0, 0)],
    [1, 2, 3, 4], false)

  /** One event with the guard as written, which skips only a period above 4.
      A write to a period that is not a key creates it (its other side reading
      as null, that is 0). */
  function WrittenStep(st: WrittenState, e: Event): (r: WrittenState)
    ensures r.current == NextCurrent(e, st.current)
    ensures st.keys <= r.keys
  {
    var current := NextCurrent(e, st.current);
    var p := e.period.GetOr(current);
    if p > 4 || (!IsTeamScore(e) && !IsOpponentScore(e)) then st.(current := current)
    else
      var before := if p in st.totals then st.totals[p] else PeriodScore(0, 0);
      var team := if IsTeamScore(e) then PointsOrZero(e) else 0;
      var opponent := if IsOpponentScore(e) then OpponentPoints(e) else 0;
      WrittenState(
        current,
        st.totals[p := PeriodScore(before.team + team, before.opponent + opponent)],
        if p in st.totals then st.keys else st.keys + [p],
        st.hasData || IsTeamScore(e))
  }

  /** The written state mirrors the corrected one: the same four quarters in
      the same order, the same quarter in force and the same flag. */
  predicate Mirrors(ws: WrittenState, st: MatchState)
    requires MatchStateValid(st)
  {
    ws.keys == [1, 2, 3, 4]
    && ws.totals.Keys == {1, 2, 3, 4}
    && (forall k :: 1 <= k <= 4 ==> ws.totals[k] == st.totals[k - 1])
    && ws.current == st.current && ws.hasData == st.hasData
  }

  /** The two guards differ only on an explicit period below 1: on every other
      event the written walk keeps mirroring the corrected one. */
  lemma WrittenAgreesAboveZero(ws: WrittenState, st: MatchState, e: Event)
    requires MatchStateValid(st) && Mirrors(ws, st)
    requires e.period.None? || e.period.value >= 1
    ensures Mirrors(WrittenStep(ws, e), MatchStep(st, e))
  {
  }

  /** The input the written guard lets through: a made 2-pointer tagged
      period 0 creates a fifth bucket, iterated after Q4, so `per_period`
      gets five entries and the series a fifth point "Q0"; the match counts
      as analysed. The corrected walk skips the event and the match is not
      analysed. */
  lemma PeriodZeroAddsBucket()
    ensures
      var e := QuarterEvent(Shoot, 0, 2);
      var written := WrittenStep(WrittenStart, e);
      written.keys == [1, 2, 3, 4, 0] && written.totals[0] == PeriodScore(2, 0) && written.hasData
      && MatchStep(MatchState(1, NoPeriodScores, false), e) == MatchState(1, NoPeriodScores, false)
  {
  }
}
