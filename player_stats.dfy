/** Player aggregation: averages and shooting percentages over every stored
    per-player log of one user, the per-match series of one statistic, and the
    four-quarter breakdown of one match. Rounded values are integer tenths. */
module PlayerStats {
  import opened Common
  import opened Events
  import opened Rounding
  import Sorting

  // ---------------------------------------------------------------------------
  // Shot classification and the running totals

  /** Shooting counters: field goals, three-pointers and free throws, made
      and attempted. */
  datatype Shots = Shots(fgm: nat, fga: nat, tpm: nat, tpa: nat, ftm: nat, fta: nat)

  const NoShots := Shots(0, 0, 0, 0, 0, 0)

  /** What the counters always satisfy: nothing is made more often than it is
      attempted, and three-pointers are a part of the field goals. */
  predicate ShotsValid(s: Shots) {
    s.ftm <= s.fta && s.fgm <= s.fga && s.tpm <= s.tpa && s.tpa <= s.fga && s.tpm <= s.fgm
  }

  /** A shot is classified when its `points` value is exactly 1, 2 or 3. */
  predicate IsClassified(e: Event) {
    e.points == Some(1) || e.points == Some(2) || e.points == Some(3)
  }

  /** Classifies one shot by its `points` value: 1 is a free throw, 2 a field
      goal, 3 a field goal that is also a three-pointer; any other value
      changes nothing. */
  function AddShot(s: Shots, e: Event): (r: Shots)
    ensures ShotsValid(s) ==> ShotsValid(r)
    ensures r.fta + r.fga == s.fta + s.fga + (if IsClassified(e) then 1 else 0)
    ensures r.ftm + r.fgm == s.ftm + s.fgm + (if IsClassified(e) && IsSuccessful(e) then 1 else 0)
    ensures r.fta == s.fta + (if e.points == Some(1) then 1 else 0)
    ensures r.ftm == s.ftm + (if e.points == Some(1) && IsSuccessful(e) then 1 else 0)
    ensures r.fga == s.fga + (if e.points == Some(2) || e.points == Some(3) then 1 else 0)
    ensures r.fgm == s.fgm + (if (e.points == Some(2) || e.points == Some(3)) && IsSuccessful(e) then 1 else 0)
    ensures r.tpa == s.tpa + (if e.points == Some(3) then 1 else 0)
    ensures r.tpm == s.tpm + (if e.points == Some(3) && IsSuccessful(e) then 1 else 0)
    ensures !IsClassified(e) ==> r == s
  {
    var made := if IsSuccessful(e) then 1 else 0;
    if e.points == Some(1) then
      s.(fta := s.fta + 1, ftm := s.ftm + made)
    else if e.points == Some(2) then
      s.(fga := s.fga + 1, fgm := s.fgm + made)
    else if e.points == Some(3) then
      s.(fga := s.fga + 1, tpa := s.tpa + 1, fgm := s.fgm + made, tpm := s.tpm + made)
    else
      s
  }

  /** The running totals of `getAverageStats`. */
  datatype Totals = Totals(
    points: nat, rebounds: nat, assists: nat, steals: nat, turnovers: nat, fouls: nat,
    shots: Shots)

  const NoTotals := Totals(0, 0, 0, 0, 0, 0, NoShots)

  /** The points a shot adds to the player's total: its value when it is made
      and classified, otherwise nothing. */
  function MadePoints(e: Event): nat {
    if IsSuccessful(e) && IsClassified(e) then e.points.value else 0
  }

  /** `processShootEvent`: adds one shot to the totals. */
  function ProcessShootEvent(e: Event, t: Totals): (r: Totals)
    ensures ShotsValid(t.shots) ==> ShotsValid(r.shots)
    ensures r.points == t.points + (if IsSuccessful(e) && IsClassified(e) then e.points.value else 0)
    ensures r.(points := t.points, shots := t.shots) == t
    ensures r.shots == AddShot(t.shots, e)
  {
    t.(points := t.points + MadePoints(e), shots := AddShot(t.shots, e))
  }

  /** One pass of the `switch` over an event's type. */
  function TallyEvent(t: Totals, e: Event): (r: Totals)
    ensures r.rebounds == t.rebounds + (if e.kind == Rebound then 1 else 0)
    ensures r.assists == t.assists + (if e.kind == Pass then 1 else 0)
    ensures r.steals == t.steals + (if e.kind == Steal then 1 else 0)
    ensures r.turnovers == t.turnovers + (if e.kind == Turnover then 1 else 0)
    ensures r.fouls == t.fouls + (if e.kind == Foul then 1 else 0)
    ensures e.kind != Shoot ==> r.points == t.points && r.shots == t.shots
    ensures e.kind == Shoot ==> r == ProcessShootEvent(e, t)
  {
    match e.kind
    case Rebound => t.(rebounds := t.rebounds + 1)
    case Pass => t.(assists := t.assists + 1)
    case Steal => t.(steals := t.steals + 1)
    case Turnover => t.(turnovers := t.turnovers + 1)
    case Foul => t.(fouls := t.fouls + 1)
    case Shoot => ProcessShootEvent(e, t)
    case _ => t
  }

  /** The totals after walking `events`, starting from `t`. */
  function TallyEvents(t: Totals, events: seq<Event>): (r: Totals)
    ensures ShotsValid(t.shots) ==> ShotsValid(r.shots)
    ensures r.points >= t.points && r.rebounds >= t.rebounds
  {
    if events == [] then t
    else TallyEvent(TallyEvents(t, events[..|events| - 1]), events[|events| - 1])
  }

  // ---------------------------------------------------------------------------
  // Stored records and the averages

  /** One `individual_stats` row of the player, with its encounter's id and
      date (`happens_at`, as a timestamp). */
  datatype StatRecord = StatRecord(encounterId: nat, happensAt: int, log: PlayerLog)

  /** The totals over every event of every record, in order. */
  function TallyRecords(records: seq<StatRecord>): (r: Totals)
    ensures ShotsValid(r.shots)
  {
    if records == [] then NoTotals
    else TallyEvents(TallyRecords(records[..|records| - 1]), records[|records| - 1].log.events)
  }

  /** `PlayerStatsDTO`; averages and percentages in tenths. */
  datatype PlayerStatsDto = PlayerStatsDto(
    matchesPlayed: nat,
    avgPoints: int, avgRebounds: int, avgAssists: int,
    avgSteals: int, avgTurnovers: int, avgFouls: int,
    fgPercentage: int, threePtPercentage: int, ftPercentage: int)

  /** `emptyStats`: the result for a player with no data. */
  function EmptyStats(): PlayerStatsDto {
    PlayerStatsDto(0, 0, 0, 0, 0, 0, 0, 0, 0, 0)
  }

  /** `calculateAverage`: `total / count` rounded to one decimal, 0 when
      there is nothing to divide by. */
  function CalculateAverage(total: int, count: nat): (r: int)
    ensures count == 0 ==> r == 0
    ensures count > 0 && total >= 0 ==> r >= 0 && count * (2 * r - 1) <= 20 * total < count * (2 * r + 1)
    ensures count > 0 && total < 0 ==> r <= 0 && count * (2 * r - 1) < 20 * total <= count * (2 * r + 1)
  {
    if count == 0 then 0 else RoundTenths(total, count)
  }

  /** `calculatePercentage`: `made / attempted * 100` rounded to one decimal,
      0 when nothing was attempted. */
  function CalculatePercentage(made: int, attempted: nat): (r: int)
    ensures attempted == 0 ==> r == 0
    ensures 0 <= made <= attempted ==> 0 <= r <= 1000
    ensures attempted > 0 && made >= 0 ==> attempted * (2 * r - 1) <= 2000 * made < attempted * (2 * r + 1)
  {
    if attempted == 0 then 0
    else
      RoundTenthsOfFraction(made, attempted, 100);
      RoundTenths(100 * made, attempted)
  }

  /** What `getAverageStats` returns for the given records. */
  function AverageStats(records: seq<StatRecord>): (r: PlayerStatsDto)
    ensures r.matchesPlayed == |records|
    ensures records == [] ==> r == EmptyStats()
    ensures 0 <= r.fgPercentage <= 1000 && 0 <= r.threePtPercentage <= 1000 && 0 <= r.ftPercentage <= 1000
    ensures r.avgPoints >= 0 && r.avgRebounds >= 0
  {
    if records == [] then EmptyStats()
    else
      var n := |records|;
      var t := TallyRecords(records);
      PlayerStatsDto(
        n,
        CalculateAverage(t.points, n), CalculateAverage(t.rebounds, n), CalculateAverage(t.assists, n),
        CalculateAverage(t.steals, n), CalculateAverage(t.turnovers, n), CalculateAverage(t.fouls, n),
        CalculatePercentage(t.shots.fgm, t.shots.fga),
        CalculatePercentage(t.shots.tpm, t.shots.tpa),
        CalculatePercentage(t.shots.ftm, t.shots.fta))
  }

  /** `getAverageStats`: walks every record and every event, tallying. */
  method GetAverageStats(records: seq<StatRecord>) returns (r: PlayerStatsDto)
    ensures r == AverageStats(records)
  {
    if |records| == 0 {
      return EmptyStats();
    }
    var matchesPlayed := |records|;
    var totals := NoTotals;
    var i := 0;
    while i < |records|
      invariant 0 <= i <= |records|
      invariant totals == TallyRecords(records[..i])
    {
      var events := records[i].log.events;
      var j := 0;
      while j < |events|
        invariant 0 <= j <= |events|
        invariant totals == TallyEvents(TallyRecords(records[..i]), events[..j])
      {
        assert events[..j + 1][..j] == events[..j];
        totals := TallyEvent(totals, events[j]);
        j := j + 1;
      }
      assert events[..j] == events;
      assert records[..i + 1][..i] == records[..i];
      i := i + 1;
    }
    assert records[..i] == records;
    r := PlayerStatsDto(
      matchesPlayed,
      CalculateAverage(totals.points, matchesPlayed),
      CalculateAverage(totals.rebounds, matchesPlayed),
      CalculateAverage(totals.assists, matchesPlayed),
      CalculateAverage(totals.steals, matchesPlayed),
      CalculateAverage(totals.turnovers, matchesPlayed),
      CalculateAverage(totals.fouls, matchesPlayed),
      CalculatePercentage(totals.shots.fgm, totals.shots.fga),
      CalculatePercentage(totals.shots.tpm, totals.shots.tpa),
      CalculatePercentage(totals.shots.ftm, totals.shots.fta));
  }

  /** The unit-test scenario: a player with two matches, 10 and 20 points
      and 5 and 1 rebounds, averages 15.0 points and 3.0 rebounds. */
  lemma AverageScenario()
    ensures
      var made2, made3, reb := Shot(2, true), Shot(3, true), Plain(Rebound);
      var match1 := [made2, made2, made3, made3, reb, reb, reb, reb, reb];
      var match2 := [made2, made2, made2, made2, made2, made2, made2, made2, made2, made2, reb];
      var records := [StatRecord(1, 1, PlayerLog("", "", "", match1)), StatRecord(2, 2, PlayerLog("", "", "", match2))];
      var stats := AverageStats(records);
      stats.matchesPlayed == 2 && stats.avgPoints == 150 && stats.avgRebounds == 30
  {
    var made2, made3, reb := Shot(2, true), Shot(3, true), Plain(Rebound);
    var match1 := [made2, made2, made3, made3, reb, reb, reb, reb, reb];
    var match2 := [made2, made2, made2, made2, made2, made2, made2, made2, made2, made2, reb];
    var records := [StatRecord(1, 1, PlayerLog("", "", "", match1)), StatRecord(2, 2, PlayerLog("", "", "", match2))];
    var t1 := TallyEvents(NoTotals, match1);
    assert t1.points == 10 && t1.rebounds == 5 by {
      TallyEventsOfRun(NoTotals, [made2, made2, made3, made3], [reb, reb, reb, reb, reb]);
      assert [made2, made2, made3, made3] == [made2, made2] + [made3, made3];
      SumMadePointsAppend([made2, made2], [made3, made3]);
      SumMadePointsRun([made2, made2], made2);
      SumMadePointsRun([made3, made3], made3);
      assert match1 == [made2, made2, made3, made3] + [reb, reb, reb, reb, reb];
    }
    assert records[..1] == [records[0]];
    assert TallyRecords(records[..1]) == t1;
    var t2 := TallyEvents(t1, match2);
    assert t2.points == 30 && t2.rebounds == 6 by {
      var tens := [made2, made2, made2, made2, made2, made2, made2, made2, made2, made2];
      TallyEventsOfRun(t1, tens, [reb]);
      SumMadePointsRun(tens, made2);
      assert match2 == tens + [reb];
    }
    assert records[..2] == records;
    assert TallyRecords(records) == t2;
  }

  /** Walking shots then rebounds adds the made points of the shots and one
      rebound per rebound event. */
  lemma {:induction false} TallyEventsOfRun(t: Totals, shots: seq<Event>, rebounds: seq<Event>)
    requires forall i :: 0 <= i < |shots| ==> shots[i].kind == Shoot && IsSuccessful(shots[i]) && IsClassified(shots[i])
    requires forall i :: 0 <= i < |rebounds| ==> rebounds[i] == Plain(Rebound)
    ensures TallyEvents(t, shots + rebounds).points == t.points + SumMadePoints(shots)
    ensures TallyEvents(t, shots + rebounds).rebounds == t.rebounds + |rebounds|
    decreases |shots| + |rebounds|
  {
    var all := shots + rebounds;
    if rebounds != [] {
      var rs := rebounds[..|rebounds| - 1];
      assert all[..|all| - 1] == shots + rs;
      TallyEventsOfRun(t, shots, rs);
    } else if shots != [] {
      var ss := shots[..|shots| - 1];
      assert all == shots;
      assert all[..|all| - 1] == ss + [];
      TallyEventsOfRun(t, ss, []);
      assert shots == ss + [shots[|shots| - 1]];
      SumMadePointsSnoc(ss, shots[|shots| - 1]);
    } else {
      assert all == [];
    }
  }

  // ---------------------------------------------------------------------------
  // The historical series

  /** The sum of `points` over the successful shoot events (a missing
      `points` adds 0), with no 1/2/3 filter. */
  function SumMadePoints(events: seq<Event>): int {
    if events == [] then 0
    else SumMadePoints(events[..|events| - 1]) + ShotPoints(events[|events| - 1])
  }

  /** What one event adds to the "points" series entry. */
  function ShotPoints(e: Event): int {
    if e.kind == Shoot && IsSuccessful(e) then PointsOrZero(e) else 0
  }

  lemma SumMadePointsSnoc(events: seq<Event>, e: Event)
    ensures SumMadePoints(events + [e]) == SumMadePoints(events) + ShotPoints(e)
  {
    assert (events + [e])[..|events|] == events;
  }

  lemma {:induction false} SumMadePointsAppend(a: seq<Event>, b: seq<Event>)
    ensures SumMadePoints(a + b) == SumMadePoints(a) + SumMadePoints(b)
    decreases |b|
  {
    if b != [] {
      var b' := b[..|b| - 1];
      assert a + b == (a + b') + [b[|b| - 1]];
      assert b == b' + [b[|b| - 1]];
      SumMadePointsAppend(a, b');
      SumMadePointsSnoc(a + b', b[|b| - 1]);
      SumMadePointsSnoc(b', b[|b| - 1]);
    } else {
      assert a + b == a;
    }
  }

  /** A run of copies of one event adds its points once per copy. */
  lemma {:induction false} SumMadePointsRun(s: seq<Event>, e: Event)
    requires forall i :: 0 <= i < |s| ==> s[i] == e
    ensures SumMadePoints(s) == |s| * ShotPoints(e)
  {
    if s != [] {
      var s' := s[..|s| - 1];
      SumMadePointsRun(s', e);
      assert |s| * ShotPoints(e) == |s'| * ShotPoints(e) + ShotPoints(e);
    }
  }

  /** The number of events of one type. */
  function CountOf(events: seq<Event>, kind: EventType): nat {
    |Filter(events, (e: Event) => e.kind == kind)|
  }

  /** The statistic names `getHistoricalStats` knows. */
  predicate IsKnownStat(statName: string) {
    statName in {"points", "rebounds", "assists", "steals", "turnovers", "fouls"}
  }

  /** The value of one statistic in one match; an unknown name yields 0. */
  function StatValue(events: seq<Event>, statName: string): (r: int)
    ensures !IsKnownStat(statName) ==> r == 0
    ensures statName != "points" ==> r >= 0
  {
    match statName
    case "points" => SumMadePoints(events)
    case "rebounds" => CountOf(events, Rebound)
    case "assists" => CountOf(events, Pass)
    case "steals" => CountOf(events, Steal)
    case "turnovers" => CountOf(events, Turnover)
    case "fouls" => CountOf(events, Foul)
    case _ => 0
  }

  /** One entry of the series: the match date and the statistic's value. */
  datatype HistoryPoint = HistoryPoint(matchDate: int, value: int)

  function PointOf(record: StatRecord, statName: string): HistoryPoint {
    HistoryPoint(record.happensAt, StatValue(record.log.events, statName))
  }

  function RecordDate(record: StatRecord): int {
    record.happensAt
  }

  /** `getHistoricalStats`: the records sorted by encounter date, then one
      entry per record. */
  function GetHistoricalStats(records: seq<StatRecord>, statName: string): (r: seq<HistoryPoint>)
    ensures |r| == |records|
    ensures forall i, j :: 0 <= i < j < |r| ==> r[i].matchDate <= r[j].matchDate
    ensures multiset(r) == multiset(Sorting.MapSeq(records, (rec: StatRecord) => PointOf(rec, statName)))
    ensures !IsKnownStat(statName) ==> forall i :: 0 <= i < |r| ==> r[i].value == 0
  {
    var f := (rec: StatRecord) => PointOf(rec, statName);
    var sorted := Sorting.SortBy(records, RecordDate);
    Sorting.MapSortByMultiset(records, RecordDate, f);
    Sorting.MapSeq(sorted, f)
  }

  /** The series entries by name: "assists" counts the passes. */
  lemma StatValueByName(events: seq<Event>)
    ensures StatValue(events, "points") == SumMadePoints(events)
    ensures StatValue(events, "rebounds") == CountOf(events, Rebound)
    ensures StatValue(events, "assists") == CountOf(events, Pass)
    ensures StatValue(events, "steals") == CountOf(events, Steal)
    ensures StatValue(events, "turnovers") == CountOf(events, Turnover)
    ensures StatValue(events, "fouls") == CountOf(events, Foul)
  {
  }

  /** Each count entry of a match in the series ("rebounds", "assists",
      "steals", "turnovers", "fouls") is what the averages' tally adds to the
      matching counter for that match: a pass counts as an assist. */
  lemma TallyCountsAreHistoryCounts(t: Totals, events: seq<Event>)
    ensures TallyEvents(t, events).rebounds == t.rebounds + StatValue(events, "rebounds")
    ensures TallyEvents(t, events).assists == t.assists + StatValue(events, "assists")
    ensures TallyEvents(t, events).steals == t.steals + StatValue(events, "steals")
    ensures TallyEvents(t, events).turnovers == t.turnovers + StatValue(events, "turnovers")
    ensures TallyEvents(t, events).fouls == t.fouls + StatValue(events, "fouls")
  {
    StatValueByName(events);
    TallyCountsAreCounts(t, events);
  }

  lemma {:induction false} TallyCountsAreCounts(t: Totals, events: seq<Event>)
    ensures var r := TallyEvents(t, events);
      r.rebounds == t.rebounds + CountOf(events, Rebound)
      && r.assists == t.assists + CountOf(events, Pass)
      && r.steals == t.steals + CountOf(events, Steal)
      && r.turnovers == t.turnovers + CountOf(events, Turnover)
      && r.fouls == t.fouls + CountOf(events, Foul)
  {
    if events != [] {
      var init := events[..|events| - 1];
      var e := events[|events| - 1];
      assert events == init + [e];
      TallyCountsAreCounts(t, init);
      FilterSnoc(init, e, (x: Event) => x.kind == Rebound);
      FilterSnoc(init, e, (x: Event) => x.kind == Pass);
      FilterSnoc(init, e, (x: Event) => x.kind == Steal);
      FilterSnoc(init, e, (x: Event) => x.kind == Turnover);
      FilterSnoc(init, e, (x: Event) => x.kind == Foul);
    }
  }

  /** With shots worth 1, 2 or 3, a match's "points" entry in the series is
      the points its events add to the averages' total, and each count entry
      is the matching counter. */
  lemma HistoryAgreesWithTally(t: Totals, events: seq<Event>)
    requires forall i :: 0 <= i < |events| && events[i].kind == Shoot ==> IsClassified(events[i])
    ensures TallyEvents(t, events).points == t.points + StatValue(events, "points")
    ensures TallyEvents(t, events).rebounds == t.rebounds + StatValue(events, "rebounds")
    ensures TallyEvents(t, events).assists == t.assists + StatValue(events, "assists")
    ensures TallyEvents(t, events).steals == t.steals + StatValue(events, "steals")
    ensures TallyEvents(t, events).turnovers == t.turnovers + StatValue(events, "turnovers")
    ensures TallyEvents(t, events).fouls == t.fouls + StatValue(events, "fouls")
  {
    StatValueByName(events);
    TallyCountsAreCounts(t, events);
    TallyPointsAreMadePoints(t, events);
  }

  /** With shots worth 1, 2 or 3, the tally adds the points of the made
      shots. */
  lemma {:induction false} TallyPointsAreMadePoints(t: Totals, events: seq<Event>)
    requires forall i :: 0 <= i < |events| && events[i].kind == Shoot ==> IsClassified(events[i])
    ensures TallyEvents(t, events).points == t.points + SumMadePoints(events)
  {
    if events != [] {
      var init := events[..|events| - 1];
      assert events == init + [events[|events| - 1]];
      TallyPointsAreMadePoints(t, init);
    }
  }

  /** The points the tally adds for `events`: those of the made shoot events
      worth exactly 1, 2 or 3; a shot of any other value adds nothing. */
  function TalliedPoints(events: seq<Event>): nat {
    if events == [] then 0
    else
      var e := events[|events| - 1];
      TalliedPoints(events[..|events| - 1]) + (if e.kind == Shoot then MadePoints(e) else 0)
  }

  /** For any events, the tally adds exactly the points of the made shots
      worth 1, 2 or 3. */
  lemma {:induction false} TallyPointsAreTalliedPoints(t: Totals, events: seq<Event>)
    ensures TallyEvents(t, events).points == t.points + TalliedPoints(events)
  {
    if events != [] {
      TallyPointsAreTalliedPoints(t, events[..|events| - 1]);
    }
  }

  /** With shots worth 1, 2 or 3, the tallied points are the series' made
      points: nothing is filtered out. */
  lemma {:induction false} TalliedPointsOfClassified(events: seq<Event>)
    requires forall i :: 0 <= i < |events| && events[i].kind == Shoot ==> IsClassified(events[i])
    ensures TalliedPoints(events) == SumMadePoints(events)
  {
    if events != [] {
      TalliedPointsOfClassified(events[..|events| - 1]);
    }
  }

  /** The tallied points summed over the records. */
  function SumTalliedPoints(records: seq<StatRecord>): nat {
    if records == [] then 0
    else SumTalliedPoints(records[..|records| - 1]) + TalliedPoints(records[|records| - 1].log.events)
  }

  /** Over all records, the points total is the sum of the tallied points. */
  lemma {:induction false} TallyRecordsPointsAreTallied(records: seq<StatRecord>)
    ensures TallyRecords(records).points == SumTalliedPoints(records)
  {
    if records != [] {
      var init := records[..|records| - 1];
      TallyRecordsPointsAreTallied(init);
      TallyPointsAreTalliedPoints(TallyRecords(init), records[|records| - 1].log.events);
    }
  }

  /** The sum of one statistic's per-match values over the records. */
  function SumStat(records: seq<StatRecord>, statName: string): int {
    if records == [] then 0
    else SumStat(records[..|records| - 1], statName) + StatValue(records[|records| - 1].log.events, statName)
  }

  /** Every shot of every record is worth 1, 2 or 3. */
  predicate ShotsClassifiedIn(records: seq<StatRecord>) {
    forall i, j :: 0 <= i < |records| && 0 <= j < |records[i].log.events| && records[i].log.events[j].kind == Shoot ==>
      IsClassified(records[i].log.events[j])
  }

  /** Each counter of the averages' tally is the sum over the records of the
      per-match count in the series. */
  lemma {:induction false} TallyRecordsCountsAreSums(records: seq<StatRecord>)
    ensures var t := TallyRecords(records);
      t.rebounds == SumStat(records, "rebounds") && t.assists == SumStat(records, "assists")
      && t.steals == SumStat(records, "steals") && t.turnovers == SumStat(records, "turnovers")
      && t.fouls == SumStat(records, "fouls")
  {
    if records != [] {
      var init := records[..|records| - 1];
      TallyRecordsCountsAreSums(init);
      TallyCountsAreHistoryCounts(TallyRecords(init), records[|records| - 1].log.events);
    }
  }

  /** With shots worth 1, 2 or 3, the points total is the sum over the records
      of the per-match points in the series. */
  lemma {:induction false} TallyRecordsPointsAreSums(records: seq<StatRecord>)
    requires ShotsClassifiedIn(records)
    ensures TallyRecords(records).points == SumStat(records, "points")
  {
    if records != [] {
      var init := records[..|records| - 1];
      assert ShotsClassifiedIn(init) by {
        forall i, j | 0 <= i < |init| && 0 <= j < |init[i].log.events| && init[i].log.events[j].kind == Shoot
          ensures IsClassified(init[i].log.events[j])
        {
          assert init[i] == records[i];
        }
      }
      TallyRecordsPointsAreSums(init);
      var last := records[|records| - 1];
      assert forall j :: 0 <= j < |last.log.events| && last.log.events[j].kind == Shoot ==> IsClassified(last.log.events[j]);
      StatValueByName(last.log.events);
      TallyPointsAreMadePoints(TallyRecords(init), last.log.events);
    }
  }

  /** Each average is the per-match value summed over the records, divided by
      the number of records and rounded to one decimal; the points average
      needs every shot to be worth 1, 2 or 3. */
  lemma AverageStatsAreRoundedMeans(records: seq<StatRecord>)
    requires records != []
    ensures var r := AverageStats(records); var n := |records|;
      r.avgRebounds == CalculateAverage(SumStat(records, "rebounds"), n)
      && r.avgAssists == CalculateAverage(SumStat(records, "assists"), n)
      && r.avgSteals == CalculateAverage(SumStat(records, "steals"), n)
      && r.avgTurnovers == CalculateAverage(SumStat(records, "turnovers"), n)
      && r.avgFouls == CalculateAverage(SumStat(records, "fouls"), n)
    ensures AverageStats(records).avgPoints == CalculateAverage(SumTalliedPoints(records), |records|)
    ensures ShotsClassifiedIn(records) ==>
      AverageStats(records).avgPoints == CalculateAverage(SumStat(records, "points"), |records|)
  {
    TallyRecordsCountsAreSums(records);
    TallyRecordsPointsAreTallied(records);
    if ShotsClassifiedIn(records) {
      TallyRecordsPointsAreSums(records);
    }
  }

  /** The number of shoot events worth exactly `pts` points; with `madeOnly`,
      only the successful ones. */
  function CountShots(events: seq<Event>, pts: int, madeOnly: bool): nat {
    |Filter(events, (e: Event) => e.kind == Shoot && e.points == Some(pts) && (madeOnly ==> IsSuccessful(e)))|
  }

  /** Each shooting counter of the tally grows by the number of shoot events
      of its class: free throws are the 1-point shots, field goals the 2- and
      3-point shots, three-pointers the 3-point shots. */
  lemma {:induction false} TallyShotsAreCounts(t: Totals, events: seq<Event>)
    ensures var s := TallyEvents(t, events).shots;
      s.fta == t.shots.fta + CountShots(events, 1, false)
      && s.ftm == t.shots.ftm + CountShots(events, 1, true)
      && s.fga == t.shots.fga + CountShots(events, 2, false) + CountShots(events, 3, false)
      && s.fgm == t.shots.fgm + CountShots(events, 2, true) + CountShots(events, 3, true)
      && s.tpa == t.shots.tpa + CountShots(events, 3, false)
      && s.tpm == t.shots.tpm + CountShots(events, 3, true)
  {
    if events != [] {
      var init := events[..|events| - 1];
      var e := events[|events| - 1];
      assert events == init + [e];
      TallyShotsAreCounts(t, init);
      forall pts: int, madeOnly: bool
        ensures CountShots(events, pts, madeOnly)
          == CountShots(init, pts, madeOnly)
             + (if e.kind == Shoot && e.points == Some(pts) && (madeOnly ==> IsSuccessful(e)) then 1 else 0)
      {
        FilterSnoc(init, e, (x: Event) => x.kind == Shoot && x.points == Some(pts) && (madeOnly ==> IsSuccessful(x)));
      }
    }
  }

  /** The number of shots of one class summed over the records. */
  function SumShots(records: seq<StatRecord>, pts: int, madeOnly: bool): nat {
    if records == [] then 0
    else SumShots(records[..|records| - 1], pts, madeOnly) + CountShots(records[|records| - 1].log.events, pts, madeOnly)
  }

  /** The shooting counters recounted class by class over the records:
      free throws are the 1-point shots, field goals the 2- and 3-point shots,
      three-pointers the 3-point shots. */
  function ShotCountsIn(records: seq<StatRecord>): Shots {
    Shots(
      SumShots(records, 2, true) + SumShots(records, 3, true),
      SumShots(records, 2, false) + SumShots(records, 3, false),
      SumShots(records, 3, true), SumShots(records, 3, false),
      SumShots(records, 1, true), SumShots(records, 1, false))
  }

  /** Over all records, each shooting counter is the number of shots of its
      class. */
  lemma {:induction false} TallyRecordsShotsAreSums(records: seq<StatRecord>)
    ensures TallyRecords(records).shots == ShotCountsIn(records)
  {
    if records != [] {
      var init := records[..|records| - 1];
      TallyRecordsShotsAreSums(init);
      TallyShotsAreCounts(TallyRecords(init), records[|records| - 1].log.events);
    }
  }

  /** The three percentages: made 2- and 3-point shots over those attempted,
      made 3-point shots over those attempted, made 1-point shots over those
      attempted, each 0 without attempts and otherwise rounded to one
      decimal. */
  lemma AveragePercentagesAreShotRatios(records: seq<StatRecord>)
    ensures var r := AverageStats(records); var c := ShotCountsIn(records);
      r.fgPercentage == CalculatePercentage(c.fgm, c.fga)
      && r.threePtPercentage == CalculatePercentage(c.tpm, c.tpa)
      && r.ftPercentage == CalculatePercentage(c.ftm, c.fta)
  {
    TallyRecordsShotsAreSums(records);
  }

  /** One match with a made 2-pointer, a made and a missed 3-pointer and a
      missed free throw: 66.7, 50.0 and 0.0 percent. */
  lemma PercentageScenario()
    ensures
      var events := [Shot(2, true), Shot(3, true), Shot(3, false), Shot(1, false)];
      var stats := AverageStats([StatRecord(1, 1, PlayerLog("", "", "", events))]);
      stats.fgPercentage == 667 && stats.threePtPercentage == 500 && stats.ftPercentage == 0
  {
    var events := [Shot(2, true), Shot(3, true), Shot(3, false), Shot(1, false)];
    var records := [StatRecord(1, 1, PlayerLog("", "", "", events))];
    assert records[..0] == [];
    assert events[..1][..0] == [];
    assert events[..2][..1] == events[..1];
    assert events[..3][..2] == events[..2];
    assert TallyEvents(NoTotals, events[..1]).shots == Shots(1, 1, 0, 0, 0, 0);
    assert TallyEvents(NoTotals, events[..2]).shots == Shots(2, 2, 1, 1, 0, 0);
    assert TallyEvents(NoTotals, events[..3]).shots == Shots(2, 3, 1, 2, 0, 0);
    assert TallyEvents(NoTotals, events).shots == Shots(2, 3, 1, 2, 0, 1);
    assert TallyRecords(records) == TallyEvents(NoTotals, events);
    assert CalculatePercentage(2, 3) == 667;
    assert CalculatePercentage(1, 2) == 500;
    assert CalculatePercentage(0, 1) == 0;
  }

  /** Records played on the same date keep their input order in the series. */
  lemma HistoryKeepsSameDayOrder(records: seq<StatRecord>, statName: string, d: int)
    ensures var f := (rec: StatRecord) => PointOf(rec, statName);
      Sorting.WithKey(GetHistoricalStats(records, statName), PointDate, d)
      == Sorting.WithKey(Sorting.MapSeq(records, f), PointDate, d)
  {
    var f := (rec: StatRecord) => PointOf(rec, statName);
    var sorted := Sorting.SortBy(records, RecordDate);
    Sorting.MapWithKey(sorted, f, RecordDate, PointDate, d);
    Sorting.SortByIsStable(records, RecordDate, d);
    Sorting.MapWithKey(records, f, RecordDate, PointDate, d);
  }

  function PointDate(point: HistoryPoint): int {
    point.matchDate
  }

  // ---------------------------------------------------------------------------
  // The per-period breakdown of one match

  /** One quarter's tallies in `getMatchStatsByPeriod`. */
  datatype PeriodTotals = PeriodTotals(
    period: int, points: int, rebounds: nat, assists: nat, steals: nat, turnovers: nat, fouls: nat)

  /** One pass of the breakdown's `switch`: a successful shot adds its raw
      `points`, the other types add one to their own counter. */
  function PeriodStep(t: PeriodTotals, e: Event): (r: PeriodTotals)
    ensures r.period == t.period
    ensures r.points == t.points + ShotPoints(e)
    ensures r.rebounds == t.rebounds + (if e.kind == Rebound then 1 else 0)
    ensures r.assists == t.assists + (if e.kind == Pass then 1 else 0)
    ensures r.steals == t.steals + (if e.kind == Steal then 1 else 0)
    ensures r.turnovers == t.turnovers + (if e.kind == Turnover then 1 else 0)
    ensures r.fouls == t.fouls + (if e.kind == Foul then 1 else 0)
  {
    match e.kind
    case Rebound => t.(rebounds := t.rebounds + 1)
    case Pass => t.(assists := t.assists + 1)
    case Steal => t.(steals := t.steals + 1)
    case Turnover => t.(turnovers := t.turnovers + 1)
    case Foul => t.(fouls := t.fouls + 1)
    case Shoot => if IsSuccessful(e) then t.(points := t.points + PointsOrZero(e)) else t
    case _ => t
  }

  /** The tallies of the events whose `period` is `p` (the `groupBy`
      group of `p`), from `t`. */
  function PeriodFold(t: PeriodTotals, events: seq<Event>, p: int): (r: PeriodTotals)
    ensures r.period == t.period
  {
    if events == [] then t
    else
      var rest := PeriodFold(t, events[..|events| - 1], p);
      var e := events[|events| - 1];
      if e.period == Some(p) then PeriodStep(rest, e) else rest
  }

  function PeriodTally(events: seq<Event>, p: int): PeriodTotals {
    PeriodFold(PeriodTotals(p, 0, 0, 0, 0, 0, 0), events, p)
  }

  /** The first record of the given encounter (`->where(...)->first()`). */
  function FirstRecordFor(records: seq<StatRecord>, encounterId: nat): (r: Option<StatRecord>)
    ensures r.Some? ==> r.value in records && r.value.encounterId == encounterId
    ensures r.None? <==> forall i :: 0 <= i < |records| ==> records[i].encounterId != encounterId
  {
    if records == [] then None
    else if records[0].encounterId == encounterId then Some(records[0])
    else FirstRecordFor(records[1..], encounterId)
  }

  /** `getMatchStatsByPeriod`: empty when the player has no record for the
      encounter, otherwise the four quarters in order. */
  method GetMatchStatsByPeriod(records: seq<StatRecord>, encounterId: nat) returns (r: seq<PeriodTotals>)
    ensures FirstRecordFor(records, encounterId).None? ==> r == []
    ensures FirstRecordFor(records, encounterId).Some? ==>
      |r| == 4 && forall k :: 0 <= k < 4 ==>
        r[k] == PeriodTally(FirstRecordFor(records, encounterId).value.log.events, k + 1)
  {
    var found := FirstRecordFor(records, encounterId);
    if found.None? {
      return [];
    }
    var events := found.value.log.events;
    r := [];
    var p := 1;
    while p <= 4
      invariant 1 <= p <= 5
      invariant |r| == p - 1
      invariant forall k :: 0 <= k < p - 1 ==> r[k] == PeriodTally(events, k + 1)
    {
      var totals := PeriodTotals(p, 0, 0, 0, 0, 0, 0);
      var j := 0;
      while j < |events|
        invariant 0 <= j <= |events|
        invariant totals == PeriodFold(PeriodTotals(p, 0, 0, 0, 0, 0, 0), events[..j], p)
      {
        assert events[..j + 1][..j] == events[..j];
        if events[j].period == Some(p) {
          totals := PeriodStep(totals, events[j]);
        }
        j := j + 1;
      }
      assert events[..j] == events;
      r := r + [totals];
      p := p + 1;
    }
  }

  /** The events tagged with period `p` (the `groupBy('period')` group). */
  function InPeriod(p: int): Event -> bool {
    (e: Event) => e.period == Some(p)
  }

  /** A quarter of the breakdown holds what the historical series would give
      for that quarter's events alone: the raw `points` of its successful
      shots (no 1/2/3 filter) and one count per event of each type. */
  lemma PeriodFoldIsQuarterHistory(t: PeriodTotals, events: seq<Event>, p: int)
    ensures var q := Filter(events, InPeriod(p));
      PeriodFold(t, events, p) == t.(
        points := t.points + SumMadePoints(q),
        rebounds := t.rebounds + CountOf(q, Rebound),
        assists := t.assists + CountOf(q, Pass),
        steals := t.steals + CountOf(q, Steal),
        turnovers := t.turnovers + CountOf(q, Turnover),
        fouls := t.fouls + CountOf(q, Foul))
  {
    PeriodPointsAreQuarterPoints(t, events, p);
    PeriodCountsAreQuarterCounts(t, events, p);
  }

  /** Quarter `p` of the breakdown carries, for each statistic, the value the
      historical series computes from that quarter's events alone. */
  lemma PeriodTallyIsQuarterStatValues(events: seq<Event>, p: int)
    ensures var q := Filter(events, InPeriod(p));
      PeriodTally(events, p) == PeriodTotals(p,
        StatValue(q, "points"), StatValue(q, "rebounds"), StatValue(q, "assists"),
        StatValue(q, "steals"), StatValue(q, "turnovers"), StatValue(q, "fouls"))
  {
    PeriodFoldIsQuarterHistory(PeriodTotals(p, 0, 0, 0, 0, 0, 0), events, p);
    StatValueByName(Filter(events, InPeriod(p)));
  }

  lemma {:induction false} PeriodPointsAreQuarterPoints(t: PeriodTotals, events: seq<Event>, p: int)
    ensures PeriodFold(t, events, p).points == t.points + SumMadePoints(Filter(events, InPeriod(p)))
  {
    if events != [] {
      var init := events[..|events| - 1];
      var e := events[|events| - 1];
      assert events == init + [e];
      PeriodPointsAreQuarterPoints(t, init, p);
      FilterSnoc(init, e, InPeriod(p));
      var qi := Filter(init, InPeriod(p));
      if e.period == Some(p) {
        SumMadePointsSnoc(qi, e);
      } else {
        assert qi + [] == qi;
      }
    }
  }

  lemma {:induction false} PeriodCountsAreQuarterCounts(t: PeriodTotals, events: seq<Event>, p: int)
    ensures var q := Filter(events, InPeriod(p));
      var r := PeriodFold(t, events, p);
      r.rebounds == t.rebounds + CountOf(q, Rebound)
      && r.assists == t.assists + CountOf(q, Pass)
      && r.steals == t.steals + CountOf(q, Steal)
      && r.turnovers == t.turnovers + CountOf(q, Turnover)
      && r.fouls == t.fouls + CountOf(q, Foul)
  {
    if events != [] {
      var init := events[..|events| - 1];
      var e := events[|events| - 1];
      assert events == init + [e];
      PeriodCountsAreQuarterCounts(t, init, p);
      FilterSnoc(init, e, InPeriod(p));
      var qi := Filter(init, InPeriod(p));
      if e.period == Some(p) {
        FilterSnoc(qi, e, (x: Event) => x.kind == Rebound);
        FilterSnoc(qi, e, (x: Event) => x.kind == Pass);
        FilterSnoc(qi, e, (x: Event) => x.kind == Steal);
        FilterSnoc(qi, e, (x: Event) => x.kind == Turnover);
        FilterSnoc(qi, e, (x: Event) => x.kind == Foul);
      } else {
        assert qi + [] == qi;
      }
    }
  }

  /** An event with a period in 1..4. */
  predicate InQuarter(e: Event) {
    e.period.Some? && 1 <= e.period.value <= 4
  }

  /** Events whose period is missing or outside 1..4 are counted in no
      quarter: dropping them leaves every quarter's tallies unchanged. */
  lemma {:induction false} UnperiodisedEventsIgnored(t: PeriodTotals, events: seq<Event>, p: int)
    requires 1 <= p <= 4
    ensures PeriodFold(t, events, p) == PeriodFold(t, Filter(events, InQuarter), p)
  {
    if events != [] {
      var init := events[..|events| - 1];
      var e := events[|events| - 1];
      assert events == init + [e];
      UnperiodisedEventsIgnored(t, init, p);
      FilterSnoc(init, e, InQuarter);
      var fi := Filter(init, InQuarter);
      assert events[..|events| - 1] == init;
      if InQuarter(e) {
        assert (fi + [e])[..|fi + [e]| - 1] == fi;
        assert (fi + [e])[|fi + [e]| - 1] == e;
      } else {
        assert e.period != Some(p);
        assert Filter(events, InQuarter) == fi + [];
        assert fi + [] == fi;
        assert PeriodFold(t, events, p) == PeriodFold(t, init, p);
      }
    }
  }
}
