/** The import of a match recap into the statistics store: the encounter's
    score, the raw recap keyed by encounter and one per-player log keyed by
    (encounter, user), all written as one transaction. */
module RecapImport {
  import opened Common
  import opened Events

  /** The score columns of an `encounters` row. */
  datatype ScoreRow = ScoreRow(teamScore: Option<int>, opponentScore: Option<int>)

  /** One entry of the request's `mappings`: a log player id and the user id
      it stands for. */
  datatype Mapping = Mapping(jsonPlayerId: string, dbUserId: int)

  /** `collect($mappings)->pluck('db_user_id', 'json_player_id')`: a lookup
      from log player id to user id, built entry by entry. */
  function PluckMappings(mappings: seq<Mapping>): map<string, int> {
    if mappings == [] then map[]
    else
      var m := mappings[|mappings| - 1];
      PluckMappings(mappings[..|mappings| - 1])[m.jsonPlayerId := m.dbUserId]
  }

  /** The lookup has exactly the ids of the mappings. */
  lemma {:induction false} PluckKeys(mappings: seq<Mapping>)
    ensures PluckMappings(mappings).Keys == set i | 0 <= i < |mappings| :: mappings[i].jsonPlayerId
  {
    if mappings != [] {
      var init := mappings[..|mappings| - 1];
      PluckKeys(init);
      var ids := set i | 0 <= i < |mappings| :: mappings[i].jsonPlayerId;
      var initIds := set i | 0 <= i < |init| :: init[i].jsonPlayerId;
      assert forall i :: 0 <= i < |init| ==> init[i] == mappings[i];
      assert ids == initIds + {mappings[|mappings| - 1].jsonPlayerId} by {
        forall k | k in ids ensures k in initIds + {mappings[|mappings| - 1].jsonPlayerId} {
          var i :| 0 <= i < |mappings| && mappings[i].jsonPlayerId == k;
          if i < |init| {
            assert init[i].jsonPlayerId == k;
          }
        }
      }
    }
  }

  /** When an id appears more than once, the later entry wins. */
  lemma {:induction false} PluckLastWins(mappings: seq<Mapping>, i: int)
    requires 0 <= i < |mappings| && IsLastFor(mappings, i)
    ensures mappings[i].jsonPlayerId in PluckMappings(mappings)
    ensures PluckMappings(mappings)[mappings[i].jsonPlayerId] == mappings[i].dbUserId
  {
    var init := mappings[..|mappings| - 1];
    if i < |init| {
      assert init[i] == mappings[i];
      assert IsLastFor(init, i) by {
        forall j | i < j < |init| ensures init[j].jsonPlayerId != init[i].jsonPlayerId {
          assert init[j] == mappings[j];
        }
      }
      PluckLastWins(init, i);
    }
  }

  /** No entry after position `i` has the same log player id. */
  predicate IsLastFor(mappings: seq<Mapping>, i: int)
    requires 0 <= i < |mappings|
  {
    forall j :: i < j < |mappings| ==> mappings[j].jsonPlayerId != mappings[i].jsonPlayerId
  }

  /** The id a log player is looked up under; a missing id reads as null,
      which PHP uses as the key "". */
  function JsonId(p: LogPlayer): string {
    p.id.GetOr("")
  }

  /** The player has a mapping to a truthy user id (`! $dbUserId` skips both a
      missing mapping and the id 0). */
  predicate IsMapped(lookup: map<string, int>, p: LogPlayer) {
    JsonId(p) in lookup && lookup[JsonId(p)] != 0
  }

  /** `groupBy('playerId')->get($id, collect())`: the events carrying the
      given player id, in recap order (an event without one is grouped under
      ""). */
  function PlayerEvents(events: seq<Event>, id: string): (r: seq<Event>)
    ensures forall i :: 0 <= i < |r| ==> r[i] in events && r[i].playerId.GetOr("") == id
  {
    Filter(events, CarriesId(id))
  }

  /** The grouping key test of `groupBy('playerId')`. */
  function CarriesId(id: string): Event -> bool {
    (e: Event) => e.playerId.GetOr("") == id
  }

  /** No event of the player is lost: every event carrying the id is in the
      player's group. */
  lemma PlayerEventsComplete(events: seq<Event>, id: string, i: nat)
    requires i < |events| && events[i].playerId.GetOr("") == id
    ensures events[i] in PlayerEvents(events, id)
  {
    FilterKeeps(events, CarriesId(id), i);
  }

  /** The group keeps recap order: the group of a recap split in two is the
      group of the first part followed by the group of the second, and a
      single event forms its own group exactly when it carries the id. */
  lemma PlayerEventsInOrder(a: seq<Event>, b: seq<Event>, e: Event, id: string)
    ensures PlayerEvents(a + b, id) == PlayerEvents(a, id) + PlayerEvents(b, id)
    ensures PlayerEvents([e], id) == if e.playerId.GetOr("") == id then [e] else []
  {
    FilterAppend(a, b, CarriesId(id));
    assert [] + [e] == [e];
    FilterSnoc([], e, CarriesId(id));
  }

  /** The document stored for a mapped player. */
  function PlayerRecord(p: LogPlayer, events: seq<Event>): PlayerLog {
    PlayerLog(JsonId(p), p.firstname, p.lastname, PlayerEvents(events, JsonId(p)))
  }

  /** The per-player upserts of the loop over the recap's players, in order. */
  function ImportPlayers(
    stats: map<(nat, int), PlayerLog>, encounterId: nat, players: seq<LogPlayer>,
    events: seq<Event>, lookup: map<string, int>): (r: map<(nat, int), PlayerLog>)
    ensures stats.Keys <= r.Keys
    ensures forall k :: k in r && k !in stats ==> k.0 == encounterId
  {
    if players == [] then stats
    else
      var before := ImportPlayers(stats, encounterId, players[..|players| - 1], events, lookup);
      var p := players[|players| - 1];
      if IsMapped(lookup, p) then before[(encounterId, lookup[JsonId(p)]) := PlayerRecord(p, events)] else before
  }

  /** One more player of the loop: an upsert when it is mapped. */
  lemma ImportPlayersStep(
    stats: map<(nat, int), PlayerLog>, encounterId: nat, players: seq<LogPlayer>, i: nat,
    events: seq<Event>, lookup: map<string, int>)
    requires i < |players|
    ensures var before := ImportPlayers(stats, encounterId, players[..i], events, lookup);
      var p := players[i];
      ImportPlayers(stats, encounterId, players[..i + 1], events, lookup)
        == if IsMapped(lookup, p) then before[(encounterId, lookup[JsonId(p)]) := PlayerRecord(p, events)] else before
  {
    assert players[..i + 1][..i] == players[..i];
  }

  /** The number of upserts the loop performs. */
  function MappedCount(players: seq<LogPlayer>, lookup: map<string, int>): nat {
    if players == [] then 0
    else MappedCount(players[..|players| - 1], lookup) + (if IsMapped(lookup, players[|players| - 1]) then 1 else 0)
  }

  /** A prefix has no more mapped players than the whole, and fewer when a
      mapped player follows it. */
  lemma {:induction false} MappedCountPrefix(players: seq<LogPlayer>, lookup: map<string, int>, i: int)
    requires 0 <= i <= |players|
    ensures MappedCount(players[..i], lookup) <= MappedCount(players, lookup)
    ensures i < |players| && IsMapped(lookup, players[i]) ==> MappedCount(players[..i], lookup) < MappedCount(players, lookup)
    decreases |players|
  {
    if i < |players| {
      var init := players[..|players| - 1];
      assert init[..i] == players[..i];
      if i < |init| {
        assert init[i] == players[i];
      }
      MappedCountPrefix(init, lookup, i);
    } else {
      assert players[..i] == players;
    }
  }

  /** The player at position `i` is the last one mapped to user `u`. */
  predicate IsLastMappedTo(players: seq<LogPlayer>, lookup: map<string, int>, i: int, u: int)
    requires 0 <= i < |players|
  {
    IsMapped(lookup, players[i]) && lookup[JsonId(players[i])] == u
    && forall j :: i < j < |players| ==> !(IsMapped(lookup, players[j]) && lookup[JsonId(players[j])] == u)
  }

  /** Some player is mapped to user `u`. */
  predicate SomeMappedTo(players: seq<LogPlayer>, lookup: map<string, int>, u: int) {
    exists i :: 0 <= i < |players| && IsMapped(lookup, players[i]) && lookup[JsonId(players[i])] == u
  }

  /** The record of (encounter, u) after the loop holds the last player mapped
      to `u`, with its own events. */
  lemma {:induction false} ImportStoresLastMapped(
    stats: map<(nat, int), PlayerLog>, encounterId: nat, players: seq<LogPlayer>,
    events: seq<Event>, lookup: map<string, int>, i: int, u: int)
    requires 0 <= i < |players| && IsLastMappedTo(players, lookup, i, u)
    ensures (encounterId, u) in ImportPlayers(stats, encounterId, players, events, lookup)
    ensures ImportPlayers(stats, encounterId, players, events, lookup)[(encounterId, u)] == PlayerRecord(players[i], events)
  {
    var init := players[..|players| - 1];
    if i < |players| - 1 {
      assert IsLastMappedTo(init, lookup, i, u) by {
        forall j | i < j < |init| ensures !(IsMapped(lookup, init[j]) && lookup[JsonId(init[j])] == u) {
          assert init[j] == players[j];
        }
      }
      ImportStoresLastMapped(stats, encounterId, init, events, lookup, i, u);
      assert init[i] == players[i];
      assert !(IsMapped(lookup, players[|players| - 1]) && lookup[JsonId(players[|players| - 1])] == u);
    }
  }

  /** Every other record is left as it was: a record of another encounter,
      or of a user no player is mapped to. */
  lemma {:induction false} ImportLeavesOthers(
    stats: map<(nat, int), PlayerLog>, encounterId: nat, players: seq<LogPlayer>,
    events: seq<Event>, lookup: map<string, int>, key: (nat, int))
    requires key.0 != encounterId || !SomeMappedTo(players, lookup, key.1)
    ensures key in ImportPlayers(stats, encounterId, players, events, lookup) <==> key in stats
    ensures key in stats ==> ImportPlayers(stats, encounterId, players, events, lookup)[key] == stats[key]
  {
    if players != [] {
      var init := players[..|players| - 1];
      if key.0 == encounterId {
        forall i | 0 <= i < |init| ensures !(IsMapped(lookup, init[i]) && lookup[JsonId(init[i])] == key.1) {
          assert players[i] == init[i];
        }
        assert !(IsMapped(lookup, players[|players| - 1]) && lookup[JsonId(players[|players| - 1])] == key.1);
      }
      ImportLeavesOthers(stats, encounterId, init, events, lookup, key);
    }
  }

  /** The loop overwrites and never deletes: its result is the old records
      overridden by the records written from an empty store. */
  lemma {:induction false} ImportIsOverride(
    stats: map<(nat, int), PlayerLog>, encounterId: nat, players: seq<LogPlayer>,
    events: seq<Event>, lookup: map<string, int>)
    ensures ImportPlayers(stats, encounterId, players, events, lookup)
         == stats + ImportPlayers(map[], encounterId, players, events, lookup)
  {
    if players != [] {
      ImportIsOverride(stats, encounterId, players[..|players| - 1], events, lookup);
    }
  }

  /** Importing the same players twice leaves what importing them once left. */
  lemma ImportIsIdempotent(
    stats: map<(nat, int), PlayerLog>, encounterId: nat, players: seq<LogPlayer>,
    events: seq<Event>, lookup: map<string, int>)
    ensures var once := ImportPlayers(stats, encounterId, players, events, lookup);
      ImportPlayers(once, encounterId, players, events, lookup) == once
  {
    var once := ImportPlayers(stats, encounterId, players, events, lookup);
    var written := ImportPlayers(map[], encounterId, players, events, lookup);
    ImportIsOverride(stats, encounterId, players, events, lookup);
    ImportIsOverride(once, encounterId, players, events, lookup);
    assert (stats + written) + written == stats + written;
  }

  /** Two lookups that agree on every player of the recap import alike. */
  lemma {:induction false} ImportDependsOnPlayersOnly(
    stats: map<(nat, int), PlayerLog>, encounterId: nat, players: seq<LogPlayer>,
    events: seq<Event>, lookup: map<string, int>, other: map<string, int>)
    requires forall i :: 0 <= i < |players| ==>
      (JsonId(players[i]) in lookup <==> JsonId(players[i]) in other)
      && (JsonId(players[i]) in lookup ==> lookup[JsonId(players[i])] == other[JsonId(players[i])])
    ensures ImportPlayers(stats, encounterId, players, events, lookup)
         == ImportPlayers(stats, encounterId, players, events, other)
  {
    if players != [] {
      var init := players[..|players| - 1];
      assert forall i :: 0 <= i < |init| ==> init[i] == players[i];
      ImportDependsOnPlayersOnly(stats, encounterId, init, events, lookup, other);
    }
  }

  /** A mapping whose log player id is no player's id has no effect, wherever
      it sits in the list: the loop runs over the players, not the mappings. */
  lemma ExtraMappingIgnored(
    stats: map<(nat, int), PlayerLog>, encounterId: nat, players: seq<LogPlayer>,
    events: seq<Event>, before: seq<Mapping>, extra: Mapping, after: seq<Mapping>)
    requires forall i :: 0 <= i < |players| ==> JsonId(players[i]) != extra.jsonPlayerId
    ensures ImportPlayers(stats, encounterId, players, events, PluckMappings(before + [extra] + after))
         == ImportPlayers(stats, encounterId, players, events, PluckMappings(before + after))
  {
    var with := before + [extra] + after;
    var without := before + after;
    forall i | 0 <= i < |players|
      ensures JsonId(players[i]) in PluckMappings(with) <==> JsonId(players[i]) in PluckMappings(without)
      ensures JsonId(players[i]) in PluckMappings(with) ==>
                PluckMappings(with)[JsonId(players[i])] == PluckMappings(without)[JsonId(players[i])]
    {
      PluckWithout(before, extra, after, JsonId(players[i]));
    }
    ImportDependsOnPlayersOnly(stats, encounterId, players, events, PluckMappings(with), PluckMappings(without));
  }

  /** Dropping a mapping changes the lookup at its own id only. */
  lemma {:induction false} PluckWithout(before: seq<Mapping>, extra: Mapping, after: seq<Mapping>, k: string)
    requires k != extra.jsonPlayerId
    ensures k in PluckMappings(before + [extra] + after) <==> k in PluckMappings(before + after)
    ensures k in PluckMappings(before + after) ==>
              PluckMappings(before + [extra] + after)[k] == PluckMappings(before + after)[k]
    decreases |after|
  {
    if after == [] {
      assert before + [extra] + after == before + [extra];
      assert (before + [extra])[..|before|] == before;
      assert before + after == before;
    } else {
      var init := after[..|after| - 1];
      var m := after[|after| - 1];
      PluckWithout(before, extra, init, k);
      assert (before + [extra] + after)[..|before + [extra] + after| - 1] == before + [extra] + init;
      assert (before + after)[..|before + after| - 1] == before + init;
    }
  }

  /** The store the import writes to: the score columns of the encounters,
      the raw recaps keyed by encounter and the player logs keyed by
      (encounter, user). */
  class StatsStore {
    var encounters: map<nat, ScoreRow>
    var encounterStats: map<nat, Recap>
    var individualStats: map<(nat, int), PlayerLog>

    constructor(encounters: map<nat, ScoreRow>)
      ensures this.encounters == encounters && encounterStats == map[] && individualStats == map[]
    {
      this.encounters := encounters;
      encounterStats := map[];
      individualStats := map[];
    }

    /** `execute`: the score update, the raw recap upsert and one upsert per
        mapped player, in one transaction. `failAt` numbers the write that
        throws (0 the score, 1 the raw recap, then the player upserts in
        order); on a throw every table is left as it was. The method returns
        whether the transaction committed. */
    method Execute(encounterId: nat, recap: Recap, mappings: seq<Mapping>, failAt: Option<nat>) returns (ok: bool)
      requires encounterId in encounters
      modifies this
      ensures ok <==> failAt.None? || failAt.value >= 2 + MappedCount(recap.players, PluckMappings(mappings))
      ensures ok ==>
        encounters == old(encounters)[encounterId := ScoreRow(Some(recap.score.team), Some(recap.score.opponent))]
        && encounterStats == old(encounterStats)[encounterId := recap]
        && individualStats == ImportPlayers(old(individualStats), encounterId, recap.players, recap.events, PluckMappings(mappings))
      ensures !ok ==>
        encounters == old(encounters) && encounterStats == old(encounterStats) && individualStats == old(individualStats)
    {
      var savedEncounters, savedStats, savedIndividual := encounters, encounterStats, individualStats;
      var lookup := PluckMappings(mappings);
      var players := recap.players;
      MappedCountPrefix(players, lookup, |players|);
      if failAt == Some(0) {
        return false;
      }
      encounters := encounters[encounterId := ScoreRow(Some(recap.score.team), Some(recap.score.opponent))];
      if failAt == Some(1) {
        encounters := savedEncounters;
        return false;
      }
      encounterStats := encounterStats[encounterId := recap];
      var writes := 2;
      var i := 0;
      while i < |players|
        invariant 0 <= i <= |players|
        invariant writes == 2 + MappedCount(players[..i], lookup)
        invariant failAt.None? || failAt.value >= writes || failAt.value < 2
        invariant failAt.Some? ==> failAt.value >= 2
        invariant individualStats == ImportPlayers(savedIndividual, encounterId, players[..i], recap.events, lookup)
        invariant encounters == savedEncounters[encounterId := ScoreRow(Some(recap.score.team), Some(recap.score.opponent))]
        invariant encounterStats == savedStats[encounterId := recap]
      {
        var player := players[i];
        assert players[..i + 1][..i] == players[..i];
        ImportPlayersStep(savedIndividual, encounterId, players, i, recap.events, lookup);
        var key := JsonId(player);
        if key in lookup && lookup[key] != 0 {
          if failAt == Some(writes) {
            encounters, encounterStats, individualStats := savedEncounters, savedStats, savedIndividual;
            MappedCountPrefix(players, lookup, i);
            return false;
          }
          var record := PlayerLog(key, player.firstname, player.lastname, PlayerEvents(recap.events, key));
          individualStats := individualStats[(encounterId, lookup[key]) := record];
          writes := writes + 1;
        }
        i := i + 1;
      }
      assert players[..i] == players;
      ok := true;
    }
  }

  /** The unit-test scenario: with LIC12345 mapped to user 7 and LIC99999
      unmapped, the import stores LIC12345's shot and foul for user 7 and
      nothing for anyone else. */
  lemma ImportScenario(stats: map<(nat, int), PlayerLog>, encounterId: nat, other: int)
    requires other != 7
    requires (encounterId, other) !in stats
    ensures
      var shot := Event(Shoot, Some(1), Some(2), None, Some(true), Some("LIC12345"));
      var foul := Event(Foul, Some(1), None, None, None, Some("LIC12345"));
      var players := [LogPlayer(Some("LIC12345"), "John", "Doe"), LogPlayer(Some("LIC99999"), "Jane", "Smith")];
      var result := ImportPlayers(stats, encounterId, players, [shot, foul], PluckMappings([Mapping("LIC12345", 7)]));
      (encounterId, 7) in result
      && result[(encounterId, 7)] == PlayerLog("LIC12345", "John", "Doe", [shot, foul])
      && (encounterId, other) !in result
  {
    var shot := Event(Shoot, Some(1), Some(2), None, Some(true), Some("LIC12345"));
    var foul := Event(Foul, Some(1), None, None, None, Some("LIC12345"));
    var john := LogPlayer(Some("LIC12345"), "John", "Doe");
    var jane := LogPlayer(Some("LIC99999"), "Jane", "Smith");
    var players := [john, jane];
    var lookup := PluckMappings([Mapping("LIC12345", 7)]);
    assert [Mapping("LIC12345", 7)][..0] == [];
    assert lookup == map["LIC12345" := 7];
    assert !IsMapped(lookup, jane);
    assert players[..1] == [john] && [john][..0] == [];
    assert [shot, foul][..1] == [shot] && [shot][..0] == [];
    var isJohns := CarriesId("LIC12345");
    assert Filter([shot], isJohns) == [shot];
    assert Filter([shot, foul], isJohns) == [shot, foul];
    assert PlayerEvents([shot, foul], "LIC12345") == [shot, foul];
    ImportLeavesOthers(stats, encounterId, players, [shot, foul], lookup, (encounterId, other));
  }
}
