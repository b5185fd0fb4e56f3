/** The two endpoints of the recap workflow: preparing an uploaded recap for
    reconciliation against the encounter's roster, and importing it with the
    mappings chosen by the user. HTTP responses are values; the JSON parse of
    the upload is an input. */
module RecapController {
  import opened Common
  import opened Events
  import Sorting
  import RecapImport

  /** A member of the encounter's team roster. */
  datatype RosterUser = RosterUser(id: int, firstname: string, lastname: string, licenceNumber: Option<string>)

  /** PHP truthiness of a log player's `id`: present, not "" and not "0". */
  predicate IsTruthyId(id: Option<string>) {
    id.Some? && id.value != "" && id.value != "0"
  }

  /** The player's id is truthy and equals the licence number of some roster
      member. */
  predicate IsMatched(roster: seq<RosterUser>, p: LogPlayer) {
    IsTruthyId(p.id) && HasLicence(roster, p.id.value)
  }

  function MatchedBy(roster: seq<RosterUser>): LogPlayer -> bool {
    p => IsMatched(roster, p)
  }

  function UnmatchedBy(roster: seq<RosterUser>): LogPlayer -> bool {
    p => !IsMatched(roster, p)
  }

  /** The reconciliation loop of `prepareRecap`: every log player goes to
      `matched` or to `unmatched`, in input order. */
  method Reconcile(roster: seq<RosterUser>, players: seq<LogPlayer>) returns (matched: seq<LogPlayer>, unmatched: seq<LogPlayer>)
    ensures matched == Filter(players, MatchedBy(roster))
    ensures unmatched == Filter(players, UnmatchedBy(roster))
    ensures multiset(matched) + multiset(unmatched) == multiset(players)
  {
    matched, unmatched := [], [];
    var i := 0;
    while i < |players|
      invariant 0 <= i <= |players|
      invariant matched == Filter(players[..i], MatchedBy(roster))
      invariant unmatched == Filter(players[..i], UnmatchedBy(roster))
    {
      var player := players[i];
      assert players[..i + 1] == players[..i] + [player];
      FilterSnoc(players[..i], player, MatchedBy(roster));
      FilterSnoc(players[..i], player, UnmatchedBy(roster));
      var licenceId := player.id;
      if licenceId.Some? && licenceId.value != "" && licenceId.value != "0" && HasLicence(roster, licenceId.value) {
        matched := matched + [player];
      } else {
        unmatched := unmatched + [player];
      }
      i := i + 1;
    }
    assert players[..i] == players;
    FilterPartition(players, MatchedBy(roster), UnmatchedBy(roster));
  }

  /** `in_array($licenceId, $officialLicenceNumbers)`: some roster member
      has this licence number. */
  predicate HasLicence(roster: seq<RosterUser>, licence: string) {
    exists i :: 0 <= i < |roster| && roster[i].licenceNumber == Some(licence)
  }

  /** Every log player lands in exactly one of the two lists: in `matched`
      when it is matched, in `unmatched` otherwise. */
  lemma ReconcileSplits(roster: seq<RosterUser>, players: seq<LogPlayer>, i: int)
    requires 0 <= i < |players|
    ensures players[i] in Filter(players, MatchedBy(roster)) <==> IsMatched(roster, players[i])
    ensures players[i] in Filter(players, UnmatchedBy(roster)) <==> !IsMatched(roster, players[i])
  {
    if IsMatched(roster, players[i]) {
      FilterKeeps(players, MatchedBy(roster), i);
    } else {
      FilterKeeps(players, UnmatchedBy(roster), i);
    }
  }

  /** One entry of `official_players`. */
  datatype OfficialPlayer = OfficialPlayer(id: int, firstname: string, lastname: string, licenceNumber: Option<string>)

  function OfficialOf(u: RosterUser): OfficialPlayer {
    OfficialPlayer(u.id, u.firstname, u.lastname, u.licenceNumber)
  }

  /** The decoded upload. Only `players` is read; the document is echoed back
      as `recap_data`. */
  datatype RecapDocument = RecapDocument(players: Option<seq<LogPlayer>>)

  /** The result of `json_decode` on the uploaded file. */
  datatype Decoded = Malformed | Parsed(doc: RecapDocument)

  /** The responses of `prepareRecap`. */
  datatype PrepareResponse =
    | FileRequired
    | InvalidJson
    | EncounterNotFound
    | Prepared(recapData: RecapDocument, matched: seq<LogPlayer>, unmatched: seq<LogPlayer>, officialPlayers: seq<OfficialPlayer>)

  function PrepareStatus(r: PrepareResponse): int {
    match r
    case FileRequired => 422
    case InvalidJson => 422
    case EncounterNotFound => 404
    case Prepared(_, _, _, _) => 200
  }

  /** `prepareRecap`: the upload is required, then it must parse, then the
      encounter must exist; `rosters` maps each encounter id to its team's
      members. */
  method PrepareRecap(upload: Option<Decoded>, encounterId: nat, rosters: map<nat, seq<RosterUser>>) returns (r: PrepareResponse)
    ensures upload.None? ==> r == FileRequired
    ensures upload == Some(Malformed) ==> r == InvalidJson
    ensures upload.Some? && upload.value.Parsed? && encounterId !in rosters ==> r == EncounterNotFound
    ensures upload.Some? && upload.value.Parsed? && encounterId in rosters ==>
      var players := upload.value.doc.players.GetOr([]);
      r.Prepared?
      && r.recapData == upload.value.doc
      && r.matched == Filter(players, MatchedBy(rosters[encounterId]))
      && r.unmatched == Filter(players, UnmatchedBy(rosters[encounterId]))
      && |r.officialPlayers| == |rosters[encounterId]|
      && forall i :: 0 <= i < |r.officialPlayers| ==> r.officialPlayers[i] == OfficialOf(rosters[encounterId][i])
    ensures r.Prepared? <==> PrepareStatus(r) == 200
  {
    if upload.None? {
      return FileRequired;
    }
    if upload.value.Malformed? {
      return InvalidJson;
    }
    if encounterId !in rosters {
      return EncounterNotFound;
    }
    var data := upload.value.doc;
    var officialPlayers := rosters[encounterId];
    var jsonPlayers := if data.players.Some? then data.players.value else [];
    var matched, unmatched := Reconcile(officialPlayers, jsonPlayers);
    r := Prepared(data, matched, unmatched, Sorting.MapSeq(officialPlayers, OfficialOf));
  }

  /** The unit-test scenario: with a roster holding LIC12345 and LIC67890,
      the log players LIC12345 and LIC99999 split into one matched and one
      unmatched player. */
  lemma ReconcileScenario()
    ensures
      var roster := [RosterUser(1, "", "", Some("LIC12345")), RosterUser(2, "", "", Some("LIC67890"))];
      var john := LogPlayer(Some("LIC12345"), "John", "Doe");
      var jane := LogPlayer(Some("LIC99999"), "Jane", "Smith");
      Filter([john, jane], MatchedBy(roster)) == [john]
      && Filter([john, jane], UnmatchedBy(roster)) == [jane]
  {
    var roster := [RosterUser(1, "", "", Some("LIC12345")), RosterUser(2, "", "", Some("LIC67890"))];
    var john := LogPlayer(Some("LIC12345"), "John", "Doe");
    var jane := LogPlayer(Some("LIC99999"), "Jane", "Smith");
    assert IsMatched(roster, john) by {
      assert roster[0].licenceNumber == john.id;
    }
    assert !IsMatched(roster, jane);
    assert [john, jane][..1] == [john] && [john][..0] == [];
    assert Filter([john], MatchedBy(roster)) == [john];
    assert Filter([john], UnmatchedBy(roster)) == [];
  }

  // ---------------------------------------------------------------------------
  // importRecap

  /** One entry of the request's `mappings` as sent: either field may be
      missing. */
  datatype MappingInput = MappingInput(jsonPlayerId: Option<string>, dbUserId: Option<int>)

  /** The import request: `recapData` is absent (or not a non-empty array)
      when None. */
  datatype ImportRequest = ImportRequest(recapData: Option<Recap>, mappings: Option<seq<MappingInput>>)

  /** A character PHP's `trim` removes. */
  predicate IsTrimmed(c: char) {
    c == ' ' || c == '\t' || c == '\n' || c == '\r' || c as int == 0 || c as int == 11
  }

  /** A string the `required` rule rejects: empty once trimmed. */
  predicate IsBlank(s: string) {
    forall i :: 0 <= i < |s| ==> IsTrimmed(s[i])
  }

  /** `mappings.*.json_player_id: required|string` and
      `mappings.*.db_user_id: required|integer|exists:users,id`. */
  predicate ValidMapping(m: MappingInput, users: set<int>) {
    m.jsonPlayerId.Some? && !IsBlank(m.jsonPlayerId.value)
    && m.dbUserId.Some? && m.dbUserId.value in users
  }

  /** The whole rule set: both keys required (an empty array fails
      `required`), every mapping valid. */
  predicate ValidImport(req: ImportRequest, users: set<int>) {
    req.recapData.Some? && req.mappings.Some? && |req.mappings.value| > 0
    && forall i :: 0 <= i < |req.mappings.value| ==> ValidMapping(req.mappings.value[i], users)
  }

  function ToMapping(m: MappingInput): RecapImport.Mapping
    requires m.jsonPlayerId.Some? && m.dbUserId.Some?
  {
    RecapImport.Mapping(m.jsonPlayerId.value, m.dbUserId.value)
  }

  function ToMappings(ms: seq<MappingInput>): (r: seq<RecapImport.Mapping>)
    requires forall i :: 0 <= i < |ms| ==> ms[i].jsonPlayerId.Some? && ms[i].dbUserId.Some?
    ensures |r| == |ms|
  {
    if ms == [] then [] else [ToMapping(ms[0])] + ToMappings(ms[1..])
  }

  /** The responses of `importRecap`. */
  datatype ImportResponse = ValidationFailed | ImportEncounterNotFound | ImportFailed | Imported

  function ImportStatus(r: ImportResponse): int {
    match r
    case ValidationFailed => 422
    case ImportEncounterNotFound => 404
    case ImportFailed => 500
    case Imported => 200
  }

  /** `importRecap`: validation, then the encounter lookup, then the
      importer, whose throw becomes a 500. `failAt` is passed on to the
      importer as the write that throws, if any. */
  method ImportRecap(store: RecapImport.StatsStore, req: ImportRequest, encounterId: nat, users: set<int>, failAt: Option<nat>)
    returns (r: ImportResponse)
    modifies store
    ensures !ValidImport(req, users) ==> r == ValidationFailed
    ensures ValidImport(req, users) && encounterId !in old(store.encounters) ==> r == ImportEncounterNotFound
    ensures r in {ValidationFailed, ImportEncounterNotFound, ImportFailed} ==>
      store.encounters == old(store.encounters) && store.encounterStats == old(store.encounterStats)
      && store.individualStats == old(store.individualStats)
    ensures r == Imported ==>
      var recap := req.recapData.value;
      var lookup := RecapImport.PluckMappings(ToMappings(req.mappings.value));
      store.encounters == old(store.encounters)[encounterId := RecapImport.ScoreRow(Some(recap.score.team), Some(recap.score.opponent))]
      && store.encounterStats == old(store.encounterStats)[encounterId := recap]
      && store.individualStats == RecapImport.ImportPlayers(old(store.individualStats), encounterId, recap.players, recap.events, lookup)
    ensures ValidImport(req, users) && encounterId in old(store.encounters) ==> (r == Imported || r == ImportFailed)
    // the request succeeds exactly when the importer commits: no write throws
    ensures ValidImport(req, users) && encounterId in old(store.encounters) ==>
      (r == Imported <==> failAt.None? || failAt.value >= 2 + RecapImport.MappedCount(
        req.recapData.value.players, RecapImport.PluckMappings(ToMappings(req.mappings.value))))
  {
    if !ValidImport(req, users) {
      return ValidationFailed;
    }
    if encounterId !in store.encounters {
      return ImportEncounterNotFound;
    }
    var ok := store.Execute(encounterId, req.recapData.value, ToMappings(req.mappings.value), failAt);
    if !ok {
      return ImportFailed;
    }
    r := Imported;
  }
}
