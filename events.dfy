/** The typed event-log model of the statistics engine: one play-by-play
    event, the per-player log stored for each (encounter, user) pair, and the
    raw match recap uploaded by the scoring application. The stored records
    are JSON documents in the source; here they are values whose parse step
    is outside the model. */
module Events {
  import opened Common

  /** The `type` of an event. The parse step (`ParseType`) maps the names
      "shoot", "rebound", "pass", "steal", "turnover", "foul",
      "opponent_score" and "opponent_shoot" to the named constructors; any
      other name is kept in `Other`, so a parsed `Other` never carries one of
      the known names (`WellTyped`). */
  datatype EventType =
    | Shoot | Rebound | Pass | Steal | Turnover | Foul
    | OpponentScore | OpponentShoot
    | Other(name: string)

  /** The type names the engine compares an event's `type` against. */
  predicate KnownTypeName(name: string) {
    name in {"shoot", "rebound", "pass", "steal", "turnover", "foul", "opponent_score", "opponent_shoot"}
  }

  /** An event type as parsing produces it. */
  predicate WellTyped(k: EventType) {
    k.Other? ==> !KnownTypeName(k.name)
  }

  /** Reads an event's `type` string: each known name selects its
      constructor, and the `switch` over the names falls through for any
      other string. */
  function ParseType(name: string): (r: EventType)
    ensures WellTyped(r)
    ensures r.Other? <==> !KnownTypeName(name)
    ensures r.Other? ==> r.name == name
  {
    match name
    case "shoot" => Shoot
    case "rebound" => Rebound
    case "pass" => Pass
    case "steal" => Steal
    case "turnover" => Turnover
    case "foul" => Foul
    case "opponent_score" => OpponentScore
    case "opponent_shoot" => OpponentShoot
    case _ => Other(name)
  }

  /** The `type` string an event type is written with; parsing it back
      gives the same type, and parsing then writing gives the same string. */
  function TypeName(k: EventType): (r: string)
    ensures WellTyped(k) ==> ParseType(r) == k
    ensures WellTyped(k) ==> (KnownTypeName(r) <==> !k.Other?)
  {
    match k
    case Shoot => "shoot"
    case Rebound => "rebound"
    case Pass => "pass"
    case Steal => "steal"
    case Turnover => "turnover"
    case Foul => "foul"
    case OpponentScore => "opponent_score"
    case OpponentShoot => "opponent_shoot"
    case Other(name) => name
  }

  /** Parsing any string and writing it back gives the string. */
  lemma TypeNameOfParse(name: string)
    ensures TypeName(ParseType(name)) == name
  {
  }

  /** One event. Every field but the type may be missing from the JSON. */
  datatype Event = Event(
    kind: EventType,
    period: Option<int>,
    points: Option<int>,
    value: Option<int>,
    successful: Option<bool>,
    playerId: Option<string>)

  /** PHP truthiness of `$event['successful']`: a missing key reads as null,
      which is falsy. */
  predicate IsSuccessful(e: Event) {
    e.successful == Some(true)
  }

  /** `$event['points']` used as a number: a missing key reads as null, which
      adds as 0. */
  function PointsOrZero(e: Event): int {
    e.points.GetOr(0)
  }

  /** A player as listed in the recap's `players` array. */
  datatype LogPlayer = LogPlayer(id: Option<string>, firstname: string, lastname: string)

  /** The per-player document stored in `individual_stats.json`:
      `{id, firstname, lastname, events}`. */
  datatype PlayerLog = PlayerLog(id: string, firstname: string, lastname: string, events: seq<Event>)

  /** The final score of a recap. */
  datatype Score = Score(team: int, opponent: int)

  /** The raw recap uploaded for one encounter (stored verbatim in
      `encounter_stats.json`). */
  datatype Recap = Recap(score: Score, players: seq<LogPlayer>, events: seq<Event>)

  /** A simple event of the given type with no optional field set. */
  function Plain(kind: EventType): Event {
    Event(kind, None, None, None, None, None)
  }

  /** A shot worth `points`, made or missed, with no period. */
  function Shot(points: int, made: bool): Event {
    Event(Shoot, None, Some(points), None, Some(made), None)
  }
}
