/** The season update: the DTO's null filter, and the rule that activating a
    season deactivates every other season. */
module SeasonService {
  import opened Common

  /** A season row. Dates are kept as the strings the API exchanges. */
  datatype Season = Season(name: string, startDate: string, endDate: string, isActive: bool)

  /** `UpdateSeasonDTO`: every field optional. */
  datatype UpdateSeasonDto = UpdateSeasonDto(
    name: Option<string>, startDate: Option<string>, endDate: Option<string>, isActive: Option<bool>)

  /** A value of the update array. */
  datatype FieldValue = Text(text: string) | Flag(flag: bool)

  /** `toArray`: the DTO's fields as an array, without the null ones. */
  function ToArray(dto: UpdateSeasonDto): (r: map<string, FieldValue>)
    ensures "name" in r <==> dto.name.Some?
    ensures "start_date" in r <==> dto.startDate.Some?
    ensures "end_date" in r <==> dto.endDate.Some?
    ensures "is_active" in r <==> dto.isActive.Some?
    ensures r.Keys <= {"name", "start_date", "end_date", "is_active"}
  {
    var m: map<string, FieldValue> := map[];
    var m := if dto.name.Some? then m["name" := Text(dto.name.value)] else m;
    var m := if dto.startDate.Some? then m["start_date" := Text(dto.startDate.value)] else m;
    var m := if dto.endDate.Some? then m["end_date" := Text(dto.endDate.value)] else m;
    if dto.isActive.Some? then m["is_active" := Flag(dto.isActive.value)] else m
  }

  /** `$season->update($data)`: each column present in the array takes the
      array's value. */
  function Fill(s: Season, data: map<string, FieldValue>): (r: Season)
    ensures "name" !in data ==> r.name == s.name
    ensures "start_date" !in data ==> r.startDate == s.startDate
    ensures "end_date" !in data ==> r.endDate == s.endDate
    ensures "is_active" !in data ==> r.isActive == s.isActive
  {
    var s := if "name" in data && data["name"].Text? then s.(name := data["name"].text) else s;
    var s := if "start_date" in data && data["start_date"].Text? then s.(startDate := data["start_date"].text) else s;
    var s := if "end_date" in data && data["end_date"].Text? then s.(endDate := data["end_date"].text) else s;
    if "is_active" in data && data["is_active"].Flag? then s.(isActive := data["is_active"].flag) else s
  }

  /** Only the DTO's non-null fields are written; every other field keeps its
      value. */
  lemma FillWritesNonNullFields(s: Season, dto: UpdateSeasonDto)
    ensures Fill(s, ToArray(dto)) == Season(
      dto.name.GetOr(s.name), dto.startDate.GetOr(s.startDate), dto.endDate.GetOr(s.endDate), dto.isActive.GetOr(s.isActive))
  {
  }

  /** `isset($data['is_active']) && $data['is_active'] === true`. */
  predicate Activates(dto: UpdateSeasonDto) {
    "is_active" in ToArray(dto) && ToArray(dto)["is_active"] == Flag(true)
  }

  /** `Season::where('id', '!=', $id)->update(['is_active' => false])`. */
  function DeactivateOthers(seasons: map<int, Season>, id: int): (r: map<int, Season>)
    ensures r.Keys == seasons.Keys
    ensures forall k :: k in r && k != id ==> r[k] == seasons[k].(isActive := false)
    ensures id in seasons ==> r[id] == seasons[id]
  {
    map k | k in seasons :: if k == id then seasons[k] else seasons[k].(isActive := false)
  }

  class SeasonStore {
    var seasons: map<int, Season>

    constructor(seasons: map<int, Season>)
      ensures this.seasons == seasons
    {
      this.seasons := seasons;
    }

    /** `updateSeason`: the bulk deactivation when the DTO activates, then the
        target's update. */
    method UpdateSeason(id: int, dto: UpdateSeasonDto)
      requires id in seasons
      modifies this
      ensures seasons == UpdatedSeasons(old(seasons), id, dto)
      ensures seasons.Keys == old(seasons).Keys
      ensures seasons[id] == Fill(old(seasons)[id], ToArray(dto))
      ensures Activates(dto) ==> forall k :: k in seasons && k != id ==> seasons[k] == old(seasons)[k].(isActive := false)
      ensures !Activates(dto) ==> forall k :: k in seasons && k != id ==> seasons[k] == old(seasons)[k]
    {
      var data := ToArray(dto);
      if "is_active" in data && data["is_active"] == Flag(true) {
        seasons := DeactivateOthers(seasons, id);
      }
      seasons := seasons[id := Fill(seasons[id], data)];
    }
  }

  /** The state `UpdateSeason` leaves. */
  function UpdatedSeasons(seasons: map<int, Season>, id: int, dto: UpdateSeasonDto): (r: map<int, Season>)
    requires id in seasons
    ensures r.Keys == seasons.Keys
    ensures forall k :: k in r && k != id && r[k] != seasons[k] ==>
      Activates(dto) && r[k] == seasons[k].(isActive := false)
  {
    var after := if Activates(dto) then DeactivateOthers(seasons, id) else seasons;
    after[id := Fill(seasons[id], ToArray(dto))]
  }

  /** After an update with `is_active` true, the target is the only active
      season. */
  lemma ActivationIsExclusive(seasons: map<int, Season>, id: int, dto: UpdateSeasonDto)
    requires id in seasons && dto.isActive == Some(true)
    ensures var r := UpdatedSeasons(seasons, id, dto);
      r[id].isActive && forall k :: k in r && r[k].isActive ==> k == id
  {
    FillWritesNonNullFields(seasons[id], dto);
  }

  /** With `is_active` false or absent, no other season changes. */
  lemma OthersUntouchedUnlessActivating(seasons: map<int, Season>, id: int, dto: UpdateSeasonDto)
    requires id in seasons && dto.isActive != Some(true)
    ensures var r := UpdatedSeasons(seasons, id, dto);
      r.Keys == seasons.Keys && forall k :: k in r && k != id ==> r[k] == seasons[k]
  {
  }

  /** Applying the same update twice leaves what applying it once left. */
  lemma UpdateIsIdempotent(seasons: map<int, Season>, id: int, dto: UpdateSeasonDto)
    requires id in seasons
    ensures UpdatedSeasons(UpdatedSeasons(seasons, id, dto), id, dto) == UpdatedSeasons(seasons, id, dto)
  {
    var once := UpdatedSeasons(seasons, id, dto);
    FillWritesNonNullFields(seasons[id], dto);
    FillWritesNonNullFields(once[id], dto);
    assert Fill(once[id], ToArray(dto)) == once[id];
  }
}
