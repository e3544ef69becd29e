/**
 * Show times (services/showtimes.py): the map from show id to show name
 * and location, built from the shows nested under Europapark POIs, and
 * the processed show-time list.
 */
module Showtimes {
  import opened Wrappers
  import opened Json
  import opened ViewCommon
  import EuropaparkApi

  /** What the show map keeps per show id. */
  datatype ShowSummary = ShowSummary(name: Json, latitude: Json, longitude: Json)

  /** `poi.get("shows", [])`. */
  function ShowsOf(poi: Json): seq<Json> {
    Elements(GetOr(poi, "shows", JArr([])))
  }

  /** The summary of a show placed at its location POI; the name defaults to "Unknown". */
  function ShowSummaryOf(show: Json, poi: Json): ShowSummary {
    ShowSummary(GetOr(show, "name", JStr("Unknown")), Get(poi, "latitude"), Get(poi, "longitude"))
  }

  /** The inner loop: the shows of one POI, in order, each with a truthy id. */
  function AddShows(m: map<Json, ShowSummary>, shows: seq<Json>, poi: Json): map<Json, ShowSummary>
    decreases |shows|
  {
    if shows == [] then m
    else
      var id := Get(shows[0], "id");
      AddShows(if Truthy(id) then m[id := ShowSummaryOf(shows[0], poi)] else m, shows[1..], poi)
  }

  /** The outer loop: the Europapark POIs, in order. */
  function ShowMapFrom(m: map<Json, ShowSummary>, pois: seq<Json>): map<Json, ShowSummary>
    decreases |pois|
  {
    if pois == [] then m
    else ShowMapFrom(if InEuropapark(pois[0]) then AddShows(m, ShowsOf(pois[0]), pois[0]) else m, pois[1..])
  }

  /** `get_show_info_map`: `{}` when no POIs are cached. */
  function ShowInfoMap(cache: CacheView): map<Json, ShowSummary> {
    match Payload(cache, EuropaparkApi.Pois)
    case None => map[]
    case Some(data) => ShowMapFrom(map[], PoiList(data))
  }

  method GetShowInfoMap(cache: CacheView) returns (m: map<Json, ShowSummary>)
    ensures m == ShowInfoMap(cache)
  {
    var data := Payload(cache, EuropaparkApi.Pois);
    if data.None? {
      return map[];
    }
    var pois := PoiList(data.value);
    m := map[];
    var i := 0;
    while i < |pois|
      invariant 0 <= i <= |pois|
      invariant ShowMapFrom(m, pois[i..]) == ShowInfoMap(cache)
    {
      assert pois[i..][1..] == pois[i + 1..];
      var poi := pois[i];
      if InEuropapark(poi) {
        var shows := ShowsOf(poi);
        ghost var target := AddShows(m, shows, poi);
        var j := 0;
        while j < |shows|
          invariant 0 <= j <= |shows|
          invariant AddShows(m, shows[j..], poi) == target
        {
          assert shows[j..][1..] == shows[j + 1..];
          var showId := Get(shows[j], "id");
          if Truthy(showId) {
            m := m[showId := ShowSummaryOf(shows[j], poi)];
          }
          j := j + 1;
        }
        assert shows[j..] == [];
      }
      i := i + 1;
    }
    assert pois[i..] == [];
  }

  /** The truthy show ids among `shows`. */
  function TruthyShowIds(shows: seq<Json>): set<Json> {
    set j | 0 <= j < |shows| && Truthy(Get(shows[j], "id")) :: Get(shows[j], "id")
  }

  /** The truthy show ids under the Europapark POIs among `pois`. */
  function ScopedShowIds(pois: seq<Json>): set<Json>
    decreases |pois|
  {
    if pois == [] then {}
    else (if InEuropapark(pois[0]) then TruthyShowIds(ShowsOf(pois[0])) else {}) + ScopedShowIds(pois[1..])
  }

  lemma {:induction false} AddShowsKeys(m: map<Json, ShowSummary>, shows: seq<Json>, poi: Json)
    ensures AddShows(m, shows, poi).Keys == m.Keys + TruthyShowIds(shows)
    decreases |shows|
  {
    if shows != [] {
      var id := Get(shows[0], "id");
      AddShowsKeys(if Truthy(id) then m[id := ShowSummaryOf(shows[0], poi)] else m, shows[1..], poi);
      assert TruthyShowIds(shows) == TruthyShowIds(shows[1..]) + (if Truthy(id) then {id} else {}) by {
        forall c | c in TruthyShowIds(shows)
          ensures c in TruthyShowIds(shows[1..]) + (if Truthy(id) then {id} else {})
        {
          var j :| 0 <= j < |shows| && Truthy(Get(shows[j], "id")) && Get(shows[j], "id") == c;
          if j > 0 {
            assert shows[1..][j - 1] == shows[j];
          }
        }
        forall c | c in TruthyShowIds(shows[1..]) ensures c in TruthyShowIds(shows) {
          var j :| 0 <= j < |shows[1..]| && Truthy(Get(shows[1..][j], "id")) && Get(shows[1..][j], "id") == c;
          assert shows[1..][j] == shows[j + 1];
        }
      }
    }
  }

  /**
   * The show map holds exactly the truthy ids of shows nested under
   * Europapark POIs.
   */
  lemma {:induction false} ShowMapKeys(m: map<Json, ShowSummary>, pois: seq<Json>)
    ensures ShowMapFrom(m, pois).Keys == m.Keys + ScopedShowIds(pois)
    decreases |pois|
  {
    if pois != [] {
      if InEuropapark(pois[0]) {
        AddShowsKeys(m, ShowsOf(pois[0]), pois[0]);
        ShowMapKeys(AddShows(m, ShowsOf(pois[0]), pois[0]), pois[1..]);
      } else {
        ShowMapKeys(m, pois[1..]);
      }
    }
  }

  /** `ShowTimeEntry`. */
  datatype ShowTimeEntry = ShowTimeEntry(id: Json, name: Json, location: Option<Location>,
                                         timesToday: Json, timesTomorrow: Json)

  /**
   * One show-time record: skipped when its `showId` is not in the show
   * map; the location needs both coordinates and the time lists default to `[]`.
   */
  function ShowtimeEntryOf(entry: Json, showMap: map<Json, ShowSummary>): (r: Option<ShowTimeEntry>)
    ensures r.None? <==> Get(entry, "showId") !in showMap
    ensures r.Some? ==> r.value.id == Get(entry, "showId") && r.value.name == showMap[Get(entry, "showId")].name
    ensures r.Some? && !Has(entry, "today") ==> r.value.timesToday == JArr([])
    ensures r.Some? && !Has(entry, "tomorrow") ==> r.value.timesTomorrow == JArr([])
    ensures r.Some? && Has(entry, "today") ==> r.value.timesToday == entry.fields["today"]
    ensures r.Some? && Has(entry, "tomorrow") ==> r.value.timesTomorrow == entry.fields["tomorrow"]
    ensures r.Some? ==>
      var info := showMap[Get(entry, "showId")];
      && (r.value.location.Some? <==> Truthy(info.latitude) && Truthy(info.longitude))
      && (r.value.location.Some? ==> r.value.location.value == Location(info.latitude, info.longitude))
  {
    var showId := Get(entry, "showId");
    if showId !in showMap then None
    else
      var info := showMap[showId];
      Some(ShowTimeEntry(showId, info.name, LocationOf(info.latitude, info.longitude),
                         GetOr(entry, "today", JArr([])), GetOr(entry, "tomorrow", JArr([]))))
  }

  function ShowtimeStep(showMap: map<Json, ShowSummary>): Json -> Result<Option<ShowTimeEntry>> {
    entry => Ok(ShowtimeEntryOf(entry, showMap))
  }

  /** Building show-time records never raises. */
  lemma ShowtimeStepNeverFails(xs: seq<Json>, showMap: map<Json, ShowSummary>)
    ensures CollectAll(xs, ShowtimeStep(showMap)).Ok?
  {
    CollectAllFails(xs, ShowtimeStep(showMap));
  }

  /** `get_processed_showtimes`: `[]` when no show times are cached. */
  function ProcessedShowtimes(cache: CacheView): seq<ShowTimeEntry> {
    match Payload(cache, EuropaparkApi.ShowTimes)
    case None => []
    case Some(data) =>
      ShowtimeStepNeverFails(Elements(data), ShowInfoMap(cache));
      CollectAll(Elements(data), ShowtimeStep(ShowInfoMap(cache))).value
  }

  method GetProcessedShowtimes(cache: CacheView) returns (r: seq<ShowTimeEntry>)
    ensures r == ProcessedShowtimes(cache)
  {
    var data := Payload(cache, EuropaparkApi.ShowTimes);
    if data.None? {
      return [];
    }
    var showMap := GetShowInfoMap(cache);
    ShowtimeStepNeverFails(Elements(data.value), showMap);
    var collected := Collect(Elements(data.value), ShowtimeStep(showMap));
    return collected.value;
  }

  /**
   * A processed entry exists for a show-time record exactly when its show
   * is known, and every entry comes from such a record.
   */
  lemma ProcessedShowtimesExact(cache: CacheView, e: ShowTimeEntry)
    requires Payload(cache, EuropaparkApi.ShowTimes).Some?
    ensures var xs := Elements(Payload(cache, EuropaparkApi.ShowTimes).value);
      e in ProcessedShowtimes(cache) <==>
      exists i :: 0 <= i < |xs| && ShowtimeEntryOf(xs[i], ShowInfoMap(cache)) == Some(e)
  {
    var xs := Elements(Payload(cache, EuropaparkApi.ShowTimes).value);
    ShowtimeStepNeverFails(xs, ShowInfoMap(cache));
    CollectAllMembers(xs, ShowtimeStep(ShowInfoMap(cache)), e);
  }

  function HasShowId(id: Json): ShowTimeEntry -> bool {
    (e: ShowTimeEntry) => e.id == id
  }

  /** `get_showtime_by_id`: the first processed entry with the id. */
  function ShowtimeById(cache: CacheView, id: Json): Option<ShowTimeEntry> {
    FirstMatch(ProcessedShowtimes(cache), HasShowId(id))
  }

  method GetShowtimeById(cache: CacheView, id: Json) returns (r: Option<ShowTimeEntry>)
    ensures r == ShowtimeById(cache, id)
  {
    var entries := GetProcessedShowtimes(cache);
    r := FindFirst(entries, HasShowId(id));
  }

  /** The entry found has the id, and no earlier entry has it. */
  lemma ShowtimeByIdIsFirst(cache: CacheView, id: Json)
    ensures var entries := ProcessedShowtimes(cache);
      match ShowtimeById(cache, id)
      case None => forall i :: 0 <= i < |entries| ==> entries[i].id != id
      case Some(e) => exists i :: 0 <= i < |entries| && entries[i] == e && e.id == id &&
                                  forall j :: 0 <= j < i ==> entries[j].id != id
  {
    FirstMatchIsFirst(ProcessedShowtimes(cache), HasShowId(id));
  }
}
