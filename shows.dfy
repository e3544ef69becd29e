/**
 * Shows (services/shows.py): the shows nested under Europapark POIs, each
 * paired with its location POI, the lookup of one show, and the records
 * joined with the show's times.
 */
module Shows {
  import opened Wrappers
  import opened Json
  import opened ViewCommon
  import opened Showtimes
  import EuropaparkApi

  /** `{"show": show, "location_poi": poi}`. */
  datatype ShowItem = ShowItem(show: Json, locationPoi: Json)

  /** The items of one POI: each of its shows, in order, paired with it. */
  function PairsOf(poi: Json): (r: seq<ShowItem>)
    ensures |r| == |ShowsOf(poi)|
    ensures forall k :: 0 <= k < |r| ==> r[k] == ShowItem(ShowsOf(poi)[k], poi)
  {
    seq(|ShowsOf(poi)|, k requires 0 <= k < |ShowsOf(poi)| => ShowItem(ShowsOf(poi)[k], poi))
  }

  /** The items of the Europapark POIs among `pois`, in nested order. */
  function ItemsOf(pois: seq<Json>): seq<ShowItem>
    decreases |pois|
  {
    if pois == [] then []
    else (if InEuropapark(pois[0]) then PairsOf(pois[0]) else []) + ItemsOf(pois[1..])
  }

  /** `get_all_shows_from_pois`: `[]` when no POIs are cached. */
  function AllShowsFromPois(cache: CacheView): seq<ShowItem> {
    match Payload(cache, EuropaparkApi.Pois)
    case None => []
    case Some(data) => ItemsOf(PoiList(data))
  }

  method GetAllShowsFromPois(cache: CacheView) returns (items: seq<ShowItem>)
    ensures items == AllShowsFromPois(cache)
  {
    var data := Payload(cache, EuropaparkApi.Pois);
    if data.None? {
      return [];
    }
    var pois := PoiList(data.value);
    items := [];
    var i := 0;
    while i < |pois|
      invariant 0 <= i <= |pois|
      invariant items + ItemsOf(pois[i..]) == ItemsOf(pois)
    {
      assert pois[i..][1..] == pois[i + 1..];
      var poi := pois[i];
      if InEuropapark(poi) {
        var shows := ShowsOf(poi);
        ghost var before := items;
        var j := 0;
        while j < |shows|
          invariant 0 <= j <= |shows|
          invariant items == before + PairsOf(poi)[..j]
        {
          assert PairsOf(poi)[..j + 1] == PairsOf(poi)[..j] + [ShowItem(shows[j], poi)];
          items := items + [ShowItem(shows[j], poi)];
          j := j + 1;
        }
        assert PairsOf(poi)[..j] == PairsOf(poi);
        assert before + ItemsOf(pois[i..]) == items + ItemsOf(pois[i + 1..]);
      }
      i := i + 1;
    }
    assert pois[i..] == [];
    assert items + [] == items;
  }

  /** The items of `a + b` are those of `a` followed by those of `b`. */
  lemma {:induction false} ItemsOfAppend(a: seq<Json>, b: seq<Json>)
    ensures ItemsOf(a + b) == ItemsOf(a) + ItemsOf(b)
    decreases |a|
  {
    if a == [] {
      assert a + b == b;
    } else {
      assert (a + b)[0] == a[0];
      assert (a + b)[1..] == a[1..] + b;
      ItemsOfAppend(a[1..], b);
    }
  }

  /** An item is listed exactly when its show is nested under its Europapark location POI. */
  lemma {:induction false} ItemsOfMembers(pois: seq<Json>, item: ShowItem)
    ensures item in ItemsOf(pois) <==>
      exists i :: 0 <= i < |pois| && InEuropapark(pois[i]) && item.locationPoi == pois[i] && item.show in ShowsOf(pois[i])
    decreases |pois|
  {
    if pois != [] {
      ItemsOfMembers(pois[1..], item);
      assert forall i :: 1 <= i < |pois| ==> pois[1..][i - 1] == pois[i];
      if InEuropapark(pois[0]) && item.locationPoi == pois[0] && item.show in ShowsOf(pois[0]) {
        var k :| 0 <= k < |ShowsOf(pois[0])| && ShowsOf(pois[0])[k] == item.show;
        assert PairsOf(pois[0])[k] == item;
      }
      if item in ItemsOf(pois) && !(item in ItemsOf(pois[1..])) {
        assert InEuropapark(pois[0]) && item in PairsOf(pois[0]);
        var k :| 0 <= k < |PairsOf(pois[0])| && PairsOf(pois[0])[k] == item;
        assert ShowsOf(pois[0])[k] == item.show;
      }
      if exists i :: 0 <= i < |pois| && InEuropapark(pois[i]) && item.locationPoi == pois[i] && item.show in ShowsOf(pois[i]) {
        var i :| 0 <= i < |pois| && InEuropapark(pois[i]) && item.locationPoi == pois[i] && item.show in ShowsOf(pois[i]);
        if i > 0 {
          assert pois[1..][i - 1] == pois[i];
        }
      }
    }
  }

  function ItemHasShowId(showId: int): ShowItem -> bool {
    (item: ShowItem) => Get(item.show, "id") == JInt(showId)
  }

  /** `get_show_by_id`: the first item whose show has the id. */
  function ShowById(cache: CacheView, showId: int): Option<ShowItem> {
    FirstMatch(AllShowsFromPois(cache), ItemHasShowId(showId))
  }

  method GetShowById(cache: CacheView, showId: int) returns (r: Option<ShowItem>)
    ensures r == ShowById(cache, showId)
  {
    var items := GetAllShowsFromPois(cache);
    r := FindFirst(items, ItemHasShowId(showId));
  }

  /** The item found is the first with the id; nothing is found only when no show has it. */
  lemma ShowByIdIsFirst(cache: CacheView, showId: int)
    ensures var items := AllShowsFromPois(cache);
      match ShowById(cache, showId)
      case None => forall i :: 0 <= i < |items| ==> Get(items[i].show, "id") != JInt(showId)
      case Some(item) => exists i :: 0 <= i < |items| && items[i] == item && Get(item.show, "id") == JInt(showId) &&
                                     forall j :: 0 <= j < i ==> Get(items[j].show, "id") != JInt(showId)
  {
    FirstMatchIsFirst(AllShowsFromPois(cache), ItemHasShowId(showId));
  }

  /** `ShowInfo`. */
  datatype ShowInfo = ShowInfo(id: Json, name: Json, description: Json, locationName: Json,
                               location: Option<Location>, duration: Json, image: Option<ImageUrls>,
                               icon: Json, showtimes: Option<ShowTimeEntry>)

  /** The record of a show at its location POI; the name defaults to "Unbekannt". */
  function ShowRecord(item: ShowItem, showtimes: Option<ShowTimeEntry>): (r: ShowInfo)
    ensures r.locationName == Get(item.locationPoi, "name")
    ensures r.name == GetOr(item.show, "name", JStr("Unbekannt"))
    ensures r.location == PoiLocation(item.locationPoi)
  {
    ShowInfo(Get(item.show, "id"), GetOr(item.show, "name", JStr("Unbekannt")), Get(item.show, "excerpt"),
             Get(item.locationPoi, "name"), PoiLocation(item.locationPoi), Get(item.show, "duration"),
             ExtractImageUrls(Get(item.show, "image")), Icon(item.show), showtimes)
  }

  /** `get_show_info`: None for an unknown id, otherwise the record with the show's times. */
  function ShowInfoOf(cache: CacheView, showId: int): (r: Option<ShowInfo>)
    ensures r.None? <==> ShowById(cache, showId).None?
    ensures r.Some? ==> r.value == ShowRecord(ShowById(cache, showId).value, ShowtimeById(cache, JInt(showId)))
  {
    match ShowById(cache, showId)
    case None => None
    case Some(item) => Some(ShowRecord(item, ShowtimeById(cache, JInt(showId))))
  }

  method GetShowInfo(cache: CacheView, showId: int) returns (r: Option<ShowInfo>)
    ensures r == ShowInfoOf(cache, showId)
  {
    var item := GetShowById(cache, showId);
    if item.None? {
      return None;
    }
    var showtimes := GetShowtimeById(cache, JInt(showId));
    return Some(ShowRecord(item.value, showtimes));
  }

  /** One element of the loop in `get_all_shows`; `show["id"]` raises KeyError when absent. */
  function ShowEntryOf(item: ShowItem, cache: CacheView): (r: Result<Option<ShowInfo>>)
    ensures r.Err? <==> !Has(item.show, "id")
    ensures r.Ok? ==> r.value == Some(ShowRecord(item, ShowtimeById(cache, item.show.fields["id"])))
  {
    if !Has(item.show, "id") then Err(KeyError("id"))
    else Ok(Some(ShowRecord(item, ShowtimeById(cache, item.show.fields["id"]))))
  }

  function ShowStep(cache: CacheView): ShowItem -> Result<Option<ShowInfo>> {
    item => ShowEntryOf(item, cache)
  }

  /** `get_all_shows`. */
  function AllShows(cache: CacheView): Result<seq<ShowInfo>> {
    CollectAll(AllShowsFromPois(cache), ShowStep(cache))
  }

  method GetAllShows(cache: CacheView) returns (r: Result<seq<ShowInfo>>)
    ensures r == AllShows(cache)
  {
    var items := GetAllShowsFromPois(cache);
    r := Collect(items, ShowStep(cache));
  }

  /**
   * When every show has an id, there is one record per item, in the same
   * order, with that show's times; otherwise the first show without an id
   * raises KeyError.
   */
  lemma AllShowsOnePerItem(cache: CacheView)
    ensures var items := AllShowsFromPois(cache);
      (AllShows(cache).Ok? <==> forall i :: 0 <= i < |items| ==> Has(items[i].show, "id")) &&
      (AllShows(cache).Err? ==> AllShows(cache).error == KeyError("id")) &&
      (AllShows(cache).Ok? ==>
        |AllShows(cache).value| == |items| &&
        forall k :: 0 <= k < |items| ==>
          AllShows(cache).value[k] == ShowRecord(items[k], ShowtimeById(cache, items[k].show.fields["id"])))
  {
    var items := AllShowsFromPois(cache);
    CollectAllFails(items, ShowStep(cache));
    if AllShows(cache).Ok? {
      CollectAllTotal(items, ShowStep(cache));
    }
  }
}
