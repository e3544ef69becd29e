/** Seasons (services/seasons.py): the Europapark seasons with truncated dates. */
module Seasons {
  import opened Wrappers
  import opened Json
  import opened ViewCommon
  import EuropaparkApi

  /** `SeasonInfo`. */
  datatype SeasonInfo = SeasonInfo(id: Json, saison: Json, name: Json, description: Json, icon: Json,
                                   start: Option<string>, end: Option<string>)

  /** Characters kept of a date-time string: the `YYYY-MM-DD` part. */
  const DateLength: nat := 10

  /** `value[:10] if value else None`, for a string value. */
  function TruncatedDate(value: Json): (r: Option<string>)
    ensures r.Some? <==> value.JStr? && value.s != []
    ensures r.Some? ==> |r.value| == (if |value.s| < DateLength then |value.s| else DateLength) &&
                        r.value == value.s[..|r.value|]
  {
    if value.JStr? && value.s != [] then Some(Prefix(value.s, DateLength)) else None
  }

  /** `season["iconSvg"]["reference"]` when both are truthy, else None. */
  function SeasonIcon(season: Json): (r: Json)
    ensures Truthy(r) <==> Truthy(Get(season, "iconSvg")) && Truthy(Get(Get(season, "iconSvg"), "reference"))
    ensures Truthy(r) ==> r == Get(Get(season, "iconSvg"), "reference")
  {
    if Truthy(Get(season, "iconSvg")) && Truthy(Get(Get(season, "iconSvg"), "reference")) then
      Get(Get(season, "iconSvg"), "reference")
    else JNull
  }

  /**
   * One element of the loop in `get_seasons`: only Europapark seasons;
   * `season["id"]` raises KeyError when absent; the name defaults to "Unknown".
   */
  function SeasonEntryOf(season: Json): (r: Result<Option<SeasonInfo>>)
    ensures r == Ok(None) <==> !InEuropapark(season)
    ensures r.Err? <==> InEuropapark(season) && !Has(season, "id")
    ensures r.Err? ==> r.error == KeyError("id")
    ensures r.Ok? && r.value.Some? ==>
      var info := r.value.value;
      && info.id == season.fields["id"]
      && info.name == GetOr(season, "name", JStr("Unknown"))
      && info.start == TruncatedDate(Get(season, "startAt")) && info.end == TruncatedDate(Get(season, "endAt"))
      && info.icon == SeasonIcon(season)
  {
    if !InEuropapark(season) then Ok(None)
    else if !Has(season, "id") then Err(KeyError("id"))
    else Ok(Some(SeasonInfo(season.fields["id"], Get(season, "theme"), GetOr(season, "name", JStr("Unknown")),
                            Get(season, "description"), SeasonIcon(season),
                            TruncatedDate(Get(season, "startAt")), TruncatedDate(Get(season, "endAt")))))
  }

  /** `get_seasons`: `[]` when no seasons are cached. */
  function AllSeasons(cache: CacheView): Result<seq<SeasonInfo>> {
    match Payload(cache, EuropaparkApi.Seasons)
    case None => Ok([])
    case Some(data) => CollectAll(Elements(data), SeasonEntryOf)
  }

  method GetSeasons(cache: CacheView) returns (r: Result<seq<SeasonInfo>>)
    ensures r == AllSeasons(cache)
  {
    var data := Payload(cache, EuropaparkApi.Seasons);
    if data.None? {
      return Ok([]);
    }
    r := Collect(Elements(data.value), SeasonEntryOf);
  }

  /**
   * The list holds exactly the records of the Europapark seasons, in input
   * order, with dates of at most 10 characters.
   */
  lemma SeasonsExact(cache: CacheView, info: SeasonInfo)
    requires Payload(cache, EuropaparkApi.Seasons).Some? && AllSeasons(cache).Ok?
    ensures var seasons := Elements(Payload(cache, EuropaparkApi.Seasons).value);
      info in AllSeasons(cache).value <==>
      exists i :: 0 <= i < |seasons| && InEuropapark(seasons[i]) && SeasonEntryOf(seasons[i]) == Ok(Some(info))
    ensures info in AllSeasons(cache).value ==>
      (info.start.Some? ==> |info.start.value| <= DateLength) && (info.end.Some? ==> |info.end.value| <= DateLength)
  {
    var seasons := Elements(Payload(cache, EuropaparkApi.Seasons).value);
    CollectAllMembers(seasons, SeasonEntryOf, info);
  }

  /** The seasons of `a + b` are those of `a` followed by those of `b`. */
  lemma SeasonsKeepOrder(a: seq<Json>, b: seq<Json>)
    requires CollectAll(a, SeasonEntryOf).Ok? && CollectAll(b, SeasonEntryOf).Ok?
    ensures CollectAll(a + b, SeasonEntryOf) == Ok(CollectAll(a, SeasonEntryOf).value + CollectAll(b, SeasonEntryOf).value)
  {
    CollectAllAppend(a, b, SeasonEntryOf);
  }
}
