/**
 * Shops, restaurants and services (services/pois.py): the Europapark POIs
 * of one type, and the lookup of one of them by id and type.
 */
module Pois {
  import opened Wrappers
  import opened Json
  import opened ViewCommon
  import EuropaparkApi

  /** `POIInfo`. */
  datatype PoiInfo = PoiInfo(id: Json, name: Json, description: Json, poiType: Json, areaId: Json,
                             location: Option<Location>, image: Option<ImageUrls>, icon: Json)

  /** A POI is listed under `poiType` when it has that type and is in Europapark. */
  predicate IsOfType(poi: Json, poiType: string) {
    Get(poi, "type") == JStr(poiType) && InEuropapark(poi)
  }

  /** The record of a POI that has an `id`; the name defaults to "Unbekannt". */
  function PoiInfoOf(poi: Json): (r: PoiInfo)
    requires Has(poi, "id")
    ensures r.id == poi.fields["id"]
    ensures r.name == (if Has(poi, "name") then poi.fields["name"] else JStr("Unbekannt"))
    ensures Truthy(Get(poi, "icon")) ==> r.icon == Get(Get(poi, "icon"), "small")
    ensures !Truthy(Get(poi, "icon")) ==> r.icon == JNull
  {
    PoiInfo(poi.fields["id"], GetOr(poi, "name", JStr("Unbekannt")), Get(poi, "excerpt"), Get(poi, "type"),
            Get(poi, "areaId"), PoiLocation(poi), ExtractImageUrls(Get(poi, "image")), Icon(poi))
  }

  /** One element of the loop in `get_pois_by_type`; `poi["id"]` raises KeyError when absent. */
  function PoiEntryOf(poi: Json, poiType: string): (r: Result<Option<PoiInfo>>)
    ensures r == Ok(None) <==> !IsOfType(poi, poiType)
    ensures r.Err? <==> IsOfType(poi, poiType) && !Has(poi, "id")
    ensures r.Err? ==> r.error == KeyError("id")
    ensures r.Ok? && r.value.Some? ==> Has(poi, "id") && r.value.value == PoiInfoOf(poi)
  {
    if !IsOfType(poi, poiType) then Ok(None)
    else if !Has(poi, "id") then Err(KeyError("id"))
    else Ok(Some(PoiInfoOf(poi)))
  }

  function PoiStep(poiType: string): Json -> Result<Option<PoiInfo>> {
    poi => PoiEntryOf(poi, poiType)
  }

  /** `get_pois_by_type`: `[]` when no POIs are cached. */
  function PoisByType(cache: CacheView, poiType: string): Result<seq<PoiInfo>> {
    match Payload(cache, EuropaparkApi.Pois)
    case None => Ok([])
    case Some(data) => CollectAll(PoiList(data), PoiStep(poiType))
  }

  method GetPoisByType(cache: CacheView, poiType: string) returns (r: Result<seq<PoiInfo>>)
    ensures r == PoisByType(cache, poiType)
  {
    var data := Payload(cache, EuropaparkApi.Pois);
    if data.None? {
      return Ok([]);
    }
    r := Collect(PoiList(data.value), PoiStep(poiType));
  }

  /**
   * The list holds exactly the records of the POIs of the type in
   * Europapark, and a POI among them without an id raises KeyError.
   */
  lemma PoisByTypeExact(cache: CacheView, poiType: string, info: PoiInfo)
    requires Payload(cache, EuropaparkApi.Pois).Some?
    ensures var pois := PoiList(Payload(cache, EuropaparkApi.Pois).value);
      (PoisByType(cache, poiType).Ok? <==> forall i :: 0 <= i < |pois| && IsOfType(pois[i], poiType) ==> Has(pois[i], "id")) &&
      (PoisByType(cache, poiType).Ok? ==>
        (info in PoisByType(cache, poiType).value <==>
         exists i :: 0 <= i < |pois| && IsOfType(pois[i], poiType) && Has(pois[i], "id") && PoiInfoOf(pois[i]) == info))
  {
    var pois := PoiList(Payload(cache, EuropaparkApi.Pois).value);
    CollectAllFails(pois, PoiStep(poiType));
    if PoisByType(cache, poiType).Ok? {
      CollectAllMembers(pois, PoiStep(poiType), info);
    }
  }

  /** The records of `a + b` are those of `a` followed by those of `b`. */
  lemma PoisByTypeKeepsOrder(a: seq<Json>, b: seq<Json>, poiType: string)
    requires CollectAll(a, PoiStep(poiType)).Ok? && CollectAll(b, PoiStep(poiType)).Ok?
    ensures CollectAll(a + b, PoiStep(poiType)) ==
            Ok(CollectAll(a, PoiStep(poiType)).value + CollectAll(b, PoiStep(poiType)).value)
  {
    CollectAllAppend(a, b, PoiStep(poiType));
  }

  function MatchesIdAndType(poiId: int, poiType: string): Json -> bool {
    poi => Get(poi, "id") == JInt(poiId) && IsOfType(poi, poiType)
  }

  /** `get_poi_by_id_and_type`: the first POI with the id, the type and the scope. */
  function PoiByIdAndType(cache: CacheView, poiId: int, poiType: string): (r: Option<PoiInfo>)
    ensures Payload(cache, EuropaparkApi.Pois).None? ==> r.None?
  {
    match Payload(cache, EuropaparkApi.Pois)
    case None => None
    case Some(data) =>
      match FirstMatch(PoiList(data), MatchesIdAndType(poiId, poiType))
      case None => None
      case Some(poi) =>
        FirstMatchIsFirst(PoiList(data), MatchesIdAndType(poiId, poiType));
        Some(PoiInfoOf(poi))
  }

  method GetPoiByIdAndType(cache: CacheView, poiId: int, poiType: string) returns (r: Option<PoiInfo>)
    ensures r == PoiByIdAndType(cache, poiId, poiType)
  {
    var data := Payload(cache, EuropaparkApi.Pois);
    if data.None? {
      return None;
    }
    var found := FindFirst(PoiList(data.value), MatchesIdAndType(poiId, poiType));
    if found.None? {
      return None;
    }
    FirstMatchIsFirst(PoiList(data.value), MatchesIdAndType(poiId, poiType));
    return Some(PoiInfoOf(found.value));
  }

  /**
   * The record found is that of the first POI with the id, the type and
   * the scope; nothing is found only when there is no such POI.
   */
  lemma PoiByIdAndTypeIsFirst(cache: CacheView, poiId: int, poiType: string)
    requires Payload(cache, EuropaparkApi.Pois).Some?
    ensures var pois := PoiList(Payload(cache, EuropaparkApi.Pois).value);
      match PoiByIdAndType(cache, poiId, poiType)
      case None => forall i :: 0 <= i < |pois| ==> !(Get(pois[i], "id") == JInt(poiId) && IsOfType(pois[i], poiType))
      case Some(info) =>
        info.id == JInt(poiId) && info.poiType == JStr(poiType) &&
        exists i :: 0 <= i < |pois| && Get(pois[i], "id") == JInt(poiId) && IsOfType(pois[i], poiType) &&
                    info == PoiInfoOf(pois[i]) &&
                    forall j :: 0 <= j < i ==> !(Get(pois[j], "id") == JInt(poiId) && IsOfType(pois[j], poiType))
  {
    var pois := PoiList(Payload(cache, EuropaparkApi.Pois).value);
    FirstMatchIsFirst(pois, MatchesIdAndType(poiId, poiType));
  }

  /** The POI types the convenience wrappers fix. */
  const Shopping: string := "shopping"
  const Gastronomy: string := "gastronomy"
  const Service: string := "service"

  /** `get_all_shops`. */
  method GetAllShops(cache: CacheView) returns (r: Result<seq<PoiInfo>>)
    ensures r == PoisByType(cache, Shopping)
  {
    r := GetPoisByType(cache, Shopping);
  }

  /** `get_shop_by_id`. */
  method GetShopById(cache: CacheView, shopId: int) returns (r: Option<PoiInfo>)
    ensures r == PoiByIdAndType(cache, shopId, Shopping)
  {
    r := GetPoiByIdAndType(cache, shopId, Shopping);
  }

  /** `get_all_restaurants`. */
  method GetAllRestaurants(cache: CacheView) returns (r: Result<seq<PoiInfo>>)
    ensures r == PoisByType(cache, Gastronomy)
  {
    r := GetPoisByType(cache, Gastronomy);
  }

  /** `get_restaurant_by_id`. */
  method GetRestaurantById(cache: CacheView, restaurantId: int) returns (r: Option<PoiInfo>)
    ensures r == PoiByIdAndType(cache, restaurantId, Gastronomy)
  {
    r := GetPoiByIdAndType(cache, restaurantId, Gastronomy);
  }

  /** `get_all_services`. */
  method GetAllServices(cache: CacheView) returns (r: Result<seq<PoiInfo>>)
    ensures r == PoisByType(cache, Service)
  {
    r := GetPoisByType(cache, Service);
  }

  /** `get_service_by_id`. */
  method GetServiceById(cache: CacheView, serviceId: int) returns (r: Option<PoiInfo>)
    ensures r == PoiByIdAndType(cache, serviceId, Service)
  {
    r := GetPoiByIdAndType(cache, serviceId, Service);
  }
}
