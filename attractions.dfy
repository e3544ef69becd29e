/**
 * Attractions (services/attractions.py): the raw POI lookup, the detail
 * record with height, age and stress information, and the attraction list,
 * each joined with the ride's current waiting time.
 */
module Attractions {
  import opened Wrappers
  import opened Json
  import opened ViewCommon
  import opened Waittimes
  import EuropaparkApi

  datatype HeightRequirements = HeightRequirements(minHeight: Json, minHeightWithAdult: Json, maxHeight: Json)
  datatype AgeRequirements = AgeRequirements(minAge: Json, minAgeWithAdult: Json, maxAge: Json)
  datatype StressLevel = StressLevel(light: Json, noise: Json, smoke: Json, smell: Json, darkness: Json,
                                     height: Json, fear: Json, narrowSpace: Json, gForce: Json, splashingWater: Json)

  /** `AttractionInfo`. */
  datatype AttractionInfo = AttractionInfo(
    id: Json, code: Json, name: Json, description: Json, attractionType: Json, areaId: Json,
    location: Option<Location>, heightRequirements: Option<HeightRequirements>,
    ageRequirements: Option<AgeRequirements>, stressLevels: Option<StressLevel>,
    image: Option<ImageUrls>, icon: Json, waitTime: Option<WaitTimeEntry>)

  function HasAttractionId(attractionId: Json): Json -> bool {
    poi => Get(poi, "id") == attractionId && InEuropapark(poi)
  }

  /** `get_poi_by_id`: the first Europapark POI with the id, whatever its type. */
  function PoiById(cache: CacheView, attractionId: Json): Option<Json> {
    match Payload(cache, EuropaparkApi.Pois)
    case None => None
    case Some(data) => FirstMatch(PoiList(data), HasAttractionId(attractionId))
  }

  method GetPoiById(cache: CacheView, attractionId: Json) returns (r: Option<Json>)
    ensures r == PoiById(cache, attractionId)
  {
    var data := Payload(cache, EuropaparkApi.Pois);
    if data.None? {
      return None;
    }
    r := FindFirst(PoiList(data.value), HasAttractionId(attractionId));
  }

  /** The POI found is the first Europapark one with the id; its type plays no part. */
  lemma PoiByIdIsFirst(cache: CacheView, attractionId: Json)
    requires Payload(cache, EuropaparkApi.Pois).Some?
    ensures var pois := PoiList(Payload(cache, EuropaparkApi.Pois).value);
      match PoiById(cache, attractionId)
      case None => forall i :: 0 <= i < |pois| ==> !(Get(pois[i], "id") == attractionId && InEuropapark(pois[i]))
      case Some(poi) =>
        Get(poi, "id") == attractionId && InEuropapark(poi) &&
        exists i :: 0 <= i < |pois| && pois[i] == poi &&
                    forall j :: 0 <= j < i ==> !(Get(pois[j], "id") == attractionId && InEuropapark(pois[j]))
  {
    var pois := PoiList(Payload(cache, EuropaparkApi.Pois).value);
    FirstMatchIsFirst(pois, HasAttractionId(attractionId));
  }

  /** `extract_stress_levels`: None for a falsy value; the camelCase keys map to the snake_case fields. */
  function ExtractStressLevels(stress: Json): (r: Option<StressLevel>)
    ensures r.None? <==> !Truthy(stress)
    ensures r.Some? ==> r.value.narrowSpace == Get(stress, "narrowSpace") && r.value.gForce == Get(stress, "gForce") &&
                        r.value.splashingWater == Get(stress, "splashingWater")
    ensures r.Some? ==> r.value.light == Get(stress, "light") && r.value.noise == Get(stress, "noise") &&
                        r.value.smoke == Get(stress, "smoke") && r.value.smell == Get(stress, "smell") &&
                        r.value.darkness == Get(stress, "darkness") && r.value.height == Get(stress, "height") &&
                        r.value.fear == Get(stress, "fear")
  {
    if !Truthy(stress) then None
    else Some(StressLevel(Get(stress, "light"), Get(stress, "noise"), Get(stress, "smoke"), Get(stress, "smell"),
                          Get(stress, "darkness"), Get(stress, "height"), Get(stress, "fear"),
                          Get(stress, "narrowSpace"), Get(stress, "gForce"), Get(stress, "splashingWater")))
  }

  /** `value > 0` in Python: numbers and booleans compare, anything else (None) raises TypeError. */
  function GreaterThanZero(j: Json): (r: Result<bool>)
    ensures r.Err? <==> !(j.JInt? || j.JFloat? || j.JBool?)
    ensures j.JInt? ==> r == Ok(j.i > 0)
  {
    match j
    case JInt(i) => Ok(i > 0)
    case JFloat(x) => Ok(x > 0.0)
    case JBool(b) => Ok(b)
    case _ => Err(TypeError("'>' not supported"))
  }

  /** Height requirements exist when any of the three heights is truthy. */
  function HeightRequirementsOf(poi: Json): (r: Option<HeightRequirements>)
    ensures r.Some? <==> Truthy(Get(poi, "minHeight")) || Truthy(Get(poi, "minHeightAdult")) || Truthy(Get(poi, "maxHeight"))
    ensures r.Some? ==> r.value == HeightRequirements(Get(poi, "minHeight"), Get(poi, "minHeightAdult"), Get(poi, "maxHeight"))
  {
    if Truthy(Get(poi, "minHeight")) || Truthy(Get(poi, "minHeightAdult")) || Truthy(Get(poi, "maxHeight")) then
      Some(HeightRequirements(Get(poi, "minHeight"), Get(poi, "minHeightAdult"), Get(poi, "maxHeight")))
    else None
  }

  /**
   * Age requirements exist when any of the three ages is truthy; the
   * minimum and maximum age are kept only when greater than 0 (defaulting
   * to 0 when absent), and a null one raises at the comparison.
   */
  function AgeRequirementsOf(poi: Json): (r: Result<Option<AgeRequirements>>)
    ensures r == Ok(None) <==> !(Truthy(Get(poi, "minAge")) || Truthy(Get(poi, "minAgeAdult")) || Truthy(Get(poi, "maxAge")))
    ensures r.Ok? && r.value.Some? ==>
      var a := r.value.value;
      && (a.minAge != JNull ==> a.minAge == Get(poi, "minAge") && GreaterThanZero(GetOr(poi, "minAge", JInt(0))) == Ok(true))
      && (a.maxAge != JNull ==> a.maxAge == Get(poi, "maxAge") && GreaterThanZero(GetOr(poi, "maxAge", JInt(0))) == Ok(true))
      && (GreaterThanZero(GetOr(poi, "minAge", JInt(0))) == Ok(true) ==> a.minAge == Get(poi, "minAge"))
      && (GreaterThanZero(GetOr(poi, "maxAge", JInt(0))) == Ok(true) ==> a.maxAge == Get(poi, "maxAge"))
      && a.minAgeWithAdult == Get(poi, "minAgeAdult")
    ensures r.Err? ==> r.error.TypeError?
  {
    if !(Truthy(Get(poi, "minAge")) || Truthy(Get(poi, "minAgeAdult")) || Truthy(Get(poi, "maxAge"))) then Ok(None)
    else
      var minPositive :- GreaterThanZero(GetOr(poi, "minAge", JInt(0)));
      var maxPositive :- GreaterThanZero(GetOr(poi, "maxAge", JInt(0)));
      Ok(Some(AgeRequirements(if minPositive then Get(poi, "minAge") else JNull,
                              Get(poi, "minAgeAdult"),
                              if maxPositive then Get(poi, "maxAge") else JNull)))
  }

  /** The default code, name and type of an attraction record. */
  function CodeOf(poi: Json): Json { GetOr(poi, "code", JInt(0)) }
  function NameOf(poi: Json): Json { GetOr(poi, "name", JStr("Unknown")) }
  function TypeOf(poi: Json): Json { GetOr(poi, "type", JStr("unknown")) }

  /** The POI found carries the id asked for and is in Europapark. */
  lemma PoiByIdHasId(cache: CacheView, attractionId: Json)
    ensures PoiById(cache, attractionId).Some? ==>
      Get(PoiById(cache, attractionId).value, "id") == attractionId && InEuropapark(PoiById(cache, attractionId).value)
  {
    if Payload(cache, EuropaparkApi.Pois).Some? {
      PoiByIdIsFirst(cache, attractionId);
    }
  }

  /** The detail record of a POI; the list record is the same without height, age and stress data. */
  function Record(poi: Json, height: Option<HeightRequirements>, age: Option<AgeRequirements>,
                  stress: Option<StressLevel>, waitTime: Option<WaitTimeEntry>): AttractionInfo
  {
    AttractionInfo(Get(poi, "id"), CodeOf(poi), NameOf(poi), Get(poi, "excerpt"), TypeOf(poi), Get(poi, "areaId"),
                   PoiLocation(poi), height, age, stress, ExtractImageUrls(Get(poi, "image")), Icon(poi), waitTime)
  }

  /**
   * `get_attraction_info`: None for an unknown id; otherwise the full
   * record with the waiting time of the ride with that id.
   */
  function AttractionInfoOf(cache: CacheView, attractionId: int): (r: Result<Option<AttractionInfo>>)
    ensures PoiById(cache, JInt(attractionId)).None? ==> r == Ok(None)
    ensures r.Ok? ==> (r.value.Some? <==> PoiById(cache, JInt(attractionId)).Some?)
    ensures PoiById(cache, JInt(attractionId)).Some? ==>
      (r.Ok? <==> WaittimeById(cache, JInt(attractionId)).Ok? && AgeRequirementsOf(PoiById(cache, JInt(attractionId)).value).Ok?)
    ensures r.Err? ==>
      (WaittimeById(cache, JInt(attractionId)).Err? && r.error == WaittimeById(cache, JInt(attractionId)).error) ||
      (PoiById(cache, JInt(attractionId)).Some? && AgeRequirementsOf(PoiById(cache, JInt(attractionId)).value) == Err(r.error))
    ensures r.Ok? && r.value.Some? ==>
      var poi := PoiById(cache, JInt(attractionId)).value;
      var a := r.value.value;
      && a.id == JInt(attractionId) && a.code == CodeOf(poi) && a.name == NameOf(poi) && a.attractionType == TypeOf(poi)
      && a.heightRequirements == HeightRequirementsOf(poi)
      && Ok(a.ageRequirements) == AgeRequirementsOf(poi)
      && a.stressLevels == ExtractStressLevels(Get(poi, "stressStrainsSensationsLevel"))
      && WaittimeById(cache, JInt(attractionId)) == Ok(a.waitTime)
  {
    PoiByIdHasId(cache, JInt(attractionId));
    match PoiById(cache, JInt(attractionId))
    case None => Ok(None)
    case Some(poi) =>
      var waitTime :- WaittimeById(cache, JInt(attractionId));
      var age :- AgeRequirementsOf(poi);
      Ok(Some(Record(poi, HeightRequirementsOf(poi), age,
                     ExtractStressLevels(Get(poi, "stressStrainsSensationsLevel")), waitTime)))
  }

  method GetAttractionInfo(cache: CacheView, attractionId: int) returns (r: Result<Option<AttractionInfo>>)
    ensures r == AttractionInfoOf(cache, attractionId)
  {
    var poi := GetPoiById(cache, JInt(attractionId));
    if poi.None? {
      return Ok(None);
    }
    var waitTime := GetWaittimeById(cache, JInt(attractionId));
    if waitTime.Err? {
      return Err(waitTime.error);
    }
    var age := AgeRequirementsOf(poi.value);
    if age.Err? {
      return Err(age.error);
    }
    var p := poi.value;
    return Ok(Some(Record(p, HeightRequirementsOf(p), age.value,
                          ExtractStressLevels(Get(p, "stressStrainsSensationsLevel")), waitTime.value)));
  }

  /** A POI enters the attraction list when it is an attraction in Europapark. */
  predicate IsParkAttraction(poi: Json) {
    Get(poi, "type") == JStr("attraction") && InEuropapark(poi)
  }

  /**
   * One element of the loop in `get_all_attractions`: `poi["id"]` raises
   * KeyError when absent; list records carry no height, age or stress data.
   */
  function AttractionEntryOf(poi: Json, cache: CacheView): (r: Result<Option<AttractionInfo>>)
    ensures r == Ok(None) <==> !IsParkAttraction(poi)
    ensures r.Err? ==> (IsParkAttraction(poi) && !Has(poi, "id") && r.error == KeyError("id")) ||
                       (Has(poi, "id") && WaittimeById(cache, poi.fields["id"]) == Err(r.error))
    ensures r.Ok? && r.value.Some? ==>
      var a := r.value.value;
      && Has(poi, "id") && a.id == poi.fields["id"] && a.attractionType == JStr("attraction")
      && a.heightRequirements.None? && a.ageRequirements.None? && a.stressLevels.None?
      && WaittimeById(cache, poi.fields["id"]) == Ok(a.waitTime)
  {
    if !IsParkAttraction(poi) then Ok(None)
    else if !Has(poi, "id") then Err(KeyError("id"))
    else
      var waitTime :- WaittimeById(cache, poi.fields["id"]);
      Ok(Some(Record(poi, None, None, None, waitTime)))
  }

  function AttractionStep(cache: CacheView): Json -> Result<Option<AttractionInfo>> {
    poi => AttractionEntryOf(poi, cache)
  }

  /** `get_all_attractions`: `[]` when no POIs are cached. */
  function AllAttractions(cache: CacheView): Result<seq<AttractionInfo>> {
    match Payload(cache, EuropaparkApi.Pois)
    case None => Ok([])
    case Some(data) => CollectAll(PoiList(data), AttractionStep(cache))
  }

  method GetAllAttractions(cache: CacheView) returns (r: Result<seq<AttractionInfo>>)
    ensures r == AllAttractions(cache)
  {
    var data := Payload(cache, EuropaparkApi.Pois);
    if data.None? {
      return Ok([]);
    }
    r := Collect(PoiList(data.value), AttractionStep(cache));
  }

  /**
   * A record is listed exactly when it is the record of some Europapark
   * attraction POI, and a listed record has no height, age or stress data.
   */
  lemma AllAttractionsExact(cache: CacheView, a: AttractionInfo)
    requires Payload(cache, EuropaparkApi.Pois).Some? && AllAttractions(cache).Ok?
    ensures var pois := PoiList(Payload(cache, EuropaparkApi.Pois).value);
      a in AllAttractions(cache).value <==>
      exists i :: 0 <= i < |pois| && IsParkAttraction(pois[i]) && AttractionEntryOf(pois[i], cache) == Ok(Some(a))
    ensures a in AllAttractions(cache).value ==>
      a.heightRequirements.None? && a.ageRequirements.None? && a.stressLevels.None? && a.attractionType == JStr("attraction")
  {
    var pois := PoiList(Payload(cache, EuropaparkApi.Pois).value);
    CollectAllMembers(pois, AttractionStep(cache), a);
  }
}
