/**
 * Waiting times (services/waittimes.py): the status classification of the
 * upstream time codes, the POI lookup by ride code, and the processed list.
 */
module Waittimes {
  import opened Wrappers
  import opened Json
  import opened ViewCommon
  import EuropaparkApi

  /** `AttractionStatus`. */
  datatype Status =
    | Operational | Closed | Refurbishment | Weather | Ice | Down
    | VqueueTempFull | VqueueFull | Unknown

  /** A status and the cleaned waiting time in minutes. */
  datatype Classified = Classified(status: Status, time: Option<int>)

  /** The largest waiting time reported as minutes; 91 stands for "more than 90". */
  const MaxMinutes: int := 90

  /**
   * `get_status_from_time`: a time is either a waiting time in minutes or
   * one of the special codes.
   */
  function StatusFromTime(t: int): (c: Classified)
    ensures c.time.Some? <==> c.status == Operational
    ensures c.status == Operational <==> t <= MaxMinutes + 1
    ensures c.time.Some? ==> c.time.value <= MaxMinutes
  {
    if t <= MaxMinutes then Classified(Operational, Some(t))
    else if t == 91 then Classified(Operational, Some(MaxMinutes))
    else if t == 222 then Classified(Refurbishment, None)
    else if t == 333 then Classified(Closed, None)
    else if t == 444 then Classified(Weather, None)
    else if t == 555 then Classified(Ice, None)
    else if t == 666 then Classified(VqueueTempFull, None)
    else if t == 777 then Classified(VqueueFull, None)
    else if t == 999 then Classified(Down, None)
    else Classified(Unknown, None)
  }

  /** The special codes, each with no time, and everything else unknown. */
  lemma StatusCodeTable(t: int)
    ensures t <= 90 ==> StatusFromTime(t) == Classified(Operational, Some(t))
    ensures t == 91 ==> StatusFromTime(t) == Classified(Operational, Some(90))
    ensures StatusFromTime(222) == Classified(Refurbishment, None)
    ensures StatusFromTime(333) == Classified(Closed, None)
    ensures StatusFromTime(444) == Classified(Weather, None)
    ensures StatusFromTime(555) == Classified(Ice, None)
    ensures StatusFromTime(666) == Classified(VqueueTempFull, None)
    ensures StatusFromTime(777) == Classified(VqueueFull, None)
    ensures StatusFromTime(999) == Classified(Down, None)
    ensures t > 91 && t !in {222, 333, 444, 555, 666, 777, 999} ==> StatusFromTime(t) == Classified(Unknown, None)
  {
  }

  /**
   * `get_status_from_time` applied to a raw `time` value, as Python compares
   * it: integers directly, booleans as 0 and 1, a float by its value.  An
   * integral float classifies as the integer it equals (the record's
   * integer field accepts it); a fractional float above 90 equals no code
   * and is unknown, while one of at most 90 would be kept as a fraction,
   * which the integer field rejects (ValueError).  Any other value cannot
   * be compared with 90 (TypeError).
   */
  function ClassifyTime(time: Json): (r: Result<Classified>)
    ensures time.JInt? ==> r == Ok(StatusFromTime(time.i))
    ensures time.JBool? ==> r == Ok(Classified(Operational, Some(if time.b then 1 else 0)))
    ensures time.JFloat? && time.r == time.r.Floor as real ==> r == Ok(StatusFromTime(time.r.Floor))
    ensures time.JFloat? && time.r != time.r.Floor as real ==>
      (r.Err? <==> time.r <= MaxMinutes as real) && (r.Ok? ==> r.value == Classified(Unknown, None))
    ensures r.Err? ==> (r.error.TypeError? <==> !(time.JInt? || time.JBool? || time.JFloat?))
    ensures r.Ok? ==> (r.value.time.Some? <==> r.value.status == Operational)
    ensures r.Ok? && r.value.time.Some? ==> r.value.time.value <= MaxMinutes
  {
    match time
    case JInt(i) => Ok(StatusFromTime(i))
    case JBool(b) => Ok(StatusFromTime(if b then 1 else 0))
    case JFloat(x) =>
      if x == x.Floor as real then Ok(StatusFromTime(x.Floor))
      else if x <= MaxMinutes as real then Err(ValueError("time: fractional minutes are not an integer"))
      else Ok(Classified(Unknown, None))
    case _ => Err(TypeError("'<=' not supported"))
  }

  /** A float equal to an integer is classified as that integer (Python compares `91.0 == 91` as true). */
  lemma IntegralFloatClassifiesAsInt(n: int)
    ensures ClassifyTime(JFloat(n as real)) == ClassifyTime(JInt(n))
  {
  }

  /** The POI fields kept for a ride code. */
  datatype PoiSummary = PoiSummary(id: Json, name: Json, poiType: Json, latitude: Json, longitude: Json)

  /** A POI enters the code map when its code is truthy and it is in Europapark. */
  predicate IsNamedPoi(poi: Json) {
    Truthy(Get(poi, "code")) && InEuropapark(poi)
  }

  function SummaryOf(poi: Json): PoiSummary {
    PoiSummary(Get(poi, "id"), GetOr(poi, "name", JStr("Unbekannt")), Get(poi, "type"),
               Get(poi, "latitude"), Get(poi, "longitude"))
  }

  /** The code map after visiting `pois` in order, starting from `m`; a later POI overwrites an earlier one with the same code. */
  function PoiMapFrom(m: map<Json, PoiSummary>, pois: seq<Json>): map<Json, PoiSummary>
    decreases |pois|
  {
    if pois == [] then m
    else PoiMapFrom(if IsNamedPoi(pois[0]) then m[Get(pois[0], "code") := SummaryOf(pois[0])] else m, pois[1..])
  }

  /** `get_poi_name_map`: `{}` when no POIs are cached. */
  function PoiNameMap(cache: CacheView): map<Json, PoiSummary> {
    match Payload(cache, EuropaparkApi.Pois)
    case None => map[]
    case Some(data) => PoiMapFrom(map[], PoiList(data))
  }

  /** The loop of `get_poi_name_map`. */
  method GetPoiNameMap(cache: CacheView) returns (m: map<Json, PoiSummary>)
    ensures m == PoiNameMap(cache)
  {
    var data := Payload(cache, EuropaparkApi.Pois);
    if data.None? {
      return map[];
    }
    var pois := PoiList(data.value);
    m := map[];
    var i := 0;
    while i < |pois|
      invariant 0 <= i <= |pois|
      invariant PoiMapFrom(m, pois[i..]) == PoiNameMap(cache)
    {
      assert pois[i..][1..] == pois[i + 1..];
      var poi := pois[i];
      var code := Get(poi, "code");
      if Truthy(code) && InEuropapark(poi) {
        m := m[code := SummaryOf(poi)];
      }
      i := i + 1;
    }
    assert pois[i..] == [];
  }

  /** The codes whose POIs enter the map. */
  function NamedCodes(pois: seq<Json>): set<Json> {
    set i | 0 <= i < |pois| && IsNamedPoi(pois[i]) :: Get(pois[i], "code")
  }

  /**
   * The map holds exactly the truthy codes of Europapark POIs, each with
   * the fields of a POI carrying that code.
   */
  lemma {:induction false} PoiMapFromKeys(m: map<Json, PoiSummary>, pois: seq<Json>)
    ensures PoiMapFrom(m, pois).Keys == m.Keys + NamedCodes(pois)
    ensures forall k :: k in PoiMapFrom(m, pois) ==>
      (k in m && PoiMapFrom(m, pois)[k] == m[k]) ||
      exists i :: 0 <= i < |pois| && IsNamedPoi(pois[i]) && Get(pois[i], "code") == k && PoiMapFrom(m, pois)[k] == SummaryOf(pois[i])
    decreases |pois|
  {
    if pois != [] {
      var m' := if IsNamedPoi(pois[0]) then m[Get(pois[0], "code") := SummaryOf(pois[0])] else m;
      PoiMapFromKeys(m', pois[1..]);
      assert forall i :: 1 <= i < |pois| ==> pois[1..][i - 1] == pois[i];
      assert NamedCodes(pois) == NamedCodes(pois[1..]) + (if IsNamedPoi(pois[0]) then {Get(pois[0], "code")} else {}) by {
        forall c | c in NamedCodes(pois) ensures c in NamedCodes(pois[1..]) + (if IsNamedPoi(pois[0]) then {Get(pois[0], "code")} else {}) {
          var i :| 0 <= i < |pois| && IsNamedPoi(pois[i]) && Get(pois[i], "code") == c;
          if i > 0 {
            assert pois[1..][i - 1] == pois[i];
          }
        }
      }
      var r := PoiMapFrom(m, pois);
      forall k | k in r
        ensures (k in m && r[k] == m[k]) ||
                exists i :: 0 <= i < |pois| && IsNamedPoi(pois[i]) && Get(pois[i], "code") == k && r[k] == SummaryOf(pois[i])
      {
        if k in m' && r[k] == m'[k] {
          if IsNamedPoi(pois[0]) && k == Get(pois[0], "code") {
            assert r[k] == SummaryOf(pois[0]);
          }
        } else {
          var i :| 0 <= i < |pois[1..]| && IsNamedPoi(pois[1..][i]) && Get(pois[1..][i], "code") == k && r[k] == SummaryOf(pois[1..][i]);
          assert pois[1..][i] == pois[i + 1];
        }
      }
    }
  }

  /** Visiting `a + b` is visiting `a`, then `b`. */
  lemma {:induction false} PoiMapFromAppend(m: map<Json, PoiSummary>, a: seq<Json>, b: seq<Json>)
    ensures PoiMapFrom(m, a + b) == PoiMapFrom(PoiMapFrom(m, a), b)
    decreases |a|
  {
    if a == [] {
      assert a + b == b;
    } else {
      assert (a + b)[0] == a[0];
      assert (a + b)[1..] == a[1..] + b;
      PoiMapFromAppend(if IsNamedPoi(a[0]) then m[Get(a[0], "code") := SummaryOf(a[0])] else m, a[1..], b);
    }
  }

  /** For a repeated code the last Europapark POI wins. */
  lemma LastPoiWins(m: map<Json, PoiSummary>, pois: seq<Json>, poi: Json)
    requires IsNamedPoi(poi)
    ensures Get(poi, "code") in PoiMapFrom(m, pois + [poi])
    ensures PoiMapFrom(m, pois + [poi])[Get(poi, "code")] == SummaryOf(poi)
  {
    PoiMapFromAppend(m, pois, [poi]);
    assert [poi][1..] == [];
  }

  /** `WaitTimeEntry`. */
  datatype WaitTimeEntry = WaitTimeEntry(id: Json, name: Json, time: Option<int>, status: Status,
                                         latitude: Json, longitude: Json)

  /**
   * One waiting-time record: skipped when its code has no POI id; its time
   * defaults to 0 and is classified by `ClassifyTime`, whose error is
   * raised.
   */
  function WaitEntryOf(entry: Json, poiMap: map<Json, PoiSummary>): (r: Result<Option<WaitTimeEntry>>)
    ensures r == Ok(None) <==> Get(entry, "code") !in poiMap || poiMap[Get(entry, "code")].id == JNull
    ensures r.Err? ==> !GetOr(entry, "time", JInt(0)).JInt? && ClassifyTime(GetOr(entry, "time", JInt(0))) == Err(r.error)
    ensures r.Ok? && r.value.Some? ==>
      var info := poiMap[Get(entry, "code")];
      var e := r.value.value;
      && e.id == info.id && e.id != JNull && e.name == info.name
      && e.latitude == info.latitude && e.longitude == info.longitude
      && ClassifyTime(GetOr(entry, "time", JInt(0))) == Ok(Classified(e.status, e.time))
    ensures r.Ok? && r.value.Some? && GetOr(entry, "time", JInt(0)).JInt? ==>
      Classified(r.value.value.status, r.value.value.time) == StatusFromTime(GetOr(entry, "time", JInt(0)).i)
  {
    var code := Get(entry, "code");
    if code !in poiMap || poiMap[code].id == JNull then Ok(None)
    else
      var info := poiMap[code];
      match ClassifyTime(GetOr(entry, "time", JInt(0)))
      case Err(e) => Err(e)
      case Ok(c) => Ok(Some(WaitTimeEntry(info.id, info.name, c.time, c.status, info.latitude, info.longitude)))
  }

  function WaitStep(poiMap: map<Json, PoiSummary>): Json -> Result<Option<WaitTimeEntry>> {
    entry => WaitEntryOf(entry, poiMap)
  }

  /** `get_processed_waittimes`: `[]` when no waiting times are cached. */
  function ProcessedWaittimes(cache: CacheView): Result<seq<WaitTimeEntry>> {
    match Payload(cache, EuropaparkApi.WaitTimes)
    case None => Ok([])
    case Some(data) => CollectAll(Elements(data), WaitStep(PoiNameMap(cache)))
  }

  method GetProcessedWaittimes(cache: CacheView) returns (r: Result<seq<WaitTimeEntry>>)
    ensures r == ProcessedWaittimes(cache)
  {
    var data := Payload(cache, EuropaparkApi.WaitTimes);
    if data.None? {
      return Ok([]);
    }
    var poiMap := GetPoiNameMap(cache);
    r := Collect(Elements(data.value), WaitStep(poiMap));
  }

  /**
   * Every processed entry has a POI id, and its time is present exactly
   * when it is operational and then at most 90 minutes; an entry without
   * a time is operational with 0 minutes.
   */
  lemma ProcessedWaittimesShape(cache: CacheView, k: int)
    requires ProcessedWaittimes(cache).Ok? && 0 <= k < |ProcessedWaittimes(cache).value|
    ensures var e := ProcessedWaittimes(cache).value[k];
      e.id != JNull && (e.time.Some? <==> e.status == Operational) && (e.time.Some? ==> e.time.value <= MaxMinutes)
  {
    var data := Payload(cache, EuropaparkApi.WaitTimes).value;
    var e := ProcessedWaittimes(cache).value[k];
    CollectAllMembers(Elements(data), WaitStep(PoiNameMap(cache)), e);
    var i :| 0 <= i < |Elements(data)| && WaitStep(PoiNameMap(cache))(Elements(data)[i]) == Ok(Some(e));
  }

  function HasId(id: Json): WaitTimeEntry -> bool {
    (e: WaitTimeEntry) => e.id == id
  }

  /** `get_waittime_by_id`: the first processed entry with the id. */
  function WaittimeById(cache: CacheView, id: Json): Result<Option<WaitTimeEntry>> {
    match ProcessedWaittimes(cache)
    case Err(e) => Err(e)
    case Ok(entries) => Ok(FirstMatch(entries, HasId(id)))
  }

  method GetWaittimeById(cache: CacheView, id: Json) returns (r: Result<Option<WaitTimeEntry>>)
    ensures r == WaittimeById(cache, id)
  {
    var entries := GetProcessedWaittimes(cache);
    if entries.Err? {
      return Err(entries.error);
    }
    var found := FindFirst(entries.value, HasId(id));
    return Ok(found);
  }

  /** The entry found has the id, and no earlier entry has it. */
  lemma WaittimeByIdIsFirst(cache: CacheView, id: Json)
    requires WaittimeById(cache, id).Ok?
    ensures var entries := ProcessedWaittimes(cache).value;
      match WaittimeById(cache, id).value
      case None => forall i :: 0 <= i < |entries| ==> entries[i].id != id
      case Some(e) => exists i :: 0 <= i < |entries| && entries[i] == e && e.id == id &&
                                  forall j :: 0 <= j < i ==> entries[j].id != id
  {
    FirstMatchIsFirst(ProcessedWaittimes(cache).value, HasId(id));
  }
}
