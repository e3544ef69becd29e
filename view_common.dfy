/**
 * What the view services (services/waittimes.py, showtimes.py, pois.py,
 * attractions.py, shows.py, seasons.py, openingtimes.py) have in common:
 * the cached payload lookup, the Europapark scope test, locations, image
 * URLs and icons, and their two loop shapes — a filtering loop that
 * appends one record per accepted element (and lets an exception escape),
 * and a search that returns the first match.
 */
module ViewCommon {
  import opened Wrappers
  import opened Json
  import EuropaparkApi
  import Cache

  /**
   * The cached payloads by cache key, as `Cache.Payloads` gives them.
   * A view that finds no entry for its key returns its empty result.
   */
  type CacheView = map<string, Json>

  /** `(await cache.load(CACHE_KEYS[d]))["data"]`, or None when nothing is cached. */
  function Payload(cache: CacheView, d: EuropaparkApi.Dataset): (r: Option<Json>)
    ensures r.None? <==> Cache.KeyOf(d) !in cache
    ensures r.Some? ==> r.value == cache[Cache.KeyOf(d)]
  {
    var key := Cache.KeyOf(d);
    if key in cache then Some(cache[key]) else None
  }

  /** The scope every view keeps; Rulantica entries are dropped. */
  const ParkScope: string := "europapark"

  /** `"europapark" in item.get("scopes", [])`. */
  predicate InEuropapark(item: Json) {
    Contains(GetOr(item, "scopes", JArr([])), ParkScope)
  }

  /** `data.get("pois", [])`: the POI list of the cached POI payload. */
  function PoiList(data: Json): seq<Json> {
    Elements(GetOr(data, "pois", JArr([])))
  }

  datatype Location = Location(latitude: Json, longitude: Json)

  /** A location is built only when both coordinates are truthy. */
  function LocationOf(latitude: Json, longitude: Json): (r: Option<Location>)
    ensures r.Some? <==> Truthy(latitude) && Truthy(longitude)
    ensures r.Some? ==> r.value.latitude == latitude && r.value.longitude == longitude
  {
    if Truthy(latitude) && Truthy(longitude) then Some(Location(latitude, longitude)) else None
  }

  /** The location of a POI from its `latitude` and `longitude` fields. */
  function PoiLocation(poi: Json): Option<Location> {
    LocationOf(Get(poi, "latitude"), Get(poi, "longitude"))
  }

  datatype ImageUrls = ImageUrls(small: Json, medium: Json)

  /** `extract_image_urls` (identical in pois.py, attractions.py and shows.py). */
  function ExtractImageUrls(image: Json): (r: Option<ImageUrls>)
    ensures r.None? <==> !Truthy(image)
    ensures r.Some? ==> r.value.small == Get(image, "small") && r.value.medium == Get(image, "medium")
  {
    if !Truthy(image) then None else Some(ImageUrls(Get(image, "small"), Get(image, "medium")))
  }

  /** `item.get("icon", {}).get("small") if item.get("icon") else None`. */
  function Icon(item: Json): (r: Json)
    ensures !Truthy(Get(item, "icon")) ==> r == JNull
  {
    if Truthy(Get(item, "icon")) then Get(Get(item, "icon"), "small") else JNull
  }

  /** The records an element contributes: one when accepted, none when skipped. */
  function Emitted<T>(o: Option<T>): seq<T> {
    if o.Some? then [o.value] else []
  }

  /**
   * The result of a loop that visits `xs` in order, skips the elements
   * `f` answers with None, appends the record of the others and stops at
   * the first exception.
   */
  function CollectAll<S, T>(xs: seq<S>, f: S -> Result<Option<T>>): Result<seq<T>>
    decreases |xs|
  {
    if xs == [] then Ok([])
    else match f(xs[0])
      case Err(e) => Err(e)
      case Ok(o) =>
        match CollectAll(xs[1..], f)
        case Err(e) => Err(e)
        case Ok(rest) => Ok(Emitted(o) + rest)
  }

  /** `acc` followed by the records of `r`, or the exception of `r`. */
  function Prepend<T>(acc: seq<T>, r: Result<seq<T>>): Result<seq<T>> {
    if r.Ok? then Ok(acc + r.value) else r
  }

  lemma PrependNothing<T>(r: Result<seq<T>>)
    ensures Prepend([], r) == r
  {
    if r.Ok? {
      assert [] + r.value == r.value;
    }
  }

  lemma PrependTwice<T>(a: seq<T>, b: seq<T>, r: Result<seq<T>>)
    ensures Prepend(a, Prepend(b, r)) == Prepend(a + b, r)
  {
    if r.Ok? {
      assert a + (b + r.value) == (a + b) + r.value;
    }
  }

  /** One step of the loop: the first element's records, then those of the rest. */
  lemma CollectAllUnfold<S, T>(xs: seq<S>, f: S -> Result<Option<T>>)
    requires xs != []
    ensures CollectAll(xs, f) == (if f(xs[0]).Err? then Err(f(xs[0]).error) else Prepend(Emitted(f(xs[0]).value), CollectAll(xs[1..], f)))
  {
  }

  /** The filtering loop (`results = []; for x in xs: ... results.append(...)`). */
  method Collect<S, T>(xs: seq<S>, f: S -> Result<Option<T>>) returns (r: Result<seq<T>>)
    ensures r == CollectAll(xs, f)
  {
    var results: seq<T> := [];
    var i := 0;
    assert xs[0..] == xs;
    PrependNothing(CollectAll(xs, f));
    while i < |xs|
      invariant 0 <= i <= |xs|
      invariant CollectAll(xs, f) == Prepend(results, CollectAll(xs[i..], f))
    {
      assert xs[i..][1..] == xs[i + 1..];
      CollectAllUnfold(xs[i..], f);
      var y := f(xs[i]);
      if y.Err? {
        return Err(y.error);
      }
      PrependTwice(results, Emitted(y.value), CollectAll(xs[i + 1..], f));
      results := results + Emitted(y.value);
      i := i + 1;
    }
    assert xs[i..] == [];
    assert results + [] == results;
    return Ok(results);
  }

  /**
   * The loop raises exactly when some element raises, and then with the
   * exception of the first such element.
   */
  lemma {:induction false} CollectAllFails<S, T>(xs: seq<S>, f: S -> Result<Option<T>>)
    ensures CollectAll(xs, f).Ok? <==> forall i :: 0 <= i < |xs| ==> f(xs[i]).Ok?
    ensures CollectAll(xs, f).Err? ==>
      exists i :: 0 <= i < |xs| && f(xs[i]) == Err(CollectAll(xs, f).error) &&
                  forall j :: 0 <= j < i ==> f(xs[j]).Ok?
    decreases |xs|
  {
    if xs != [] {
      CollectAllFails(xs[1..], f);
      assert forall i :: 1 <= i < |xs| ==> xs[1..][i - 1] == xs[i];
      if f(xs[0]).Ok? && CollectAll(xs[1..], f).Err? {
        var k :| 0 <= k < |xs[1..]| && f(xs[1..][k]) == Err(CollectAll(xs[1..], f).error) &&
                  forall j :: 0 <= j < k ==> f(xs[1..][j]).Ok?;
        assert f(xs[k + 1]) == Err(CollectAll(xs, f).error);
        assert forall j :: 0 <= j < k + 1 ==> f(xs[j]).Ok? by {
          forall j | 0 <= j < k + 1 ensures f(xs[j]).Ok? {
            if j > 0 {
              assert xs[j] == xs[1..][j - 1];
            }
          }
        }
      }
    }
  }

  /**
   * Order is kept: the records of `a + b` are those of `a` followed by
   * those of `b`.
   */
  lemma {:induction false} CollectAllAppend<S, T>(a: seq<S>, b: seq<S>, f: S -> Result<Option<T>>)
    ensures CollectAll(a + b, f) == (if CollectAll(a, f).Err? then CollectAll(a, f) else Prepend(CollectAll(a, f).value, CollectAll(b, f)))
    decreases |a|
  {
    if a == [] {
      assert a + b == b;
      PrependNothing(CollectAll(b, f));
    } else {
      assert (a + b)[0] == a[0];
      assert (a + b)[1..] == a[1..] + b;
      CollectAllAppend(a[1..], b, f);
      CollectAllUnfold(a + b, f);
      CollectAllUnfold(a, f);
      if f(a[0]).Ok? && CollectAll(a[1..], f).Ok? {
        PrependTwice(Emitted(f(a[0]).value), CollectAll(a[1..], f).value, CollectAll(b, f));
      }
    }
  }

  /** One element contributes exactly its own record. */
  lemma CollectAllSingle<S, T>(x: S, f: S -> Result<Option<T>>)
    ensures CollectAll([x], f) == (if f(x).Err? then Err(f(x).error) else Ok(Emitted(f(x).value)))
  {
    assert [x][1..] == [];
    if f(x).Ok? {
      assert Emitted(f(x).value) + [] == Emitted(f(x).value);
    }
  }

  /**
   * Exactness: when the loop completes, a record is in the result if and
   * only if some element produced it.
   */
  lemma {:induction false} CollectAllMembers<S, T>(xs: seq<S>, f: S -> Result<Option<T>>, y: T)
    requires CollectAll(xs, f).Ok?
    ensures y in CollectAll(xs, f).value <==> exists i :: 0 <= i < |xs| && f(xs[i]) == Ok(Some(y))
    ensures |CollectAll(xs, f).value| <= |xs|
    decreases |xs|
  {
    if xs != [] {
      CollectAllMembers(xs[1..], f, y);
      assert forall i :: 1 <= i < |xs| ==> xs[1..][i - 1] == xs[i];
      if exists i :: 0 <= i < |xs| && f(xs[i]) == Ok(Some(y)) {
        var i :| 0 <= i < |xs| && f(xs[i]) == Ok(Some(y));
        if i > 0 {
          assert f(xs[1..][i - 1]) == Ok(Some(y));
        }
      }
    }
  }

  /**
   * When every element is accepted, the loop completes with one record per
   * element, at the element's position.
   */
  lemma {:induction false} CollectAllTotal<S, T>(xs: seq<S>, f: S -> Result<Option<T>>)
    requires forall i :: 0 <= i < |xs| ==> f(xs[i]).Ok? && f(xs[i]).value.Some?
    ensures CollectAll(xs, f).Ok? && |CollectAll(xs, f).value| == |xs|
    ensures forall k :: 0 <= k < |xs| ==> CollectAll(xs, f).value[k] == f(xs[k]).value.value
    decreases |xs|
  {
    if xs != [] {
      assert forall i :: 1 <= i < |xs| ==> xs[1..][i - 1] == xs[i];
      CollectAllTotal(xs[1..], f);
      CollectAllUnfold(xs, f);
      var rest := CollectAll(xs[1..], f).value;
      assert CollectAll(xs, f).value == [f(xs[0]).value.value] + rest;
      forall k | 0 <= k < |xs| ensures CollectAll(xs, f).value[k] == f(xs[k]).value.value {
        if k > 0 {
          assert xs[1..][k - 1] == xs[k];
        }
      }
    }
  }

  /** The first element of `xs` satisfying `p`, if any. */
  function FirstMatch<T>(xs: seq<T>, p: T -> bool): Option<T>
    decreases |xs|
  {
    if xs == [] then None
    else if p(xs[0]) then Some(xs[0])
    else FirstMatch(xs[1..], p)
  }

  /** The search loop (`for x in xs: if ...: return x` then `return None`). */
  method FindFirst<T>(xs: seq<T>, p: T -> bool) returns (r: Option<T>)
    ensures r == FirstMatch(xs, p)
  {
    var i := 0;
    while i < |xs|
      invariant 0 <= i <= |xs|
      invariant FirstMatch(xs, p) == FirstMatch(xs[i..], p)
    {
      assert xs[i..][1..] == xs[i + 1..];
      if p(xs[i]) {
        return Some(xs[i]);
      }
      i := i + 1;
    }
    assert xs[i..] == [];
    return None;
  }

  /** The search finds the first matching element, and finds nothing only when none matches. */
  lemma {:induction false} FirstMatchIsFirst<T>(xs: seq<T>, p: T -> bool)
    ensures FirstMatch(xs, p).None? <==> forall i :: 0 <= i < |xs| ==> !p(xs[i])
    ensures FirstMatch(xs, p).Some? ==>
      exists i :: 0 <= i < |xs| && xs[i] == FirstMatch(xs, p).value && p(xs[i]) &&
                  forall j :: 0 <= j < i ==> !p(xs[j])
    decreases |xs|
  {
    if xs != [] && !p(xs[0]) {
      FirstMatchIsFirst(xs[1..], p);
      assert forall i :: 1 <= i < |xs| ==> xs[1..][i - 1] == xs[i];
      if FirstMatch(xs[1..], p).Some? {
        var k :| 0 <= k < |xs[1..]| && xs[1..][k] == FirstMatch(xs[1..], p).value && p(xs[1..][k]) &&
                  forall j :: 0 <= j < k ==> !p(xs[1..][j]);
        assert xs[k + 1] == FirstMatch(xs, p).value;
        assert forall j :: 0 <= j < k + 1 ==> !p(xs[j]) by {
          forall j | 0 <= j < k + 1 ensures !p(xs[j]) {
            if j > 0 {
              assert xs[j] == xs[1..][j - 1];
            }
          }
        }
      }
    }
  }
}
