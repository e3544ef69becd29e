/**
 * The cache orchestrator (services/cache.py): a keyed upsert table of JSON
 * payloads, one refresh per data set that swallows every failure, the
 * five-minute and daily refresh groups, and the two loop task slots.
 */
module Cache {
  import opened Wrappers
  import opened Json
  import opened Tasks
  import opened Database
  import opened EuropaparkApi

  /** `CACHE_KEYS`. */
  const CacheKeys: map<string, string> := map[
    "waittimes" := "waittimes",
    "showtimes" := "showtimes",
    "pois" := "pois",
    "seasons" := "seasons",
    "openingtimes" := "openingtimes"]

  lemma CacheKeysAreIdentity()
    ensures |CacheKeys| == 5
    ensures forall k :: k in CacheKeys ==> CacheKeys[k] == k
  {
    assert CacheKeys.Keys == {"waittimes", "showtimes", "pois", "seasons", "openingtimes"};
  }

  /** The cache key each refresh writes: `CACHE_KEYS[<name>]`. */
  function KeyOf(d: Dataset): (k: string)
    ensures k in CacheKeys && CacheKeys[k] == k
  {
    match d
    case WaitTimes => CacheKeys["waittimes"]
    case ShowTimes => CacheKeys["showtimes"]
    case Pois => CacheKeys["pois"]
    case Seasons => CacheKeys["seasons"]
    case OpeningTimes => CacheKeys["openingtimes"]
  }

  /** Each data set has a key of its own. */
  lemma KeyOfIsInjective(d: Dataset, e: Dataset)
    ensures d != e ==> KeyOf(d) != KeyOf(e)
  {
  }

  /** What `load` returns: the decoded payload and when it was written. */
  datatype Cached = Cached(data: Json, updatedAt: int)

  /** The rows `load` reads: None for a key never saved. */
  function LoadFrom(rows: map<string, CacheRow>, key: string): (r: Option<Cached>)
    ensures r.None? <==> key !in rows
    ensures r.Some? ==> r.value.data == rows[key].data && r.value.updatedAt == rows[key].updatedAt
  {
    if key in rows then Some(Cached(rows[key].data, rows[key].updatedAt)) else None
  }

  /**
   * The table after one refresh of `d` whose fetch gave `fetched`: the
   * payload is written under the data set's key only when the fetch and
   * the session both succeeded.
   */
  function Refreshed(rows: map<string, CacheRow>, initialised: bool, d: Dataset, fetched: Result<Json>, now: int)
    : (r: map<string, CacheRow>)
    ensures fetched.Ok? && initialised ==> r == rows[KeyOf(d) := CacheRow(fetched.value, now)]
    ensures fetched.Err? || !initialised ==> r == rows
  {
    if fetched.Ok? && initialised then rows[KeyOf(d) := CacheRow(fetched.value, now)] else rows
  }

  /** After a successful refresh, `load` returns its payload stamped with the refresh time. */
  lemma LoadAfterRefresh(rows: map<string, CacheRow>, d: Dataset, data: Json, now: int)
    ensures LoadFrom(Refreshed(rows, true, d, Ok(data), now), KeyOf(d)) == Some(Cached(data, now))
    ensures Refreshed(rows, true, d, Ok(data), now).Keys == rows.Keys + {KeyOf(d)}
  {
  }

  /** A refresh touches no key but its own, so a failed one changes nothing at all. */
  lemma RefreshTouchesOnlyItsKey(rows: map<string, CacheRow>, initialised: bool, d: Dataset, fetched: Result<Json>, now: int, k: string)
    requires k != KeyOf(d)
    ensures LoadFrom(Refreshed(rows, initialised, d, fetched, now), k) == LoadFrom(rows, k)
  {
  }

  /**
   * The refreshes of one group run concurrently; since they write different
   * keys, the order in which they complete does not matter.
   */
  lemma RefreshesCommute(rows: map<string, CacheRow>, initialised: bool, d: Dataset, fd: Result<Json>,
                                            e: Dataset, fe: Result<Json>, now: int)
    requires d != e
    ensures Refreshed(Refreshed(rows, initialised, d, fd, now), initialised, e, fe, now)
         == Refreshed(Refreshed(rows, initialised, e, fe, now), initialised, d, fd, now)
  {
    KeyOfIsInjective(d, e);
  }

  /**
   * The last successful payload of a key survives any later failed fetch
   * of the same key and any refresh of another key.
   */
  lemma LastGoodPayloadSurvives(rows: map<string, CacheRow>, d: Dataset, data: Json, now: int,
                                e: Dataset, fe: Result<Json>, later: int, failure: Error)
    requires e != d
    ensures var afterGood := Refreshed(rows, true, d, Ok(data), now);
            LoadFrom(Refreshed(Refreshed(afterGood, true, e, fe, later), true, d, Err(failure), later), KeyOf(d))
            == Some(Cached(data, now))
  {
    KeyOfIsInjective(d, e);
  }

  /** The five-minute group: waiting times and show times. */
  function FiveMinuteGroup(rows: map<string, CacheRow>, initialised: bool, waitTimes: Result<Json>, showTimes: Result<Json>, now: int)
    : map<string, CacheRow>
  {
    Refreshed(Refreshed(rows, initialised, WaitTimes, waitTimes, now), initialised, ShowTimes, showTimes, now)
  }

  /** The daily group: POIs, seasons and opening times. */
  function DailyGroup(rows: map<string, CacheRow>, initialised: bool, pois: Result<Json>, seasons: Result<Json>,
                      openingTimes: Result<Json>, now: int): map<string, CacheRow>
  {
    Refreshed(Refreshed(Refreshed(rows, initialised, Pois, pois, now), initialised, Seasons, seasons, now),
              initialised, OpeningTimes, openingTimes, now)
  }

  /** `refresh_all_5min` writes only "waittimes" and "showtimes". */
  lemma FiveMinuteGroupKeys(rows: map<string, CacheRow>, initialised: bool, w: Result<Json>, s: Result<Json>, now: int, k: string)
    ensures FiveMinuteGroup(rows, initialised, w, s, now).Keys <= rows.Keys + {"waittimes", "showtimes"}
    ensures k != "waittimes" && k != "showtimes" ==>
      LoadFrom(FiveMinuteGroup(rows, initialised, w, s, now), k) == LoadFrom(rows, k)
  {
  }

  /** `refresh_all_daily` writes only "pois", "seasons" and "openingtimes". */
  lemma DailyGroupKeys(rows: map<string, CacheRow>, initialised: bool, po: Result<Json>, se: Result<Json>, op: Result<Json>, now: int, k: string)
    ensures DailyGroup(rows, initialised, po, se, op, now).Keys <= rows.Keys + {"pois", "seasons", "openingtimes"}
    ensures k != "pois" && k != "seasons" && k != "openingtimes" ==>
      LoadFrom(DailyGroup(rows, initialised, po, se, op, now), k) == LoadFrom(rows, k)
  {
  }

  /**
   * The cached payloads as the view functions read them:
   * `(await cache.load(key))["data"]` for every saved key.
   */
  function Payloads(rows: map<string, CacheRow>): (m: map<string, Json>)
    ensures m.Keys == rows.Keys
    ensures forall k :: k in rows ==> LoadFrom(rows, k) == Some(Cached(m[k], rows[k].updatedAt))
  {
    map k | k in rows :: rows[k].data
  }

  /** Seconds each loop sleeps after running its group. */
  const FiveMinuteInterval: int := 300
  const DailyInterval: int := 86400

  /** `CacheService`. */
  class CacheService {
    var task5min: Slot
    var taskDaily: Slot

    constructor ()
      ensures task5min == Empty && taskDaily == Empty
    {
      task5min := Empty;
      taskDaily := Empty;
    }

    /** `save`: upsert the row for `key` with the payload and the time of writing. */
    method Save(db: Database, key: string, data: Json, now: int) returns (o: Outcome)
      modifies db
      ensures db.initialised == old(db.initialised) && db.tokens == old(db.tokens)
      ensures !db.initialised ==> o == Raised(NotInitialised) && db.cache == old(db.cache)
      ensures db.initialised ==> o == Done && db.cache == old(db.cache)[key := CacheRow(data, now)]
    {
      o := db.Session();
      if o.Raised? {
        return;
      }
      if key in db.cache {
        var existing := db.cache[key];
        db.cache := db.cache[key := existing.(data := data, updatedAt := now)];
      } else {
        db.cache := db.cache[key := CacheRow(data, now)];
      }
    }

    /** `load`: raises before initialisation; None for a key never saved. */
    function Load(db: Database, key: string): (r: Result<Option<Cached>>)
      reads db
      ensures r.Err? <==> !db.initialised
      ensures r.Ok? ==> r.value == LoadFrom(db.cache, key)
    {
      if !db.initialised then Err(NotInitialised) else Ok(LoadFrom(db.cache, key))
    }

    /**
     * `refresh_waittimes`, `refresh_showtimes`, `refresh_pois`,
     * `refresh_seasons` and `refresh_openingtimes`: fetch (its outcome is
     * `fetched`) and save; every exception is logged and swallowed.
     */
    method Refresh(d: Dataset, db: Database, fetched: Result<Json>, now: int)
      modifies db
      ensures db.initialised == old(db.initialised)
      ensures db.cache == Refreshed(old(db.cache), old(db.initialised), d, fetched, now)
    {
      if fetched.Err? {
        return;
      }
      var o := Save(db, KeyOf(d), fetched.value, now);
    }

    /** `refresh_all_5min`. */
    method RefreshAll5Min(db: Database, waitTimes: Result<Json>, showTimes: Result<Json>, now: int)
      modifies db
      ensures db.initialised == old(db.initialised)
      ensures db.cache == FiveMinuteGroup(old(db.cache), old(db.initialised), waitTimes, showTimes, now)
    {
      Refresh(WaitTimes, db, waitTimes, now);
      Refresh(ShowTimes, db, showTimes, now);
    }

    /** `refresh_all_daily`. */
    method RefreshAllDaily(db: Database, pois: Result<Json>, seasons: Result<Json>, openingTimes: Result<Json>, now: int)
      modifies db
      ensures db.initialised == old(db.initialised)
      ensures db.cache == DailyGroup(old(db.cache), old(db.initialised), pois, seasons, openingTimes, now)
    {
      Refresh(Pois, db, pois, now);
      Refresh(Seasons, db, seasons, now);
      Refresh(OpeningTimes, db, openingTimes, now);
    }

    /**
     * One iteration of `_loop_5min`: the group never raises (each refresh
     * swallows its errors), so the loop always sleeps five minutes.
     */
    method Loop5MinStep(db: Database, waitTimes: Result<Json>, showTimes: Result<Json>, now: int) returns (slept: int)
      modifies db
      ensures slept == FiveMinuteInterval
      ensures db.cache == FiveMinuteGroup(old(db.cache), old(db.initialised), waitTimes, showTimes, now)
    {
      RefreshAll5Min(db, waitTimes, showTimes, now);
      slept := FiveMinuteInterval;
    }

    /** One iteration of `_loop_daily`: refresh the daily group, then sleep a day. */
    method LoopDailyStep(db: Database, pois: Result<Json>, seasons: Result<Json>, openingTimes: Result<Json>, now: int)
      returns (slept: int)
      modifies db
      ensures slept == DailyInterval
      ensures db.cache == DailyGroup(old(db.cache), old(db.initialised), pois, seasons, openingTimes, now)
    {
      RefreshAllDaily(db, pois, seasons, openingTimes, now);
      slept := DailyInterval;
    }

    /** `start`: create each loop task unless one is running in its slot. */
    method Start()
      modifies this
      ensures task5min == Started(old(task5min)) && taskDaily == Started(old(taskDaily))
      ensures task5min.Running() && taskDaily.Running()
    {
      if !task5min.Running() {
        task5min := Live(false);
      }
      if !taskDaily.Running() {
        taskDaily := Live(false);
      }
    }

    /** `stop`: cancel both tasks and clear both slots. */
    method Stop()
      modifies this
      ensures task5min == Empty && taskDaily == Empty
    {
      if task5min.Live? {
        task5min := Empty;
      }
      if taskDaily.Live? {
        taskDaily := Empty;
      }
    }
  }
}
