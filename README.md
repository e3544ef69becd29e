# Europapark API Server — a Dafny model of its core

The Europapark API Server is a small FastAPI service. It logs in to the
Europa-Park ticket backend with OAuth2 client credentials, keeps the token in
a database and renews it ahead of expiry. It fetches five datasets from the
backend: wait times, points of interest, seasons, opening times and show
times. Those payloads are cached in the database and refreshed on a 5-minute
or a daily schedule. A set of views turns the cached JSON into the records
the HTTP routes return:

- processed wait times with a status per time code;
- shows and show times;
- shops, restaurants and services;
- attractions with their requirements;
- seasons;
- today's, tomorrow's and the next opening hours.

The client credentials come from Firebase Remote Config. Each entry there is
encrypted with Blowfish-CBC and must be decrypted. A failed lookup raises.
When the lookup succeeds but the username or password entry is missing or
empty, the server falls back to credentials from the environment. A separate scheduler
runs a health check every night at 03:00.

This project models that core in Dafny, one module per source file:

- `wrappers.dfy`: `Option`, `Result` and the Python exceptions as an `Error` datatype.
- `json.dfy`: JSON values, `dict.get`, truthiness and `in`.
- `http.dfy`: HTTP replies as parameters.
- `config.dfy`: the settings record.
- `tasks.dfy`: an asyncio task slot, either empty or live.
- `crypto.dfy`: PKCS7 unpadding around an abstract cipher.
- `base64.dfy`: the RFC 4648 encoder the installation ID is built from.
- `firebase_config.dfy`, `database.dfy`, `token_storage.dfy`, `auth.dfy`,
  `europapark_api.dfy`, `cache.dfy` and `scheduler.dfy`: one module each for
  the matching service.
- `view_common.dfy`: the scope test, location, image and icon helpers and the
  filter-and-map loop shared by every view.
- `waittimes.dfy`, `showtimes.dfy`, `pois.dfy`, `attractions.dfy`,
  `shows.dfy`, `seasons.dfy` and `openingtimes.dfy`: one module per view.

Objects whose fields the source updates become classes:

- the database, with its token and cache tables as maps;
- the token storage;
- the Firebase config service, with its credential cache;
- the auth service, with its current token and refresh task;
- the cache service and the health scheduler, with their task slots.

Views whose source loops over a payload are methods. Each method loops over
the payload and is proved equal to a specification function. Lemmas then
state what those functions promise: which elements are kept, in what order,
which one is found first, and which error aborts the view.

Modelling conventions:

- Time is a parameter `now` in whole seconds.
- The random bytes of the installation ID are a parameter.
- Each HTTP reply is a parameter: either a response (status and JSON body) or
  a transport error.
- The Blowfish cipher, base64 decoding and UTF-8 coding are function-valued
  parameters (`Crypto.Primitives`).
- The views read the cached payloads as a map from cache key to JSON.
- Python `None` and JSON `null` are the same value.

The model follows the code. The exceptions are the three defects under
"## Findings": each is modelled as written beside its correction, and the
members built on top of them (token requests, initialisation, the refresh
loop, the upstream client and the token table) use the correction, as listed
under "## Left out". `AuthService.access_token` calls `is_expired()` with its
default buffer of 300 seconds (services/token_storage.py:36), and
`Auth.AuthService.AccessToken` uses the same 300 seconds.

## Model

| member | source | states |
|---|---|---|
| Tasks.Started | services/auth.py:111-114 | starting a task slot leaves a live task alone and otherwise creates one; the slot is running afterwards |
| Tasks.StartIsIdempotent | services/cache.py:165-173 | starting twice is the same as starting once |
| Crypto.Unpad | services/crypto.py:38-43 | fails (the `decrypted[-1]` IndexError) exactly on empty plaintext; otherwise returns a prefix of the input, shortened by the last byte only when that byte is 1..8 |
| Crypto.Pad | services/crypto.py:40-43 | reference PKCS7 padding: the result is a whole number of 8-byte blocks and 1 to 8 bytes longer than the message |
| Crypto.UnpadPadding | services/crypto.py:40-43 | removing n bytes of value n (1..8) gives back the message |
| Crypto.UnpadPad | services/crypto.py:40-43 | unpadding inverts PKCS7 padding for every message |
| Crypto.DecryptBlowfish | services/crypto.py:14-49 | every failure is a ValueError; success implies a 4..56-byte key, an 8-byte IV and decodable base64 |
| Crypto.DecryptRoundTrip | services/crypto.py:14-49 | decrypting a valid encryption of a padded UTF-8 message returns that message |
| Base64.EncodeFirstChar | services/firebase_config.py:28 | the first base64 character encodes the top six bits of the first byte |
| Base64.EncodeDataChars | services/firebase_config.py:28 | every character before the padding is from the base64 alphabet |
| Base64.UrlSafe | services/firebase_config.py:29 | the URL-safe rewrite keeps the length, maps each character on its own, and leaves no `+` or `/` |
| FirebaseConfig.Masked | services/firebase_config.py:24 | the first byte keeps its low nibble and gets the high nibble 0x7; the other bytes are unchanged |
| FirebaseConfig.GenerateFirebaseId | services/firebase_config.py:22-37 | an empty draw gives ""; otherwise the ID is the first 22 characters of the URL-safe base64 of the masked draw when they match `[cdef][\w-]{21}`, and "" when they do not; with 17 random bytes it is 22 characters long and never contains `+` or `/` |
| FirebaseConfig.DecryptEntry | services/firebase_config.py:85-93 | an entry becomes its decryption when that succeeds and otherwise stays as it was |
| FirebaseConfig.DecryptedEntries | services/firebase_config.py:83-93 | an object of entries gives a map with exactly its keys, each value decrypted where possible and kept otherwise; any other body gives no entries |
| FirebaseConfig.RemoteConfigResult | services/firebase_config.py:74-96 | a transport error or non-2xx status is raised; a body without `entries` gives `{}`; it succeeds iff the entries can be walked, and then yields exactly the decrypted entries of the body |
| FirebaseConfig.FetchRemoteConfig | services/firebase_config.py:50-96 | the request goes to the project's fetch URL with a valid or empty installation ID, the app ID and the API key; its result is exactly `RemoteConfigResult` of the reply |
| FirebaseConfig.SelectCredentials | services/firebase_config.py:113-129 | the remote pair is used exactly when both values are truthy; otherwise the fallback credentials from the settings are used |
| FirebaseConfig.SelectedCredentialsAreNonEmpty | services/firebase_config.py:113-129 | with non-empty fallback settings, the chosen username and password are always truthy |
| FirebaseConfig.CredentialsResult | services/firebase_config.py:108-129 | the cached pair unless a refresh is forced; otherwise it succeeds iff the fetch does, yielding the pair selected from the reply's decrypted entries (the fallback when the bundle has none), and fails with the fetch's error |
| FirebaseConfig.FirebaseConfigService.GetDecryptedCredentials | services/firebase_config.py:98-129 | the result is `CredentialsResult` of the old cache and the reply: cached credentials are returned unchanged unless a refresh is forced; a fresh fetch succeeds iff the reply is a walkable 2xx and yields the pair selected from its decrypted entries; success caches the result and failure keeps the old cache, so the cache afterwards is `CachedCredentialsAfter` |
| FirebaseConfig.CachedCredentialsAfter | services/firebase_config.py:108-129 | the credential cache after a lookup: the resolved pair when the lookup succeeds, the old cache when it raises, and the old cache untouched when it is used without a forced refresh |
| Database.ReplaceAllAtStart | database.py:51-54 | replacing a prefix pattern everywhere leaves the replacement at the start |
| Database.GetDatabaseUrl | database.py:49-55 | a URL starting with `sqlite:///` gets the `sqlite+aiosqlite:///` driver prefix, with every occurrence replaced as `str.replace` does; when the prefix occurs only at the start, the result is the new prefix followed by the rest of the URL unchanged; likewise for `postgresql://` and `postgresql+asyncpg://`; any other URL is unchanged |
| Database.ReplaceAllWithoutOccurrence | database.py:51-54 | replacing a pattern that does not occur leaves the URL unchanged |
| Database.ReplaceLeadingOnly | database.py:51-54 | when the pattern occurs only at the start, replacing every occurrence rewrites just the prefix |
| Database.GetDatabaseUrlIdempotent | database.py:49-55 | rewriting an already rewritten URL changes nothing |
| Database.Database.InitDatabase | database.py:58-70 | after init the database is usable; the tables are created if missing and existing rows are kept |
| Database.Database.Session | database.py:80-83 | getting a session raises "Datenbank nicht initialisiert." exactly before init |
| TokenStorage.NewTokenData | services/token_storage.py:22-34 | the fields are stored as given; `created_at` defaults to now |
| TokenStorage.ExpiredMonotoneInBuffer | services/token_storage.py:36-39 | a token expired under a buffer is expired under any larger buffer |
| TokenStorage.ExpiredMonotoneInTime | services/token_storage.py:36-39 | once expired, a token stays expired as time passes |
| TokenStorage.Upserted | services/token_storage.py:48-73 | saving adds or updates only the storage key's row; an update keeps the row's creation time |
| TokenStorage.LoadFrom | services/token_storage.py:76-95 | loading gives None exactly when no row has the key; otherwise every field of the row |
| TokenStorage.LoadAfterSave | services/token_storage.py:48-95 | load after save returns the saved token, with the original creation time if the row existed |
| TokenStorage.UpsertKeepsCreation | services/token_storage.py:56-61 | a second save adds no row and keeps the first creation time |
| TokenStorage.TokenStorage.Save | services/token_storage.py:48-73 | raises before init and changes nothing; otherwise upserts the token row and leaves the cache table alone |
| TokenStorage.TokenStorage.Load | services/token_storage.py:76-95 | raises exactly before init; otherwise reads the key's row |
| TokenStorage.SaveAsWritten | database.py:21-31 | with no `refresh_token` column, inserting a new row fails |
| TokenStorage.LoadAsWritten | database.py:21-31 | with no `refresh_token` column, loading a stored row fails |
| TokenStorage.AsWrittenNeverRoundTrips | services/token_storage.py:63-95 | without the column, no token can be saved and loaded back: a save without the row raises, and with the row both loading it and loading it after a save raise |
| Auth.TokenFromResponse | services/auth.py:97-106 | a body succeeds iff `access_token` is a string and the optional fields are well typed; the token expires `expires_in` seconds after now (default 86400) and has type `Bearer` by default |
| Auth.TokenFromResponseAsWritten | services/auth.py:102-106 | the constructor call omits `refresh_token`, so every 200 response raises TypeError |
| Auth.TokenRequestAsWrittenAlwaysRaises | services/auth.py:99-106 | every well-formed body that the corrected code accepts is rejected by the code as written |
| Auth.MinimalTokenBodyExample | services/auth.py:99-106 | `{"access_token": "a"}` gives a Bearer token valid for 86400 seconds; the code as written raises on it |
| Auth.TokenRequestResult | services/auth.py:70-106 | a request yields a token iff the credentials resolve, the username is a string or list, and the reply is a 200 with a well-formed body; the token is then the decoded body; otherwise it is the first failing step's error, a non-200 status raising RuntimeError |
| Auth.RefreshDelay | services/auth.py:130-137 | the delay is the larger of 60 seconds and time-to-expiry minus 600 |
| Auth.RefreshDelayIsEarliestStaleWake | services/auth.py:130-139 | after the delay the token is within the 600 s buffer, and no earlier wake of at least 60 s is |
| Auth.AuthService.constructor | services/auth.py:25-31 | a fresh service has no token and no refresh task |
| Auth.AuthService.AccessToken | services/auth.py:39-43 | there is a token exactly when one is held and it is not within 300 s of expiry |
| Auth.AuthService.AuthenticatedHasAccessToken | services/auth.py:33-43 | an authenticated service always has an access token |
| TokenStorage.IsExpired | services/token_storage.py:36-39 | a token is expired exactly when at most `buffer` seconds of its lifetime remain |
| Auth.AuthService.IsAuthenticated | services/auth.py:33-37 | authenticated exactly when a token is held with more than 600 s of its lifetime left |
| Auth.AuthService.GetAuthHeader | services/auth.py:45-49 | raises "Nicht authentifiziert." iff there is no non-empty access token; otherwise the only header is `jwtauthorization: Bearer <token>` |
| Auth.AuthService.GetStatus | services/auth.py:153-161 | reports whether the service is authenticated, and reports expiry and creation times exactly when a token is held |
| Auth.AuthService.RequestNewToken | services/auth.py:70-109 | with the request's result taken from the credentials the config service resolves: it succeeds iff the request yields a token and the database is initialised; a yielded token is adopted, before the save; a failed request raises its error and changes neither the token nor the table; success persists the token; an uninitialised database raises; the credential cache ends as `CachedCredentialsAfter` and the database's flag and cache table are untouched |
| Auth.AuthService.StartRefreshScheduler | services/auth.py:111-115 | a running refresh task is kept, otherwise one is started |
| Auth.AuthService.StopRefreshScheduler | services/auth.py:117-121 | the refresh slot is empty afterwards and the token is kept |
| Auth.AuthService.Initialize | services/auth.py:51-68 | a failing load raises; a saved token outside the 600 s buffer is adopted without a request and gives True; otherwise the result is True iff the token request yields a token, which is then held and saved, and the scheduler is started exactly then; a failing load changes neither the token, the table nor the credential cache; the database's flag and cache table are untouched |
| Auth.AuthService.RefreshLoopStep | services/auth.py:123-147 | one refresh round sleeps 60 s without a token; otherwise it sleeps the refresh delay and requests a token at the wake-up time; it sleeps no longer exactly when that request yields a token and the save succeeds, else 60 s more; a yielded token is held, and saved as the table's row when the database is initialised; without a token the credential cache is untouched, otherwise it ends as `CachedCredentialsAfter`; the database's flag and cache table are untouched |
| EuropaparkApi.RequestHeaders | services/europapark_api.py:48-53 | the headers are the auth header plus Accept, Accept-Language and the app User-Agent |
| EuropaparkApi.AnswerOf | services/europapark_api.py:86-90 | a 200 answer yields its body, any other status raises "API Error" with that status, and a transport error is raised |
| EuropaparkApi.EuropaparkRequest | services/europapark_api.py:19-90 | not authenticated raises with no call; a fresh token with a usable header is always sent, and an empty one raises with no call; at most two calls to base + endpoint with the same params; the token is renewed exactly on a first 401, and then the request is repeated exactly when the renewal yields a token, the database is initialised and the new header is usable; the renewed token is held and saved as the table's row; a failed renewal raises its error with token and table unchanged, an uninitialised database raises and an unusable renewed header raises without a retry; a first answer other than 401 decides the result and the retry's answer decides after a retry; without a renewal the token, the table and the credential cache are unchanged; the result is the body of a 200 reply, and any other status raises "API Error" |
| EuropaparkApi.RenewAndRetry | services/europapark_api.py:66-84 | the retry happens exactly when the token request yields a token, the database is initialised and the header built from it is usable; the first call is kept and the retry has the same URL and params with the renewed token's header, and its answer decides the result; a failed request raises its error with token and table unchanged; an uninitialised database or an unusable header raises without a retry; the token is held and saved and the credential cache ends as `CachedCredentialsAfter` |
| EuropaparkApi.EndpointsAreDistinct | services/europapark_api.py:93-115 | the five datasets use five distinct paths; POIs, seasons and show times send `status=live` |
| EuropaparkApi.FetchDataset | services/europapark_api.py:93-115 | each getter calls its own endpoint with its own params; a fresh token with a usable header is always sent and an empty one raises unsent; a first answer other than 401 decides the result; on a 401 the renewal and retry behave as in `EuropaparkRequest` |
| Cache.CacheKeysAreIdentity | services/cache.py:25-31 | there are five cache keys, each mapped to itself |
| Cache.KeyOf | services/cache.py:25-31 | each dataset's cache key is a cache key |
| Cache.KeyOfIsInjective | services/cache.py:25-31 | different datasets never share a key |
| Cache.LoadFrom | services/cache.py:64-77 | a load gives None exactly when the key has no row; otherwise the stored data and its update time |
| Cache.Refreshed | services/cache.py:79-122 | a successful fetch overwrites its own key with the new data and time; a failed fetch, or an uninitialised database, leaves the table unchanged |
| Cache.LoadAfterRefresh | services/cache.py:41-122 | a load after a successful refresh returns the fetched data with the refresh time |
| Cache.RefreshTouchesOnlyItsKey | services/cache.py:79-122 | refreshing one dataset never changes another key |
| Cache.RefreshesCommute | services/cache.py:124-137 | refreshes of different datasets commute, so the order of the parallel gather does not matter |
| Cache.LastGoodPayloadSurvives | services/cache.py:79-122 | after a later failed refresh, the last good payload is still served |
| Cache.FiveMinuteGroupKeys | services/cache.py:124-129 | the 5-minute group touches only `waittimes` and `showtimes` |
| Cache.DailyGroupKeys | services/cache.py:131-137 | the daily group touches only `pois`, `seasons` and `openingtimes` |
| Cache.Payloads | services/cache.py:64-77 | the view of the table has the same keys, and each payload is what a load returns |
| Cache.CacheService.Save | services/cache.py:41-62 | raises before init and changes nothing; otherwise the key's row becomes the data with the current time |
| Cache.CacheService.Load | services/cache.py:64-77 | raises exactly before init; otherwise returns the key's row |
| Cache.CacheService.Refresh | services/cache.py:79-122 | the table afterwards is the refreshed table; no error escapes |
| Cache.CacheService.RefreshAll5Min | services/cache.py:124-129 | refreshes wait times and show times |
| Cache.CacheService.RefreshAllDaily | services/cache.py:131-137 | refreshes POIs, seasons and opening times |
| Cache.CacheService.Loop5MinStep | services/cache.py:139-150 | one round refreshes the 5-minute group and sleeps 300 s |
| Cache.CacheService.LoopDailyStep | services/cache.py:152-163 | one round refreshes the daily group and sleeps 86400 s |
| Cache.CacheService.Start | services/cache.py:165-173 | both loops are running afterwards; a live loop is not restarted |
| Cache.CacheService.Stop | services/cache.py:175-185 | both task slots are empty afterwards |
| Scheduler.DaysInMonth | services/scheduler.py:34-50 | a month has 28 to 31 days in the Gregorian calendar |
| Scheduler.MonthLengthsAddUp | services/scheduler.py:52 | day numbers advance by each month's length |
| Scheduler.YearLength | services/scheduler.py:52 | day numbers advance by 365 or 366 per year |
| Scheduler.NextDay | services/scheduler.py:34-50 | tomorrow's date is valid everywhere except after 9999-12-31 |
| Scheduler.NextDayIsOneDayLater | services/scheduler.py:34-50 | the next day is exactly one day number later |
| Scheduler.NextRunAsWritten | services/scheduler.py:31-44 | the code as written raises ValueError exactly at or after 03:00 on a month's last day |
| Scheduler.NextRun | services/scheduler.py:24-50 | the next run is at 03:00, today if before 03:00 and otherwise tomorrow, failing only at the end of year 9999 |
| Scheduler.AsWrittenAgreesAwayFromMonthEnd | services/scheduler.py:31-50 | where the code as written does not raise, it agrees with the corrected next run |
| Scheduler.MonthEndCounterexample | services/scheduler.py:34-37 | at 2025-01-31 04:00 the code as written raises while the next run is 2025-02-01 03:00 |
| Scheduler.NextRunIsNextThreeOClock | services/scheduler.py:52 | the wait is between 1 s and one day, and exactly the time left until the next 03:00 |
| Scheduler.IterationSleep | services/scheduler.py:29-80 | as written: where the next-run computation does not raise, one iteration sleeps until the next run, which is then the intended next 03:00, plus 3600 s when the check raised; where it raises, the iteration only sleeps 3600 s |
| Scheduler.IterationSleepIntended | services/scheduler.py:29-80 | with the corrected next run, one iteration sleeps until the next 03:00, plus 3600 s when the check raised; past year 9999 it only sleeps 3600 s |
| Scheduler.MonthEndIterationOnlyBacksOff | services/scheduler.py:34-80 | on a month's last day after 03:00 an iteration as written only sleeps 3600 s and the computation raises again after it, where the intended iteration sleeps until 03:00 the next day |
| Scheduler.IterationSleepBounds | services/scheduler.py:52-80 | one iteration sleeps more than 0 and at most one day plus an hour |
| Scheduler.Scheduler.StartScheduler | services/scheduler.py:83-92 | a live scheduler task is kept, otherwise one is started |
| Scheduler.Scheduler.StopScheduler | services/scheduler.py:95-102 | the task slot is empty afterwards |
| ViewCommon.Payload | services/pois.py:55-59 | a view's payload is present exactly when its cache key has a row |
| ViewCommon.LocationOf | services/pois.py:70-75 | there is a location exactly when latitude and longitude are both truthy |
| ViewCommon.ExtractImageUrls | services/pois.py:40-48 | there are image URLs exactly when the image object is truthy; they are its small and medium entries |
| ViewCommon.Icon | services/pois.py:85 | a falsy `icon` field gives no icon |
| ViewCommon.Collect | services/pois.py:61-88 | the loop returns the same result as the filter-and-map specification |
| ViewCommon.CollectAllFails | services/pois.py:61-88 | a view fails iff some element raises, and it then raises the first such error |
| ViewCommon.CollectAllAppend | services/pois.py:61-88 | processing `a + b` is processing `a` and then `b` |
| ViewCommon.CollectAllMembers | services/pois.py:61-88 | a record is in the result iff some element maps to it; the result is no longer than the input |
| ViewCommon.CollectAllTotal | services/shows.py:143-165 | when every element yields a record, the result has one record per element, in order |
| ViewCommon.FindFirst | services/waittimes.py:154-158 | the search loop returns the same as the first-match specification |
| ViewCommon.FirstMatchIsFirst | services/waittimes.py:154-158 | the result is None iff nothing matches; otherwise it matches and nothing before it does |
| Waittimes.StatusFromTime | services/waittimes.py:40-74 | a wait time is kept exactly for the operational codes (at most 91) and never exceeds 90 |
| Waittimes.StatusCodeTable | services/waittimes.py:44-74 | the status of every documented code, and Unknown for the rest |
| Waittimes.ClassifyTime | services/waittimes.py:40-134 | integers, booleans and integral floats get the status of the code they equal; a fractional float above 90 is unknown and one of at most 90 is rejected by the integer `time` field; any other value raises TypeError; a kept time is at most 90 and present exactly when operational |
| Waittimes.IntegralFloatClassifiesAsInt | services/waittimes.py:40-74 | a float equal to an integer is classified as that integer |
| Waittimes.GetPoiNameMap | services/waittimes.py:77-102 | the loop builds the same code-to-POI map as the specification |
| Waittimes.PoiMapFromKeys | services/waittimes.py:87-100 | the map's keys are exactly the truthy codes of Europapark POIs; each value is the summary of such a POI |
| Waittimes.PoiMapFromAppend | services/waittimes.py:88-100 | building the map over `a + b` continues the map over `a` |
| Waittimes.LastPoiWins | services/waittimes.py:94 | on duplicate codes the later POI wins |
| Waittimes.WaitEntryOf | services/waittimes.py:120-143 | an entry is dropped iff its code maps to no POI id; otherwise it carries that POI's id, name and position and the classification of its time (0 when absent); an integer time gets the status of its code, and a time that cannot be classified raises that error |
| Waittimes.GetProcessedWaittimes | services/waittimes.py:105-145 | the loop gives the same list as the specification |
| Waittimes.ProcessedWaittimesShape | services/waittimes.py:119-143 | every processed entry has an id, and has a time exactly when operational, at most 90 |
| Waittimes.GetWaittimeById | services/waittimes.py:148-158 | the lookup gives the specified entry |
| Waittimes.WaittimeByIdIsFirst | services/waittimes.py:148-158 | the lookup returns the first processed entry with the id, or None if there is none |
| Showtimes.GetShowInfoMap | services/showtimes.py:31-60 | the nested loops build the same show map as the specification |
| Showtimes.AddShowsKeys | services/showtimes.py:50-58 | one POI adds exactly the truthy ids of its shows |
| Showtimes.ShowMapKeys | services/showtimes.py:42-60 | the map's keys are exactly the truthy show ids of Europapark POIs |
| Showtimes.ShowtimeEntryOf | services/showtimes.py:74-94 | an entry is dropped iff its show id is not in the show map; otherwise it carries the map's name, a location exactly when the show's latitude and longitude are both truthy (made of those two), and the entry's `today` and `tomorrow` values, each defaulting to an empty list |
| Showtimes.ShowtimeStepNeverFails | services/showtimes.py:74-94 | processing show times never raises |
| Showtimes.GetProcessedShowtimes | services/showtimes.py:63-96 | the loop gives the same list as the specification |
| Showtimes.ProcessedShowtimesExact | services/showtimes.py:73-94 | an entry is in the list iff some raw entry maps to it |
| Showtimes.GetShowtimeById | services/showtimes.py:99-107 | the lookup gives the specified entry |
| Showtimes.ShowtimeByIdIsFirst | services/showtimes.py:99-107 | the lookup returns the first entry with the id, or None if there is none |
| Pois.PoiInfoOf | services/pois.py:77-86 | the record carries the POI's id, its name (default "Unbekannt") and the small icon when an icon is present |
| Pois.PoiEntryOf | services/pois.py:62-86 | a POI is skipped iff it is not a Europapark POI of the type; a kept POI without `id` raises KeyError |
| Pois.GetPoisByType | services/pois.py:51-88 | the loop gives the same list as the specification |
| Pois.PoisByTypeExact | services/pois.py:51-88 | the view succeeds iff every matching POI has an id; a record is listed iff it comes from a matching POI |
| Pois.PoisByTypeKeepsOrder | services/pois.py:61-88 | records keep the input order |
| Pois.PoiByIdAndType | services/pois.py:91-99 | without cached POIs there is no match |
| Pois.GetPoiByIdAndType | services/pois.py:91-126 | the search gives the specified POI |
| Pois.PoiByIdAndTypeIsFirst | services/pois.py:101-126 | the result is the record of the first Europapark POI with the id and type, or None if there is none |
| Pois.GetAllShops | services/pois.py:130-131 | shops are the POIs of type `shopping` |
| Pois.GetShopById | services/pois.py:134-135 | a shop lookup searches type `shopping` |
| Pois.GetAllRestaurants | services/pois.py:138-139 | restaurants are the POIs of type `gastronomy` |
| Pois.GetRestaurantById | services/pois.py:142-143 | a restaurant lookup searches type `gastronomy` |
| Pois.GetAllServices | services/pois.py:146-147 | services are the POIs of type `service` |
| Pois.GetServiceById | services/pois.py:150-151 | a service lookup searches type `service` |
| Attractions.GetPoiById | services/attractions.py:74-87 | the search gives the specified POI |
| Attractions.PoiByIdIsFirst | services/attractions.py:74-87 | the result is the first Europapark POI with the id, or None if there is none |
| Attractions.PoiByIdHasId | services/attractions.py:74-87 | a found POI has the id and the Europapark scope |
| Attractions.ExtractStressLevels | services/attractions.py:101-117 | there are stress levels exactly when the data is truthy, read field by field |
| Attractions.GreaterThanZero | services/attractions.py:147-149 | comparing a number with 0 succeeds; any other value raises TypeError |
| Attractions.HeightRequirementsOf | services/attractions.py:136-142 | there are height requirements exactly when one of the three fields is truthy |
| Attractions.AgeRequirementsOf | services/attractions.py:144-150 | there are none when all three fields are falsy; an age is kept exactly when it is greater than 0; a non-numeric age raises TypeError |
| Attractions.AttractionInfoOf | services/attractions.py:120-171 | an unknown id gives None; a known id gives a record exactly when its wait-time lookup and age requirements succeed, and otherwise their error; the record joins the POI's data with its requirements, stress levels and wait time |
| Attractions.GetAttractionInfo | services/attractions.py:120-171 | the method gives the specified record |
| Attractions.AttractionEntryOf | services/attractions.py:183-213 | non-attractions are skipped; a kept POI carries its id, its type and its wait time, and no requirements or stress levels |
| Attractions.GetAllAttractions | services/attractions.py:174-215 | the loop gives the same list as the specification |
| Attractions.AllAttractionsExact | services/attractions.py:174-215 | a record is listed iff it comes from an attraction POI; no listed record has requirements |
| Shows.PairsOf | services/shows.py:73-77 | one show item per show of the POI, in order, each paired with the POI |
| Shows.GetAllShowsFromPois | services/shows.py:53-79 | the nested loops give the same items as the specification |
| Shows.ItemsOfAppend | services/shows.py:62-77 | the items of `a + b` are the items of `a` followed by those of `b` |
| Shows.ItemsOfMembers | services/shows.py:62-77 | an item is listed iff its show belongs to a Europapark POI it is paired with |
| Shows.GetShowById | services/shows.py:82-90 | the search gives the specified item |
| Shows.ShowByIdIsFirst | services/shows.py:82-90 | the result is the first item whose show has the id, or None if there is none |
| Shows.ShowRecord | services/shows.py:108-130 | the record takes the show's name (default "Unbekannt") and the location POI's name and position |
| Shows.ShowInfoOf | services/shows.py:93-130 | an unknown show gives None; otherwise the record joins the item with its show times |
| Shows.GetShowInfo | services/shows.py:93-130 | the method gives the specified record |
| Shows.ShowEntryOf | services/shows.py:139-163 | a show without `id` raises KeyError; otherwise it gives its record with its show times |
| Shows.GetAllShows | services/shows.py:133-165 | the loop gives the same list as the specification |
| Shows.AllShowsOnePerItem | services/shows.py:133-165 | the list succeeds iff every show has an id, and then has exactly one record per item, in order |
| Seasons.TruncatedDate | services/seasons.py:54-55 | a date is present exactly for a non-empty string and is its first 10 characters |
| Seasons.SeasonIcon | services/seasons.py:44-46 | the icon is the iconSvg reference when both are truthy, otherwise None |
| Seasons.SeasonEntryOf | services/seasons.py:33-56 | seasons outside Europapark are skipped; a kept season without `id` raises KeyError; the name defaults to "Unknown" |
| Seasons.GetSeasons | services/seasons.py:24-58 | the loop gives the same list as the specification |
| Seasons.SeasonsExact | services/seasons.py:24-58 | a season record is listed iff it comes from a Europapark season; its dates are at most 10 characters |
| Seasons.SeasonsKeepOrder | services/seasons.py:32-56 | season records keep the input order |
| Openingtimes.ExtractTime | services/openingtimes.py:38-45 | a falsy value gives None; a string gives its characters 11 to 16, so `HH:MM` for an ISO timestamp and never more than 5 characters |
| Openingtimes.DayOf | services/openingtimes.py:49-53 | a day's date is the first 10 characters of its `date` (all of it when shorter); its start and end are the extracted times |
| Openingtimes.DayIfPresent | services/openingtimes.py:47-69 | a day is present exactly when its raw field is truthy |
| Openingtimes.MessageOf | services/openingtimes.py:71-73 | with no messages there is none; otherwise it is the first message's `long` text |
| Openingtimes.OpeningTimes | services/openingtimes.py:28-80 | None exactly when nothing is cached; today, tomorrow and next are each present iff truthy in the payload, and then the day record of that field; the message is the first message's long text |
| Openingtimes.ExtractTimeExample | services/openingtimes.py:43 | `2025-07-01T09:00:00+02:00` gives `09:00` |

## Left out

- HTTP clients, timeouts and JSON parsing are left out. Replies are parameters: a status and a JSON body, or a transport error.
- The token request's payload and headers are not modelled, and neither is the Remote Config request's payload beyond URL, app ID, key and installation ID.
- The Blowfish cipher, base64 decoding and UTF-8 coding are function parameters; the model does not implement them.
- Only the base64 encoder used for the installation ID is defined.
- The regular expression `\w` is read as ASCII letters, digits and `_`; Python also accepts other Unicode word characters.
- asyncio concurrency is left out. Each loop is modelled as one round with its sleep as a result, and a task slot records only whether a task is live.
- Cancellation, races between the parallel refreshes, and interleaving with requests are not modelled.
- `Cache.RefreshesCommute` shows that the order of one gather does not matter.
- Logging and the log lines' formatting are left out, except that a username that cannot be sliced raises TypeError as it does at services/auth.py:74.
- Pydantic validation of the view records is left out; records carry the raw JSON values.
- Malformed payload types are read as absent or as the default, where Python would raise AttributeError or TypeError. Examples: a POI list that is not a list, a `scopes` that is not a list, an entry that is not an object, a `date` that is `null`, `messages` that is an object.
- The exceptions that are modelled are listed here:
  - KeyError for a missing `id`;
  - TypeError for a wait `time` that is not a number, and ValueError for a fractional one of at most 90, which the record's integer field rejects;
  - TypeError for a non-numeric `minAge`/`maxAge`;
  - IndexError on empty plaintext.
- Python `==` between int, float and bool is modelled only for the wait `time` codes. Elsewhere, and for dictionary-key hashing of equal numbers, ids are compared as JSON values.
- `expires_in` is taken as an integer number of seconds. A float is treated as malformed.
- Time is whole seconds with no time zone. `datetime.now()` is a parameter.
- `Cache.CacheService.Load`: the JSON text round trip through `json.dumps`/`json.loads` is taken as the identity, and update times are seconds rather than ISO strings.
- The views read the cached payloads as a map instead of calling `cache.load`, so the error `cache.load` raises before the database is initialised is not part of the views. It is modelled in `Cache.CacheService.Load`.
- `close_database`, the SQLAlchemy engine and session objects, and the table schemas beyond their keys are left out. The database is its two tables as maps and an initialised flag.
- The module-level singletons (`get_auth_service`, `get_cache_service`, `get_token_storage`, `get_firebase_config_service`, `get_settings`) are left out. The model passes the objects explicitly.
- `shutdown` is `StopRefreshScheduler`.
- The body of the nightly health check is outside this model. Its outcome is a parameter of `Scheduler.IterationSleep`.
- Scheduler.NextRun: dates are limited to years 1 to 9999, as Python's `datetime`; the run after 9999-12-31 03:00 is an error.
- Auth.AuthService.RefreshLoopStep: a round that raises sleeps a further 60 s; cancellation, which ends the loop, is not modelled. It is built on the corrected token step; as written every round with a token ends in the extra 60 s wait.
- Auth.AuthService.RequestNewToken: models the corrected token step of the first Findings row. As written every 200 reply raises TypeError, so no token is adopted or saved (`Auth.TokenFromResponseAsWritten`).
- Auth.AuthService.Initialize: built on the corrected token step and the corrected token table. As written, `token_storage.load()` runs outside the `try`, so `initialize` raises whenever the database is not initialised or a token row exists (loading a row raises AttributeError, `TokenStorage.LoadAsWritten`); otherwise the token request raises TypeError inside the `try` and it returns False. As written it never returns True.
- EuropaparkApi.EuropaparkRequest: built on the corrected token step. As written a first 401 always ends in the renewal's TypeError, with no retry.
- Auth.TokenFromResponse: types `access_token` and `token_type` as strings and `refresh_token` as a string or null, so a body where one of them has another JSON type (a number, a list) raises TypeError; the corrected `TokenData(...)` call would store any such value unchanged. `Auth.WellFormedTokenBody` states the typed reading.
- Cache.CacheService.Refresh: the fetch outcome is a parameter. In the source the fetch goes through `europapark_request`, and a 401 answer there renews the token and saves its row, so the contract promises nothing about the token table across a refresh.
- Cache.CacheService.RefreshAll5Min: built on `Refresh`, so it promises nothing about the token table, which a fetch answered 401 changes.
- Cache.CacheService.RefreshAllDaily: built on `Refresh`, so it promises nothing about the token table, which a fetch answered 401 changes.
- TokenStorage.TokenStorage.Save: models the table with a `refresh_token` column, the correction of the second Findings row. As written, inserting a new row raises TypeError (`TokenStorage.SaveAsWritten`).
- TokenStorage.TokenStorage.Load: models the corrected table as well. As written, loading a stored row raises AttributeError (`TokenStorage.LoadAsWritten`).

## Findings

| source | as written | input that shows it | evidently intended | confidence | as-written member | corrected member |
|---|---|---|---|---|---|---|
| services/auth.py:102-106 | `TokenData(...)` is called without the required `refresh_token` argument, so every successful token response raises TypeError and no token is ever adopted | any 200 reply, e.g. `{"access_token": "a"}` | pass `data.get("refresh_token")`, so the token is adopted and saved | high, not executed | Auth.TokenFromResponseAsWritten | Auth.TokenFromResponse |
| database.py:21-31 | `TokenModel` has no `refresh_token` column, yet save passes `refresh_token=` to the model and load reads `token.refresh_token`; inserting raises TypeError and loading raises AttributeError | a save with no stored row; a load of any stored row | a `refresh_token` column, so a saved token loads back | high, not executed | TokenStorage.AsWrittenNeverRoundTrips | TokenStorage.LoadAfterSave |
| services/scheduler.py:34-37 | the first `replace(day=now.day + 1)` runs outside the `try` that handles the month end, so on a month's last day after 03:00 it raises ValueError, and the loop sleeps an hour and raises again until midnight | 2025-01-31 04:00 | the next 03:00, on the first of the next month | high, not executed | Scheduler.MonthEndCounterexample | Scheduler.NextRunIsNextThreeOClock |
