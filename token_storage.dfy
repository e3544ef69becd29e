/**
 * OAuth2 token record and its single-key durable store
 * (services/token_storage.py).  Times are integer seconds.
 */
module TokenStorage {
  import opened Wrappers
  import opened Database

  /** The key under which the one token row is stored. */
  const TokenKey: string := "europapark_oauth"

  /** The buffer `is_expired` uses when called without one. */
  const DefaultExpiryBuffer: int := 300

  /** `TokenData`. */
  datatype TokenData = TokenData(
    accessToken: string,
    refreshToken: Option<string>,
    tokenType: string,
    expiresAt: int,
    createdAt: int)

  /** `TokenData.__init__`: `created_at` defaults to the current time. */
  function NewTokenData(accessToken: string, refreshToken: Option<string>, tokenType: string,
                        expiresAt: int, createdAt: Option<int>, now: int): (t: TokenData)
    ensures t.accessToken == accessToken && t.refreshToken == refreshToken
    ensures t.tokenType == tokenType && t.expiresAt == expiresAt
    ensures createdAt.None? ==> t.createdAt == now
    ensures createdAt.Some? ==> t.createdAt == createdAt.value
  {
    TokenData(accessToken, refreshToken, tokenType, expiresAt, createdAt.GetOr(now))
  }

  /** `is_expired(buffer)`: the current time has reached `expires_at - buffer`. */
  predicate IsExpired(t: TokenData, buffer: int, now: int)
    ensures IsExpired(t, buffer, now) <==> t.expiresAt - now <= buffer
  {
    now >= t.expiresAt - buffer
  }

  /** A larger buffer can only make a token expired earlier. */
  lemma ExpiredMonotoneInBuffer(t: TokenData, b: int, b': int, now: int)
    requires b <= b' && IsExpired(t, b, now)
    ensures IsExpired(t, b', now)
  {
  }

  /** Once expired under a buffer, a token stays expired as time goes on. */
  lemma ExpiredMonotoneInTime(t: TokenData, b: int, now: int, later: int)
    requires now <= later && IsExpired(t, b, now)
    ensures IsExpired(t, b, later)
  {
  }

  /** The row a token is stored as; `created_at` is kept when the row already exists. */
  function RowFor(t: TokenData, existing: Option<TokenRow>): (row: TokenRow)
    ensures row.accessToken == t.accessToken && row.refreshToken == t.refreshToken
    ensures row.tokenType == t.tokenType && row.expiresAt == t.expiresAt
    ensures row.createdAt == if existing.Some? then existing.value.createdAt else t.createdAt
  {
    match existing
    case Some(e) => e.(accessToken := t.accessToken, refreshToken := t.refreshToken,
                       tokenType := t.tokenType, expiresAt := t.expiresAt)
    case None => TokenRow(t.accessToken, t.refreshToken, t.tokenType, t.expiresAt, t.createdAt)
  }

  /** The `tokens` table after saving `t` under `key`: an upsert of that one row. */
  function Upserted(rows: map<string, TokenRow>, key: string, t: TokenData): (r: map<string, TokenRow>)
    ensures r.Keys == rows.Keys + {key}
    ensures forall k :: k in rows && k != key ==> r[k] == rows[k]
    ensures r[key] == RowFor(t, if key in rows then Some(rows[key]) else None)
  {
    rows[key := RowFor(t, if key in rows then Some(rows[key]) else None)]
  }

  /** The token `load` rebuilds from the row stored under `key`, if any. */
  function LoadFrom(rows: map<string, TokenRow>, key: string): (r: Option<TokenData>)
    ensures r.None? <==> key !in rows
    ensures r.Some? ==> r.value.accessToken == rows[key].accessToken && r.value.refreshToken == rows[key].refreshToken
    ensures r.Some? ==> r.value.tokenType == rows[key].tokenType && r.value.expiresAt == rows[key].expiresAt
    ensures r.Some? ==> r.value.createdAt == rows[key].createdAt
  {
    if key in rows then
      var row := rows[key];
      Some(TokenData(row.accessToken, row.refreshToken, row.tokenType, row.expiresAt, row.createdAt))
    else None
  }

  /**
   * Load after save returns the saved access token, refresh token, type and
   * expiry; `created_at` is the first save's.  Saving twice leaves the same
   * single row as saving the second token once over the first.
   */
  lemma {:induction false} LoadAfterSave(rows: map<string, TokenRow>, key: string, t: TokenData)
    ensures LoadFrom(Upserted(rows, key, t), key).Some?
    ensures var l := LoadFrom(Upserted(rows, key, t), key).value;
      l.accessToken == t.accessToken && l.refreshToken == t.refreshToken &&
      l.tokenType == t.tokenType && l.expiresAt == t.expiresAt &&
      l.createdAt == (if key in rows then rows[key].createdAt else t.createdAt)
  {
    var r := Upserted(rows, key, t);
    assert key in r;
    var row := r[key];
    assert row == RowFor(t, if key in rows then Some(rows[key]) else None);
  }

  /** Saving never adds a second row for a key, and keeps the first `created_at`. */
  lemma UpsertKeepsCreation(rows: map<string, TokenRow>, key: string, t1: TokenData, t2: TokenData)
    ensures |Upserted(Upserted(rows, key, t1), key, t2).Keys| == |Upserted(rows, key, t1).Keys|
    ensures Upserted(Upserted(rows, key, t1), key, t2)[key].createdAt == Upserted(rows, key, t1)[key].createdAt
  {
    assert Upserted(Upserted(rows, key, t1), key, t2).Keys == Upserted(rows, key, t1).Keys;
  }

  /** `TokenStorage`: the single-key store of the token row. */
  class TokenStorage {
    const key: string

    constructor (k: string)
      ensures key == k
    {
      key := k;
    }

    /** `save`: upsert the row for `key`; raises when the database is not initialised. */
    method Save(db: Database, t: TokenData) returns (o: Outcome)
      modifies db
      ensures db.initialised == old(db.initialised) && db.cache == old(db.cache)
      ensures !db.initialised ==> o == Raised(NotInitialised) && db.tokens == old(db.tokens)
      ensures db.initialised ==> o == Done && db.tokens == Upserted(old(db.tokens), key, t)
    {
      o := db.Session();
      if o.Raised? {
        return;
      }
      var existing := if key in db.tokens then Some(db.tokens[key]) else None;
      db.tokens := db.tokens[key := RowFor(t, existing)];
    }

    /** `load`: the stored token, None when no row exists; raises before initialisation. */
    function Load(db: Database): (r: Result<Option<TokenData>>)
      reads db
      ensures r.Err? <==> !db.initialised
      ensures r.Ok? ==> r.value == LoadFrom(db.tokens, key)
    {
      if !db.initialised then Err(NotInitialised) else Ok(LoadFrom(db.tokens, key))
    }
  }

  // The storage code as written against the declared `TokenModel`, which
  // has no `refresh_token` column.

  /** A `tokens` row with exactly the columns `TokenModel` declares. */
  datatype DeclaredTokenRow = DeclaredTokenRow(accessToken: string, tokenType: string, expiresAt: int, createdAt: int)

  /**
   * `save` against the declared model: updating an existing row only sets
   * a non-column attribute for the refresh token (it is not stored), while
   * inserting passes `refresh_token=` to the model constructor, which
   * rejects unknown keywords with TypeError.
   */
  function SaveAsWritten(rows: map<string, DeclaredTokenRow>, key: string, t: TokenData): (r: Result<map<string, DeclaredTokenRow>>)
    ensures r.Err? <==> key !in rows
    ensures r.Ok? ==> r.value.Keys == rows.Keys
  {
    if key in rows then
      Ok(rows[key := rows[key].(accessToken := t.accessToken, tokenType := t.tokenType, expiresAt := t.expiresAt)])
    else Err(TypeError("'refresh_token' is an invalid keyword argument for TokenModel"))
  }

  /** `load` against the declared model: reading `token.refresh_token` raises AttributeError. */
  function LoadAsWritten(rows: map<string, DeclaredTokenRow>, key: string): (r: Result<Option<TokenData>>)
    ensures r.Ok? <==> key !in rows
    ensures r.Ok? ==> r.value.None?
  {
    if key in rows then Err(AttributeError("refresh_token")) else Ok(None)
  }

  /**
   * As written, persistence never yields a token: a save into a table
   * without the row fails, and a load of an existing row fails, so no
   * sequence of saves followed by a load returns Some.
   */
  lemma AsWrittenNeverRoundTrips(rows: map<string, DeclaredTokenRow>, key: string, t: TokenData)
    ensures key !in rows ==> SaveAsWritten(rows, key, t).Err?
    ensures key in rows ==> LoadAsWritten(rows, key).Err?
    ensures key in rows ==>
      SaveAsWritten(rows, key, t).Ok? && LoadAsWritten(SaveAsWritten(rows, key, t).value, key).Err?
    ensures forall r :: LoadAsWritten(r, key) != Ok(Some(t))
  {
  }
}
