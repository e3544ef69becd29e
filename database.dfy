/**
 * The persistence module (database.py): URL driver rewriting, the
 * "initialised" guard on sessions, and the two tables, each keyed by a
 * unique `key` column (a map gives at most one row per key).
 */
module Database {
  import opened Wrappers
  import opened Json

  /** `s.startswith(p)`. */
  predicate StartsWith(s: string, p: string) {
    |p| <= |s| && s[..|p|] == p
  }

  /** `s.replace(pat, rep)`: every non-overlapping occurrence, scanning left to right. */
  function ReplaceAll(s: string, pat: string, rep: string): string
    requires pat != []
    decreases |s|
  {
    if |s| < |pat| then s
    else if s[..|pat|] == pat then rep + ReplaceAll(s[|pat|..], pat, rep)
    else [s[0]] + ReplaceAll(s[1..], pat, rep)
  }

  /** Replacing a pattern the string starts with puts the replacement in front. */
  lemma ReplaceAllAtStart(s: string, pat: string, rep: string)
    requires pat != [] && StartsWith(s, pat)
    ensures StartsWith(ReplaceAll(s, pat, rep), rep)
  {
    var tail := ReplaceAll(s[|pat|..], pat, rep);
    assert ReplaceAll(s, pat, rep) == rep + tail;
    assert (rep + tail)[..|rep|] == rep;
  }

  /** `pat in s`: the pattern occurs somewhere in `s`. */
  ghost predicate Occurs(s: string, pat: string) {
    exists i :: 0 <= i && OccursAt(s, pat, i)
  }

  predicate OccursAt(s: string, pat: string, i: nat) {
    i + |pat| <= |s| && s[i..i + |pat|] == pat
  }

  /** Without an occurrence of the pattern, `replace` returns the string unchanged. */
  lemma {:induction false} ReplaceAllWithoutOccurrence(s: string, pat: string, rep: string)
    requires pat != [] && !Occurs(s, pat)
    ensures ReplaceAll(s, pat, rep) == s
    decreases |s|
  {
    if |s| >= |pat| {
      assert !OccursAt(s, pat, 0);
      assert s[0..|pat|] == s[..|pat|];
      forall i: nat | OccursAt(s[1..], pat, i)
        ensures false
      {
        assert s[1..][i..i + |pat|] == s[i + 1..i + 1 + |pat|];
        assert OccursAt(s, pat, i + 1);
      }
      ReplaceAllWithoutOccurrence(s[1..], pat, rep);
      assert [s[0]] + s[1..] == s;
    }
  }

  /**
   * Replacing a pattern that starts the string and does not recur in the
   * rest swaps the prefix and keeps the rest as it is.
   */
  lemma ReplaceLeadingOnly(s: string, pat: string, rep: string)
    requires pat != [] && StartsWith(s, pat)
    ensures !Occurs(s[|pat|..], pat) ==> ReplaceAll(s, pat, rep) == rep + s[|pat|..]
  {
    if !Occurs(s[|pat|..], pat) {
      ReplaceAllWithoutOccurrence(s[|pat|..], pat, rep);
    }
  }

  const SqlitePrefix: string := "sqlite:///"
  const SqliteAsyncPrefix: string := "sqlite+aiosqlite:///"
  const PostgresPrefix: string := "postgresql://"
  const PostgresAsyncPrefix: string := "postgresql+asyncpg://"

  /**
   * `get_database_url`: select the async driver for SQLite and PostgreSQL
   * URLs; any other URL is returned unchanged.
   */
  function GetDatabaseUrl(url: string): (r: string)
    ensures StartsWith(url, SqlitePrefix) ==>
      StartsWith(r, SqliteAsyncPrefix) && r == ReplaceAll(url, SqlitePrefix, SqliteAsyncPrefix)
    ensures StartsWith(url, SqlitePrefix) && !Occurs(url[|SqlitePrefix|..], SqlitePrefix) ==>
      r == SqliteAsyncPrefix + url[|SqlitePrefix|..]
    ensures !StartsWith(url, SqlitePrefix) && StartsWith(url, PostgresPrefix) ==>
      StartsWith(r, PostgresAsyncPrefix) && r == ReplaceAll(url, PostgresPrefix, PostgresAsyncPrefix)
    ensures !StartsWith(url, SqlitePrefix) && StartsWith(url, PostgresPrefix) && !Occurs(url[|PostgresPrefix|..], PostgresPrefix) ==>
      r == PostgresAsyncPrefix + url[|PostgresPrefix|..]
    ensures !StartsWith(url, SqlitePrefix) && !StartsWith(url, PostgresPrefix) ==> r == url
    ensures r == url || (!StartsWith(r, SqlitePrefix) && !StartsWith(r, PostgresPrefix))
  {
    if StartsWith(url, SqlitePrefix) then
      ReplaceAllAtStart(url, SqlitePrefix, SqliteAsyncPrefix);
      ReplaceLeadingOnly(url, SqlitePrefix, SqliteAsyncPrefix);
      var r := ReplaceAll(url, SqlitePrefix, SqliteAsyncPrefix);
      assert r[..|SqliteAsyncPrefix|][6] == '+' && r[..|SqliteAsyncPrefix|][0] == 's';
      r
    else if StartsWith(url, PostgresPrefix) then
      ReplaceAllAtStart(url, PostgresPrefix, PostgresAsyncPrefix);
      ReplaceLeadingOnly(url, PostgresPrefix, PostgresAsyncPrefix);
      var r := ReplaceAll(url, PostgresPrefix, PostgresAsyncPrefix);
      assert r[..|PostgresAsyncPrefix|][10] == '+' && r[..|PostgresAsyncPrefix|][0] == 'p';
      r
    else url
  }

  /** A rewritten URL matches neither prefix, so rewriting twice changes nothing. */
  lemma GetDatabaseUrlIdempotent(url: string)
    ensures GetDatabaseUrl(GetDatabaseUrl(url)) == GetDatabaseUrl(url)
  {
  }

  /** One row of the `tokens` table (with the refresh token column the storage code uses). */
  datatype TokenRow = TokenRow(
    accessToken: string,
    refreshToken: Option<string>,
    tokenType: string,
    expiresAt: int,
    createdAt: int)

  /** One row of the `cache` table; `data` is the JSON text, kept here as its value. */
  datatype CacheRow = CacheRow(data: Json, updatedAt: int)

  /** The exception `get_session` raises before `init_database` ran. */
  const NotInitialised: Error := RuntimeError("Datenbank nicht initialisiert.")

  /**
   * The database as the services see it: whether the session factory has
   * been created, and the contents of the two tables.
   */
  class Database {
    var initialised: bool
    var tokens: map<string, TokenRow>
    var cache: map<string, CacheRow>

    /** A store holding earlier rows, before `init_database` ran in this process. */
    constructor (tokenRows: map<string, TokenRow>, cacheRows: map<string, CacheRow>)
      ensures !initialised && tokens == tokenRows && cache == cacheRows
    {
      initialised := false;
      tokens := tokenRows;
      cache := cacheRows;
    }

    /** `init_database`: creates the session factory; existing rows are kept. */
    method InitDatabase()
      modifies this
      ensures initialised
      ensures tokens == old(tokens) && cache == old(cache)
    {
      initialised := true;
    }

    /** `get_session`: raises until the database has been initialised. */
    function Session(): (o: Outcome)
      reads this
      ensures o.Raised? <==> !initialised
      ensures o.Raised? ==> o.error == NotInitialised
    {
      if initialised then Done else Raised(NotInitialised)
    }
  }
}
