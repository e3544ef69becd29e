/**
 * Remote-configuration credential resolver (services/firebase_config.py):
 * the installation identifier, decryption of every fetched entry with the
 * ciphertext kept on failure, and the credential cache with its fallback to
 * the statically configured pair.
 */
module FirebaseConfig {
  import opened Wrappers
  import opened Json
  import opened Http
  import opened Config
  import opened Crypto
  import opened Base64

  /** A character of the class `[\w-]` (ASCII letters, digits, '_' and '-'). */
  predicate IsIdChar(c: char) {
    ('A' <= c <= 'Z') || ('a' <= c <= 'z') || ('0' <= c <= '9') || c == '_' || c == '-'
  }

  /** `[cdef][\w-]{21}` over the whole of `s`. */
  predicate IdBody(s: string) {
    |s| == 22 && s[0] in "cdef" && forall i :: 1 <= i < 22 ==> IsIdChar(s[i])
  }

  /** `FIREBASE_ID_PATTERN.match(s)`: `$` also matches just before a final newline. */
  predicate MatchesIdPattern(s: string) {
    IdBody(s) || (|s| == 23 && s[22] == '\n' && IdBody(s[..22]))
  }

  /** Length of the identifier slice taken from the encoded bytes. */
  const IdLength: nat := 22

  /** Number of random bytes drawn for an identifier. */
  const IdRandomBytes: nat := 17

  /**
   * `generate_firebase_id`: force the top nibble of the first random byte
   * to 0111, encode URL-safe base64, keep 22 characters and return them if
   * they match the identifier pattern, "" otherwise.  An empty draw makes
   * `fid_bytes[0]` raise, which the function turns into "".
   */
  /** The draw with the high nibble of its first byte forced to 0b0111. */
  function Masked(random: Bytes): (m: Bytes)
    requires random != []
    ensures |m| == |random| && m[1..] == random[1..]
    ensures 0x70 <= m[0] < 0x80 && m[0] % 16 == random[0] % 16
  {
    [0x70 + random[0] % 16] + random[1..]
  }

  method GenerateFirebaseId(random: Bytes) returns (fid: string)
    ensures random == [] ==> fid == ""
    ensures random != [] ==>
      var candidate := Prefix(UrlSafe(Encode(Masked(random))), IdLength);
      fid == (if MatchesIdPattern(candidate) then candidate else "")
    ensures fid == "" || MatchesIdPattern(fid)
    ensures '+' !in fid && '/' !in fid
    ensures |random| == IdRandomBytes ==> |fid| == IdLength && IdBody(fid)
    ensures random != [] && fid != "" ==> fid[0] == UrlSafeChar(AlphabetChar((0x70 + random[0] % 16) / 4))
  {
    if random == [] {
      return "";
    }
    var fidBytes := new Byte[|random|](i requires 0 <= i < |random| => random[i]);
    fidBytes[0] := 0x70 + fidBytes[0] % 0x10;
    var masked := fidBytes[..];
    assert masked == Masked(random);
    var b64 := UrlSafe(Encode(masked));
    var candidate := Prefix(b64, IdLength);
    EncodeFirstChar(masked);
    EncodeDataChars(masked);
    if |random| == IdRandomBytes {
      assert DataLength(|masked|) == 23;
      forall i | 1 <= i < 22
        ensures IsIdChar(candidate[i])
      {
        assert IsAlphabetChar(Encode(masked)[i]);
      }
      assert IdBody(candidate);
    }
    if MatchesIdPattern(candidate) {
      fid := candidate;
    } else {
      fid := "";
    }
  }

  /** The body `fetch_remote_config` posts, and the API key header it sends. */
  datatype ConfigRequest = ConfigRequest(
    url: string,
    appInstanceId: string,
    appId: string,
    packageName: string,
    languageCode: string,
    apiKey: string)

  const RemoteConfigUrlPrefix: string := "https://firebaseremoteconfig.googleapis.com/v1/projects/"
  const RemoteConfigUrlSuffix: string := "/namespaces/firebase:fetch"
  const AndroidPackage: string := "com.EuropaParkMackKG.EPGuide"

  /**
   * One entry of the fetched bundle: its decryption when that succeeds, the
   * original value otherwise.  A non-string value cannot be base64-decoded,
   * so it is always kept as it is.
   */
  function DecryptEntry(value: Json, s: Settings, p: Primitives): (r: Json)
    ensures r == value || (value.JStr? && r.JStr? && DecryptBlowfish(value.s, s.encKey, s.encIv, p) == Ok(r.s))
    ensures r != value ==> value.JStr? && DecryptBlowfish(value.s, s.encKey, s.encIv, p).Ok?
    ensures value.JStr? && DecryptBlowfish(value.s, s.encKey, s.encIv, p).Ok? ==> r == JStr(DecryptBlowfish(value.s, s.encKey, s.encIv, p).value)
  {
    if value.JStr? then
      match DecryptBlowfish(value.s, s.encKey, s.encIv, p)
      case Ok(plain) => JStr(plain)
      case Err(_) => value
    else value
  }

  /**
   * A body the entry loop can walk: either it has no "entries" at all, or
   * it is an object whose "entries" is an object (else indexing or
   * `.items()` raises).
   */
  predicate WalkableBundle(body: Json) {
    !Contains(body, "entries") || (Has(body, "entries") && body.fields["entries"].JObj?)
  }

  /**
   * The decrypted entries of a bundle whose "entries" is an object: every
   * key kept, every value passed through `DecryptEntry`.  Any other body
   * yields no entries.
   */
  function DecryptedEntries(body: Json, s: Settings, p: Primitives): (m: map<string, Json>)
    ensures Has(body, "entries") && body.fields["entries"].JObj? ==>
      m.Keys == body.fields["entries"].fields.Keys
    ensures forall k :: k in m ==>
      Has(body, "entries") && body.fields["entries"].JObj? && k in body.fields["entries"].fields &&
      m[k] == DecryptEntry(body.fields["entries"].fields[k], s, p)
  {
    if Has(body, "entries") && body.fields["entries"].JObj? then
      var entries := body.fields["entries"].fields;
      map k | k in entries :: DecryptEntry(entries[k], s, p)
    else map[]
  }

  /**
   * What `fetch_remote_config` yields for an answered request: a failed or
   * non-2xx reply raises, a body without "entries" gives {}, a body the
   * entry loop cannot walk raises, and otherwise every entry is decrypted
   * on its own, keeping the ciphertext on failure.
   */
  function RemoteConfigResult(s: Settings, p: Primitives, reply: Reply): (r: Result<map<string, Json>>)
    ensures reply.Err? ==> r == Err(reply.error)
    ensures reply.Ok? && !IsSuccess(reply.value.status) ==> r == Err(HttpStatusError(reply.value.status))
    ensures reply.Ok? && IsSuccess(reply.value.status) ==> (r.Ok? <==> WalkableBundle(reply.value.body))
    ensures reply.Ok? && IsSuccess(reply.value.status) && !Contains(reply.value.body, "entries") ==> r == Ok(map[])
    ensures r.Ok? ==> reply.Ok? && r.value == DecryptedEntries(reply.value.body, s, p)
    ensures r.Ok? && r.value != map[] ==> reply.Ok? && Has(reply.value.body, "entries")
    ensures r.Ok? && reply.Ok? && Has(reply.value.body, "entries") ==>
      var entries := reply.value.body.fields["entries"];
      entries.JObj? && r.value.Keys == entries.fields.Keys &&
      forall k :: k in r.value ==> r.value[k] == DecryptEntry(entries.fields[k], s, p)
  {
    if reply.Err? then Err(reply.error)
    else if !IsSuccess(reply.value.status) then Err(HttpStatusError(reply.value.status))
    else
      var data := reply.value.body;
      if !Contains(data, "entries") then
        assert !Has(data, "entries");
        Ok(map[])
      else if !data.JObj? then Err(TypeError("indices must be integers"))
      else if !data.fields["entries"].JObj? then Err(AttributeError("items"))
      else Ok(DecryptedEntries(data, s, p))
  }

  /**
   * `fetch_remote_config`: build the request (a fresh installation id, the
   * project's fetch URL, the app id and API key), then walk the reply's
   * entries one by one.
   */
  method FetchRemoteConfig(s: Settings, p: Primitives, random: Bytes, reply: Reply)
    returns (sent: ConfigRequest, r: Result<map<string, Json>>)
    ensures sent.url == RemoteConfigUrlPrefix + s.fbProjectId + RemoteConfigUrlSuffix
    ensures sent.appInstanceId == "" || MatchesIdPattern(sent.appInstanceId)
    ensures sent.appId == s.fbAppId && sent.apiKey == s.fbApiKey
    ensures r == RemoteConfigResult(s, p, reply)
  {
    var fid := GenerateFirebaseId(random);
    sent := ConfigRequest(RemoteConfigUrlPrefix + s.fbProjectId + RemoteConfigUrlSuffix,
                          fid, s.fbAppId, AndroidPackage, "en_GB", s.fbApiKey);
    if reply.Err? {
      return sent, Err(reply.error);
    }
    var response := reply.value;
    if !IsSuccess(response.status) {
      return sent, Err(HttpStatusError(response.status));
    }
    var data := response.body;
    if !Contains(data, "entries") {
      return sent, Ok(map[]);
    }
    if !data.JObj? {
      return sent, Err(TypeError("indices must be integers"));
    }
    var entries := data.fields["entries"];
    if !entries.JObj? {
      return sent, Err(AttributeError("items"));
    }
    var decrypted: map<string, Json> := map[];
    var todo := entries.fields.Keys;
    while todo != {}
      invariant todo <= entries.fields.Keys
      invariant decrypted.Keys == entries.fields.Keys - todo
      invariant forall k :: k in decrypted ==> decrypted[k] == DecryptEntry(entries.fields[k], s, p)
      decreases todo
    {
      var k :| k in todo;
      decrypted := decrypted[k := DecryptEntry(entries.fields[k], s, p)];
      todo := todo - {k};
    }
    assert decrypted == DecryptedEntries(data, s, p);
    return sent, Ok(decrypted);
  }

  /** The client identifier and secret used for the token request. */
  datatype Credentials = Credentials(username: Json, password: Json)

  /** The statically configured pair used when the remote bundle lacks one. */
  function FallbackCredentials(s: Settings): Credentials {
    Credentials(JStr(s.apiUsername), JStr(s.apiPassword))
  }

  /**
   * The pair picked from the decrypted entries: the remote username and
   * password when both are present and non-empty, the configured fallback
   * otherwise.
   */
  function SelectCredentials(entries: map<string, Json>, s: Settings): (c: Credentials)
    ensures c != FallbackCredentials(s) ==>
      s.userKey in entries && s.passKey in entries &&
      c == Credentials(entries[s.userKey], entries[s.passKey])
    ensures c.username != JStr(s.apiUsername) ==> Truthy(c.username) && Truthy(c.password)
    ensures (s.userKey !in entries || !Truthy(entries[s.userKey])) ==> c == FallbackCredentials(s)
    ensures (s.passKey !in entries || !Truthy(entries[s.passKey])) ==> c == FallbackCredentials(s)
    ensures s.userKey in entries && s.passKey in entries && Truthy(entries[s.userKey]) && Truthy(entries[s.passKey]) ==>
      c == Credentials(entries[s.userKey], entries[s.passKey])
  {
    var username := if s.userKey in entries then entries[s.userKey] else JNull;
    var password := if s.passKey in entries then entries[s.passKey] else JNull;
    if !Truthy(username) || !Truthy(password) then FallbackCredentials(s)
    else Credentials(username, password)
  }

  /** With a non-empty configured fallback, the selected pair is always usable. */
  lemma SelectedCredentialsAreNonEmpty(entries: map<string, Json>, s: Settings)
    requires s.apiUsername != "" && s.apiPassword != ""
    ensures Truthy(SelectCredentials(entries, s).username) && Truthy(SelectCredentials(entries, s).password)
  {
  }

  /**
   * The credentials `get_decrypted_credentials` returns: the cached pair
   * unless a refresh is forced; otherwise the pair selected from a fresh
   * fetch, or the fetch's error.
   */
  function CredentialsResult(cached: Option<Credentials>, forceRefresh: bool, s: Settings, p: Primitives, reply: Reply)
    : (r: Result<Credentials>)
    ensures cached.Some? && !forceRefresh ==> r == Ok(cached.value)
    ensures cached.None? || forceRefresh ==>
      (r.Ok? <==> reply.Ok? && IsSuccess(reply.value.status) && WalkableBundle(reply.value.body))
    ensures (cached.None? || forceRefresh) && r.Ok? ==>
      r.value == SelectCredentials(DecryptedEntries(reply.value.body, s, p), s)
    ensures (cached.None? || forceRefresh) && r.Err? ==> r == Err(RemoteConfigResult(s, p, reply).error)
    ensures (cached.None? || forceRefresh) && reply.Ok? &&
            IsSuccess(reply.value.status) && !Contains(reply.value.body, "entries") ==>
              r == Ok(FallbackCredentials(s))
  {
    if cached.Some? && !forceRefresh then Ok(cached.value)
    else
      match RemoteConfigResult(s, p, reply)
      case Ok(entries) => Ok(SelectCredentials(entries, s))
      case Err(e) => Err(e)
  }

  /**
   * The credential cache after `get_decrypted_credentials`: the pair it
   * returned, or the old cache when it raised.
   */
  function CachedCredentialsAfter(cached: Option<Credentials>, forceRefresh: bool, s: Settings, p: Primitives, reply: Reply)
    : (c: Option<Credentials>)
    ensures CredentialsResult(cached, forceRefresh, s, p, reply).Ok? ==>
      c == Some(CredentialsResult(cached, forceRefresh, s, p, reply).value)
    ensures CredentialsResult(cached, forceRefresh, s, p, reply).Err? ==> c == cached
    ensures cached.Some? && !forceRefresh ==> c == cached
  {
    match CredentialsResult(cached, forceRefresh, s, p, reply)
    case Ok(c) => Some(c)
    case Err(_) => cached
  }

  /** `FirebaseConfigService` with its in-memory credential cache. */
  class FirebaseConfigService {
    const settings: Settings
    var cachedCredentials: Option<Credentials>

    constructor (s: Settings)
      ensures settings == s && cachedCredentials == None
    {
      settings := s;
      cachedCredentials := None;
    }

    /**
     * `get_decrypted_credentials`: the cached pair unless a refresh is
     * forced; otherwise fetch, select (with fallback) and cache.  A failed
     * fetch raises and leaves the cache as it was.
     */
    method GetDecryptedCredentials(forceRefresh: bool, p: Primitives, random: Bytes, reply: Reply)
      returns (r: Result<Credentials>)
      modifies this
      ensures old(cachedCredentials).Some? && !forceRefresh ==>
        r == Ok(old(cachedCredentials).value) && cachedCredentials == old(cachedCredentials)
      ensures r.Err? ==> cachedCredentials == old(cachedCredentials)
      ensures r.Ok? ==> cachedCredentials == Some(r.value)
      ensures r == CredentialsResult(old(cachedCredentials), forceRefresh, settings, p, reply)
      ensures cachedCredentials == CachedCredentialsAfter(old(cachedCredentials), forceRefresh, settings, p, reply)
      ensures (old(cachedCredentials).None? || forceRefresh) && r.Ok? ==>
        reply.Ok? && r.value == SelectCredentials(DecryptedEntries(reply.value.body, settings, p), settings)
      ensures (old(cachedCredentials).None? || forceRefresh) ==>
        (r.Ok? <==> reply.Ok? && IsSuccess(reply.value.status) && WalkableBundle(reply.value.body))
      ensures (old(cachedCredentials).None? || forceRefresh) && reply.Ok? &&
              IsSuccess(reply.value.status) && !Contains(reply.value.body, "entries") ==>
                r == Ok(FallbackCredentials(settings))
    {
      if cachedCredentials.Some? && !forceRefresh {
        return Ok(cachedCredentials.value);
      }
      var _, fetched := FetchRemoteConfig(settings, p, random, reply);
      if fetched.Err? {
        return Err(fetched.error);
      }
      var c := SelectCredentials(fetched.value, settings);
      cachedCredentials := Some(c);
      return Ok(c);
    }
  }
}
