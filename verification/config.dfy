/**
 * Session configuration (config.ts): endpoint URLs derived from the server
 * origin, the settings sent to the server, and the process-wide token cache.
 *
 * The source keeps the cached token in a static field, shared by every
 * configuration object. Here it is one `TokenCache` object that all
 * configurations of a process are constructed with.
 */
module Config {
  import opened Common
  import opened Token

  // ---- string helpers of String.prototype --------------------------------

  predicate StartsWith(s: string, prefix: string) {
    |prefix| <= |s| && s[..|prefix|] == prefix
  }

  /** True when `p` occurs in `s` at position `i`. */
  predicate OccursAt(s: string, p: string, i: nat) {
    i + |p| <= |s| && s[i..i + |p|] == p
  }

  /** `s.indexOf(p)`: the first position where `p` occurs. */
  function IndexOf(s: string, p: string): (r: Option<nat>)
    ensures r.None? ==> forall i: nat :: !OccursAt(s, p, i)
    ensures r.Some? ==> OccursAt(s, p, r.value) && forall i: nat :: i < r.value ==> !OccursAt(s, p, i)
    decreases |s|
  {
    if |s| < |p| then None
    else if s[..|p|] == p then Some(0)
    else
      assert forall i: nat :: 0 < i ==> (OccursAt(s, p, i) <==> OccursAt(s[1..], p, i - 1)) by {
        forall i: nat | 0 < i {
          OccursShift(s, p, i);
        }
      }
      match IndexOf(s[1..], p)
      case None => None
      case Some(k) => Some(k + 1)
  }

  lemma OccursShift(s: string, p: string, i: nat)
    requires 0 < i && s != []
    ensures OccursAt(s, p, i) <==> OccursAt(s[1..], p, i - 1)
  {
    if i + |p| <= |s| {
      assert s[i..i + |p|] == s[1..][i - 1..i - 1 + |p|];
    }
  }

  /** `s.replace(p, r)` with a string pattern: only the first occurrence, if any, is replaced. */
  function ReplaceFirst(s: string, p: string, r: string): string {
    match IndexOf(s, p)
    case None => s
    case Some(i) => s[..i] + r + s[i + |p|..]
  }

  // ---- endpoint URLs -----------------------------------------------------

  /** The token endpoint URL: the server followed by the token path (config.ts:42). */
  function TokenURL(server: string): (url: string)
    ensures StartsWith(url, server) && url[|server|..] == TokenEndpoint
  {
    server + TokenEndpoint
  }

  /**
   * The streaming-channel URL (config.ts:44-52): the first "https" becomes
   * "wss" when the server starts with "https", otherwise the first "http"
   * becomes "ws"; then the socket path is appended.
   */
  function SocketURL(server: string): string {
    var base := if StartsWith(server, "https") then ReplaceFirst(server, "https", "wss")
                else ReplaceFirst(server, "http", "ws");
    base + SocketEndpoint
  }

  lemma SocketURLOfHttps(server: string)
    requires StartsWith(server, "https")
    ensures SocketURL(server) == "wss" + server[5..] + SocketEndpoint
  {
  }

  lemma SocketURLOfHttp(server: string)
    requires StartsWith(server, "http") && !StartsWith(server, "https")
    ensures SocketURL(server) == "ws" + server[4..] + SocketEndpoint
  {
  }

  /** A server naming no "http" at all is used as it is. */
  lemma SocketURLWithoutHttp(server: string)
    requires forall i: nat :: !OccursAt(server, "http", i)
    ensures SocketURL(server) == server + SocketEndpoint
  {
    assert |server| >= 5 ==> server[..4] == server[..5][..4];
    assert StartsWith(server, "https") ==> OccursAt(server, "http", 0);
  }

  /**
   * The substitution is not anchored at the start: a server already given
   * with a "ws" scheme has the first "http" inside its host rewritten.
   */
  lemma SocketURLRewritesInsideHost(rest: string)
    ensures SocketURL("ws://http" + rest) == "ws://ws" + rest + SocketEndpoint
  {
    var s := "ws://http" + rest;
    assert s[..5] == "ws://";
    assert !StartsWith(s, "https");
    forall i: nat | i < 5 ensures !OccursAt(s, "http", i) {
      assert s[i] == "ws://"[i];
    }
    assert s[5..9] == "http";
    assert OccursAt(s, "http", 5);
    assert IndexOf(s, "http") == Some(5);
    assert s[..5] + "ws" + s[9..] == "ws://ws" + rest;
  }

  // ---- settings -----------------------------------------------------------

  /** The optional event handlers a configuration may register. */
  datatype Handler = OnStartStreaming | OnSpeechTextReceived | OnQueryAnswerReceived | OnDone | OnError

  /** The settings an application writes on a configuration before starting a session. */
  datatype Settings = Settings(
    apiKey: Option<string>,
    language: string,
    engine: Option<string>,
    voiceID: string,
    voiceSpeed: Float,
    privateMode: bool,
    clientID: Option<string>,
    clientType: Option<string>,
    clientVersion: Option<string>,
    query: bool,
    tts: bool,
    queryServer: string,
    audio: bool,
    handlers: set<Handler>)

  /** Field initialisers of `EmblaSessionConfig` (config.ts:70-179). */
  function DefaultSettings(): Settings {
    Settings(
      apiKey := None,
      language := SpeechToTextLanguage,
      engine := None,
      voiceID := DefaultSpeechSynthesisVoice,
      voiceSpeed := DefaultSpeechSynthesisSpeed,
      privateMode := false,
      clientID := None,
      clientType := None,
      clientVersion := Some(SoftwareVersion),
      query := true,
      tts := true,
      queryServer := DefaultQueryServer,
      audio := true,
      handlers := {})
  }

  // ---- the token cache ----------------------------------------------------

  /** The cached token string, or "" when there is none or it is empty (config.ts:186-188). */
  function CachedTokenString(cache: Option<AuthToken>): (s: string)
    ensures s != "" <==> cache.Some? && cache.value.tokenString.Some? && cache.value.tokenString.value != ""
    ensures s != "" ==> cache.value.tokenString == Some(s)
  {
    match cache
    case None => ""
    case Some(t) => t.tokenString.GetOr("")
  }

  /**
   * `hasValidToken` as written (config.ts:194-197). With no cached token both
   * optional-chained tests see `undefined`, which passes them, so the
   * answer is then `true`.
   */
  predicate HasValid(cache: Option<AuthToken>, now: int) {
    match cache
    case None => true
    case Some(t) => t.tokenString != Some("") && !IsExpired(t, now)
  }

  /** How a token request ends: a response body, or a timeout or transport error. */
  datatype FetchOutcome = Fetched(body: TokenBody) | FetchFailed

  /** The cache after `fetchToken` (config.ts:203-233). */
  function AfterFetch(cache: Option<AuthToken>, fetch: FetchOutcome, now: int): (c: Option<AuthToken>)
    ensures cache.Some? && !IsExpired(cache.value, now) ==> c == cache
    ensures (cache.None? || IsExpired(cache.value, now)) ==>
      c == match fetch case Fetched(body) => Some(FromJson(body, now)) case FetchFailed => None
  {
    if cache.Some? && !IsExpired(cache.value, now) then cache
    else match fetch
      case Fetched(body) => Some(FromJson(body, now))
      case FetchFailed => None
  }

  /** A cached token that is still valid survives a fetch, and no request is made. */
  lemma FetchKeepsValidToken(cache: Option<AuthToken>, fetch: FetchOutcome, now: int)
    requires cache.Some? && HasValid(cache, now)
    ensures AfterFetch(cache, fetch, now) == cache
    ensures HasValid(AfterFetch(cache, fetch, now), now)
    ensures CachedTokenString(AfterFetch(cache, fetch, now)) == CachedTokenString(cache)
  {
  }

  /** A well-formed, unexpired token received from the server becomes the valid cached token. */
  lemma FetchStoresReceivedToken(cache: Option<AuthToken>, s: string, ms: int, now: int)
    requires cache.None? || IsExpired(cache.value, now)
    requires s != "" && ms >= now - ExpiryMarginMs
    ensures HasValid(AfterFetch(cache, Fetched(Parsed(Some(s), Time(ms))), now), now)
    ensures CachedTokenString(AfterFetch(cache, Fetched(Parsed(Some(s), Time(ms))), now)) == s
  {
  }

  /**
   * A failed fetch empties the cache, and an empty cache passes
   * `hasValidToken`: the session then goes on with the token "".
   */
  lemma FailedFetchStillPasses(cache: Option<AuthToken>, now: int)
    requires cache.None? || IsExpired(cache.value, now)
    ensures AfterFetch(cache, FetchFailed, now) == None
    ensures HasValid(AfterFetch(cache, FetchFailed, now), now)
    ensures CachedTokenString(AfterFetch(cache, FetchFailed, now)) == ""
  {
  }

  /** A malformed response body never passes `hasValidToken`. */
  lemma MalformedBodyFails(cache: Option<AuthToken>, now: int)
    requires cache.None? || IsExpired(cache.value, now)
    ensures !HasValid(AfterFetch(cache, Fetched(Malformed), now), now)
    ensures CachedTokenString(AfterFetch(cache, Fetched(Malformed), now)) == ""
  {
  }

  /**
   * A body without a `token` field or with an unparsable date is never
   * expired and passes `hasValidToken`, while the token string sent is "".
   */
  lemma BodyWithoutFieldsPasses(cache: Option<AuthToken>, now: int, later: int)
    requires cache.None? || IsExpired(cache.value, now)
    ensures HasValid(AfterFetch(cache, Fetched(Parsed(None, InvalidDate)), now), later)
    ensures CachedTokenString(AfterFetch(cache, Fetched(Parsed(None, InvalidDate)), now)) == ""
  {
  }

  /** The process-wide static `_token`. */
  class TokenCache {
    var token: Option<AuthToken>

    constructor()
      ensures token == None
    {
      token := None;
    }
  }

  /** `EmblaSessionConfig`. */
  class SessionConfig {
    const tokenURL: string
    const socketURL: string
    /** The shared static token cache. */
    const cache: TokenCache
    var settings: Settings

    /** Derives both URLs once from the server origin and starts from the default settings (config.ts:40-53). */
    constructor(shared: TokenCache, server: string := DefaultServer)
      ensures tokenURL == TokenURL(server) && socketURL == SocketURL(server)
      ensures cache == shared && settings == DefaultSettings()
    {
      tokenURL := TokenURL(server);
      socketURL := SocketURL(server);
      cache := shared;
      settings := DefaultSettings();
    }

    /** The `token` getter. */
    function Token(): string
      reads cache
    {
      CachedTokenString(cache.token)
    }

    /** `hasValidToken()`. */
    predicate HasValidToken(now: int)
      reads cache
    {
      HasValid(cache.token, now)
    }

    /**
     * `fetchToken()`: keeps a cached unexpired token, otherwise stores what
     * the request produced; a failed request clears the cache. The request
     * itself (URL, API-key header, 5 second timeout) is the `fetch` input.
     */
    method FetchToken(fetch: FetchOutcome, now: int)
      modifies cache
      ensures cache.token == AfterFetch(old(cache.token), fetch, now)
    {
      if cache.token.Some? && !IsExpired(cache.token.value, now) {
        return;
      }
      match fetch
      case Fetched(body) =>
        cache.token := Some(FromJson(body, now));
      case FetchFailed =>
        cache.token := None;
    }

    /**
     * `resetToken()`, called by the session but not defined in config.ts;
     * taken to clear the cached token.
     */
    method ResetToken()
      modifies cache
      ensures cache.token == None
    {
      cache.token := None;
    }
  }

  /** Two configurations built on the one cache see every token either of them fetches. */
  method SharedCacheScenario(ms: int, now: int) returns (first: string, second: string)
    requires ms >= now - ExpiryMarginMs
    ensures first == second == "abc"
  {
    var shared := new TokenCache();
    var a := new SessionConfig(shared);
    var b := new SessionConfig(shared, "http://localhost:8080");
    a.FetchToken(Fetched(Parsed(Some("abc"), Time(ms))), now);
    // The second fetch finds the first one's token still valid and keeps it.
    b.FetchToken(FetchFailed, now);
    first, second := a.Token(), b.Token();
  }
}
