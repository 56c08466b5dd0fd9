/**
 * The authentication token (token.ts): an immutable credential with an
 * expiry instant. Instants are integer milliseconds since the epoch;
 * the current time is always passed in as `now`.
 */
module Token {
  import opened Common

  /** A JavaScript `Date`: a millisecond count, or an invalid date whose `getTime()` is NaN. */
  datatype Date = Time(ms: int) | InvalidDate

  /**
   * What `JSON.parse` makes of a token response body, seen only through the
   * two fields `fromJson` reads. `Malformed` is a body on which parsing or
   * indexing throws (not JSON, or JSON `null`). Otherwise `token` is the
   * `token` field (`None` when absent, leaving `tokenString` undefined) and
   * `expiresAt` is what `new Date(expires_at)` yields.
   */
  datatype TokenBody = Malformed | Parsed(token: Option<string>, expiresAt: Date)

  /** `AuthenticationToken`; `tokenString` is `None` where the source leaves it undefined. */
  datatype AuthToken = AuthToken(tokenString: Option<string>, expiresAt: Date)

  /** The safety margin of `isExpired`, in milliseconds. */
  const ExpiryMarginMs: int := 30000

  /** `AuthenticationToken.fromJson`: total, a malformed body degrades to an empty token expiring now. */
  function FromJson(body: TokenBody, now: int): (t: AuthToken)
    ensures body.Malformed? ==> t.tokenString == Some("") && t.expiresAt == Time(now)
    ensures body.Parsed? ==> t.tokenString == body.token && t.expiresAt == body.expiresAt
  {
    match body
    case Malformed => AuthToken(Some(""), Time(now))
    case Parsed(tok, at) => AuthToken(tok, at)
  }

  /**
   * `isExpired`, as the code compares: the expiry lies more than the margin
   * in the past. An invalid date compares false, so it never expires.
   */
  predicate IsExpired(t: AuthToken, now: int) {
    t.expiresAt.Time? && t.expiresAt.ms < now - ExpiryMarginMs
  }

  /** Parsing `{token, expires_at}` gives the token built directly from the two values. */
  lemma FromJsonOfFields(s: string, ms: int, parseTime: int, now: int)
    ensures FromJson(Parsed(Some(s), Time(ms)), parseTime) == AuthToken(Some(s), Time(ms))
    ensures IsExpired(FromJson(Parsed(Some(s), Time(ms)), parseTime), now) == IsExpired(AuthToken(Some(s), Time(ms)), now)
  {
  }

  /** Expiry reads only the instant: two tokens with the same expiry agree, whatever their strings. */
  lemma ExpiryIgnoresTokenString(a: AuthToken, b: AuthToken, now: int)
    requires a.expiresAt == b.expiresAt
    ensures IsExpired(a, now) <==> IsExpired(b, now)
  {
  }

  /** Once expired, a token stays expired. */
  lemma ExpiryMonotone(t: AuthToken, now: int, later: int)
    requires now <= later && IsExpired(t, now)
    ensures IsExpired(t, later)
  {
  }

  /**
   * The comparison is `expiresAt < now - 30000`: a token is still unexpired
   * at its own expiry instant and up to 30 seconds after it, and one that
   * expires within the next 30 seconds is not treated as expired.
   */
  lemma ExpiryBoundary(s: Option<string>, ms: int)
    ensures !IsExpired(AuthToken(s, Time(ms)), ms)
    ensures !IsExpired(AuthToken(s, Time(ms)), ms + ExpiryMarginMs)
    ensures IsExpired(AuthToken(s, Time(ms)), ms + ExpiryMarginMs + 1)
    ensures !IsExpired(AuthToken(s, Time(ms + 1)), ms)
  {
  }

  /** A malformed body yields a token that is not expired at the instant it was parsed. */
  lemma MalformedNotYetExpired(now: int)
    ensures FromJson(Malformed, now).tokenString == Some("")
    ensures !IsExpired(FromJson(Malformed, now), now)
  {
  }
}
