/**
 * Building a stored session from the server's create-session or
 * refresh-session output.  The expiry comes from the access token alone:
 * its `exp` claim is read without checking the signature and taken as a
 * count of MILLISECONDS since the Unix epoch.
 */
module Session {
  import opened Wrappers

  /** Rust's `i64`, the type of the `exp` claim. */
  newtype i64 = x: int | -0x8000_0000_0000_0000 <= x < 0x8000_0000_0000_0000

  /** A point on the UTC time line (`DateTime<Utc>`), compared by `<` and `>`. */
  type Instant = int

  /**
   * The two library conversions the expiry depends on, left uninterpreted:
   * `claimsExp` is `Token::parse_unverified` followed by reading the `exp`
   * claim (None when the token or its claims do not parse), and
   * `utcFromMillis` is `Utc.timestamp_millis_opt(..).earliest()` (None when
   * the count of milliseconds names no representable instant).
   */
  datatype TokenCodec = TokenCodec(claimsExp: string -> Option<i64>, utcFromMillis: i64 -> Option<Instant>)

  /** The stored credentials. */
  datatype BSkySession = BSkySession(accessJwt: string, accessJwtExp: Instant, refreshJwt: string)

  /** com.atproto.server.createSession output */
  datatype CreateSessionOutput = CreateSessionOutput(accessJwt: string, refreshJwt: string, handle: string, did: string, email: Option<string>)

  /** com.atproto.server.refreshSession output */
  datatype RefreshSessionOutput = RefreshSessionOutput(accessJwt: string, refreshJwt: string, handle: string, did: string)

  datatype SessionError =
    | MalformedToken(jwt: string)   // the token or its claims do not parse
    | BadExpiration(exp: i64)       // "couldn't interpret expiration timestamp"

  /** `get_token_expiration`: the instant named by the token's `exp` claim read as epoch milliseconds. */
  function GetTokenExpiration(codec: TokenCodec, jwt: string): (r: Result<Instant, SessionError>)
    ensures codec.claimsExp(jwt).None? ==> r == Failure(MalformedToken(jwt))
    ensures codec.claimsExp(jwt).Some? ==>
      var exp := codec.claimsExp(jwt).value;
      match codec.utcFromMillis(exp)
      case Some(t) => r == Success(t)
      case None => r == Failure(BadExpiration(exp))
  {
    match codec.claimsExp(jwt)
    case None => Failure(MalformedToken(jwt))
    case Some(exp) =>
      match codec.utcFromMillis(exp)
      case None => Failure(BadExpiration(exp))
      case Some(t) => Success(t)
  }

  /** The invariant of a stored session: its expiry is the one its own access token states. */
  predicate Consistent(codec: TokenCodec, s: BSkySession) {
    GetTokenExpiration(codec, s.accessJwt) == Success(s.accessJwtExp)
  }

  /** Both conversions share this step: check the access token, then copy both tokens verbatim. */
  function FromTokens(codec: TokenCodec, accessJwt: string, refreshJwt: string): (r: Result<BSkySession, SessionError>)
    ensures r.Success? <==> GetTokenExpiration(codec, accessJwt).Success?
    ensures r.Success? ==> r.value.accessJwt == accessJwt && r.value.refreshJwt == refreshJwt && Consistent(codec, r.value)
    ensures r.Failure? ==> r.error == GetTokenExpiration(codec, accessJwt).error
  {
    match GetTokenExpiration(codec, accessJwt)
    case Failure(e) => Failure(e)
    case Success(exp) => Success(BSkySession(accessJwt, exp, refreshJwt))
  }

  /** `TryInto<BSkySession> for CreateSessionOutput` */
  function FromCreateSession(codec: TokenCodec, out: CreateSessionOutput): (r: Result<BSkySession, SessionError>)
    ensures r.Success? <==> GetTokenExpiration(codec, out.accessJwt).Success?
    ensures r.Success? ==> r.value == BSkySession(out.accessJwt, GetTokenExpiration(codec, out.accessJwt).value, out.refreshJwt)
  {
    FromTokens(codec, out.accessJwt, out.refreshJwt)
  }

  /** `TryInto<BSkySession> for RefreshSessionOutput` */
  function FromRefreshSession(codec: TokenCodec, out: RefreshSessionOutput): (r: Result<BSkySession, SessionError>)
    ensures r.Success? <==> GetTokenExpiration(codec, out.accessJwt).Success?
    ensures r.Success? ==> r.value == BSkySession(out.accessJwt, GetTokenExpiration(codec, out.accessJwt).value, out.refreshJwt)
  {
    FromTokens(codec, out.accessJwt, out.refreshJwt)
  }

  /** The two conversions agree on the same pair of tokens, whatever else the outputs carry. */
  lemma ConversionsAgree(codec: TokenCodec, c: CreateSessionOutput, f: RefreshSessionOutput)
    requires c.accessJwt == f.accessJwt && c.refreshJwt == f.refreshJwt
    ensures FromCreateSession(codec, c) == FromRefreshSession(codec, f)
  {
  }

  /** The refresh token plays no part in the expiry: outputs sharing an access token get the same one. */
  lemma ExpiryIgnoresRefreshToken(codec: TokenCodec, f: RefreshSessionOutput, g: RefreshSessionOutput)
    requires f.accessJwt == g.accessJwt
    ensures FromRefreshSession(codec, f).Success? <==> FromRefreshSession(codec, g).Success?
    ensures FromRefreshSession(codec, f).Success? ==>
      FromRefreshSession(codec, f).value.accessJwtExp == FromRefreshSession(codec, g).value.accessJwtExp
  {
  }
}
