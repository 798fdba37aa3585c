/** The admin login endpoint of `api/admin-auth.ts`: CORS preflight, POST only, a
    per-client limit of ten attempts per fifteen minutes, then password validation and
    an argon2 check against the configured hash; success returns a fresh session token. */
module AdminAuth {
  import opened Wrappers
  import opened Strings
  import opened Crypto
  import opened Http
  import opened RateLimit

  const MaxAuthAttempts: nat := 10
  const AuthWindow: nat := 15 * 60 * 1000
  const TokenBytes: nat := 32

  /** The `ADMIN_PASSWORD_HASH` setting: unset (or empty), a text argon2 cannot parse
      (its `verify` throws with message `error`), or a well-formed hash. */
  datatype HashConfig = Unset | Malformed(error: string) | Encoded(digest: Digest)

  /** The responses the endpoint sends. */
  datatype AuthResponse =
    | Preflight
    | MethodNotAllowed
    | TooManyAttempts(retryAfter: int)
    | PasswordRequired
    | PasswordEmpty
    | NotConfigured
    | Authenticated(sessionToken: string)
    | InvalidPassword(remaining: int)
    | AuthFailed(details: string)

  /** The HTTP status of each response. */
  function Status(r: AuthResponse): (code: nat)
    ensures code == 200 <==> r.Preflight? || r.Authenticated?
  {
    match r
    case Preflight => 200
    case MethodNotAllowed => 405
    case TooManyAttempts(_) => 429
    case PasswordRequired => 400
    case PasswordEmpty => 400
    case NotConfigured => 500
    case Authenticated(_) => 200
    case InvalidPassword(_) => 401
    case AuthFailed(_) => 500
  }

  /** The JSON fields of a response that the login page reads (the 429 `retryAfter`,
      the 401 `remaining` and the 500 `details` are not read). A preflight has no body. */
  datatype AuthBody = AuthBody(success: bool, sessionToken: Option<string>, error: Option<string>, message: Option<string>)

  const TooManyError: string := "Too many authentication attempts"

  function Body(r: AuthResponse): (b: Option<AuthBody>)
    ensures b.None? <==> r.Preflight?
    ensures b.Some? ==> (b.value.success <==> r.Authenticated?)
    ensures b.Some? ==> (b.value.sessionToken.Some? <==> r.Authenticated?)
    ensures b.Some? ==> (b.value.error.None? <==> r.Authenticated?)
  {
    match r
    case Preflight => None
    case MethodNotAllowed => Some(AuthBody(false, None, Some("Method not allowed"), None))
    case TooManyAttempts(retryAfter) =>
      Some(AuthBody(false, None, Some(TooManyError),
                    Some("Please try again in " + IntToString(retryAfter) + " minutes")))
    case PasswordRequired => Some(AuthBody(false, None, Some("Password is required"), None))
    case PasswordEmpty => Some(AuthBody(false, None, Some("Password cannot be empty"), None))
    case NotConfigured => Some(AuthBody(false, None, Some("Authentication not configured"), None))
    case Authenticated(token) => Some(AuthBody(true, Some(token), None, Some("Authentication successful")))
    case InvalidPassword(_) => Some(AuthBody(false, None, Some("Invalid password"), None))
    case AuthFailed(_) => Some(AuthBody(false, None, Some("Authentication failed"), None))
  }

  /** `generateSessionToken`: the hexadecimal text of 32 random bytes. The token is 64
      lower-case hexadecimal digits and carries all of its randomness. */
  function GenerateSessionToken(random: seq<byte>): (token: string)
    requires |random| == TokenBytes
    ensures |token| == 64
    ensures forall i :: 0 <= i < |token| ==> IsLowerHex(token[i])
    ensures HexDecode(token) == Some(random)
  {
    HexRoundTrip(random);
    HexEncode(random)
  }

  /** The password the request carries once validated and trimmed, if it passes
      validation. */
  function NormalizedPassword(field: BodyField): (p: Option<string>)
    ensures p.Some? <==> field.Str? && !AllWhitespace(field.s)
    ensures p.Some? ==> p.value == Trim(field.s) && p.value != [] && Trimmed(p.value)
  {
    if field.Str? && field.s != [] && Trim(field.s) != [] then Some(Trim(field.s)) else None
  }

  /** What the endpoint answers to a POST the rate limiter let through, `remaining` being
      the limiter's figure and `random` the bytes a new token would be made of. */
  function AfterRateLimit(field: BodyField, hash: HashConfig, random: seq<byte>, remaining: int): (r: AuthResponse)
    requires |random| == TokenBytes
    ensures r.Authenticated? <==>
              NormalizedPassword(field).Some? && hash.Encoded?
              && Matches(NormalizedPassword(field).value, hash.digest)
    ensures r.Authenticated? ==> r.sessionToken == GenerateSessionToken(random)
    ensures r.InvalidPassword? <==>
              NormalizedPassword(field).Some? && hash.Encoded?
              && !Matches(NormalizedPassword(field).value, hash.digest)
    ensures r.InvalidPassword? ==> r.remaining == remaining
    ensures r == PasswordRequired <==> field.Missing? || field.NonString? || field == Str("")
    ensures r == PasswordEmpty <==> field.Str? && field.s != [] && AllWhitespace(field.s)
    ensures r == NotConfigured <==> NormalizedPassword(field).Some? && hash.Unset?
    ensures r.AuthFailed? <==> field.NoBody? || (NormalizedPassword(field).Some? && hash.Malformed?)
  {
    match field
    case NoBody(error) => AuthFailed(error)
    case Missing => PasswordRequired
    case NonString => PasswordRequired
    case Str(password) =>
      if password == [] then PasswordRequired
      else
        var normalizedPassword := Trim(password);
        if normalizedPassword == [] then PasswordEmpty
        else
          match hash
          case Unset => NotConfigured
          case Malformed(error) => AuthFailed(error)
          case Encoded(digest) =>
            if Matches(normalizedPassword, digest) then Authenticated(GenerateSessionToken(random))
            else InvalidPassword(remaining)
  }

  /** The administrator's password typed with stray whitespace around it still logs in. */
  lemma PaddedPasswordAccepted(before: string, password: string, after: string, digest: Digest,
                               random: seq<byte>, remaining: int)
    requires |random| == TokenBytes
    requires AllWhitespace(before) && AllWhitespace(after)
    requires password != [] && Trimmed(password) && Matches(password, digest)
    ensures AfterRateLimit(Str(before + password + after), Encoded(digest), random, remaining)
            == Authenticated(GenerateSessionToken(random))
  {
    TrimPadded(before, password, after);
  }

  /** Only the password the hash was made from, up to surrounding whitespace, logs in. */
  lemma OnlyTheHashedPasswordLogsIn(field: BodyField, text: string, salt: nat, random: seq<byte>, remaining: int)
    requires |random| == TokenBytes
    requires AfterRateLimit(field, Encoded(Hash(text, salt)), random, remaining).Authenticated?
    ensures field.Str? && Trim(field.s) == text
  {
  }

  /** The login handler. OPTIONS and methods other than POST leave the limiter alone;
      every POST is counted against its client before the body is even read, and a
      client whose window is full gets 429 with the minutes left, rounded up. */
  method Handle(limiter: RateLimiter, req: Request, now: int, hash: HashConfig, random: seq<byte>)
    returns (resp: AuthResponse)
    requires limiter.max == MaxAuthAttempts && limiter.window == AuthWindow
    requires |random| == TokenBytes
    modifies limiter
    ensures req.httpMethod == "OPTIONS" ==> resp == Preflight && limiter.entries == old(limiter.entries)
    ensures req.httpMethod != "OPTIONS" && req.httpMethod != "POST" ==>
              resp == MethodNotAllowed && limiter.entries == old(limiter.entries)
    ensures req.httpMethod == "POST" ==>
              var ip := ClientIp(req.forwardedFor, req.realIp);
              var (d, e) := WindowCheck(old(limiter.Lookup(ip)), now, MaxAuthAttempts, AuthWindow);
              && limiter.entries == old(limiter.entries)[ip := e]
              && resp == if d.allowed then AfterRateLimit(req.field, hash, random, d.remaining)
                         else TooManyAttempts(CeilDiv(d.resetTime - now, 60000))
  {
    if req.httpMethod == "OPTIONS" {
      return Preflight;
    }
    if req.httpMethod != "POST" {
      return MethodNotAllowed;
    }
    var clientIp := ClientIp(req.forwardedFor, req.realIp);
    var rateLimit := limiter.Check(clientIp, now);
    if !rateLimit.allowed {
      var retryAfter := CeilDiv(rateLimit.resetTime - now, 1000 * 60);
      return TooManyAttempts(retryAfter);
    }
    resp := AfterRateLimit(req.field, hash, random, rateLimit.remaining);
  }

  /** A refused client is told to wait between 0 and 15 minutes: its window is still
      open, and it was opened no later than now. */
  lemma RetryAfterWithinWindow(prior: Entry, now: int)
    requires Active(prior, now) && prior.resetTime <= now + AuthWindow
    requires prior.count >= MaxAuthAttempts
    ensures var (d, _) := WindowCheck(Some(prior), now, MaxAuthAttempts, AuthWindow);
            !d.allowed && 0 <= CeilDiv(d.resetTime - now, 60000) <= 15
  {
    var x := prior.resetTime - now;
    var q := CeilDiv(x, 60000);
    assert 60000 * (q - 1) < x <= 60000 * q;
  }
}
