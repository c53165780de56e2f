/** Token issuance and verification (gateway/core/security.py).

    The JWT codec (base64url, HMAC-SHA256) is abstract: a token is either one
    that `Encode` produced, remembering its claims, key and algorithm, or a
    string that is not a well-formed JWT at all. `Decode` verifies that the
    algorithm is allowed and the key matches before it looks at any claim, and
    then applies the registered-claim rules of RFC 7519 as the JWT library
    enforces them: "iat" (section 4.1.6) must be an integer not in the future,
    "exp" (section 4.1.4) must be an integer and the token is expired once
    `now >= exp`, and "sub" (section 4.1.2) must be a string when present.
    Clock readings are whole seconds since the epoch. */
module Security {
  import opened Wrappers
  import opened Json
  import opened Http
  import Config

  type Claims = map<string, Json>

  datatype Token = Jwt(claims: Claims, key: string, algorithm: string) | Malformed(text: string)

  datatype DecodeError = ExpiredSignature | InvalidToken(reason: string)

  function Encode(claims: Claims, key: string, algorithm: string): Token {
    Jwt(claims, key, algorithm)
  }

  predicate IatAcceptable(c: Claims, now: int) {
    "iat" in c ==> c["iat"].JInt? && c["iat"].i <= now
  }

  predicate ExpWellFormed(c: Claims) {
    "exp" in c ==> c["exp"].JInt?
  }

  predicate Unexpired(c: Claims, now: int) {
    "exp" in c ==> c["exp"].JInt? && now < c["exp"].i
  }

  predicate SubWellFormed(c: Claims) {
    "sub" in c ==> c["sub"].JStr?
  }

  /** The token carries a signature the verifier accepts: well formed, an
      allowed algorithm, and made with the verifier's key. */
  predicate Authentic(t: Token, key: string, algorithms: seq<string>) {
    t.Jwt? && t.algorithm in algorithms && t.key == key
  }

  /** `jwt.decode(token, key, algorithms=algorithms)` at time `now`. */
  function Decode(t: Token, key: string, algorithms: seq<string>, now: int): (r: Result<Claims, DecodeError>)
    ensures r.Ok? <==>
      Authentic(t, key, algorithms) && IatAcceptable(t.claims, now) && Unexpired(t.claims, now) && SubWellFormed(t.claims)
    ensures r.Ok? ==> r.value == t.claims
    ensures r == Err(ExpiredSignature) <==>
      Authentic(t, key, algorithms) && IatAcceptable(t.claims, now) && ExpWellFormed(t.claims) && !Unexpired(t.claims, now)
  {
    match t
    case Malformed(_) => Err(InvalidToken("Not enough segments"))
    case Jwt(c, k, alg) =>
      if alg !in algorithms then Err(InvalidToken("The specified alg value is not allowed"))
      else if k != key then Err(InvalidToken("Signature verification failed"))
      else if "iat" in c && !c["iat"].JInt? then Err(InvalidToken("Issued At claim (iat) must be an integer."))
      else if "iat" in c && c["iat"].i > now then Err(InvalidToken("The token is not yet valid (iat)"))
      else if "exp" in c && !c["exp"].JInt? then Err(InvalidToken("Expiration Time claim (exp) must be an integer."))
      else if "exp" in c && c["exp"].i <= now then Err(ExpiredSignature)
      else if "sub" in c && !c["sub"].JStr? then Err(InvalidToken("Subject must be a string"))
      else Ok(c)
  }

  /** The expiry instant: a truthy (non-zero) delta is added to the clock,
      negative or not; an absent or zero delta falls back to the configured
      lifetime. */
  function ExpiryFor(delta: Option<int>, clock: int): (exp: int)
    ensures delta.Some? && delta.value != 0 ==> exp == clock + delta.value
    ensures delta.None? || delta.value == 0 ==> exp == clock + Config.JwtExpirationSeconds
  {
    if delta.Some? && delta.value != 0 then clock + delta.value
    else clock + Config.JwtExpirationSeconds
  }

  /** The extra claims actually merged: `if additional_claims:` skips None and {}. */
  function ExtraClaims(extra: Option<Claims>): Claims {
    if extra.Some? then extra.value else map[]
  }

  /** The claim set `create_access_token` signs. `expClock` is the clock reading
      taken for "exp", `iatClock` the later one taken for "iat". */
  function AccessClaims(subject: string, delta: Option<int>, extra: Option<Claims>, expClock: int, iatClock: int): (c: Claims)
    ensures c.Keys == {"sub", "exp", "iat"} + ExtraClaims(extra).Keys
    ensures forall k :: k in ExtraClaims(extra) ==> c[k] == ExtraClaims(extra)[k]
    ensures "sub" !in ExtraClaims(extra) ==> c["sub"] == JStr(subject)
    ensures "exp" !in ExtraClaims(extra) ==> c["exp"] == JInt(ExpiryFor(delta, expClock))
    ensures "iat" !in ExtraClaims(extra) ==> c["iat"] == JInt(iatClock)
  {
    var base := map["sub" := JStr(subject), "exp" := JInt(ExpiryFor(delta, expClock)), "iat" := JInt(iatClock)];
    if extra.Some? && extra.value != map[] then base + extra.value else base
  }

  function CreateAccessToken(subject: string, delta: Option<int>, extra: Option<Claims>,
                             secret: string, expClock: int, iatClock: int): (t: Token)
    ensures t.Jwt? && t.key == secret && t.algorithm == Config.JwtAlgorithm
    ensures t.claims == AccessClaims(subject, delta, extra, expClock, iatClock)
  {
    Encode(AccessClaims(subject, delta, extra, expClock, iatClock), secret, Config.JwtAlgorithm)
  }

  /** A service token: the default lifetime and a "type": "service" claim. */
  function CreateServiceToken(serviceName: string, secret: string, expClock: int, iatClock: int): (t: Token)
    ensures t.Jwt? && t.key == secret && t.algorithm == Config.JwtAlgorithm
    ensures t.claims.Keys == {"sub", "exp", "iat", "type"}
    ensures t.claims["sub"] == JStr(serviceName) && t.claims["type"] == JStr("service")
    ensures t.claims["exp"] == JInt(expClock + Config.JwtExpirationSeconds)
    ensures t.claims["iat"] == JInt(iatClock)
  {
    CreateAccessToken(serviceName, None, Some(map["type" := JStr("service")]), secret, expClock, iatClock)
  }

  const ExpiredDetail: string := "Token has expired"
  const InvalidDetail: string := "Could not validate credentials"
  const NoSubjectDetail: string := "Invalid token: no subject found"

  /** `verify_token`: the decoded payload, or a 401 with a Bearer challenge
      whose detail tells an expired token from every other failure. */
  function VerifyToken(t: Token, secret: string, now: int): (r: Result<Claims, HttpException>)
    ensures r.Ok? <==> Decode(t, secret, [Config.JwtAlgorithm], now).Ok?
    ensures r.Ok? ==> r.value == t.claims
    ensures r.Err? ==> r.error.status == Unauthorized401 && r.error.headers == BearerChallenge
    ensures r.Err? ==> (r.error.detail == ExpiredDetail <==> Decode(t, secret, [Config.JwtAlgorithm], now) == Err(ExpiredSignature))
    ensures r.Err? ==> r.error.detail in {ExpiredDetail, InvalidDetail}
  {
    match Decode(t, secret, [Config.JwtAlgorithm], now)
    case Ok(c) => Ok(c)
    case Err(ExpiredSignature) => Err(HttpException(Unauthorized401, ExpiredDetail, BearerChallenge))
    case Err(InvalidToken(_)) => Err(HttpException(Unauthorized401, InvalidDetail, BearerChallenge))
  }

  /** `get_current_user`: the "sub" claim when it is truthy; otherwise a 401
      without a challenge header. */
  function GetCurrentUser(payload: Claims): (r: Result<Json, HttpException>)
    ensures r.Ok? <==> "sub" in payload && Truthy(payload["sub"])
    ensures r.Ok? ==> r.value == payload["sub"]
    ensures r.Err? ==> r.error == HttpException(Unauthorized401, NoSubjectDetail, map[])
  {
    var subject := Lookup(payload, "sub", JNull);
    if !Truthy(subject) then Err(HttpException(Unauthorized401, NoSubjectDetail, map[]))
    else Ok(subject)
  }

  /** The `current_user` dependency as a handler receives it: verification,
      then the subject, as the string an f-string makes of it. */
  function Authenticate(t: Token, secret: string, now: int): (r: Result<string, HttpException>)
    ensures r.Ok? <==> VerifyToken(t, secret, now).Ok? && GetCurrentUser(VerifyToken(t, secret, now).value).Ok?
    ensures VerifyToken(t, secret, now).Err? ==> r == Err(VerifyToken(t, secret, now).error)
    ensures VerifyToken(t, secret, now).Ok? && GetCurrentUser(VerifyToken(t, secret, now).value).Err? ==>
      r == Err(GetCurrentUser(VerifyToken(t, secret, now).value).error)
    ensures r.Err? ==> r.error.status == Unauthorized401
    ensures r.Ok? ==> t.Jwt? && "sub" in t.claims && t.claims["sub"] == JStr(r.value) && r.value != ""
  {
    var payload :- VerifyToken(t, secret, now);
    var subject :- GetCurrentUser(payload);
    Ok(Display(subject))
  }

  /** No registered claim among the extras: neither the subject and time
      claims the token sets itself nor the ones the library would check
      ("nbf", "aud", "jti"), whose checks the decoder does not model. */
  predicate KeepsRegisteredClaims(extra: Option<Claims>) {
    && "sub" !in ExtraClaims(extra)
    && "exp" !in ExtraClaims(extra)
    && "iat" !in ExtraClaims(extra)
    && "nbf" !in ExtraClaims(extra)
    && "aud" !in ExtraClaims(extra)
    && "jti" !in ExtraClaims(extra)
  }

  /** Round trip: an unexpired token verifies to the claim set that was
      issued, which holds the subject and every extra claim. */
  lemma IssuedTokenVerifies(subject: string, delta: Option<int>, extra: Option<Claims>,
                            secret: string, expClock: int, iatClock: int, now: int)
    requires KeepsRegisteredClaims(extra)
    requires iatClock <= now < ExpiryFor(delta, expClock)
    ensures var r := VerifyToken(CreateAccessToken(subject, delta, extra, secret, expClock, iatClock), secret, now);
      && r == Ok(AccessClaims(subject, delta, extra, expClock, iatClock))
      && r.value["sub"] == JStr(subject)
      && forall k :: k in ExtraClaims(extra) ==> r.value[k] == ExtraClaims(extra)[k]
  {
    var c := AccessClaims(subject, delta, extra, expClock, iatClock);
    assert c["iat"] == JInt(iatClock) && c["exp"] == JInt(ExpiryFor(delta, expClock));
    assert Decode(CreateAccessToken(subject, delta, extra, secret, expClock, iatClock), secret, [Config.JwtAlgorithm], now) == Ok(c);
  }

  /** Round trip through the whole dependency: the handler sees the subject. */
  lemma IssuedTokenAuthenticates(subject: string, delta: Option<int>, extra: Option<Claims>,
                                 secret: string, expClock: int, iatClock: int, now: int)
    requires subject != ""
    requires KeepsRegisteredClaims(extra)
    requires iatClock <= now < ExpiryFor(delta, expClock)
    ensures Authenticate(CreateAccessToken(subject, delta, extra, secret, expClock, iatClock), secret, now) == Ok(subject)
  {
    IssuedTokenVerifies(subject, delta, extra, secret, expClock, iatClock, now);
  }

  /** A service token authenticates as the service until it expires, and
      carries "type": "service". */
  lemma ServiceTokenAuthenticates(serviceName: string, secret: string, expClock: int, iatClock: int, now: int)
    requires serviceName != ""
    requires iatClock <= now < expClock + Config.JwtExpirationSeconds
    ensures Authenticate(CreateServiceToken(serviceName, secret, expClock, iatClock), secret, now) == Ok(serviceName)
    ensures VerifyToken(CreateServiceToken(serviceName, secret, expClock, iatClock), secret, now).value["type"] == JStr("service")
  {
    IssuedTokenAuthenticates(serviceName, None, Some(map["type" := JStr("service")]), secret, expClock, iatClock, now);
    IssuedTokenVerifies(serviceName, None, Some(map["type" := JStr("service")]), secret, expClock, iatClock, now);
  }

  /** Once the clock reaches "exp", the same token is refused as expired. */
  lemma IssuedTokenExpires(subject: string, delta: Option<int>, extra: Option<Claims>,
                           secret: string, expClock: int, iatClock: int, now: int)
    requires KeepsRegisteredClaims(extra)
    requires iatClock <= now && ExpiryFor(delta, expClock) <= now
    ensures VerifyToken(CreateAccessToken(subject, delta, extra, secret, expClock, iatClock), secret, now)
         == Err(HttpException(Unauthorized401, ExpiredDetail, BearerChallenge))
  {
    var c := AccessClaims(subject, delta, extra, expClock, iatClock);
    assert c["iat"] == JInt(iatClock) && c["exp"] == JInt(ExpiryFor(delta, expClock));
  }

  /** A negative delta is honoured: the token is already expired when issued. */
  lemma NegativeDeltaIsExpired(subject: string, d: int, extra: Option<Claims>,
                               secret: string, expClock: int, iatClock: int)
    requires d < 0 && expClock <= iatClock
    requires KeepsRegisteredClaims(extra)
    ensures VerifyToken(CreateAccessToken(subject, Some(d), extra, secret, expClock, iatClock), secret, iatClock)
         == Err(HttpException(Unauthorized401, ExpiredDetail, BearerChallenge))
  {
    IssuedTokenExpires(subject, Some(d), extra, secret, expClock, iatClock, iatClock);
  }

  /** A zero delta is falsy: it yields the same token as no delta at all. */
  lemma ZeroDeltaIsDefault(subject: string, extra: Option<Claims>, secret: string, expClock: int, iatClock: int)
    ensures CreateAccessToken(subject, Some(0), extra, secret, expClock, iatClock)
         == CreateAccessToken(subject, None, extra, secret, expClock, iatClock)
    ensures CreateAccessToken(subject, None, extra, secret, expClock, iatClock).claims["exp"]
         == JInt(expClock + Config.JwtExpirationSeconds) || "exp" in ExtraClaims(extra)
  {
  }

  /** A token signed with another key, or not a JWT at all, is refused as
      invalid, never as expired, whatever its claims and the clock say. */
  lemma ForeignTokenIsInvalid(t: Token, secret: string, now: int)
    requires !Authentic(t, secret, [Config.JwtAlgorithm])
    ensures VerifyToken(t, secret, now) == Err(HttpException(Unauthorized401, InvalidDetail, BearerChallenge))
  {
  }
}
