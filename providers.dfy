/**
 * The two authentication providers behind one interface (UserId, User,
 * Login): the cookie-session provider and the signed-token (RS256 JWT)
 * provider. The interface is a sum type over the two.
 */
module Providers {
  import opened Wrappers
  import opened Web
  import opened MgoAuth

  datatype Provider = SessionProvider | JwtProvider(privateKey: seq<bv8>, publicKey: seq<bv8>)

  // ---------------------------------------------------------------- session

  /** sessionProvider.UserId: the stored user's id, or "" when no user is stored (the same rule as GetUserId). */
  function SessionUserId(values: map<string, User>): (id: string)
    ensures UserKey in values ==> id == values[UserKey].id
    ensures UserKey !in values ==> id == ""
  {
    GetUserId(values)
  }

  /** sessionProvider.User: the stored user, or a fresh empty user (never nil) when none is stored. */
  function SessionUser(values: map<string, User>): (u: User)
    ensures UserKey in values ==> u == values[UserKey]
    ensures UserKey !in values ==> u == EmptyUser()
  {
    if UserKey in values then values[UserKey] else EmptyUser()
  }

  /** sessionProvider.Login: stores the user under "user", saves, then 500 (abort) or 200. */
  method SessionLogin(c: Context, s: Session, user: User)
    modifies c`replies, c`aborted, s`values, s`persisted
    ensures s.values == old(s.values)[UserKey := user]
    ensures s.persisted == if s.saveFails then old(s.persisted) else s.values
    ensures s.saveFails ==> c.replies == old(c.replies) + [Reply(StatusInternalServerError, NoBody)] && c.aborted
    ensures !s.saveFails ==>
      c.replies == old(c.replies) + [Reply(StatusOK, Text("User successfully logged in!"))] && c.aborted == old(c.aborted)
  {
    s.Set(UserKey, user);
    var failed := s.Save();
    if failed {
      c.AbortWithStatus(StatusInternalServerError);
    } else {
      c.String(StatusOK, "User successfully logged in!");
    }
  }

  /** After a login, the session resolves to exactly that user, and no other session key has changed. */
  lemma SessionLoginThenResolve(values: map<string, User>, user: User, key: string)
    ensures SessionUserId(values[UserKey := user]) == user.id
    ensures SessionUser(values[UserKey := user]) == user
    ensures key != UserKey && key in values ==> key in values[UserKey := user] && values[UserKey := user][key] == values[key]
  {
  }

  // ---------------------------------------------------------------- tokens

  /** A claim value as the token library hands it back. */
  datatype Claim = ClaimString(s: string) | ClaimNumber(n: int) | ClaimOther
  type Claims = map<string, Claim>

  /** The token library's validation-error bits. */
  const ValidationErrorMalformed: bv32 := 1
  const ValidationErrorUnverifiable: bv32 := 2
  const ValidationErrorSignatureInvalid: bv32 := 4
  const ValidationErrorExpired: bv32 := 8
  const ValidationErrorNotValidYet: bv32 := 16

  /** The error the library returns beside the token: none, a validation error with its bits, or something else. */
  datatype LibError = NoError | ValidationError(bits: bv32) | OtherError

  /** What parsing and verifying the presented token yields. */
  datatype ParsedToken = ParsedToken(valid: bool, claims: Claims, err: LibError)

  /**
   * RS256 (section 3.3 of RFC 7518) as the provider uses it: `sign` the claim
   * set with the private key (None when the key does not parse) and `verify`
   * a presented token with the public key at a time in Unix seconds.
   */
  datatype Rs256 = Rs256(sign: (Claims, seq<bv8>) -> Option<string>, verify: (string, seq<bv8>, int) -> ParsedToken)

  /** The three failure categories parseToken reports. */
  datatype TokenError = Malformed | TimedOut | Unhandled

  /**
   * parseToken: a valid token wins over any library error; otherwise a
   * malformed bit is checked before the expired / not-yet-valid bits.
   */
  function ParseToken(t: ParsedToken): (r: Result<Claims, TokenError>)
    ensures r.Success? <==> t.valid
    ensures r.Success? ==> r.value == t.claims
    ensures r == Failure(Malformed) <==>
      !t.valid && t.err.ValidationError? && t.err.bits & ValidationErrorMalformed != 0
    ensures r == Failure(TimedOut) <==>
      !t.valid && t.err.ValidationError? && t.err.bits & ValidationErrorMalformed == 0 &&
      t.err.bits & (ValidationErrorExpired | ValidationErrorNotValidYet) != 0
  {
    if t.valid then Success(t.claims)
    else if t.err.ValidationError? then
      if t.err.bits & ValidationErrorMalformed != 0 then Failure(Malformed)
      else if t.err.bits & (ValidationErrorExpired | ValidationErrorNotValidYet) != 0 then Failure(TimedOut)
      else Failure(Unhandled)
    else Failure(Unhandled)
  }

  /** A malformed token is reported as malformed even when it is also expired. */
  lemma MalformedBeforeTimedOut(claims: Claims, bits: bv32)
    requires bits & ValidationErrorMalformed != 0
    ensures ParseToken(ParsedToken(false, claims, ValidationError(bits | ValidationErrorExpired))) == Failure(Malformed)
  {
  }

  /** A bad signature alone is neither malformed nor timed out. */
  lemma SignatureInvalidIsUnhandled(claims: Claims)
    ensures ParseToken(ParsedToken(false, claims, ValidationError(ValidationErrorSignatureInvalid))) == Failure(Unhandled)
  {
  }

  /** jwtProvider.UserId: claim "id" on success, "" on any parse error; a non-string "id" fails the type assertion. */
  function JwtUserId(t: ParsedToken): (r: Exec<string>)
    ensures !t.valid ==> r == Returns("")
    ensures t.valid && "id" in t.claims && t.claims["id"].ClaimString? ==> r == Returns(t.claims["id"].s)
    ensures t.valid && !("id" in t.claims && t.claims["id"].ClaimString?) ==> r.Panics?
  {
    match ParseToken(t)
    case Success(claims) =>
      if "id" in claims && claims["id"].ClaimString? then Returns(claims["id"].s)
      else Panics("interface conversion: claim \"id\" is not a string")
    case Failure(_) => Returns("")
  }

  /** jwtProvider.User: a user carrying only the id on success (no password, no roles), nil on any parse error. */
  function JwtUser(t: ParsedToken): (r: Exec<Option<User>>)
    ensures !t.valid ==> r == Returns(None)
    ensures t.valid && "id" in t.claims && t.claims["id"].ClaimString? ==>
      r == Returns(Some(User(t.claims["id"].s, "", "", "", map[])))
    ensures t.valid && !("id" in t.claims && t.claims["id"].ClaimString?) ==> r.Panics?
  {
    match ParseToken(t)
    case Success(claims) =>
      if "id" in claims && claims["id"].ClaimString? then Returns(Some(EmptyUser().(id := claims["id"].s)))
      else Panics("interface conversion: claim \"id\" is not a string")
    case Failure(_) => Returns(None)
  }

  const NanosPerSecond := 1_000_000_000
  /** The token lifetime: 72 hours, in seconds. */
  const TokenLifetime := 72 * 3600

  /** `time.Now().Add(72 * time.Hour).Unix()`, with the clock read in Unix nanoseconds. */
  function ExpiresAt(nowNanos: int): int
  {
    (nowNanos + TokenLifetime * NanosPerSecond) / NanosPerSecond
  }

  /** The expiry is the login second plus 72 hours, whatever the sub-second part of the clock. */
  lemma ExpiresAtIsLoginSecondPlus72h(nowNanos: int)
    ensures ExpiresAt(nowNanos) == nowNanos / NanosPerSecond + 259200
  {
    var q, r := nowNanos / NanosPerSecond, nowNanos % NanosPerSecond;
    assert nowNanos == q * NanosPerSecond + r && 0 <= r < NanosPerSecond;
    assert nowNanos + TokenLifetime * NanosPerSecond == (q + TokenLifetime) * NanosPerSecond + r;
  }

  /** The claim set Login signs: the user's id and the expiry. */
  function LoginClaims(id: string, nowNanos: int): (claims: Claims)
  {
    map["id" := ClaimString(id), "exp" := ClaimNumber(ExpiresAt(nowNanos))]
  }

  /** A token under construction: its signing algorithm and the claims map filled in place. */
  class Token {
    const alg: string
    var claims: Claims

    /** `jwt.New(method)`: no claims yet. */
    constructor (alg: string)
      ensures this.alg == alg && claims == map[]
    {
      this.alg := alg;
      claims := map[];
    }

    /** `token.SignedString(key)`. */
    method SignedString(key: seq<bv8>, rs: Rs256) returns (signed: Option<string>)
      ensures signed == rs.sign(claims, key)
    {
      signed := rs.sign(claims, key);
    }
  }

  /** jwtProvider.Login: signs {id, exp} and answers 200 {"token": …}, or 500 (abort) when signing fails. */
  method JwtLogin(c: Context, privateKey: seq<bv8>, user: User, nowNanos: int, rs: Rs256)
    modifies c`replies, c`aborted
    ensures rs.sign(LoginClaims(user.id, nowNanos), privateKey).None? ==>
      c.replies == old(c.replies) + [Reply(StatusInternalServerError, NoBody)] && c.aborted
    ensures rs.sign(LoginClaims(user.id, nowNanos), privateKey).Some? ==>
      c.replies == old(c.replies) +
        [Reply(StatusOK, JsonBody(JObject(map["token" := JString(rs.sign(LoginClaims(user.id, nowNanos), privateKey).value)])))] &&
      c.aborted == old(c.aborted)
  {
    var token := new Token("RS256");
    token.claims := token.claims["id" := ClaimString(user.id)];
    token.claims := token.claims["exp" := ClaimNumber(ExpiresAt(nowNanos))];
    assert token.claims == LoginClaims(user.id, nowNanos);
    var signed := token.SignedString(privateKey, rs);
    if signed.None? {
      c.AbortWithStatus(StatusInternalServerError);
    } else {
      c.JSON(StatusOK, JObject(map["token" := JString(signed.value)]));
    }
  }

  // ---------------------------------------------------------------- interface

  /** Provider.UserId on one request: the session's `values`, the presented `bearer` token, the time in Unix seconds. */
  function UserId(p: Provider, values: map<string, User>, bearer: string, nowSec: int, rs: Rs256): (r: Exec<string>)
    ensures p.SessionProvider? ==> r == Returns(SessionUserId(values))
    ensures p.JwtProvider? ==> r == JwtUserId(rs.verify(bearer, p.publicKey, nowSec))
  {
    match p
    case SessionProvider => Returns(SessionUserId(values))
    case JwtProvider(_, publicKey) => JwtUserId(rs.verify(bearer, publicKey, nowSec))
  }

  /** Provider.User on one request; None stands for a nil *User. */
  function UserOf(p: Provider, values: map<string, User>, bearer: string, nowSec: int, rs: Rs256): (r: Exec<Option<User>>)
    ensures p.SessionProvider? ==> r == Returns(Some(SessionUser(values)))
    ensures p.JwtProvider? ==> r == JwtUser(rs.verify(bearer, p.publicKey, nowSec))
  {
    match p
    case SessionProvider => Returns(Some(SessionUser(values)))
    case JwtProvider(_, publicKey) => JwtUser(rs.verify(bearer, publicKey, nowSec))
  }

  /** For both providers, UserId is the id of what User returns, and "" when User returns nil. */
  lemma UserIdAgreesWithUser(p: Provider, values: map<string, User>, bearer: string, nowSec: int, rs: Rs256)
    ensures UserOf(p, values, bearer, nowSec, rs).Returns? <==> UserId(p, values, bearer, nowSec, rs).Returns?
    ensures UserOf(p, values, bearer, nowSec, rs).Returns? ==>
      UserId(p, values, bearer, nowSec, rs).value ==
        (match UserOf(p, values, bearer, nowSec, rs).value
         case Some(u) => u.id
         case None => "")
  {
  }

  /** Provider.Login on one request. */
  method Login(p: Provider, c: Context, s: Session, user: User, nowNanos: int, rs: Rs256)
    modifies c`replies, c`aborted, s`values, s`persisted
    ensures p.SessionProvider? ==>
      s.values == old(s.values)[UserKey := user] &&
      s.persisted == (if s.saveFails then old(s.persisted) else s.values) &&
      c.replies == old(c.replies) +
        [if s.saveFails then Reply(StatusInternalServerError, NoBody) else Reply(StatusOK, Text("User successfully logged in!"))] &&
      c.aborted == (old(c.aborted) || s.saveFails)
    ensures p.JwtProvider? ==>
      s.values == old(s.values) && s.persisted == old(s.persisted) &&
      c.replies == old(c.replies) +
        [match rs.sign(LoginClaims(user.id, nowNanos), p.privateKey)
         case None => Reply(StatusInternalServerError, NoBody)
         case Some(t) => Reply(StatusOK, JsonBody(JObject(map["token" := JString(t)])))] &&
      c.aborted == (old(c.aborted) || rs.sign(LoginClaims(user.id, nowNanos), p.privateKey).None?)
  {
    match p
    case SessionProvider =>
      SessionLogin(c, s, user);
    case JwtProvider(privateKey, _) =>
      JwtLogin(c, privateKey, user, nowNanos, rs);
  }

  /** What the library reports for a token that carries an authentic signature: valid unless the clock is past "exp". */
  function AuthenticAt(claims: Claims, nowSec: int): ParsedToken
  {
    if "exp" in claims && claims["exp"].ClaimNumber? && nowSec > claims["exp"].n then
      ParsedToken(false, claims, ValidationError(ValidationErrorExpired))
    else
      ParsedToken(true, claims, NoError)
  }

  /** The key pair agrees: whatever the private key signs, the public key verifies as authentic. */
  ghost predicate KeysMatch(rs: Rs256, privateKey: seq<bv8>, publicKey: seq<bv8>)
  {
    forall claims, token, nowSec ::
      rs.sign(claims, privateKey) == Some(token) ==> rs.verify(token, publicKey, nowSec) == AuthenticAt(claims, nowSec)
  }

  /**
   * A token issued by Login resolves to the user's id until its expiry second
   * and to no user afterwards.
   */
  lemma JwtLoginRoundTrip(rs: Rs256, privateKey: seq<bv8>, publicKey: seq<bv8>, user: User, nowNanos: int,
                          token: string, nowSec: int, values: map<string, User>)
    requires KeysMatch(rs, privateKey, publicKey)
    requires rs.sign(LoginClaims(user.id, nowNanos), privateKey) == Some(token)
    ensures nowSec <= ExpiresAt(nowNanos) ==>
      UserId(JwtProvider(privateKey, publicKey), values, token, nowSec, rs) == Returns(user.id) &&
      UserOf(JwtProvider(privateKey, publicKey), values, token, nowSec, rs) == Returns(Some(EmptyUser().(id := user.id)))
    ensures nowSec > ExpiresAt(nowNanos) ==>
      UserId(JwtProvider(privateKey, publicKey), values, token, nowSec, rs) == Returns("") &&
      UserOf(JwtProvider(privateKey, publicKey), values, token, nowSec, rs) == Returns(None)
  {
    var claims := LoginClaims(user.id, nowNanos);
    assert rs.verify(token, publicKey, nowSec) == AuthenticAt(claims, nowSec);
  }
}
