/**
 * Token minting and verification, and password hashing.
 *
 * A token is a JSON Web Signature (RFC 7515) whose payload is a JWT claim set
 * (RFC 7519); the registered claims used are "sub", "exp" and "iat" (section
 * 4.1 of RFC 7519), plus the private claim "type". Signing with HMAC-SHA256
 * (HS256, section 3.2 of RFC 7518) is modelled symbolically: the signature is
 * the term Hmac(alg, key, payload), so a token verifies under the settings
 * exactly when it was produced by Encode with the same algorithm and secret.
 */
module Security {
  import opened Outcomes
  import opened Text
  import opened Config

  // ---------------------------------------------------------------------------
  // Claims and tokens
  // ---------------------------------------------------------------------------

  /** A JSON claim value: a string, or a number (NumericDate for "exp"/"iat"). */
  datatype ClaimValue = Str(s: string) | Num(n: int)

  type Claims = map<string, ClaimValue>

  datatype Signature = Hmac(alg: string, key: string, signed: Claims)

  datatype Token = Jws(alg: string, payload: Claims, signature: Signature)

  const AccessType := "access"
  const RefreshType := "refresh"
  const InvitationType := "invitation"

  /** Invitations expire in 7 days. */
  const InvitationLifetime := 7 * SecondsPerDay

  /** The claims create_access_token and create_refresh_token set themselves. */
  const ReservedClaims: set<string> := {"exp", "type", "iat"}

  /** jwt.encode(payload, secret_key, algorithm). */
  function Encode(s: Settings, payload: Claims): Token {
    Jws(s.algorithm, payload, Hmac(s.algorithm, s.secretKey, payload))
  }

  /**
   * jwt.decode(token, secret_key, algorithms=[algorithm]): the payload of a
   * token signed with this secret under this algorithm, and nothing else.
   */
  function Decode(s: Settings, t: Token): (r: Option<Claims>)
    ensures r.Some? <==> t == Encode(s, t.payload)
    ensures r.Some? ==> r.value == t.payload
  {
    if t.alg == s.algorithm && t.signature == Hmac(s.algorithm, s.secretKey, t.payload)
    then Some(t.payload) else None
  }

  /** Decoding what was encoded under the same settings gives back the claims. */
  lemma DecodeEncode(s: Settings, payload: Claims)
    ensures Decode(s, Encode(s, payload)) == Some(payload)
  {
  }

  /** A token whose payload was altered after signing is rejected. */
  lemma TamperedTokenRejected(s: Settings, payload: Claims, t: Token)
    requires t.signature == Encode(s, payload).signature
    requires t.payload != payload
    ensures Decode(s, t) == None
  {
  }

  /** A token signed with another secret or under another algorithm is rejected. */
  lemma ForeignSecretRejected(s: Settings, other: Settings, payload: Claims)
    requires other.secretKey != s.secretKey || other.algorithm != s.algorithm
    ensures Decode(s, Encode(other, payload)) == None
  {
  }

  // ---------------------------------------------------------------------------
  // Minting
  // ---------------------------------------------------------------------------

  /**
   * The lifetime create_access_token uses: the given timedelta when it is
   * truthy (present and non-zero), the configured default otherwise.
   */
  function AccessLifetime(s: Settings, expiresDelta: Option<int>): int {
    if expiresDelta.Some? && expiresDelta.value != 0 then expiresDelta.value
    else AccessTokenLifetime(s)
  }

  /**
   * create_access_token: a copy of the caller's claims with "exp", "type" and
   * "iat" set (overwriting any the caller supplied), signed.
   */
  function CreateAccessToken(s: Settings, data: Claims, expiresDelta: Option<int>, now: int): (t: Token)
    ensures Decode(s, t) == Some(t.payload)
    ensures t.payload.Keys == data.Keys + ReservedClaims
    ensures t.payload["type"] == Str(AccessType)
    ensures t.payload["iat"] == Num(now)
    ensures t.payload["exp"] == Num(now + AccessLifetime(s, expiresDelta))
    ensures forall k :: k in data && k !in ReservedClaims ==> t.payload[k] == data[k]
  {
    Encode(s, data["exp" := Num(now + AccessLifetime(s, expiresDelta))]
                  ["type" := Str(AccessType)]
                  ["iat" := Num(now)])
  }

  /** create_refresh_token: as above with type "refresh" and the refresh lifetime. */
  function CreateRefreshToken(s: Settings, data: Claims, now: int): (t: Token)
    ensures Decode(s, t) == Some(t.payload)
    ensures t.payload.Keys == data.Keys + ReservedClaims
    ensures t.payload["type"] == Str(RefreshType)
    ensures t.payload["iat"] == Num(now)
    ensures t.payload["exp"] == Num(now + RefreshTokenLifetime(s))
    ensures forall k :: k in data && k !in ReservedClaims ==> t.payload[k] == data[k]
  {
    Encode(s, data["exp" := Num(now + RefreshTokenLifetime(s))]
                  ["type" := Str(RefreshType)]
                  ["iat" := Num(now)])
  }

  /** The claim set of an invitation token: exactly these five claims, no "iat". */
  function InvitationClaims(email: string, teamId: string, role: string, exp: int): Claims {
    map["email" := Str(email), "team_id" := Str(teamId), "role" := Str(role),
        "type" := Str(InvitationType), "exp" := Num(exp)]
  }

  /** create_invitation_token: team_id travels as a string; expires 7 days after now. */
  function CreateInvitationToken(s: Settings, email: string, teamId: string, role: string, now: int): (t: Token)
    ensures Decode(s, t) == Some(t.payload)
    ensures t.payload.Keys == {"email", "team_id", "role", "type", "exp"}
    ensures "iat" !in t.payload
    ensures t.payload["email"] == Str(email) && t.payload["team_id"] == Str(teamId)
    ensures t.payload["role"] == Str(role) && t.payload["type"] == Str(InvitationType)
    ensures t.payload["exp"] == Num(now + InvitationLifetime)
  {
    Encode(s, InvitationClaims(email, teamId, role, now + InvitationLifetime))
  }

  /** Equal invitation tokens carry equal email, team, role and expiry. */
  lemma InvitationTokenInjective(s: Settings, e1: string, t1: string, r1: string, n1: int,
                                 e2: string, t2: string, r2: string, n2: int)
    requires CreateInvitationToken(s, e1, t1, r1, n1) == CreateInvitationToken(s, e2, t2, r2, n2)
    ensures e1 == e2 && t1 == t2 && r1 == r2 && n1 == n2
  {
    var p1 := CreateInvitationToken(s, e1, t1, r1, n1).payload;
    var p2 := CreateInvitationToken(s, e2, t2, r2, n2).payload;
    assert p1["email"] == p2["email"] && p1["team_id"] == p2["team_id"];
    assert p1["role"] == p2["role"] && p1["exp"] == p2["exp"];
  }

  // ---------------------------------------------------------------------------
  // Verification
  // ---------------------------------------------------------------------------

  /**
   * verify_token: decode, then compare "type" with the expected kind, then
   * require an "exp" claim and reject when now is past it. A non-numeric
   * "exp" is one the library's decode refuses ("Could not validate credentials").
   */
  function VerifyToken(s: Settings, t: Token, tokenType: string, now: int): (r: Result<Claims>)
    ensures r.Ok? <==>
      && Decode(s, t).Some?
      && "type" in t.payload && t.payload["type"] == Str(tokenType)
      && "exp" in t.payload && t.payload["exp"].Num? && now <= t.payload["exp"].n
    ensures r.Ok? ==> r.value == t.payload
    ensures Decode(s, t).None? ==> r == Err(CouldNotValidateCredentials)
    ensures Decode(s, t).Some? && ("type" !in t.payload || t.payload["type"] != Str(tokenType)) ==>
      r == Err(InvalidTokenType)
    ensures Decode(s, t).Some? && "type" in t.payload && t.payload["type"] == Str(tokenType) ==>
      && ("exp" !in t.payload ==> r == Err(TokenMissingExpiration))
      && ("exp" in t.payload && !t.payload["exp"].Num? ==> r == Err(CouldNotValidateCredentials))
      && ("exp" in t.payload && t.payload["exp"].Num? && now > t.payload["exp"].n ==> r == Err(TokenExpired))
  {
    match Decode(s, t)
    case None => Err(CouldNotValidateCredentials)
    case Some(payload) =>
      if "type" !in payload || payload["type"] != Str(tokenType) then Err(InvalidTokenType)
      else if "exp" !in payload then Err(TokenMissingExpiration)
      else if !payload["exp"].Num? then Err(CouldNotValidateCredentials)
      else if now > payload["exp"].n then Err(TokenExpired)
      else Ok(payload)
  }

  /** verify_token with its default expected type. */
  function VerifyAccessToken(s: Settings, t: Token, now: int): Result<Claims> {
    VerifyToken(s, t, AccessType, now)
  }

  /**
   * verify_invitation_token: decode and check the type; there is no expiry
   * comparison of its own (so no clock parameter).
   */
  function VerifyInvitationToken(s: Settings, t: Token): (r: Result<Claims>)
    ensures r.Ok? <==> Decode(s, t).Some? && "type" in t.payload && t.payload["type"] == Str(InvitationType)
    ensures r.Ok? ==> r.value == t.payload
    ensures r.Err? ==> r.error == InvalidInvitationToken
  {
    match Decode(s, t)
    case None => Err(InvalidInvitationToken)
    case Some(payload) =>
      if "type" !in payload || payload["type"] != Str(InvitationType) then Err(InvalidInvitationToken)
      else Ok(payload)
  }

  /** An access token verifies, as an access token, up to and including its expiry second. */
  lemma AccessTokenRoundTrip(s: Settings, data: Claims, expiresDelta: Option<int>, now: int, later: int)
    requires later <= now + AccessLifetime(s, expiresDelta)
    ensures VerifyToken(s, CreateAccessToken(s, data, expiresDelta, now), AccessType, later)
            == Ok(CreateAccessToken(s, data, expiresDelta, now).payload)
    ensures forall k :: k in data && k !in ReservedClaims ==>
      VerifyToken(s, CreateAccessToken(s, data, expiresDelta, now), AccessType, later).value[k] == data[k]
  {
  }

  /** One second after its expiry an access token is rejected as expired. */
  lemma AccessTokenExpires(s: Settings, data: Claims, expiresDelta: Option<int>, now: int, later: int)
    requires later > now + AccessLifetime(s, expiresDelta)
    ensures VerifyToken(s, CreateAccessToken(s, data, expiresDelta, now), AccessType, later) == Err(TokenExpired)
  {
  }

  /** A refresh token verifies as a refresh token until its expiry. */
  lemma RefreshTokenRoundTrip(s: Settings, data: Claims, now: int, later: int)
    requires later <= now + RefreshTokenLifetime(s)
    ensures VerifyToken(s, CreateRefreshToken(s, data, now), RefreshType, later)
            == Ok(CreateRefreshToken(s, data, now).payload)
  {
  }

  /** No kind of token passes as another kind, whatever the time. */
  lemma TokenKindsAreNotInterchangeable(s: Settings, data: Claims, delta: Option<int>,
                                        email: string, team: string, role: string, now: int, later: int)
    ensures VerifyToken(s, CreateRefreshToken(s, data, now), AccessType, later) == Err(InvalidTokenType)
    ensures VerifyToken(s, CreateInvitationToken(s, email, team, role, now), AccessType, later) == Err(InvalidTokenType)
    ensures VerifyToken(s, CreateAccessToken(s, data, delta, now), RefreshType, later) == Err(InvalidTokenType)
    ensures VerifyToken(s, CreateInvitationToken(s, email, team, role, now), RefreshType, later) == Err(InvalidTokenType)
    ensures VerifyInvitationToken(s, CreateAccessToken(s, data, delta, now)) == Err(InvalidInvitationToken)
    ensures VerifyInvitationToken(s, CreateRefreshToken(s, data, now)) == Err(InvalidInvitationToken)
  {
  }

  /** An invitation token verifies with exactly the claims it was minted with, at any time. */
  lemma InvitationTokenRoundTrip(s: Settings, email: string, team: string, role: string, now: int)
    ensures VerifyInvitationToken(s, CreateInvitationToken(s, email, team, role, now))
            == Ok(InvitationClaims(email, team, role, now + InvitationLifetime))
  {
  }

  // ---------------------------------------------------------------------------
  // Passwords
  // ---------------------------------------------------------------------------

  /**
   * A bcrypt digest, symbolically: the salt drawn when hashing and the secret
   * it commits to. The salt is an explicit input because hashing is randomised.
   */
  datatype PasswordHash = Bcrypt(salt: int, secret: string)

  function GetPasswordHash(password: string, salt: int): PasswordHash {
    Bcrypt(salt, password)
  }

  function VerifyPassword(plain: string, hashed: PasswordHash): bool {
    hashed.secret == plain
  }

  /** A password matches its own digest, no other password does, and salts make digests differ. */
  lemma PasswordHashing(p: string, q: string, salt1: int, salt2: int)
    ensures VerifyPassword(p, GetPasswordHash(p, salt1))
    ensures p != q ==> !VerifyPassword(q, GetPasswordHash(p, salt1))
    ensures salt1 != salt2 ==> GetPasswordHash(p, salt1) != GetPasswordHash(p, salt2)
  {
  }
}
