/**
 * The authentication routes: first-user registration, login and access
 * token refresh, and the token pair both registration and login return.
 */
module AuthApi {
  import opened Outcomes
  import opened Text
  import opened Config
  import opened Security
  import opened Models
  import opened Deps

  datatype UserRegister = UserRegister(email: string, password: string, firstName: string, lastName: string)

  datatype AuthResponse = AuthResponse(accessToken: Token, refreshToken: Token, tokenType: string,
                                       expiresIn: int, user: User)

  datatype RefreshResponse = RefreshResponse(accessToken: Token, tokenType: string, expiresIn: int)

  const BearerType := "bearer"

  /** The claims of an access token for u: its id as a string, its email and its role. */
  function AccessClaims(u: User): Claims {
    map["sub" := Str(IntToString(u.id)), "email" := Str(u.email), "role" := Str(u.role)]
  }

  /** The claims of a refresh token for u: no role. */
  function RefreshClaims(u: User): Claims {
    map["sub" := Str(IntToString(u.id)), "email" := Str(u.email)]
  }

  /** A "sub" claim written as str(id) names that id. */
  lemma SubjectOfId(payload: Claims, id: int)
    requires "sub" in payload && payload["sub"] == Str(IntToString(id))
    ensures SubjectId(payload) == Some(id)
  {
    ParseIntOfIntToString(id);
  }

  /** The access token the routes mint: lifetime access_token_expire_minutes, passed as a timedelta. */
  function AccessTokenFor(s: Settings, u: User, now: int): (t: Token)
    ensures t.payload.Keys == {"sub", "email", "role"} + ReservedClaims
    ensures t.payload["sub"] == Str(IntToString(u.id)) && SubjectId(t.payload) == Some(u.id)
    ensures t.payload["email"] == Str(u.email) && t.payload["role"] == Str(u.role)
    ensures t.payload["exp"] == Num(now + AccessTokenLifetime(s))
    ensures t.payload["type"] == Str(AccessType) && t.payload["iat"] == Num(now)
    ensures Decode(s, t) == Some(t.payload)
  {
    var t := CreateAccessToken(s, AccessClaims(u), Some(AccessTokenLifetime(s)), now);
    assert "sub" in AccessClaims(u) && "sub" !in ReservedClaims;
    SubjectOfId(t.payload, u.id);
    t
  }

  /** The body registration and login return. */
  function IssueTokens(s: Settings, u: User, now: int): (r: AuthResponse)
    ensures r.user == u && r.tokenType == BearerType && r.expiresIn == AccessTokenLifetime(s)
    ensures r.accessToken == AccessTokenFor(s, u, now)
    ensures r.refreshToken.payload.Keys == {"sub", "email"} + ReservedClaims
    ensures r.refreshToken.payload["sub"] == Str(IntToString(u.id)) && r.refreshToken.payload["email"] == Str(u.email)
    ensures SubjectId(r.refreshToken.payload) == Some(u.id) && "role" !in r.refreshToken.payload
    ensures r.refreshToken.payload["exp"] == Num(now + RefreshTokenLifetime(s))
    ensures r.refreshToken.payload["type"] == Str(RefreshType) && r.refreshToken.payload["iat"] == Num(now)
    ensures Decode(s, r.refreshToken) == Some(r.refreshToken.payload)
  {
    var refresh := CreateRefreshToken(s, RefreshClaims(u), now);
    assert "sub" in RefreshClaims(u) && "sub" !in ReservedClaims;
    SubjectOfId(refresh.payload, u.id);
    AuthResponse(AccessTokenFor(s, u, now), refresh, BearerType, AccessTokenLifetime(s), u)
  }

  /**
   * The access token handed out for a stored, active user resolves back to
   * that user on every protected route until it expires, and its
   * "expires_in" is the very lifetime its "exp" encodes.
   */
  lemma IssuedAccessTokenResolves(s: Settings, users: map<int, User>, u: User, now: int, later: int)
    requires u.id in users && users[u.id] == u && u.isActive
    requires now <= later <= now + AccessTokenLifetime(s)
    ensures GetCurrentUser(s, users, IssueTokens(s, u, now).accessToken, later) == Ok(u)
    ensures IssueTokens(s, u, now).accessToken.payload["exp"] == Num(now + IssueTokens(s, u, now).expiresIn)
  {
    var t := IssueTokens(s, u, now).accessToken;
    AccessTokenRoundTrip(s, AccessClaims(u), Some(AccessTokenLifetime(s)), now, later);
    assert AccessLifetime(s, Some(AccessTokenLifetime(s))) == AccessTokenLifetime(s);
    assert VerifyAccessToken(s, t, later).Ok?;
  }

  /** The refresh token never serves as an access token. */
  lemma RefreshTokenIsNotAnAccessToken(s: Settings, users: map<int, User>, u: User, now: int, later: int)
    ensures GetCurrentUser(s, users, IssueTokens(s, u, now).refreshToken, later) == Err(InvalidTokenType)
  {
    OnlyAccessTokensResolve(s, users, RefreshClaims(u), "", "", "", now, later);
  }

  // ---------------------------------------------------------------------------
  // POST /register
  // ---------------------------------------------------------------------------

  /**
   * The first registration leaves the store consistent: one user, the admin
   * of the one team, which it created.
   */
  lemma {:induction false} RegisterEstablishesConsistent(s: Settings, teams: map<int, Team>,
                                                         invitations: map<int, Invitation>, nextUserId: int,
                                                         nextTeamId: int, nextInvitationId: int,
                                                         req: UserRegister, salt: int, now: int)
    requires Consistent(s, map[], teams, invitations, nextUserId, nextTeamId, nextInvitationId)
    ensures Consistent(s, map[nextUserId := FirstUser(nextUserId, nextTeamId, req, salt, now)],
                       map[nextTeamId := NewTeam(nextTeamId, TeamName(req), nextUserId, now)],
                       invitations, nextUserId + 1, nextTeamId + 1, nextInvitationId)
  {
    var users := map[nextUserId := FirstUser(nextUserId, nextTeamId, req, salt, now)];
    assert nextUserId in ActiveAdmins(users, Some(nextTeamId));
  }

  function TeamName(req: UserRegister): string {
    req.firstName + "'s Team"
  }

  /** The first user: an admin of the team created for them. */
  function FirstUser(id: int, teamId: int, req: UserRegister, salt: int, now: int): (u: User)
    ensures u.id == id && u.email == req.email && u.role == AdminRole && u.teamId == Some(teamId) && u.isActive
    ensures VerifyPassword(req.password, u.passwordHash)
  {
    NewUser(id, req.email, GetPasswordHash(req.password, salt), req.firstName, req.lastName,
            Some(AdminRole), Some(teamId), now)
  }

  /**
   * register: an email already registered is refused first; otherwise only
   * the very first user may register. That user gets a new team named after
   * their first name, is its admin, and is recorded as its creator (the team
   * is first stored with creator 1 and corrected once the user exists).
   */
  method Register(db: Database, req: UserRegister, salt: int, now: int) returns (r: Result<AuthResponse>)
    requires db.Valid()
    modifies db
    ensures db.Valid()
    ensures EmailTaken(old(db.users), req.email) ==> r == Err(EmailAlreadyRegistered)
    ensures !EmailTaken(old(db.users), req.email) && old(db.users) != map[] ==> r == Err(RegistrationClosed)
    ensures r.Ok? <==> old(db.users) == map[]
    ensures r.Err? ==> unchanged(db)
    ensures r.Ok? ==>
      && r.value.user == FirstUser(old(db.nextUserId), old(db.nextTeamId), req, salt, now)
      && db.users == map[r.value.user.id := r.value.user]
      && db.teams == map[old(db.nextTeamId) := NewTeam(old(db.nextTeamId), TeamName(req), r.value.user.id, now)]
      && db.invitations == map[]
      && r.value == IssueTokens(db.settings, r.value.user, now)
  {
    var existingUser := db.FindUserByEmail(req.email);
    if existingUser.Some? {
      return Err(EmailAlreadyRegistered);
    }
    var userCount := |db.users|;
    if userCount != 0 {
      return Err(RegistrationClosed);
    }
    assert db.users == map[];
    assert db.teams == map[] && db.invitations == map[];
    var teamId, userId := db.nextTeamId, db.nextUserId;
    RegisterEstablishesConsistent(db.settings, db.teams, db.invitations, userId, teamId,
                                  db.nextInvitationId, req, salt, now);
    db.teams := db.teams[teamId := NewTeam(teamId, TeamName(req), 1, now)];
    db.nextTeamId := teamId + 1;
    var user := FirstUser(userId, teamId, req, salt, now);
    db.users := db.users[userId := user];
    db.nextUserId := userId + 1;
    db.teams := db.teams[teamId := db.teams[teamId].(createdBy := user.id)];
    assert db.teams == map[teamId := NewTeam(teamId, TeamName(req), userId, now)];
    return Ok(IssueTokens(db.settings, user, now));
  }

  // ---------------------------------------------------------------------------
  // POST /login
  // ---------------------------------------------------------------------------

  /** Recording a login keeps every constraint of the store. */
  lemma {:induction false} LoginKeepsConsistent(s: Settings, users: map<int, User>, teams: map<int, Team>,
                                                invitations: map<int, Invitation>, nextUserId: int,
                                                nextTeamId: int, nextInvitationId: int, k: int, now: int)
    requires Consistent(s, users, teams, invitations, nextUserId, nextTeamId, nextInvitationId)
    requires k in users
    ensures Consistent(s, users[k := users[k].(lastLogin := Some(now))], teams, invitations,
                       nextUserId, nextTeamId, nextInvitationId)
  {
    var users' := users[k := users[k].(lastLogin := Some(now))];
    EmailsKept(users, k, users'[k]);
    forall t | t in teams ensures ActiveAdmins(users', Some(t)) != {} {
      var w := SomeAdmin(users, Some(t));
      assert w in ActiveAdmins(users', Some(t));
    }
  }

  /**
   * login: an unknown email and a wrong password give the same error, and
   * both are checked before the account's active flag; a successful login
   * records its time and changes nothing else.
   */
  method Login(db: Database, email: string, password: string, now: int) returns (r: Result<AuthResponse>)
    requires db.Valid()
    modifies db
    ensures db.Valid()
    ensures !EmailTaken(old(db.users), email) ==> r == Err(IncorrectEmailOrPassword)
    ensures forall k :: k in old(db.users) && old(db.users)[k].email == email ==>
      && (!VerifyPassword(password, old(db.users)[k].passwordHash) ==> r == Err(IncorrectEmailOrPassword))
      && (VerifyPassword(password, old(db.users)[k].passwordHash) && !old(db.users)[k].isActive ==>
            r == Err(InactiveUser))
      && (VerifyPassword(password, old(db.users)[k].passwordHash) && old(db.users)[k].isActive ==>
            && db.users == old(db.users)[k := old(db.users)[k].(lastLogin := Some(now))]
            && r == Ok(IssueTokens(db.settings, db.users[k], now)))
    ensures r.Err? ==> unchanged(db)
    ensures db.teams == old(db.teams) && db.invitations == old(db.invitations)
    ensures db.nextUserId == old(db.nextUserId) && db.nextTeamId == old(db.nextTeamId)
    ensures db.nextInvitationId == old(db.nextInvitationId)
  {
    var found := db.FindUserByEmail(email);
    if found.None? {
      return Err(IncorrectEmailOrPassword);
    }
    var id := found.value;
    forall k | k in db.users && db.users[k].email == email ensures k == id {
      UniqueEmailLookup(db.users, k, id);
    }
    var user := db.users[id];
    if !VerifyPassword(password, user.passwordHash) {
      return Err(IncorrectEmailOrPassword);
    }
    if !user.isActive {
      return Err(InactiveUser);
    }
    LoginKeepsConsistent(db.settings, db.users, db.teams, db.invitations, db.nextUserId, db.nextTeamId,
                         db.nextInvitationId, id, now);
    db.users := db.users[id := user.(lastLogin := Some(now))];
    return Ok(IssueTokens(db.settings, db.users[id], now));
  }

  // ---------------------------------------------------------------------------
  // POST /refresh
  // ---------------------------------------------------------------------------

  /**
   * refresh_token: every failure, including a non-numeric subject, is
   * reported as an invalid refresh token; the new access token carries the
   * user's current email and role.
   */
  function RefreshAccessToken(s: Settings, users: map<int, User>, token: Token, now: int): (r: Result<RefreshResponse>)
    ensures r.Err? ==> r.error == InvalidRefreshToken
    ensures r.Ok? <==>
      && VerifyToken(s, token, RefreshType, now).Ok?
      && SubjectId(token.payload).Some?
      && SubjectId(token.payload).value in users
      && users[SubjectId(token.payload).value].isActive
    ensures r.Ok? ==>
      && r.value.accessToken == AccessTokenFor(s, users[SubjectId(token.payload).value], now)
      && r.value.tokenType == BearerType && r.value.expiresIn == AccessTokenLifetime(s)
  {
    match VerifyToken(s, token, RefreshType, now)
    case Err(_) => Err(InvalidRefreshToken)
    case Ok(payload) =>
      if "sub" !in payload then Err(InvalidRefreshToken)
      else match ClaimAsInt(payload["sub"])
        case None => Err(InvalidRefreshToken)
        case Some(id) =>
          if id !in users || !users[id].isActive then Err(InvalidRefreshToken)
          else Ok(RefreshResponse(AccessTokenFor(s, users[id], now), BearerType, AccessTokenLifetime(s)))
  }

  /**
   * A refresh token issued to a user works until it expires while the user
   * stays active, and the access token it yields reflects the user's role at
   * refresh time, not at login time.
   */
  lemma RefreshUsesCurrentRow(s: Settings, users: map<int, User>, u: User, now: int, later: int)
    requires u.id in users && users[u.id].isActive
    requires now <= later <= now + RefreshTokenLifetime(s)
    ensures RefreshAccessToken(s, users, IssueTokens(s, u, now).refreshToken, later).Ok?
    ensures RefreshAccessToken(s, users, IssueTokens(s, u, now).refreshToken, later).value.accessToken.payload["role"]
            == Str(users[u.id].role)
  {
    RefreshTokenRoundTrip(s, RefreshClaims(u), now, later);
  }

  /** Once the user is deactivated, their refresh token yields nothing. */
  lemma RefreshRefusedForInactive(s: Settings, users: map<int, User>, u: User, now: int, later: int)
    requires u.id in users && !users[u.id].isActive
    ensures RefreshAccessToken(s, users, IssueTokens(s, u, now).refreshToken, later) == Err(InvalidRefreshToken)
  {
  }
}
