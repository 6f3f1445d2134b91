/**
 * Caller resolution and route guards: from a bearer token and the users
 * table to the calling user, or to the error the dependency raises.
 */
module Deps {
  import opened Outcomes
  import opened Text
  import opened Config
  import opened Security
  import opened Models

  /** int(v) for a claim value; None where int() raises. */
  function ClaimAsInt(v: ClaimValue): Option<int> {
    match v
    case Num(n) => Some(n)
    case Str(text) => ParseInt(text)
  }

  /** The user id a verified payload names through "sub", when it names one. */
  function SubjectId(payload: Claims): Option<int> {
    if "sub" in payload then ClaimAsInt(payload["sub"]) else None
  }

  /**
   * get_current_user: verify as an access token (errors of verify_token pass
   * through), require "sub", convert it with int() (uncaught on failure),
   * look the user up, and refuse an inactive one.
   */
  function GetCurrentUser(s: Settings, users: map<int, User>, token: Token, now: int): (r: Result<User>)
    ensures r.Ok? <==>
      && VerifyAccessToken(s, token, now).Ok?
      && SubjectId(token.payload).Some?
      && SubjectId(token.payload).value in users
      && users[SubjectId(token.payload).value].isActive
    ensures r.Ok? ==> r.value == users[SubjectId(token.payload).value] && r.value.isActive
    ensures VerifyAccessToken(s, token, now).Err? ==> r == Err(VerifyAccessToken(s, token, now).error)
    ensures VerifyAccessToken(s, token, now).Ok? && "sub" !in token.payload ==> r == Err(CouldNotValidateCredentials)
    ensures VerifyAccessToken(s, token, now).Ok? && "sub" in token.payload && SubjectId(token.payload).None? ==>
      r == Err(InternalServerError)
    ensures VerifyAccessToken(s, token, now).Ok? && SubjectId(token.payload).Some? ==>
      (SubjectId(token.payload).value !in users ==> r == Err(CouldNotValidateCredentials)) &&
      (SubjectId(token.payload).value in users && !users[SubjectId(token.payload).value].isActive ==>
         r == Err(InactiveUser))
  {
    match VerifyAccessToken(s, token, now)
    case Err(e) => Err(e)
    case Ok(payload) =>
      if "sub" !in payload then Err(CouldNotValidateCredentials)
      else match ClaimAsInt(payload["sub"])
        case None => Err(InternalServerError)
        case Some(id) =>
          if id !in users then Err(CouldNotValidateCredentials)
          else if !users[id].isActive then Err(InactiveUser)
          else Ok(users[id])
  }

  /** get_current_active_user: refuses an inactive user, returns the input otherwise. */
  function GetCurrentActiveUser(u: User): (r: Result<User>)
    ensures r.Ok? <==> u.isActive
    ensures r.Ok? ==> r.value == u
    ensures r.Err? ==> r.error == InactiveUser
  {
    if !u.isActive then Err(InactiveUser) else Ok(u)
  }

  /** get_current_admin_user: only users whose role is exactly "admin". */
  function GetCurrentAdminUser(u: User): (r: Result<User>)
    ensures r.Ok? <==> u.role == AdminRole
    ensures r.Ok? ==> r.value == u
    ensures r.Err? ==> r.error == AdminAccessRequired
  {
    if u.role != AdminRole then Err(AdminAccessRequired) else Ok(u)
  }

  /** get_team_member: the caller's team must be the requested one. */
  function GetTeamMember(u: User, teamId: int): (r: Result<User>)
    ensures r.Ok? <==> u.teamId == Some(teamId)
    ensures r.Ok? ==> r.value == u
    ensures r.Err? ==> r.error == NotAMemberOfThisTeam
  {
    if u.teamId != Some(teamId) then Err(NotAMemberOfThisTeam) else Ok(u)
  }

  /** get_team_admin: membership is checked before the role. */
  function GetTeamAdmin(u: User, teamId: int): (r: Result<User>)
    ensures r.Ok? <==> u.teamId == Some(teamId) && u.role == AdminRole
    ensures r.Ok? ==> r.value == u
    ensures u.teamId != Some(teamId) ==> r == Err(NotAMemberOfThisTeam)
    ensures u.teamId == Some(teamId) && u.role != AdminRole ==> r == Err(AdminAccessRequired)
  {
    if u.teamId != Some(teamId) then Err(NotAMemberOfThisTeam)
    else if u.role != AdminRole then Err(AdminAccessRequired)
    else Ok(u)
  }

  /** What the admin-only routes may rely on about their caller. */
  predicate IsResolvedAdmin(users: map<int, User>, actorId: int) {
    actorId in users && users[actorId].isActive && users[actorId].role == AdminRole
  }

  /** The admin dependency chain yields an active admin of the table, named by the token. */
  lemma CurrentAdminIsResolvedAdmin(s: Settings, users: map<int, User>, token: Token, now: int)
    requires GetCurrentUser(s, users, token, now).Ok?
    requires GetCurrentAdminUser(GetCurrentUser(s, users, token, now).value).Ok?
    ensures SubjectId(token.payload).Some? && IsResolvedAdmin(users, SubjectId(token.payload).value)
    ensures VerifyToken(s, token, AccessType, now).Ok?
  {
  }

  /** get_current_active_user re-checks what get_current_user already ensured. */
  lemma ActiveUserCheckIsRedundant(s: Settings, users: map<int, User>, token: Token, now: int)
    requires GetCurrentUser(s, users, token, now).Ok?
    ensures GetCurrentActiveUser(GetCurrentUser(s, users, token, now).value) == GetCurrentUser(s, users, token, now)
  {
  }

  /** Refresh and invitation tokens never resolve a caller. */
  lemma OnlyAccessTokensResolve(s: Settings, users: map<int, User>, data: Claims,
                                email: string, team: string, role: string, now: int, later: int)
    ensures GetCurrentUser(s, users, CreateRefreshToken(s, data, now), later) == Err(InvalidTokenType)
    ensures GetCurrentUser(s, users, CreateInvitationToken(s, email, team, role, now), later) == Err(InvalidTokenType)
  {
    TokenKindsAreNotInterchangeable(s, data, None, email, team, role, now, later);
  }
}
