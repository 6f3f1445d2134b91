/**
 * The team routes: inviting a member, listing pending invitations, accepting
 * an invitation, listing members (with or without their pending
 * invitations), changing a member's role and removing a member.
 *
 * Each route that writes is a method on the database session that keeps
 * Valid(); the admin-only routes take the id of the caller that the admin
 * dependency chain resolved (Deps.CurrentAdminIsResolvedAdmin).
 */
module TeamApi {
  import opened Outcomes
  import opened Text
  import opened Config
  import opened Security
  import opened Models
  import opened Deps

  // ---------------------------------------------------------------------------
  // Requests and responses
  // ---------------------------------------------------------------------------

  /** The body of POST /invite; a role left out of the body is "member". */
  datatype InvitationCreate = InvitationCreate(email: string, role: Option<string>, teamId: int) {
    function Role(): string {
      role.GetOr(MemberRole)
    }
  }

  /** The invitation row POST /invite inserts. */
  function InvitationRow(s: Settings, id: int, req: InvitationCreate, invitedBy: int, now: int): (inv: Invitation)
    ensures inv.id == id && inv.email == req.email && inv.teamId == req.teamId && inv.role == req.Role()
    ensures inv.invitedBy == invitedBy && !inv.isUsed && inv.acceptedAt.None?
    ensures inv.expiresAt == now + InvitationLifetime
    ensures VerifyInvitationToken(s, inv.token).Ok?
    ensures inv.token.payload == InvitationClaims(req.email, IntToString(req.teamId), req.Role(), inv.expiresAt)
  {
    NewInvitation(id, req.email, Some(req.Role()), req.teamId,
                  CreateInvitationToken(s, req.email, IntToString(req.teamId), req.Role(), now),
                  now + InvitationLifetime, invitedBy, now)
  }

  /** The user row an accepted invitation inserts: email, team and role come from the invitation. */
  function AcceptedUser(id: int, inv: Invitation, password: string, salt: int,
                        firstName: string, lastName: string, now: int): (u: User)
    ensures u.id == id && u.email == inv.email && u.role == inv.role && u.teamId == Some(inv.teamId)
    ensures u.firstName == firstName && u.lastName == lastName && u.createdAt == now
    ensures u.isActive && u.lastLogin.None?
    ensures VerifyPassword(password, u.passwordHash)
  {
    NewUser(id, inv.email, GetPasswordHash(password, salt), firstName, lastName,
            Some(inv.role), Some(inv.teamId), now)
  }

  // ---------------------------------------------------------------------------
  // POST /invite
  // ---------------------------------------------------------------------------

  /**
   * invite_member: refuses an email that already has an account, then one
   * with a pending invitation to the same team, then an unknown team, and
   * otherwise stores a 7-day invitation whose token carries email, team id
   * (as a string) and role. The caller's own team is not compared with the
   * requested one. The outcome of sending the email does not affect the result.
   */
  method InviteMember(db: Database, actorId: int, req: InvitationCreate, now: int) returns (r: Result<Invitation>)
    requires db.Valid() && IsResolvedAdmin(db.users, actorId)
    modifies db
    ensures db.Valid()
    ensures EmailTaken(old(db.users), req.email) ==> r == Err(UserAlreadyExists)
    ensures !EmailTaken(old(db.users), req.email) && HasPendingInvitation(old(db.invitations), req.email, req.teamId, now) ==>
      r == Err(ActiveInvitationExists)
    ensures (!EmailTaken(old(db.users), req.email) && !HasPendingInvitation(old(db.invitations), req.email, req.teamId, now)
             && req.teamId !in old(db.teams)) ==> r == Err(TeamNotFound)
    ensures r.Ok? <==> !EmailTaken(old(db.users), req.email)
                       && !HasPendingInvitation(old(db.invitations), req.email, req.teamId, now)
                       && req.teamId in old(db.teams)
    ensures r.Err? ==> unchanged(db)
    ensures r.Ok? ==>
      && r.value == InvitationRow(db.settings, old(db.nextInvitationId), req, actorId, now)
      && db.invitations == old(db.invitations)[r.value.id := r.value]
      && db.nextInvitationId == old(db.nextInvitationId) + 1
      && db.users == old(db.users) && db.teams == old(db.teams)
      && db.nextUserId == old(db.nextUserId) && db.nextTeamId == old(db.nextTeamId)
    ensures r.Ok? ==> HasPendingInvitation(db.invitations, req.email, req.teamId, now)
  {
    var existingUser := db.FindUserByEmail(req.email);
    if existingUser.Some? {
      return Err(UserAlreadyExists);
    }
    var existingInvitation := db.FindActiveInvitation(req.email, req.teamId, now);
    if existingInvitation {
      return Err(ActiveInvitationExists);
    }
    if req.teamId !in db.teams {
      return Err(TeamNotFound);
    }
    var inv := InvitationRow(db.settings, db.nextInvitationId, req, actorId, now);
    InviteKeepsConsistent(db.settings, db.users, db.teams, db.invitations, db.nextUserId, db.nextTeamId,
                          db.nextInvitationId, actorId, req, now);
    db.invitations := db.invitations[inv.id := inv];
    db.nextInvitationId := db.nextInvitationId + 1;
    assert inv.id in db.invitations && IsPending(db.invitations[inv.id], now);
    return Ok(inv);
  }

  /**
   * A new token never equals a stored one: rows for another email or team
   * carry other claims, and a row for the same email and team is unused
   * (nobody has the email) and not pending, so it expired no later than now,
   * while the new token expires 7 days after now.
   */
  lemma {:induction false} NewTokenIsFresh(s: Settings, users: map<int, User>, invitations: map<int, Invitation>,
                                           req: InvitationCreate, now: int, k: int)
    requires TokensMatchRows(s, invitations) && UsedInvitationsAccepted(users, invitations)
    requires !EmailTaken(users, req.email) && !HasPendingInvitation(invitations, req.email, req.teamId, now)
    requires k in invitations
    ensures invitations[k].token != CreateInvitationToken(s, req.email, IntToString(req.teamId), req.Role(), now)
  {
    var row := invitations[k];
    var t := CreateInvitationToken(s, req.email, IntToString(req.teamId), req.Role(), now);
    if row.email != req.email {
      assert row.token.payload["email"] != t.payload["email"];
    } else if row.teamId != req.teamId {
      IntToStringInjective(row.teamId, req.teamId);
      assert row.token.payload["team_id"] != t.payload["team_id"];
    } else {
      assert !row.isUsed;
      assert row.expiresAt <= now;
      assert row.token.payload["exp"] != t.payload["exp"];
    }
  }

  /** Inserting the invitation row keeps every constraint of the store. */
  lemma {:induction false} InviteKeepsConsistent(s: Settings, users: map<int, User>, teams: map<int, Team>,
                                                 invitations: map<int, Invitation>, nextUserId: int,
                                                 nextTeamId: int, nextInvitationId: int,
                                                 actorId: int, req: InvitationCreate, now: int)
    requires Consistent(s, users, teams, invitations, nextUserId, nextTeamId, nextInvitationId)
    requires IsResolvedAdmin(users, actorId)
    requires !EmailTaken(users, req.email) && !HasPendingInvitation(invitations, req.email, req.teamId, now)
    requires req.teamId in teams
    ensures Consistent(s, users, teams,
                       invitations[nextInvitationId := InvitationRow(s, nextInvitationId, req, actorId, now)],
                       nextUserId, nextTeamId, nextInvitationId + 1)
  {
    var inv := InvitationRow(s, nextInvitationId, req, actorId, now);
    var invitations' := invitations[nextInvitationId := inv];
    assert nextInvitationId !in invitations;
    forall k | k in invitations ensures invitations[k].token != inv.token {
      NewTokenIsFresh(s, users, invitations, req, now, k);
    }
    assert UniqueTokens(invitations');
    assert TokensMatchRows(s, invitations');
  }

  /** The new invitation stays pending for exactly 7 days, unless accepted first. */
  lemma InvitationPendingWindow(s: Settings, id: int, req: InvitationCreate, invitedBy: int, now: int, later: int)
    ensures IsPending(InvitationRow(s, id, req, invitedBy, now), later) <==> later < now + 7 * 24 * 60 * 60
  {
  }

  // ---------------------------------------------------------------------------
  // Listings
  // ---------------------------------------------------------------------------

  /** The ids of a team's active users below hi, ascending (the table's scan order). */
  function ActiveMemberIds(users: map<int, User>, teamId: int, hi: int): (ids: seq<int>)
    ensures forall i :: 0 <= i < |ids| ==> 1 <= ids[i] < hi && ids[i] in users && IsActiveMemberOf(users[ids[i]], teamId)
    ensures forall k :: 1 <= k < hi && k in users && IsActiveMemberOf(users[k], teamId) ==> k in ids
    ensures forall i, j :: 0 <= i < j < |ids| ==> ids[i] < ids[j]
    decreases hi
  {
    if hi <= 1 then []
    else
      var rest := ActiveMemberIds(users, teamId, hi - 1);
      if hi - 1 in users && IsActiveMemberOf(users[hi - 1], teamId) then rest + [hi - 1] else rest
  }

  /** The ids of a team's pending invitations below hi, ascending. */
  function PendingInvitationIds(invitations: map<int, Invitation>, teamId: int, now: int, hi: int): (ids: seq<int>)
    ensures forall i :: 0 <= i < |ids| ==>
      1 <= ids[i] < hi && ids[i] in invitations && invitations[ids[i]].teamId == teamId && IsPending(invitations[ids[i]], now)
    ensures forall k :: 1 <= k < hi && k in invitations && invitations[k].teamId == teamId && IsPending(invitations[k], now) ==>
      k in ids
    ensures forall i, j :: 0 <= i < j < |ids| ==> ids[i] < ids[j]
    decreases hi
  {
    if hi <= 1 then []
    else
      var rest := PendingInvitationIds(invitations, teamId, now, hi - 1);
      if hi - 1 in invitations && invitations[hi - 1].teamId == teamId && IsPending(invitations[hi - 1], now)
      then rest + [hi - 1] else rest
  }

  /** The rows of a table at the given ids, in that order. */
  function Rows<T>(table: map<int, T>, ids: seq<int>): (rows: seq<T>)
    requires forall i :: 0 <= i < |ids| ==> ids[i] in table
    ensures |rows| == |ids| && forall i :: 0 <= i < |ids| ==> rows[i] == table[ids[i]]
  {
    seq(|ids|, i requires 0 <= i < |ids| => table[ids[i]])
  }

  /** The keys below hi the members query matches: the active users among Team.members. */
  function ActiveMemberKeys(users: map<int, User>, teamId: int, hi: int): set<int> {
    set k | k in TeamMembers(users, teamId) && 1 <= k < hi && users[k].isActive
  }

  /** The keys below hi the pending-invitations query matches. */
  function PendingKeys(invitations: map<int, Invitation>, teamId: int, now: int, hi: int): set<int> {
    set k | k in invitations && 1 <= k < hi && invitations[k].teamId == teamId && IsPending(invitations[k], now)
  }

  /** A strictly increasing sequence has no repeats: as many elements as distinct values. */
  lemma {:induction false} IncreasingCount(ids: seq<int>)
    requires forall i, j :: 0 <= i < j < |ids| ==> ids[i] < ids[j]
    ensures |set x | x in ids| == |ids|
  {
    if ids != [] {
      var rest := ids[1..];
      IncreasingCount(rest);
      assert ids == [ids[0]] + rest;
      assert (set x | x in ids) == {ids[0]} + (set x | x in rest);
      assert ids[0] !in rest;
    }
  }

  /** The members query lists each matching key exactly once. */
  lemma MemberCount(users: map<int, User>, teamId: int, hi: int)
    ensures |ActiveMemberIds(users, teamId, hi)| == |ActiveMemberKeys(users, teamId, hi)|
  {
    var ids := ActiveMemberIds(users, teamId, hi);
    IncreasingCount(ids);
    assert (set x | x in ids) == ActiveMemberKeys(users, teamId, hi);
  }

  /** The pending-invitations query lists each matching key exactly once. */
  lemma PendingCount(invitations: map<int, Invitation>, teamId: int, now: int, hi: int)
    ensures |PendingInvitationIds(invitations, teamId, now, hi)| == |PendingKeys(invitations, teamId, now, hi)|
  {
    var ids := PendingInvitationIds(invitations, teamId, now, hi);
    IncreasingCount(ids);
    assert (set x | x in ids) == PendingKeys(invitations, teamId, now, hi);
  }

  /** When every key lies below hi, the keys the members query matches are the active Team.members. */
  lemma AllKeysBelow(users: map<int, User>, teamId: int, hi: int)
    requires UserKeys(users, hi)
    ensures ActiveMemberKeys(users, teamId, hi) == set k | k in TeamMembers(users, teamId) && users[k].isActive
  {
  }

  /**
   * The active members of a team, from a users table whose ids are below hi:
   * each matching row once.
   */
  function ActiveMembers(users: map<int, User>, teamId: int, hi: int): (members: seq<User>)
    ensures forall i :: 0 <= i < |members| ==> IsActiveMemberOf(members[i], teamId) && members[i] in users.Values
    ensures forall k :: 1 <= k < hi && k in users && IsActiveMemberOf(users[k], teamId) ==> users[k] in members
    ensures |members| == |ActiveMemberKeys(users, teamId, hi)|
  {
    var ids := ActiveMemberIds(users, teamId, hi);
    var rows := Rows(users, ids);
    assert forall k :: 1 <= k < hi && k in users && IsActiveMemberOf(users[k], teamId) ==>
      exists i :: 0 <= i < |ids| && ids[i] == k && rows[i] == users[k];
    MemberCount(users, teamId, hi);
    rows
  }

  /**
   * The pending invitations of a team, from an invitations table whose ids
   * are below hi: each matching row once.
   */
  function PendingInvitations(invitations: map<int, Invitation>, teamId: int, now: int, hi: int): (pending: seq<Invitation>)
    ensures forall i :: 0 <= i < |pending| ==>
      pending[i].teamId == teamId && IsPending(pending[i], now) && pending[i] in invitations.Values
    ensures forall k :: 1 <= k < hi && k in invitations && invitations[k].teamId == teamId && IsPending(invitations[k], now) ==>
      invitations[k] in pending
    ensures |pending| == |PendingKeys(invitations, teamId, now, hi)|
  {
    var ids := PendingInvitationIds(invitations, teamId, now, hi);
    var rows := Rows(invitations, ids);
    assert forall k :: 1 <= k < hi && k in invitations && invitations[k].teamId == teamId && IsPending(invitations[k], now) ==>
      exists i :: 0 <= i < |ids| && ids[i] == k && rows[i] == invitations[k];
    PendingCount(invitations, teamId, now, hi);
    rows
  }

  /**
   * get_pending_invitations: the unused, unexpired invitations of the
   * requested team. Any admin may ask for any team: no team check is made.
   */
  method GetPendingInvitations(db: Database, actorId: int, teamId: int, now: int) returns (r: seq<Invitation>)
    requires db.Valid() && IsResolvedAdmin(db.users, actorId)
    ensures forall i :: 0 <= i < |r| ==> r[i].teamId == teamId && IsPending(r[i], now) && r[i] in db.invitations.Values
    ensures forall k :: k in db.invitations && db.invitations[k].teamId == teamId && IsPending(db.invitations[k], now) ==>
      db.invitations[k] in r
    ensures |r| == |set k | k in db.invitations && db.invitations[k].teamId == teamId && IsPending(db.invitations[k], now)|
  {
    r := PendingInvitations(db.invitations, teamId, now, db.nextInvitationId);
    assert PendingKeys(db.invitations, teamId, now, db.nextInvitationId) ==
      set k | k in db.invitations && db.invitations[k].teamId == teamId && IsPending(db.invitations[k], now);
  }

  /** get_team_members: only a user of the team may list its active members. */
  method GetTeamMembers(db: Database, actor: User, teamId: int) returns (r: Result<seq<User>>)
    requires db.Valid()
    ensures r.Ok? <==> actor.teamId == Some(teamId)
    ensures r.Err? ==> r.error == NotAuthorizedToViewMembers
    ensures r.Ok? ==> forall i :: 0 <= i < |r.value| ==> IsActiveMemberOf(r.value[i], teamId) && r.value[i] in db.users.Values
    ensures r.Ok? ==> forall k :: k in db.users && IsActiveMemberOf(db.users[k], teamId) ==> db.users[k] in r.value
    ensures r.Ok? ==> |r.value| == |set k | k in TeamMembers(db.users, teamId) && db.users[k].isActive|
  {
    if actor.teamId != Some(teamId) {
      return Err(NotAuthorizedToViewMembers);
    }
    AllKeysBelow(db.users, teamId, db.nextUserId);
    return Ok(ActiveMembers(db.users, teamId, db.nextUserId));
  }

  /** An entry of members_and_invitations. */
  datatype ListingItem =
    | MemberItem(id: int, email: string, firstName: string, lastName: string, role: string, joinedAt: int)
    | InvitationItem(email: string, role: string, invitationId: int, invitedAt: int, expiresAt: int)
  {
    function Status(): string {
      if MemberItem? then "active" else "pending"
    }
    function Kind(): string {
      if MemberItem? then "member" else "invitation"
    }
  }

  function MemberItemOf(u: User): (item: ListingItem)
    ensures item.MemberItem? && item.Status() == "active" && item.Kind() == "member"
    ensures item.id == u.id && item.email == u.email && item.role == u.role && item.joinedAt == u.createdAt
    ensures item.firstName == u.firstName && item.lastName == u.lastName
  {
    MemberItem(u.id, u.email, u.firstName, u.lastName, u.role, u.createdAt)
  }

  function InvitationItemOf(inv: Invitation): (item: ListingItem)
    ensures item.InvitationItem? && item.Status() == "pending" && item.Kind() == "invitation"
    ensures item.invitationId == inv.id && item.email == inv.email && item.role == inv.role
    ensures item.invitedAt == inv.createdAt && item.expiresAt == inv.expiresAt
  {
    InvitationItem(inv.email, inv.role, inv.id, inv.createdAt, inv.expiresAt)
  }

  datatype TeamView = TeamView(teamId: int, items: seq<ListingItem>, totalMembers: int, pendingInvitations: int)

  /** The response list: one member item per member, then one invitation item per invitation. */
  method ListingItems(members: seq<User>, pending: seq<Invitation>) returns (items: seq<ListingItem>)
    ensures |items| == |members| + |pending|
    ensures forall i :: 0 <= i < |members| ==> items[i] == MemberItemOf(members[i])
    ensures forall i :: 0 <= i < |pending| ==> items[|members| + i] == InvitationItemOf(pending[i])
    ensures forall i :: 0 <= i < |items| ==> (items[i].MemberItem? <==> i < |members|)
  {
    items := [];
    for i := 0 to |members|
      invariant |items| == i
      invariant forall j :: 0 <= j < i ==> items[j] == MemberItemOf(members[j])
    {
      items := items + [MemberItemOf(members[i])];
    }
    for i := 0 to |pending|
      invariant |items| == |members| + i
      invariant forall j :: 0 <= j < |members| ==> items[j] == MemberItemOf(members[j])
      invariant forall j :: 0 <= j < i ==> items[|members| + j] == InvitationItemOf(pending[j])
    {
      items := items + [InvitationItemOf(pending[i])];
    }
    forall i | |members| <= i < |items| ensures !items[i].MemberItem? {
      assert items[|members| + (i - |members|)] == InvitationItemOf(pending[i - |members|]);
    }
  }

  /**
   * What the response body holds: the member items first, then the
   * invitation items, each in list order, and the two counts.
   */
  predicate IsViewOf(v: TeamView, teamId: int, members: seq<User>, pending: seq<Invitation>) {
    && v.teamId == teamId && v.totalMembers == |members| && v.pendingInvitations == |pending|
    && |v.items| == |members| + |pending|
    && (forall i :: 0 <= i < |members| ==> v.items[i] == MemberItemOf(members[i]))
    && (forall i :: 0 <= i < |pending| ==> v.items[|members| + i] == InvitationItemOf(pending[i]))
    && (forall i :: 0 <= i < |v.items| ==> (v.items[i].MemberItem? <==> i < v.totalMembers))
  }

  /** total_members and pending_invitations are the numbers of rows the two queries match. */
  lemma ViewCounts(v: TeamView, users: map<int, User>, invitations: map<int, Invitation>,
                   teamId: int, now: int, userHi: int, invitationHi: int)
    requires IsViewOf(v, teamId, ActiveMembers(users, teamId, userHi), PendingInvitations(invitations, teamId, now, invitationHi))
    ensures v.totalMembers == |ActiveMemberKeys(users, teamId, userHi)|
    ensures v.pendingInvitations == |PendingKeys(invitations, teamId, now, invitationHi)|
  {
  }

  /** The response body for two lists. */
  method TeamViewOf(teamId: int, members: seq<User>, pending: seq<Invitation>) returns (v: TeamView)
    ensures IsViewOf(v, teamId, members, pending)
  {
    var items := ListingItems(members, pending);
    v := TeamView(teamId, items, |members|, |pending|);
  }

  /**
   * get_team_members_with_invitations: the members first, then the pending
   * invitations, each in its own item shape, with the two counts. The
   * counts are the numbers of matching rows, by the contracts of
   * ActiveMembers and PendingInvitations.
   */
  method GetTeamMembersWithInvitations(db: Database, actor: User, teamId: int, now: int) returns (r: Result<TeamView>)
    ensures r.Ok? <==> actor.teamId == Some(teamId)
    ensures r.Err? ==> r.error == NotAuthorizedToViewMembers
    ensures r.Ok? ==> IsViewOf(r.value, teamId, ActiveMembers(db.users, teamId, db.nextUserId),
                               PendingInvitations(db.invitations, teamId, now, db.nextInvitationId))
  {
    if actor.teamId != Some(teamId) {
      return Err(NotAuthorizedToViewMembers);
    }
    var members := ActiveMembers(db.users, teamId, db.nextUserId);
    var pending := PendingInvitations(db.invitations, teamId, now, db.nextInvitationId);
    var view := TeamViewOf(teamId, members, pending);
    r := Ok(view);
  }

  // ---------------------------------------------------------------------------
  // POST /accept-invitation/{token}
  // ---------------------------------------------------------------------------

  /** A stored invitation's token verifies and carries exactly the row's own claims. */
  lemma RowTokenVerifies(s: Settings, invitations: map<int, Invitation>, k: int)
    requires TokensMatchRows(s, invitations) && k in invitations
    ensures VerifyInvitationToken(s, invitations[k].token) ==
      Ok(InvitationClaims(invitations[k].email, IntToString(invitations[k].teamId), invitations[k].role,
                          invitations[k].expiresAt))
  {
    InvitationTokenRoundTrip(s, invitations[k].email, IntToString(invitations[k].teamId), invitations[k].role,
                             invitations[k].expiresAt - InvitationLifetime);
  }

  /**
   * accept_invitation: the token must verify, a pending row must hold
   * exactly this token, and no account may have the invited email; then the
   * user is created with the invitation's email, role and team, and the row
   * is marked used. Reading the claims cannot fail on a stored token, so the
   * server errors of a missing claim or a non-numeric team id never arise.
   */
  method AcceptInvitation(db: Database, token: Token, password: string, firstName: string, lastName: string,
                          salt: int, now: int) returns (r: Result<User>)
    requires db.Valid()
    modifies db
    ensures db.Valid()
    ensures VerifyInvitationToken(db.settings, token).Err? ==> r == Err(InvalidOrExpiredInvitation)
    ensures VerifyInvitationToken(db.settings, token).Ok? && !HasPendingToken(old(db.invitations), token, now) ==>
      r == Err(InvitationNotFoundOrExpired)
    ensures forall k :: k in old(db.invitations) && old(db.invitations)[k].token == token
                        && IsPending(old(db.invitations)[k], now) ==>
      && (EmailTaken(old(db.users), old(db.invitations)[k].email) ==> r == Err(UserAlreadyExists))
      && (!EmailTaken(old(db.users), old(db.invitations)[k].email) ==>
            && r == Ok(AcceptedUser(old(db.nextUserId), old(db.invitations)[k], password, salt, firstName, lastName, now))
            && db.users == old(db.users)[old(db.nextUserId) := r.value]
            && db.invitations == old(db.invitations)[k := old(db.invitations)[k].(isUsed := true, acceptedAt := Some(now))])
    ensures r.Err? ==> r.error != InternalServerError && unchanged(db)
    ensures r.Ok? ==> db.teams == old(db.teams) && db.nextUserId == old(db.nextUserId) + 1
                      && db.nextTeamId == old(db.nextTeamId) && db.nextInvitationId == old(db.nextInvitationId)
    ensures r.Ok? ==> forall j :: j in db.invitations && db.invitations[j].token == token ==> db.invitations[j].isUsed
  {
    var verified := VerifyInvitationToken(db.settings, token);
    if verified.Err? {
      return Err(InvalidOrExpiredInvitation);
    }
    var found := db.FindPendingByToken(token, now);
    if found.None? {
      return Err(InvitationNotFoundOrExpired);
    }
    var k := found.value;
    var row := db.invitations[k];
    RowTokenVerifies(db.settings, db.invitations, k);
    var payload := verified.value;
    var email := payload["email"].s;
    var teamClaim := payload["team_id"].s;
    var role := payload["role"].s;
    var existingUser := db.FindUserByEmail(email);
    if existingUser.Some? {
      forall j | j in db.invitations && db.invitations[j].token == token && IsPending(db.invitations[j], now)
        ensures j == k
      {
        UniqueTokenLookup(db.invitations, j, k);
      }
      return Err(UserAlreadyExists);
    }
    ParseIntOfIntToString(row.teamId);
    var teamId := ParseInt(teamClaim).value;
    var user := NewUser(db.nextUserId, email, GetPasswordHash(password, salt), firstName, lastName,
                        Some(role), Some(teamId), now);
    assert user == AcceptedUser(db.nextUserId, row, password, salt, firstName, lastName, now);
    AcceptKeepsConsistent(db.settings, db.users, db.teams, db.invitations, db.nextUserId, db.nextTeamId,
                          db.nextInvitationId, k, password, salt, firstName, lastName, now);
    SingleUse(db.invitations, k, now);
    forall j | j in db.invitations && db.invitations[j].token == token && IsPending(db.invitations[j], now)
      ensures j == k
    {
      UniqueTokenLookup(db.invitations, j, k);
    }
    db.users := db.users[db.nextUserId := user];
    db.nextUserId := db.nextUserId + 1;
    db.invitations := db.invitations[k := row.(isUsed := true, acceptedAt := Some(now))];
    return Ok(user);
  }

  /**
   * Once its row is marked used, every row holding the token is used, so the
   * token is pending at no time and a second acceptance is refused.
   */
  lemma SingleUse(invitations: map<int, Invitation>, k: int, now: int)
    requires UniqueTokens(invitations) && k in invitations
    ensures var after := invitations[k := invitations[k].(isUsed := true, acceptedAt := Some(now))];
      forall j :: j in after && after[j].token == invitations[k].token ==> after[j].isUsed
  {
  }

  /** Creating the invited user and marking the row used keeps every constraint of the store. */
  lemma {:induction false} AcceptKeepsConsistent(s: Settings, users: map<int, User>, teams: map<int, Team>,
                                                 invitations: map<int, Invitation>, nextUserId: int,
                                                 nextTeamId: int, nextInvitationId: int, k: int,
                                                 password: string, salt: int, firstName: string,
                                                 lastName: string, now: int)
    requires Consistent(s, users, teams, invitations, nextUserId, nextTeamId, nextInvitationId)
    requires k in invitations && !EmailTaken(users, invitations[k].email)
    ensures Consistent(s,
                       users[nextUserId := AcceptedUser(nextUserId, invitations[k], password, salt, firstName, lastName, now)],
                       teams,
                       invitations[k := invitations[k].(isUsed := true, acceptedAt := Some(now))],
                       nextUserId + 1, nextTeamId, nextInvitationId)
  {
    var user := AcceptedUser(nextUserId, invitations[k], password, salt, firstName, lastName, now);
    var users' := users[nextUserId := user];
    var invitations' := invitations[k := invitations[k].(isUsed := true, acceptedAt := Some(now))];
    assert nextUserId !in users;
    assert UniqueEmails(users');
    forall t | t in teams ensures ActiveAdmins(users', Some(t)) != {} {
      var w := SomeAdmin(users, Some(t));
      assert w in ActiveAdmins(users', Some(t));
    }
    forall j | j in invitations' && invitations'[j].isUsed ensures EmailTaken(users', invitations'[j].email) {
      if j == k {
        assert users'[nextUserId].email == invitations'[j].email;
      } else {
        var w :| w in users && users[w].email == invitations[j].email;
        assert users'[w] == users[w];
      }
    }
    assert ReferencesResolve(users', teams, invitations');
    assert TokensMatchRows(s, invitations');
  }

  // ---------------------------------------------------------------------------
  // PUT /members/{member_id}/role and DELETE /members/{member_id}
  // ---------------------------------------------------------------------------

  /** The two roles update_member_role accepts. */
  predicate IsKnownRole(role: Option<string>) {
    role.Some? && (role.value == AdminRole || role.value == MemberRole)
  }

  /** The guard of both routes: a sole active admin may not demote or remove themself. */
  predicate IsLastAdminSelfChange(users: map<int, User>, actorId: int, memberId: int)
    requires actorId in users
  {
    memberId == actorId && |ActiveAdmins(users, users[actorId].teamId)| <= 1
  }

  /**
   * The last-admin rule survives a change to one user of the caller's team
   * when that user stays an active admin, or is not the caller, or the team
   * has another active admin.
   */
  lemma {:induction false} AdminsSurviveChange(users: map<int, User>, teams: map<int, Team>,
                                               actorId: int, memberId: int, u: User)
    requires EveryTeamHasActiveAdmin(users, teams)
    requires IsResolvedAdmin(users, actorId) && memberId in users
    requires users[memberId].teamId == users[actorId].teamId
    requires !IsActiveAdminOf(u, users[memberId].teamId) && memberId == actorId ==>
      |ActiveAdmins(users, users[actorId].teamId)| > 1
    requires u.teamId == users[memberId].teamId || !IsActiveAdminOf(u, u.teamId)
    ensures EveryTeamHasActiveAdmin(users[memberId := u], teams)
  {
    var users' := users[memberId := u];
    forall t | t in teams ensures ActiveAdmins(users', Some(t)) != {} {
      var team := Some(t);
      var admins := ActiveAdmins(users, team);
      if users[memberId].teamId != team || IsActiveAdminOf(u, team) {
        var w := SomeAdmin(users, team);
        assert w in ActiveAdmins(users', team);
      } else if memberId != actorId {
        assert actorId in ActiveAdmins(users', team);
      } else {
        assert actorId in admins;
        var w := PickOther(admins, actorId);
        assert w in ActiveAdmins(users', team);
      }
    }
  }

  /**
   * update_member_role: the role must be "admin" or "member", the member must
   * exist and share the caller's team, and a sole admin may not demote
   * themself; only that member's role changes.
   */
  method UpdateMemberRole(db: Database, actorId: int, memberId: int, newRole: Option<string>) returns (r: Result<User>)
    requires db.Valid() && IsResolvedAdmin(db.users, actorId)
    modifies db
    ensures db.Valid()
    ensures !IsKnownRole(newRole) ==> r == Err(InvalidRole)
    ensures IsKnownRole(newRole) && memberId !in old(db.users) ==> r == Err(MemberNotFound)
    ensures (IsKnownRole(newRole) && memberId in old(db.users)
             && old(db.users)[memberId].teamId != old(db.users)[actorId].teamId) ==> r == Err(NotAuthorizedToModifyMember)
    ensures (IsKnownRole(newRole) && memberId in old(db.users)
             && old(db.users)[memberId].teamId == old(db.users)[actorId].teamId
             && newRole.value != AdminRole && IsLastAdminSelfChange(old(db.users), actorId, memberId)) ==>
      r == Err(CannotDemoteLastAdmin)
    ensures r.Ok? <==> IsKnownRole(newRole) && memberId in old(db.users)
                       && old(db.users)[memberId].teamId == old(db.users)[actorId].teamId
                       && !(newRole.value != AdminRole && IsLastAdminSelfChange(old(db.users), actorId, memberId))
    ensures r.Err? ==> unchanged(db)
    ensures r.Ok? ==>
      && db.users == old(db.users)[memberId := old(db.users)[memberId].(role := newRole.value)]
      && r.value == db.users[memberId]
      && db.teams == old(db.teams) && db.invitations == old(db.invitations)
      && db.nextUserId == old(db.nextUserId) && db.nextTeamId == old(db.nextTeamId)
      && db.nextInvitationId == old(db.nextInvitationId)
  {
    if !IsKnownRole(newRole) {
      return Err(InvalidRole);
    }
    var role := newRole.value;
    if memberId !in db.users {
      return Err(MemberNotFound);
    }
    var member := db.users[memberId];
    var actor := db.users[actorId];
    if member.teamId != actor.teamId {
      return Err(NotAuthorizedToModifyMember);
    }
    if member.id == actor.id && role != AdminRole {
      var adminCount := db.CountActiveAdmins(actor.teamId);
      if adminCount <= 1 {
        return Err(CannotDemoteLastAdmin);
      }
    }
    var updated := member.(role := role);
    RoleChangeKeepsConsistent(db.settings, db.users, db.teams, db.invitations, db.nextUserId, db.nextTeamId,
                              db.nextInvitationId, actorId, memberId, role);
    db.users := db.users[memberId := updated];
    return Ok(updated);
  }

  /** A role change the route lets through keeps every constraint of the store. */
  lemma {:induction false} RoleChangeKeepsConsistent(s: Settings, users: map<int, User>, teams: map<int, Team>,
                                                     invitations: map<int, Invitation>, nextUserId: int,
                                                     nextTeamId: int, nextInvitationId: int,
                                                     actorId: int, memberId: int, role: string)
    requires Consistent(s, users, teams, invitations, nextUserId, nextTeamId, nextInvitationId)
    requires IsResolvedAdmin(users, actorId) && memberId in users
    requires users[memberId].teamId == users[actorId].teamId
    requires role != AdminRole ==> !IsLastAdminSelfChange(users, actorId, memberId)
    ensures Consistent(s, users[memberId := users[memberId].(role := role)], teams, invitations,
                       nextUserId, nextTeamId, nextInvitationId)
  {
    var u := users[memberId].(role := role);
    EmailsKept(users, memberId, u);
    AdminsSurviveChange(users, teams, actorId, memberId, u);
  }

  /**
   * remove_member: the member must exist and share the caller's team, and a
   * sole admin may not remove themself; the member is deactivated and
   * detached from the team, not deleted.
   */
  method RemoveMember(db: Database, actorId: int, memberId: int) returns (r: Result<()>)
    requires db.Valid() && IsResolvedAdmin(db.users, actorId)
    modifies db
    ensures db.Valid()
    ensures memberId !in old(db.users) ==> r == Err(MemberNotFound)
    ensures memberId in old(db.users) && old(db.users)[memberId].teamId != old(db.users)[actorId].teamId ==>
      r == Err(NotAuthorizedToRemoveMember)
    ensures (memberId in old(db.users) && old(db.users)[memberId].teamId == old(db.users)[actorId].teamId
             && IsLastAdminSelfChange(old(db.users), actorId, memberId)) ==> r == Err(CannotRemoveLastAdmin)
    ensures r.Ok? <==> memberId in old(db.users) && old(db.users)[memberId].teamId == old(db.users)[actorId].teamId
                       && !IsLastAdminSelfChange(old(db.users), actorId, memberId)
    ensures r.Err? ==> unchanged(db)
    ensures r.Ok? ==>
      && db.users == old(db.users)[memberId := old(db.users)[memberId].(isActive := false, teamId := None)]
      && db.teams == old(db.teams) && db.invitations == old(db.invitations)
      && db.nextUserId == old(db.nextUserId) && db.nextTeamId == old(db.nextTeamId)
      && db.nextInvitationId == old(db.nextInvitationId)
  {
    if memberId !in db.users {
      return Err(MemberNotFound);
    }
    var member := db.users[memberId];
    var actor := db.users[actorId];
    if member.teamId != actor.teamId {
      return Err(NotAuthorizedToRemoveMember);
    }
    if member.id == actor.id {
      var adminCount := db.CountActiveAdmins(actor.teamId);
      if adminCount <= 1 {
        return Err(CannotRemoveLastAdmin);
      }
    }
    RemovalKeepsConsistent(db.settings, db.users, db.teams, db.invitations, db.nextUserId, db.nextTeamId,
                           db.nextInvitationId, actorId, memberId);
    db.users := db.users[memberId := member.(isActive := false, teamId := None)];
    return Ok(());
  }

  /** A removal the route lets through keeps every constraint of the store. */
  lemma {:induction false} RemovalKeepsConsistent(s: Settings, users: map<int, User>, teams: map<int, Team>,
                                                  invitations: map<int, Invitation>, nextUserId: int,
                                                  nextTeamId: int, nextInvitationId: int,
                                                  actorId: int, memberId: int)
    requires Consistent(s, users, teams, invitations, nextUserId, nextTeamId, nextInvitationId)
    requires IsResolvedAdmin(users, actorId) && memberId in users
    requires users[memberId].teamId == users[actorId].teamId
    requires !IsLastAdminSelfChange(users, actorId, memberId)
    ensures Consistent(s, users[memberId := users[memberId].(isActive := false, teamId := None)], teams, invitations,
                       nextUserId, nextTeamId, nextInvitationId)
  {
    var u := users[memberId].(isActive := false, teamId := None);
    EmailsKept(users, memberId, u);
    AdminsSurviveChange(users, teams, actorId, memberId, u);
  }
}
