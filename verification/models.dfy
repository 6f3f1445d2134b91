/**
 * The three tables of the backend (users, teams, invitations), their column
 * defaults and the constraints the store keeps, and the database session as
 * an object whose tables the API routes update in place.
 *
 * Rows are keyed by their autoincrement id; timestamps are integer seconds.
 */
module Models {
  import opened Outcomes
  import opened Text
  import opened Config
  import opened Security

  const AdminRole := "admin"
  const MemberRole := "member"

  // ---------------------------------------------------------------------------
  // Records
  // ---------------------------------------------------------------------------

  /** A row of "users". The role is a free string of the source's choosing. */
  datatype User = User(
    id: int,
    email: string,               // required and unique
    passwordHash: PasswordHash,
    firstName: string,
    lastName: string,
    role: string,                // default "member"
    teamId: Option<int>,         // nullable: removal sets it to None
    createdAt: int,
    lastLogin: Option<int>,      // unset until a login writes it
    isActive: bool)              // default true

  /** A row of "teams"; its members are the users whose teamId is its id. */
  datatype Team = Team(
    id: int,
    name: string,                // required
    createdBy: int,              // required: a user id
    createdAt: int,
    isActive: bool)              // default true

  /** A row of "invitations". */
  datatype Invitation = Invitation(
    id: int,
    email: string,
    role: string,                // default "member"
    teamId: int,                 // required
    token: Token,                // required and unique
    expiresAt: int,              // required
    isUsed: bool,                // default false
    invitedBy: int,              // required: a user id
    acceptedAt: Option<int>,     // null until acceptance
    createdAt: int)

  /** A user row as inserted: the column defaults fill what the caller leaves out. */
  function NewUser(id: int, email: string, passwordHash: PasswordHash, firstName: string,
                   lastName: string, role: Option<string>, teamId: Option<int>, now: int): (u: User)
    ensures u.role == (if role.Some? then role.value else MemberRole)
    ensures u.isActive && u.lastLogin == None && u.createdAt == now
    ensures u.id == id && u.email == email && u.teamId == teamId && u.passwordHash == passwordHash
    ensures u.firstName == firstName && u.lastName == lastName
  {
    User(id, email, passwordHash, firstName, lastName, role.GetOr(MemberRole), teamId, now, None, true)
  }

  function NewTeam(id: int, name: string, createdBy: int, now: int): (t: Team)
    ensures t.isActive && t.id == id && t.name == name && t.createdBy == createdBy
  {
    Team(id, name, createdBy, now, true)
  }

  function NewInvitation(id: int, email: string, role: Option<string>, teamId: int, token: Token,
                         expiresAt: int, invitedBy: int, now: int): (inv: Invitation)
    ensures inv.role == (if role.Some? then role.value else MemberRole)
    ensures !inv.isUsed && inv.acceptedAt == None
    ensures inv.id == id && inv.email == email && inv.teamId == teamId && inv.token == token
    ensures inv.expiresAt == expiresAt && inv.invitedBy == invitedBy
  {
    Invitation(id, email, role.GetOr(MemberRole), teamId, token, expiresAt, false, invitedBy, None, now)
  }

  // ---------------------------------------------------------------------------
  // Derived predicates
  // ---------------------------------------------------------------------------

  /**
   * The one notion of "pending" every query uses: not used and expiring
   * strictly after now. At exactly expiresAt an invitation is no longer pending.
   */
  predicate IsPending(inv: Invitation, now: int) {
    !inv.isUsed && inv.expiresAt > now
  }

  predicate IsActiveAdminOf(u: User, teamId: Option<int>) {
    u.teamId == teamId && u.role == AdminRole && u.isActive
  }

  predicate IsActiveMemberOf(u: User, teamId: int) {
    u.teamId == Some(teamId) && u.isActive
  }

  /** The ids counted by the "active admins in this team" query. */
  function ActiveAdmins(users: map<int, User>, teamId: Option<int>): set<int> {
    set k | k in users && IsActiveAdminOf(users[k], teamId)
  }

  /** Team.members: the users whose team_id equals the team's id. */
  function TeamMembers(users: map<int, User>, teamId: int): set<int> {
    set k | k in users && users[k].teamId == Some(teamId)
  }

  predicate EmailTaken(users: map<int, User>, email: string) {
    exists k :: k in users && users[k].email == email
  }

  predicate HasPendingInvitation(invitations: map<int, Invitation>, email: string, teamId: int, now: int) {
    exists k :: k in invitations && invitations[k].email == email &&
      invitations[k].teamId == teamId && IsPending(invitations[k], now)
  }

  predicate HasPendingToken(invitations: map<int, Invitation>, token: Token, now: int) {
    exists k :: k in invitations && invitations[k].token == token && IsPending(invitations[k], now)
  }

  // ---------------------------------------------------------------------------
  // Constraints the store keeps
  // ---------------------------------------------------------------------------

  ghost predicate UserKeys(users: map<int, User>, nextId: int) {
    1 <= nextId && forall k :: k in users ==> 1 <= k < nextId && users[k].id == k
  }

  ghost predicate TeamKeys(teams: map<int, Team>, nextId: int) {
    1 <= nextId && forall k :: k in teams ==> 1 <= k < nextId && teams[k].id == k
  }

  ghost predicate InvitationKeys(invitations: map<int, Invitation>, nextId: int) {
    1 <= nextId && forall k :: k in invitations ==> 1 <= k < nextId && invitations[k].id == k
  }

  /** users.email is unique. */
  ghost predicate UniqueEmails(users: map<int, User>) {
    forall a, b :: a in users && b in users && a != b ==> users[a].email != users[b].email
  }

  /** invitations.token is unique. */
  ghost predicate UniqueTokens(invitations: map<int, Invitation>) {
    forall a, b :: a in invitations && b in invitations && a != b ==> invitations[a].token != invitations[b].token
  }

  /** Foreign keys resolve. */
  ghost predicate ReferencesResolve(users: map<int, User>, teams: map<int, Team>, invitations: map<int, Invitation>) {
    && (forall k :: k in users && users[k].teamId.Some? ==> users[k].teamId.value in teams)
    && (forall k :: k in teams ==> teams[k].createdBy in users)
    && (forall k :: k in invitations ==> invitations[k].teamId in teams && invitations[k].invitedBy in users)
  }

  /** Only removal detaches a user from a team, and it deactivates them too. */
  ghost predicate ActiveUsersHaveTeams(users: map<int, User>) {
    forall k :: k in users && users[k].isActive ==> users[k].teamId.Some?
  }

  /** The last-admin rule: every team keeps at least one active admin. */
  ghost predicate EveryTeamHasActiveAdmin(users: map<int, User>, teams: map<int, Team>) {
    forall t :: t in teams ==> ActiveAdmins(users, Some(t)) != {}
  }

  /** Each invitation's token is the one minted from its own email, team, role and expiry. */
  ghost predicate TokensMatchRows(s: Settings, invitations: map<int, Invitation>) {
    forall k :: k in invitations ==>
      invitations[k].token == CreateInvitationToken(s, invitations[k].email, IntToString(invitations[k].teamId),
                                                    invitations[k].role, invitations[k].expiresAt - InvitationLifetime)
  }

  /** A used invitation has produced a user with its email (users are never deleted). */
  ghost predicate UsedInvitationsAccepted(users: map<int, User>, invitations: map<int, Invitation>) {
    forall k :: k in invitations && invitations[k].isUsed ==> EmailTaken(users, invitations[k].email)
  }

  /** Teams and invitations only come into being once a user exists. */
  ghost predicate NothingBeforeFirstUser(users: map<int, User>, teams: map<int, Team>,
                                         invitations: map<int, Invitation>) {
    users == map[] ==> teams == map[] && invitations == map[]
  }

  ghost predicate Consistent(s: Settings, users: map<int, User>, teams: map<int, Team>,
                             invitations: map<int, Invitation>, nextUserId: int, nextTeamId: int,
                             nextInvitationId: int) {
    && UserKeys(users, nextUserId)
    && TeamKeys(teams, nextTeamId)
    && InvitationKeys(invitations, nextInvitationId)
    && UniqueEmails(users)
    && UniqueTokens(invitations)
    && ReferencesResolve(users, teams, invitations)
    && ActiveUsersHaveTeams(users)
    && EveryTeamHasActiveAdmin(users, teams)
    && TokensMatchRows(s, invitations)
    && UsedInvitationsAccepted(users, invitations)
    && NothingBeforeFirstUser(users, teams, invitations)
  }

  /** With unique emails, finding one user with an email identifies the only one. */
  lemma UniqueEmailLookup(users: map<int, User>, a: int, b: int)
    requires UniqueEmails(users)
    requires a in users && b in users && users[a].email == users[b].email
    ensures a == b
  {
  }

  /** Token uniqueness: lookup by token finds at most one invitation. */
  lemma UniqueTokenLookup(invitations: map<int, Invitation>, a: int, b: int)
    requires UniqueTokens(invitations)
    requires a in invitations && b in invitations && invitations[a].token == invitations[b].token
    ensures a == b
  {
  }

  /** Some element of a non-empty set. */
  lemma Pick(s: set<int>) returns (w: int)
    requires s != {}
    ensures w in s
  {
    if !(exists x :: x in s) {
      assert false;
    }
    w :| w in s;
  }

  /** Some element other than a of a set that holds a and more. */
  lemma PickOther(s: set<int>, a: int) returns (w: int)
    requires |s| > 1 && a in s
    ensures w in s && w != a
  {
    var rest := s - {a};
    assert |rest| == |s| - 1;
    if !(exists x :: x in rest) {
      assert false;
    }
    w :| w in rest;
  }

  /** Some active admin of a team that has one. */
  lemma SomeAdmin(users: map<int, User>, team: Option<int>) returns (w: int)
    requires ActiveAdmins(users, team) != {}
    ensures w in users && IsActiveAdminOf(users[w], team)
  {
    w := Pick(ActiveAdmins(users, team));
  }

  /** Rewriting one user with the same email keeps which emails are taken. */
  lemma {:induction false} EmailsKept(users: map<int, User>, k: int, u: User)
    requires k in users && u.email == users[k].email
    ensures forall e :: EmailTaken(users[k := u], e) <==> EmailTaken(users, e)
    ensures UniqueEmails(users) ==> UniqueEmails(users[k := u])
  {
    var users' := users[k := u];
    forall e ensures EmailTaken(users', e) <==> EmailTaken(users, e) {
      if EmailTaken(users, e) {
        var w :| w in users && users[w].email == e;
        assert w in users' && users'[w].email == e;
      }
      if EmailTaken(users', e) {
        var w :| w in users' && users'[w].email == e;
        assert w in users && users[w].email == e;
      }
    }
  }

  // ---------------------------------------------------------------------------
  // The session
  // ---------------------------------------------------------------------------

  /** The database as the routes see it: three tables and their id counters. */
  class Database {
    const settings: Settings
    var users: map<int, User>
    var teams: map<int, Team>
    var invitations: map<int, Invitation>
    var nextUserId: int
    var nextTeamId: int
    var nextInvitationId: int

    ghost predicate Valid()
      reads this
    {
      Consistent(settings, users, teams, invitations, nextUserId, nextTeamId, nextInvitationId)
    }

    /** An empty database under the given settings. */
    constructor (settings: Settings)
      ensures Valid()
      ensures this.settings == settings
      ensures users == map[] && teams == map[] && invitations == map[]
    {
      this.settings := settings;
      users, teams, invitations := map[], map[], map[];
      nextUserId, nextTeamId, nextInvitationId := 1, 1, 1;
    }

    /** db.query(User).filter(User.email == email).first(), as an id. */
    method FindUserByEmail(email: string) returns (r: Option<int>)
      requires Valid()
      ensures r.Some? ==> r.value in users && users[r.value].email == email
      ensures r.None? <==> !EmailTaken(users, email)
    {
      var id := 1;
      while id < nextUserId
        invariant 1 <= id <= nextUserId || (id == 1 && nextUserId < 1)
        invariant forall k :: k in users && k < id ==> users[k].email != email
      {
        if id in users && users[id].email == email {
          return Some(id);
        }
        id := id + 1;
      }
      return None;
    }

    /** The duplicate-invitation query: same email and team, unused, expiring after now. */
    method FindActiveInvitation(email: string, teamId: int, now: int) returns (found: bool)
      requires Valid()
      ensures found <==> HasPendingInvitation(invitations, email, teamId, now)
    {
      var id := 1;
      while id < nextInvitationId
        invariant 1 <= id <= nextInvitationId || (id == 1 && nextInvitationId < 1)
        invariant forall k :: k in invitations && k < id ==>
          !(invitations[k].email == email && invitations[k].teamId == teamId && IsPending(invitations[k], now))
      {
        if id in invitations && invitations[id].email == email && invitations[id].teamId == teamId
           && IsPending(invitations[id], now) {
          return true;
        }
        id := id + 1;
      }
      return false;
    }

    /** The acceptance query: the pending invitation whose token is exactly this one. */
    method FindPendingByToken(token: Token, now: int) returns (r: Option<int>)
      requires Valid()
      ensures r.Some? ==> r.value in invitations && invitations[r.value].token == token
                          && IsPending(invitations[r.value], now)
      ensures r.None? <==> !HasPendingToken(invitations, token, now)
    {
      var id := 1;
      while id < nextInvitationId
        invariant 1 <= id <= nextInvitationId || (id == 1 && nextInvitationId < 1)
        invariant forall k :: k in invitations && k < id ==>
          !(invitations[k].token == token && IsPending(invitations[k], now))
      {
        if id in invitations && invitations[id].token == token && IsPending(invitations[id], now) {
          return Some(id);
        }
        id := id + 1;
      }
      return None;
    }

    /** The count of active admins of a team (team_id compared with IS NULL when None). */
    method CountActiveAdmins(teamId: Option<int>) returns (n: nat)
      requires Valid()
      ensures n == |ActiveAdmins(users, teamId)|
    {
      n := 0;
      var id := 1;
      ghost var seen: set<int> := {};
      while id < nextUserId
        invariant 1 <= id <= nextUserId || (id == 1 && nextUserId < 1)
        invariant seen == set k | k in users && k < id && IsActiveAdminOf(users[k], teamId)
        invariant n == |seen|
      {
        if id in users && IsActiveAdminOf(users[id], teamId) {
          assert id !in seen;
          seen := seen + {id};
          n := n + 1;
        }
        id := id + 1;
      }
      assert seen == ActiveAdmins(users, teamId);
    }
  }
}
