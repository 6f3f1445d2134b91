/**
 * The client's team store: the member list and pending invitations of the
 * team on screen, a loading flag and the last error message. Each action
 * marks a request as started, awaits the API and then replaces fields.
 */
module TeamStore {
  import opened Outcomes
  import opened Text
  import TeamApi

  const MemberKind := "member"
  const InvitationKind := "invitation"
  const ActiveStatus := "active"

  /** What handleApiError reports for the TypeError of stringifying a missing member id. */
  const MissingIdMessage := "Cannot read properties of null (reading 'toString')"

  /** One entry of members_and_invitations as the client receives it; absent fields are None. */
  datatype ApiItem = ApiItem(
    kind: string,                  // "type"
    id: Option<int>,
    email: string,
    firstName: Option<string>,
    lastName: Option<string>,
    role: string,
    status: Option<string>,
    joinedAt: Option<int>,
    lastActive: Option<int>,
    invitationId: Option<int>,
    teamId: Option<int>,
    token: Option<string>,
    expiresAt: Option<int>,
    invitedBy: Option<int>,
    invitedAt: Option<int>)

  /** A TeamMember as the store keeps it: the id is a string. */
  datatype Member = Member(id: string, email: string, firstName: Option<string>, lastName: Option<string>,
                           role: string, status: string, joinedAt: Option<int>, lastActive: Option<int>)

  /** An Invitation as the store keeps it. */
  datatype ClientInvitation = ClientInvitation(id: Option<int>, email: string, role: string, teamId: Option<int>,
                                               token: string, expiresAt: Option<int>, isUsed: bool,
                                               invitedBy: int, acceptedAt: Option<int>, createdAt: Option<int>)

  // ---------------------------------------------------------------------------
  // Processing a loaded listing
  // ---------------------------------------------------------------------------

  /** items.filter(item => item.type === kind), in order. */
  function OfKind(items: seq<ApiItem>, kind: string): (r: seq<ApiItem>)
    ensures |r| <= |items|
    ensures forall i :: 0 <= i < |r| ==> r[i].kind == kind && r[i] in items
    ensures forall it :: it in items && it.kind == kind ==> it in r
  {
    if items == [] then []
    else (if items[0].kind == kind then [items[0]] else []) + OfKind(items[1..], kind)
  }

  /** Filtering a concatenation filters each part and keeps their order. */
  lemma {:induction false} OfKindAppend(a: seq<ApiItem>, b: seq<ApiItem>, kind: string)
    ensures OfKind(a + b, kind) == OfKind(a, kind) + OfKind(b, kind)
  {
    if a == [] {
      assert a + b == b;
    } else {
      assert (a + b)[0] == a[0] && (a + b)[1..] == a[1..] + b;
      OfKindAppend(a[1..], b, kind);
    }
  }

  /** `value || fallback` in JavaScript for a string: absent and "" are both falsy. */
  function StatusOrActive(status: Option<string>): (r: string)
    ensures r != ""
    ensures status.Some? && status.value != "" ==> r == status.value
    ensures (status.None? || status.value == "") ==> r == ActiveStatus
  {
    if status.None? || status.value == "" then ActiveStatus else status.value
  }

  predicate AllMembersHaveIds(items: seq<ApiItem>) {
    forall it :: it in items && it.kind == MemberKind ==> it.id.Some?
  }

  /** The member mapping: id stringified, status defaulting to "active". */
  function ToMember(item: ApiItem): (m: Member)
    requires item.id.Some?
    ensures m.id == IntToString(item.id.value) && ParseInt(m.id) == item.id
    ensures m.status == StatusOrActive(item.status) && m.status != ""
    ensures m.email == item.email && m.role == item.role
    ensures m.firstName == item.firstName && m.lastName == item.lastName
    ensures m.joinedAt == item.joinedAt && m.lastActive == item.lastActive
  {
    ParseIntOfIntToString(item.id.value);
    Member(IntToString(item.id.value), item.email, item.firstName, item.lastName, item.role,
           StatusOrActive(item.status), item.joinedAt, item.lastActive)
  }

  /** The invitation mapping: never used, token "" and inviter 0 where the item has none. */
  function ToInvitation(item: ApiItem): (inv: ClientInvitation)
    ensures !inv.isUsed && inv.acceptedAt.None?
    ensures inv.id == item.invitationId && inv.createdAt == item.invitedAt && inv.expiresAt == item.expiresAt
    ensures inv.email == item.email && inv.role == item.role && inv.teamId == item.teamId
    ensures inv.token == (if item.token.Some? then item.token.value else "")
    ensures inv.invitedBy == (if item.invitedBy.Some? then item.invitedBy.value else 0)
  {
    ClientInvitation(item.invitationId, item.email, item.role, item.teamId, item.token.GetOr(""),
                     item.expiresAt, false, item.invitedBy.GetOr(0), None, item.invitedAt)
  }

  /** The members list a loaded response yields, in response order. */
  function MembersFrom(items: seq<ApiItem>): (ms: seq<Member>)
    requires AllMembersHaveIds(items)
    ensures |ms| == |OfKind(items, MemberKind)|
    ensures forall i :: 0 <= i < |ms| ==> ms[i] == ToMember(OfKind(items, MemberKind)[i])
  {
    var f := OfKind(items, MemberKind);
    seq(|f|, i requires 0 <= i < |f| => ToMember(f[i]))
  }

  /** The pending invitations a loaded response yields, in response order. */
  function InvitationsFrom(items: seq<ApiItem>): (invs: seq<ClientInvitation>)
    ensures |invs| == |OfKind(items, InvitationKind)|
    ensures forall i :: 0 <= i < |invs| ==> invs[i] == ToInvitation(OfKind(items, InvitationKind)[i])
  {
    var f := OfKind(items, InvitationKind);
    seq(|f|, i requires 0 <= i < |f| => ToInvitation(f[i]))
  }

  /** The JSON form of a backend listing item. */
  function Serialize(item: TeamApi.ListingItem): (a: ApiItem)
    ensures a.kind == item.Kind() && a.status == Some(item.Status())
    ensures a.email == item.email && a.role == item.role
    ensures item.MemberItem? ==>
      && a.id == Some(item.id) && a.firstName == Some(item.firstName) && a.lastName == Some(item.lastName)
      && a.joinedAt == Some(item.joinedAt) && a.invitationId.None? && a.expiresAt.None? && a.invitedAt.None?
    ensures item.InvitationItem? ==>
      && a.invitationId == Some(item.invitationId) && a.expiresAt == Some(item.expiresAt)
      && a.invitedAt == Some(item.invitedAt) && a.id.None? && a.firstName.None? && a.lastName.None?
    ensures a.lastActive.None? && a.teamId.None? && a.token.None? && a.invitedBy.None?
  {
    match item
    case MemberItem(id, email, firstName, lastName, role, joinedAt) =>
      ApiItem(MemberKind, Some(id), email, Some(firstName), Some(lastName), role, Some(ActiveStatus),
              Some(joinedAt), None, None, None, None, None, None, None)
    case InvitationItem(email, role, invitationId, invitedAt, expiresAt) =>
      ApiItem(InvitationKind, None, email, None, None, role, Some("pending"),
              None, None, Some(invitationId), None, None, Some(expiresAt), None, Some(invitedAt))
  }

  function SerializeAll(items: seq<TeamApi.ListingItem>): (r: seq<ApiItem>)
    ensures |r| == |items| && forall i :: 0 <= i < |items| ==> r[i] == Serialize(items[i])
  {
    seq(|items|, i requires 0 <= i < |items| => Serialize(items[i]))
  }

  /** When every item is a member or an invitation, the two filters split the listing. */
  lemma {:induction false} KindsPartition(api: seq<ApiItem>)
    requires forall i :: 0 <= i < |api| ==> api[i].kind == MemberKind || api[i].kind == InvitationKind
    ensures |OfKind(api, MemberKind)| + |OfKind(api, InvitationKind)| == |api|
  {
    if api != [] {
      KindsPartition(api[1..]);
    }
  }

  /** Each serialised item carries what its kind promises and lacks the rest. */
  lemma SerializedItem(items: seq<TeamApi.ListingItem>, it: ApiItem)
    requires it in SerializeAll(items)
    ensures it.kind == MemberKind || it.kind == InvitationKind
    ensures it.kind == MemberKind ==> it.id.Some? && it.status == Some(ActiveStatus)
    ensures it.kind == InvitationKind ==> it.token.None? && it.invitedBy.None? && it.teamId.None?
    ensures exists x :: x in items && Serialize(x) == it
  {
    var api := SerializeAll(items);
    var i :| 0 <= i < |api| && api[i] == it;
    assert Serialize(items[i]) == it;
    assert items[i] in items;
  }

  /**
   * What the backend's combined listing becomes in the client: every member
   * item carries an id, so loading cannot fail on it; member items become
   * the members and invitation items the invitations, none lost and none
   * added; every loaded member is "active"; and every loaded invitation has
   * token "", inviter 0 and no team, since the listing carries none of them.
   */
  lemma BackendListingLoads(items: seq<TeamApi.ListingItem>)
    ensures AllMembersHaveIds(SerializeAll(items))
    ensures |MembersFrom(SerializeAll(items))| + |InvitationsFrom(SerializeAll(items))| == |items|
    ensures forall m :: m in MembersFrom(SerializeAll(items)) ==> m.status == ActiveStatus
    ensures forall inv :: inv in InvitationsFrom(SerializeAll(items)) ==>
      inv.token == "" && inv.invitedBy == 0 && inv.teamId.None?
    ensures forall m :: m in MembersFrom(SerializeAll(items)) ==>
      exists x :: x in items && x.MemberItem? && m.id == IntToString(x.id) && m.email == x.email && m.role == x.role
    ensures forall inv :: inv in InvitationsFrom(SerializeAll(items)) ==>
      exists x :: x in items && x.InvitationItem? && inv.id == Some(x.invitationId)
                  && inv.email == x.email && inv.role == x.role
  {
    var api := SerializeAll(items);
    forall it | it in api && it.kind == MemberKind ensures it.id.Some? {
      SerializedItem(items, it);
    }
    forall i | 0 <= i < |api| ensures api[i].kind == MemberKind || api[i].kind == InvitationKind {
      SerializedItem(items, api[i]);
    }
    KindsPartition(api);
    var ms := MembersFrom(api);
    forall m | m in ms
      ensures m.status == ActiveStatus
      ensures exists x :: x in items && x.MemberItem? && m.id == IntToString(x.id) && m.email == x.email && m.role == x.role
    {
      var i :| 0 <= i < |ms| && ms[i] == m;
      var it := OfKind(api, MemberKind)[i];
      SerializedItem(items, it);
      var x :| x in items && Serialize(x) == it;
      assert x.MemberItem?;
    }
    var invs := InvitationsFrom(api);
    forall inv | inv in invs
      ensures inv.token == "" && inv.invitedBy == 0 && inv.teamId.None?
      ensures exists x :: x in items && x.InvitationItem? && inv.id == Some(x.invitationId)
                          && inv.email == x.email && inv.role == x.role
    {
      var i :| 0 <= i < |invs| && invs[i] == inv;
      var it := OfKind(api, InvitationKind)[i];
      SerializedItem(items, it);
      var x :| x in items && Serialize(x) == it;
      assert x.InvitationItem?;
    }
  }

  // ---------------------------------------------------------------------------
  // Changing the member list
  // ---------------------------------------------------------------------------

  /** members.map(m => m.id === id ? { ...m, role } : m). */
  function WithRole(members: seq<Member>, id: string, role: string): (r: seq<Member>)
    ensures |r| == |members|
    ensures forall i :: 0 <= i < |members| ==>
      r[i] == (if members[i].id == id then members[i].(role := role) else members[i])
  {
    if members == [] then []
    else [if members[0].id == id then members[0].(role := role) else members[0]] + WithRole(members[1..], id, role)
  }

  /** members.filter(m => m.id !== id). */
  function WithoutMember(members: seq<Member>, id: string): (r: seq<Member>)
    ensures |r| <= |members|
    ensures forall m :: m in r <==> m in members && m.id != id
  {
    if members == [] then []
    else (if members[0].id == id then [] else [members[0]]) + WithoutMember(members[1..], id)
  }

  /** Removal works piecewise: the members around the removed ones keep their order. */
  lemma {:induction false} WithoutMemberAppend(a: seq<Member>, b: seq<Member>, id: string)
    ensures WithoutMember(a + b, id) == WithoutMember(a, id) + WithoutMember(b, id)
  {
    if a == [] {
      assert a + b == b;
    } else {
      assert (a + b)[0] == a[0] && (a + b)[1..] == a[1..] + b;
      WithoutMemberAppend(a[1..], b, id);
    }
  }

  /** Removing an id nobody has leaves the list as it is. */
  lemma {:induction false} WithoutAbsentMember(members: seq<Member>, id: string)
    requires forall m :: m in members ==> m.id != id
    ensures WithoutMember(members, id) == members
  {
    if members != [] {
      WithoutAbsentMember(members[1..], id);
    }
  }

  // ---------------------------------------------------------------------------
  // The store
  // ---------------------------------------------------------------------------

  class Store {
    var members: seq<Member>
    var pendingInvitations: seq<ClientInvitation>
    var isLoading: bool
    var error: Option<string>

    /** initialState: empty lists, not loading, no error. */
    constructor ()
      ensures members == [] && pendingInvitations == [] && !isLoading && error.None?
    {
      members, pendingInvitations, isLoading, error := [], [], false, None;
    }

    /** What every request action does before awaiting the API. */
    method StartRequest()
      modifies this
      ensures isLoading && error.None?
      ensures members == old(members) && pendingInvitations == old(pendingInvitations)
    {
      isLoading, error := true, None;
    }

    /** The shared catch block: stop loading and keep the message; the lists stay. */
    method Fail(message: string)
      modifies this
      ensures !isLoading && error == Some(message)
      ensures members == old(members) && pendingInvitations == old(pendingInvitations)
    {
      isLoading, error := false, Some(message);
    }

    /**
     * loadMembersWithInvitations: split the listing by item type; an absent
     * listing yields empty lists; a member item without an id throws while
     * mapping, which the catch block reports like a rejected request.
     * Returns whether the action rethrows.
     */
    method LoadMembersWithInvitations(response: Settled<Option<seq<ApiItem>>>) returns (threw: bool)
      modifies this
      ensures !isLoading
      ensures response.Rejected? ==> threw && error == Some(response.message)
      ensures response.Resolved? ==>
        var items := response.body.GetOr([]);
        && (threw <==> !AllMembersHaveIds(items))
        && (threw ==> error == Some(MissingIdMessage))
        && (!threw ==> members == MembersFrom(items) && pendingInvitations == InvitationsFrom(items) && error.None?)
      ensures threw ==> members == old(members) && pendingInvitations == old(pendingInvitations)
    {
      StartRequest();
      match response
      case Rejected(message) =>
        Fail(message);
        return true;
      case Resolved(body) =>
        var items := body.GetOr([]);
        if !AllMembersHaveIds(items) {
          Fail(MissingIdMessage);
          return true;
        }
        members, pendingInvitations := MembersFrom(items), InvitationsFrom(items);
        isLoading, error := false, None;
        return false;
    }

    /** inviteMember: the created invitation goes first; members are untouched. */
    method InviteMember(response: Settled<ClientInvitation>) returns (threw: bool)
      modifies this
      ensures !isLoading && members == old(members)
      ensures threw <==> response.Rejected?
      ensures response.Rejected? ==> error == Some(response.message) && pendingInvitations == old(pendingInvitations)
      ensures response.Resolved? ==> error.None? && pendingInvitations == [response.body] + old(pendingInvitations)
    {
      StartRequest();
      match response
      case Rejected(message) =>
        Fail(message);
        return true;
      case Resolved(invitation) =>
        pendingInvitations := [invitation] + pendingInvitations;
        isLoading, error := false, None;
        return false;
    }

    /** updateMemberRole: the members with that id take the new role; invitations are untouched. */
    method UpdateMemberRole(memberId: string, role: string, response: Settled<()>) returns (threw: bool)
      modifies this
      ensures !isLoading && pendingInvitations == old(pendingInvitations)
      ensures threw <==> response.Rejected?
      ensures response.Rejected? ==> error == Some(response.message) && members == old(members)
      ensures response.Resolved? ==> error.None? && members == WithRole(old(members), memberId, role)
    {
      StartRequest();
      match response
      case Rejected(message) =>
        Fail(message);
        return true;
      case Resolved(_) =>
        members := WithRole(members, memberId, role);
        isLoading, error := false, None;
        return false;
    }

    /** removeMember: the members with that id leave the list; invitations are untouched. */
    method RemoveMember(memberId: string, response: Settled<()>) returns (threw: bool)
      modifies this
      ensures !isLoading && pendingInvitations == old(pendingInvitations)
      ensures threw <==> response.Rejected?
      ensures response.Rejected? ==> error == Some(response.message) && members == old(members)
      ensures response.Resolved? ==> error.None? && members == WithoutMember(old(members), memberId)
    {
      StartRequest();
      match response
      case Rejected(message) =>
        Fail(message);
        return true;
      case Resolved(_) =>
        members := WithoutMember(members, memberId);
        isLoading, error := false, None;
        return false;
    }

    method ClearError()
      modifies this
      ensures error.None?
      ensures members == old(members) && pendingInvitations == old(pendingInvitations) && isLoading == old(isLoading)
    {
      error := None;
    }

    method SetLoading(loading: bool)
      modifies this
      ensures isLoading == loading
      ensures members == old(members) && pendingInvitations == old(pendingInvitations) && error == old(error)
    {
      isLoading := loading;
    }

    /** reset: back to initialState. */
    method Reset()
      modifies this
      ensures members == [] && pendingInvitations == [] && !isLoading && error.None?
    {
      members, pendingInvitations, isLoading, error := [], [], false, None;
    }
  }
}
