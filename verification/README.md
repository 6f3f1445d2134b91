# Team invitation system: identity and membership core

This project is a Dafny model of the identity and membership core of a small
team-management service. The backend is a FastAPI application with these parts:

- signed access, refresh and invitation tokens (JWT, HS256) and bcrypt password hashes;
- dependencies that resolve the caller of a request from its bearer token;
- registration of the first user, which founds a team with that user as admin;
- login and access-token refresh;
- invitations that an admin sends and an invitee accepts, creating their account;
- member listings;
- role changes and member removal, both guarded so that a team never loses its last admin.

Two client-side zustand stores keep the session and the visible team.

The model follows the files module by module:

| module | file | models |
|---|---|---|
| `Outcomes` | `outcomes.dfy` | `Option`, `Result`, the HTTP errors the routes raise, and `Settled`, a client promise's outcome |
| `Text` | `text.dfy` | Python's `str(int)` and `int(str)`, and `str.split` and `str.strip` |
| `Config` | `config.dfy` | `core/config.py`: the defaults, the token lifetimes and `cors_origins` |
| `Security` | `security.dfy` | `core/security.py`: tokens, verification and password hashing |
| `Models` | `models.dfy` | the three tables (`users`, `teams`, `invitations`) and the invariants the routes keep. `Database` is a class whose map fields the routes update in place |
| `Deps` | `deps.dfy` | `api/deps.py`: caller resolution and the route guards |
| `TeamApi` | `team_api.dfy` | `api/team.py`: invite, listings, accept, role change and removal |
| `AuthApi` | `auth_api.dfy` | `api/auth.py`: register, login and refresh |
| `TeamStore` | `team_store.dfy` | `frontend/src/store/team.ts` as a class over `seq` fields |
| `AuthStore` | `auth_store.dfy` | `frontend/src/store/auth.ts` as a class, including the two local-storage tokens |

Modelling choices:

- **Tokens are symbolic.** A token is `Jws(alg, payload, Hmac(alg, key, payload))`. Decoding accepts exactly the tokens the same settings would produce from their payload, so a changed payload or a foreign key is rejected.
- **Password hashes are symbolic.** A hash is `Bcrypt(salt, secret)`, and the random salt is a parameter.
- **Time is a parameter.** It is an integer `now`, in seconds.
- **The database state and its invariant.** `Database.Valid()` is the conjunction `Models.Consistent` of these conditions:
  - keys lie below the id counters;
  - emails and invitation tokens are unique;
  - references resolve;
  - every active user has a team;
  - every team has an active admin;
  - every invitation's token is the token minted from its own row;
  - a used invitation's email belongs to a user;
  - no team or invitation exists before the first user.

  Each route method keeps `Valid()`. Each preservation step is also a pure lemma over the maps, for example `TeamApi.InviteKeepsConsistent`.
- **Client stores.** Each asynchronous store action takes the outcome of its API call as a `Settled` parameter. The action returns whether it rethrows.

## Model

| member | source | states |
|---|---|---|
| Text.NatDigits | backend/app/api/auth.py:114 | the decimal form of a natural number is non-empty, all digits, with no leading zero |
| Text.NatDigitsValue | backend/app/api/auth.py:114 | reading the digits of `str(n)` back gives n |
| Text.IntToString | backend/app/api/auth.py:114 | `str(n)` is non-empty and starts with '-' exactly when n is negative |
| Text.ParseInt | backend/app/api/deps.py:29 | `int(s)` succeeds exactly on ASCII digits with an optional leading '-' or '+', and yields their decimal value with that sign |
| Text.ParseIntOfIntToString | backend/app/api/deps.py:29 | `int(str(n)) == n`: the "sub" claim written at login reads back as the user id |
| Text.IntToStringInjective | backend/app/core/security.py:84-94 | distinct team ids give distinct "team_id" claims, in both directions |
| Text.Split | backend/app/core/config.py:36 | `split` always yields at least one piece |
| Text.SplitCount | backend/app/core/config.py:36 | `split(",")` yields one more piece than there are commas |
| Text.SplitPiecesHaveNoSeparator | backend/app/core/config.py:36 | no piece of a split contains the separator |
| Text.JoinSplit | backend/app/core/config.py:36 | joining the pieces with the separator restores the text |
| Text.SplitWithoutSeparator | backend/app/core/config.py:36 | text without the separator splits into itself |
| Text.SplitAfterPiece | backend/app/core/config.py:36 | a separator after a first piece splits it off |
| Text.StripStart | backend/app/core/config.py:36 | the result is a suffix, everything removed is whitespace, and it does not start with whitespace |
| Text.StripEnd | backend/app/core/config.py:36 | the result is a prefix, everything removed is whitespace, and it does not end with whitespace |
| Text.Strip | backend/app/core/config.py:36 | the result is the middle slice with the whitespace at both ends removed, and no whitespace at either end |
| Text.StripTrimmed | backend/app/core/config.py:36 | `strip` leaves trimmed text unchanged |
| Text.StripIdempotent | backend/app/core/config.py:36 | `strip` applied twice is `strip` applied once |
| Config.DefaultLifetimes | backend/app/core/config.py:16-18 | defaults: HS256, access tokens 15 minutes, refresh tokens 7 days, in seconds |
| Config.CorsOrigins | backend/app/core/config.py:34-36 | one origin per comma-separated piece, each the stripped piece, none containing a comma |
| Config.StripKeepsCharacters | backend/app/core/config.py:36 | stripping adds no character |
| Config.CorsOriginsOfPair | backend/app/core/config.py:34-36 | "a,b" with trimmed a and b yields exactly [a, b] |
| Config.DefaultCorsOrigins | backend/app/core/config.py:21 | the default setting yields the two localhost origins |
| Security.Decode | backend/app/core/security.py:53 | decoding succeeds exactly on tokens signed with these settings over their own payload, and returns that payload |
| Security.DecodeEncode | backend/app/core/security.py:26 | decode(encode(p)) == p |
| Security.TamperedTokenRejected | backend/app/core/security.py:53 | a token whose payload differs from what was signed is rejected |
| Security.ForeignSecretRejected | backend/app/core/security.py:53 | a token signed with another key or algorithm is rejected |
| Security.CreateAccessToken | backend/app/core/security.py:14-27 | the caller's claims plus exp (now + delta, else the configured minutes), type "access" and iat, signed |
| Security.CreateRefreshToken | backend/app/core/security.py:30-40 | the caller's claims plus exp (now + configured days), type "refresh" and iat, signed |
| Security.CreateInvitationToken | backend/app/core/security.py:84-94 | exactly email, team_id, role, type "invitation" and exp now + 7 days; no iat |
| Security.InvitationTokenInjective | backend/app/core/security.py:84-94 | equal invitation tokens come from equal email, team, role and time |
| Security.VerifyToken | backend/app/core/security.py:51-81 | accepted iff it decodes, has the asked type, has an exp and is not past it; otherwise, in the source's order: undecodable gives "Could not validate credentials", a wrong type "Invalid token type", no exp "Token missing expiration", a non-numeric exp "Could not validate credentials", a past exp "Token expired" |
| Security.VerifyInvitationToken | backend/app/core/security.py:97-113 | accepted iff it decodes and has type "invitation"; every failure is "Invalid invitation token"; exp is not checked here |
| Security.AccessTokenRoundTrip | backend/app/core/security.py:14-27 | a fresh access token verifies until its expiry and carries the caller's claims |
| Security.AccessTokenExpires | backend/app/core/security.py:70-74 | after its exp an access token is refused as expired |
| Security.RefreshTokenRoundTrip | backend/app/core/security.py:30-40 | a refresh token verifies as "refresh" until its expiry |
| Security.TokenKindsAreNotInterchangeable | backend/app/core/security.py:56-60 | a token of one kind is refused where another kind is asked for, all six pairings |
| Security.InvitationTokenRoundTrip | backend/app/core/security.py:97-108 | a minted invitation token verifies and yields its claims |
| Security.PasswordHashing | backend/app/core/security.py:43-48 | the hash verifies its own password only; different salts give different hashes |
| Models.NewUser | backend/app/models/user.py:10-20 | a new row is active, never logged in, with role defaulting to "member" |
| Models.NewTeam | backend/app/models/team.py:10-19 | a new team is active with the given name and creator |
| Models.NewInvitation | backend/app/models/invitation.py:11-18 | a new invitation is unused and unaccepted, with role defaulting to "member" |
| Models.UniqueEmailLookup | backend/app/models/user.py:11 | with unique emails, two rows with one email are one row |
| Models.UniqueTokenLookup | backend/app/models/invitation.py:15 | with unique tokens, two invitations with one token are one invitation |
| Models.EmailsKept | backend/app/models/user.py:11 | replacing a row by one with the same email keeps which emails are taken and their uniqueness |
| Models.Database.constructor | backend/app/models/user.py:10-20 | an empty store satisfies the invariant |
| Models.Database.FindUserByEmail | backend/app/api/team.py:28 | a scan finds a row with that email iff the email is taken |
| Models.Database.FindActiveInvitation | backend/app/api/team.py:35-40 | a scan finds an unused, unexpired invitation for email and team iff one exists |
| Models.Database.FindPendingByToken | backend/app/api/team.py:141-145 | a scan finds an unused, unexpired invitation with that token iff one exists |
| Models.Database.CountActiveAdmins | backend/app/api/team.py:311-315 | the count equals the number of active admins of the team |
| Deps.GetCurrentUser | backend/app/api/deps.py:14-39 | the caller resolves iff the token verifies as access, has "sub", names an existing row and that row is active; each failure gives the source's error, and an unparsable "sub" gives the uncaught 500 |
| Deps.GetCurrentActiveUser | backend/app/api/deps.py:42-45 | passes exactly active users, unchanged |
| Deps.GetCurrentAdminUser | backend/app/api/deps.py:48-54 | passes exactly users whose role is "admin" |
| Deps.GetTeamMember | backend/app/api/deps.py:57-66 | passes exactly users of the requested team |
| Deps.GetTeamAdmin | backend/app/api/deps.py:69-84 | passes exactly admins of the team; membership is checked first |
| Deps.CurrentAdminIsResolvedAdmin | backend/app/api/deps.py:48-54 | an admin resolved from a token is an active admin row named by that access token |
| Deps.ActiveUserCheckIsRedundant | backend/app/api/deps.py:42-45 | the active-user check never refuses a caller get_current_user returned |
| Deps.OnlyAccessTokensResolve | backend/app/api/deps.py:22 | refresh and invitation tokens never resolve a caller |
| TeamApi.InvitationRow | backend/app/api/team.py:58-76 | the invitation row carries the request's email, team and role, expires in 7 days, and its token verifies with exactly those claims |
| TeamApi.AcceptedUser | backend/app/api/team.py:161-172 | the new account has the invitation's email, role and team and the chosen names, is active and never logged in, and its hash verifies the chosen password |
| TeamApi.InviteMember | backend/app/api/team.py:19-100 | refuses an existing user, then a pending duplicate invitation, then an unknown team; otherwise inserts exactly the new row, which is then pending; keeps the invariant |
| TeamApi.NewTokenIsFresh | backend/app/api/team.py:58-65 | the new invitation's token differs from every stored token |
| TeamApi.InviteKeepsConsistent | backend/app/api/team.py:65-76 | inserting the invitation keeps every invariant |
| TeamApi.InvitationPendingWindow | backend/app/api/team.py:58-62 | a new invitation is pending exactly during the 7 days after it is sent |
| TeamApi.ActiveMemberIds | backend/app/api/team.py:202-205 | exactly the active members of the team, in increasing id order |
| TeamApi.PendingInvitationIds | backend/app/api/team.py:111-115 | exactly the team's unused, unexpired invitations, in increasing id order |
| TeamApi.Rows | backend/app/api/team.py:202-205 | the rows of a table at the given ids, in that order |
| TeamApi.ActiveMembers | backend/app/api/team.py:202-205 | every listed row is an active member of the team, every such row is listed, and the list is as long as the number of matching keys (no repeats) |
| TeamApi.PendingInvitations | backend/app/api/team.py:111-115 | every listed invitation is pending for the team, every such invitation is listed, and the list is as long as the number of matching keys (no repeats) |
| TeamApi.GetPendingInvitations | backend/app/api/team.py:103-117 | lists exactly the team's pending invitations, each once, for any admin (the team is not checked) |
| TeamApi.GetTeamMembers | backend/app/api/team.py:187-207 | refused unless the caller is in the team; otherwise exactly its active members, each once (as many as the active users among Team.members) |
| TeamApi.MemberItemOf | backend/app/api/team.py:242-253 | a member item is "active", of type "member", with the row's id, email, names, role and creation time |
| TeamApi.InvitationItemOf | backend/app/api/team.py:256-269 | an invitation item is "pending", of type "invitation", with the invitation's id, email, role, times |
| TeamApi.ListingItems | backend/app/api/team.py:239-269 | all member items first, then all invitation items, in order |
| TeamApi.IncreasingCount | backend/app/api/team.py:202-205 | an ascending id list has no repeats: its length is its number of distinct ids |
| TeamApi.MemberCount | backend/app/api/team.py:202-205 | the members query lists each matching key exactly once |
| TeamApi.PendingCount | backend/app/api/team.py:111-115 | the invitations query lists each matching key exactly once |
| TeamApi.AllKeysBelow | backend/app/models/team.py:19 | when every key is below the counter, the matched keys are exactly the active users among Team.members |
| TeamApi.TeamViewOf | backend/app/api/team.py:271-276 | the body holds the items of both lists, members first, and the two counts |
| TeamApi.ViewCounts | backend/app/api/team.py:274-275 | total_members and pending_invitations equal the numbers of rows the two queries match |
| TeamApi.GetTeamMembersWithInvitations | backend/app/api/team.py:210-276 | refused unless the caller is in the team; otherwise member items then invitation items, with total_members and pending_invitations equal to the numbers of matching rows |
| TeamApi.RowTokenVerifies | backend/app/api/team.py:128-138 | a stored invitation's token verifies and yields the claims of its own row |
| TeamApi.AcceptInvitation | backend/app/api/team.py:120-184 | a bad token, then no pending row, then a taken email are refused; otherwise creates the account from the row and marks the invitation used; never a 500; keeps the invariant |
| TeamApi.SingleUse | backend/app/api/team.py:175-176 | once accepted, the token no longer finds a pending invitation |
| TeamApi.AcceptKeepsConsistent | backend/app/api/team.py:161-176 | creating the account and marking the invitation used keeps every invariant |
| TeamApi.AdminsSurviveChange | backend/app/api/team.py:309-321 | changing one row keeps an active admin in every team unless it is the acting last admin stepping down |
| TeamApi.UpdateMemberRole | backend/app/api/team.py:279-327 | refuses an unknown role, a missing member, another team's member, and the last admin demoting themself; otherwise changes only that role |
| TeamApi.RoleChangeKeepsConsistent | backend/app/api/team.py:323 | a permitted role change keeps every invariant |
| TeamApi.RemoveMember | backend/app/api/team.py:330-370 | refuses a missing member, another team's member, and the last admin removing themself; otherwise deactivates the row and detaches it from its team |
| TeamApi.RemovalKeepsConsistent | backend/app/api/team.py:366-368 | a permitted removal keeps every invariant |
| AuthApi.SubjectOfId | backend/app/api/auth.py:114 | a "sub" claim written as `str(id)` names that id |
| AuthApi.AccessTokenFor | backend/app/api/auth.py:112-116 | the access token, signed with the settings, carries exactly sub = str(id), the email and the role besides type "access", iat = now and exp after the configured minutes; sub reads back as the id |
| AuthApi.IssueTokens | backend/app/api/auth.py:72-86 | a bearer response: that access token, a refresh token signed with the settings, with sub = str(id) and the email but no role, type "refresh", iat = now and exp after the refresh lifetime, and expires_in in seconds |
| AuthApi.IssuedAccessTokenResolves | backend/app/api/auth.py:112-126 | while unexpired, the issued access token resolves to the very user, and exp is now + expires_in |
| AuthApi.RefreshTokenIsNotAnAccessToken | backend/app/api/auth.py:117-119 | the issued refresh token never resolves a caller |
| AuthApi.RegisterEstablishesConsistent | backend/app/api/auth.py:38-63 | the first user and their team satisfy every invariant |
| AuthApi.FirstUser | backend/app/api/auth.py:47-59 | the founding user is an active admin of the new team, and the hash verifies the password |
| AuthApi.Register | backend/app/api/auth.py:23-87 | refuses a taken email, then any non-empty user table; otherwise the store holds exactly the admin and a team they created, and tokens for them |
| AuthApi.LoginKeepsConsistent | backend/app/api/auth.py:108 | recording the login time keeps every invariant |
| AuthApi.Login | backend/app/api/auth.py:90-127 | an unknown email or a wrong password is one error, then an inactive user; success changes only last_login and issues tokens |
| AuthApi.RefreshAccessToken | backend/app/api/auth.py:130-165 | every failure is "Invalid refresh token"; success needs a valid refresh token naming an active row and returns an access token for it |
| AuthApi.RefreshUsesCurrentRow | backend/app/api/auth.py:141-153 | a refresh during the refresh lifetime succeeds and the new token carries the row's current role |
| AuthApi.RefreshRefusedForInactive | backend/app/api/auth.py:142-146 | a deactivated user cannot refresh |
| TeamStore.OfKind | frontend/src/store/team.ts:41 | the filter keeps exactly the items of that type |
| TeamStore.OfKindAppend | frontend/src/store/team.ts:41 | the filter keeps the order of the listing |
| TeamStore.StatusOrActive | frontend/src/store/team.ts:48 | `status \|\| 'active'`: never empty; a non-empty status is kept |
| TeamStore.ToMember | frontend/src/store/team.ts:42-51 | the member id is `str` of the item id and reads back to it; status is the item's status or "active", never empty; the other fields are copied |
| TeamStore.ToInvitation | frontend/src/store/team.ts:55-65 | an invitation is never marked used; token "" and inviter 0 stand in for absent values; id, email, role, team and times are copied |
| TeamStore.MembersFrom | frontend/src/store/team.ts:40-51 | one member per member item, in order |
| TeamStore.InvitationsFrom | frontend/src/store/team.ts:53-65 | one invitation per invitation item, in order |
| TeamStore.Serialize | backend/app/api/team.py:242-269 | the JSON item has the backend item's type, status, email and role; a member item carries its id, names and joined_at, an invitation item its invitation id, expires_at and invited_at, and neither carries the other kind's fields |
| TeamStore.KindsPartition | frontend/src/store/team.ts:40-65 | when every item is a member or an invitation, the two lists together account for all of them |
| TeamStore.SerializedItem | backend/app/api/team.py:242-269 | member items carry an id and "active"; invitation items carry no token, inviter or team; every item is the serialisation of some backend item |
| TeamStore.BackendListingLoads | frontend/src/store/team.ts:40-65 | the backend's own listing loads without error, loses nothing, and yields active members and invitations with token "" and inviter 0; each loaded member keeps the id, email and role of a backend member item, and each loaded invitation the id, email and role of a backend invitation item |
| TeamStore.WithRole | frontend/src/store/team.ts:111-113 | same length and order; exactly the entries with that id take the role |
| TeamStore.WithoutMember | frontend/src/store/team.ts:134 | exactly the entries without that id remain |
| TeamStore.WithoutMemberAppend | frontend/src/store/team.ts:134 | the remaining entries keep their order |
| TeamStore.WithoutAbsentMember | frontend/src/store/team.ts:134 | removing an id nobody has changes nothing |
| TeamStore.Store.constructor | frontend/src/store/team.ts:24-29 | the initial state |
| TeamStore.Store.StartRequest | frontend/src/store/team.ts:35 | loading, error cleared, lists kept |
| TeamStore.Store.Fail | frontend/src/store/team.ts:73-79 | loading stops, the message is kept, lists kept |
| TeamStore.Store.LoadMembersWithInvitations | frontend/src/store/team.ts:34-81 | a rejection or a member without an id rethrows and keeps the lists; otherwise both lists are replaced from the listing |
| TeamStore.Store.InviteMember | frontend/src/store/team.ts:83-102 | success puts the new invitation first; members never change |
| TeamStore.Store.UpdateMemberRole | frontend/src/store/team.ts:104-125 | success applies the role by id; invitations never change |
| TeamStore.Store.RemoveMember | frontend/src/store/team.ts:127-146 | success drops that id; invitations never change |
| TeamStore.Store.ClearError | frontend/src/store/team.ts:148-150 | only the error is cleared |
| TeamStore.Store.SetLoading | frontend/src/store/team.ts:152-154 | only the loading flag changes |
| TeamStore.Store.Reset | frontend/src/store/team.ts:156-158 | back to the initial state |
| AuthStore.UserResponseOf | backend/app/schemas/user.py:25-31 | every field of the row except the password hash |
| AuthStore.ResponseHidesOnlyTheHash | backend/app/schemas/user.py:25-31 | rows with equal responses differ at most in the hash |
| AuthStore.Store.Partialize | frontend/src/store/auth.ts:139-142 | only the user and the authenticated flag are persisted |
| AuthStore.Store.constructor | frontend/src/store/auth.ts:27-30 | signed out, not loading, no error |
| AuthStore.Store.Authenticate | frontend/src/store/auth.ts:33-58 | success stores both tokens (with a window) and the user; failure drops the session, keeps the message, rethrows |
| AuthStore.Store.Login | frontend/src/store/auth.ts:32-59 | as Authenticate, over the login response |
| AuthStore.Store.Register | frontend/src/store/auth.ts:61-88 | as Authenticate, over the registration response |
| AuthStore.Store.Logout | frontend/src/store/auth.ts:90-108 | tokens removed (with a window) and the session cleared |
| AuthStore.Store.RefreshUser | frontend/src/store/auth.ts:110-127 | no effect when signed out; otherwise the fetched user replaces the stored one, or a failure logs out |
| AuthStore.Store.ClearError | frontend/src/store/auth.ts:129-131 | only the error is cleared; the persisted part is unchanged |
| AuthStore.Store.SetLoading | frontend/src/store/auth.ts:133-135 | only the loading flag changes; the persisted part is unchanged |

Every store method keeps the store invariant. On the backend, that is `Database.Valid()`. In `AuthStore`, it is that the session is authenticated exactly when it holds a user.

## Left out

- The JWT library's own `exp` check inside `jwt.decode` is not modelled. So `TokenExpired` can happen in the model, while the library would already reject such a token as "Could not validate credentials". An expired invitation token therefore gets past `verify_invitation_token`. The row check then refuses it as "Invitation not found or expired", not as "Invalid or expired invitation token".
- `datetime` values are whole seconds (`now`). Float timestamps, time zones and the clock are left out; time is a parameter.
- Signing and hashing are symbolic. HMAC, base64, JSON serialisation and bcrypt's cost factor are left out.
- Text.ParseInt: accepts an optional leading `-` or `+` followed by ASCII digits, and nothing else. Python's `int()` also accepts surrounding whitespace, underscores between digits, and non-ASCII decimal digits; the model rejects those. The modelled routes only ever parse text that `str(int)` produced.
- Deps.ClaimAsInt: a numeric "sub" claim is read as that number. python-jose's decode would refuse a token whose "sub" is not a string, giving "Could not validate credentials". No modelled route mints such a token (`AuthApi.AccessTokenFor` states that "sub" is a string).
- `str.strip` treats only ASCII whitespace as whitespace here, not all of Unicode.
- Listings are given in ascending id order. SQL gives no order, so this is one permitted order.
- Sending the invitation email is not part of this model. It happens after the commit and is I/O.
- `updated_at` columns, the activity log, `GET /me` and `POST /logout` are left out. The activity log is never written by the modelled routes. `GET /me` is `Deps.GetCurrentUser` followed by `AuthStore.UserResponseOf`. The backend logout route returns a constant.
- AuthApi.Register: each step is assumed to succeed. The source commits the team before the user, so a database failure between the two commits would leave a team without its founder. That failure is not modelled.
- TeamApi.AcceptInvitation: the `InternalServerError` paths of the source (a missing claim, or `int()` failing on `team_id`) are proved unreachable under the invariant, not modelled as reachable.
- Database transactions, concurrency between requests, and the session's refresh after commit are left out.
- In the client stores, `handleApiError`'s derivation of the message is left out: the rejection carries the final message. Rehydration of the persisted state, the network calls themselves, the fire-and-forget logout request, and React re-rendering are left out too.
- TeamStore.Store.LoadMembersWithInvitations: the message for a member item without an id is a constant. It stands for whatever TypeError text the browser produces.
- AuthStore.Store: the local-storage tokens are the symbolic tokens, not their string encodings.
