# webagent authorization and session core, in Dafny

This project models the authorization and session logic of the webagent
application. webagent is a Next.js service with a React client. Users
register, wait for approval, log in, and then chat with LLM agents that can
draw on sets of documents (RAG sets).

The model covers the following parts:

- **Permission aggregation.** A user's effective permissions are the strings
  `resource:action` of every grant reachable through the user's roles and
  then through the user's groups, each kept once.
- **Server handlers.** Login, `/me` and register, the agents API, the RAG
  API, the RAG-sets API and chat send. Each is a chain of early-return
  guards with fixed status codes and messages, followed by database writes.
- **Client.** The registration form, the `AuthContext` session state
  machine, the sidebar's permission gating and the chat page's `@`-mention,
  filter and send logic.

How it is built:

- The database is a `Store.Db` class with one `seq` per table.
- Each handler is a pure `*Route` function. It returns the reply and the
  tables after the request.
- Each imperative `Handle*` method changes the `Db` and ensures that its reply
  and new tables are exactly those of the route function. The lemmas about
  the route functions state the guard order, the defaults and the
  cross-request properties.
- Foreign calls are function parameters: `jwt.verify`, `jwt.sign`,
  `bcrypt.compare`, `bcrypt.hash`, the client's `decodeJWT`, and the `fetch`
  replies the client sees.
- The clock and generated ids are plain parameters.
- A database call that throws is a `fault` argument. Per-row writes whose
  failure is swallowed are oracles that answer `None` for a failed write.

The client components are classes whose methods update their fields, as the
React state setters do. `Form` is the registration form, `AuthProvider` the
session provider, `Sidebar` the menu and `Page` the chat page. Those classes
follow the code as written. Where the code is evidently wrong (see
"## Findings"), the corrected definitions sit beside them, and the intended
property is proved about the corrected definitions.

Modules: `Wrappers` (Option), `JsString` (the JavaScript string built-ins the
code relies on), `Http` (replies, truthiness, Bearer extraction),
`Permissions`, `Store`, `Jwt`, `Listing` (newest-first listings and sums),
`Login`, `Me`, `Register`, `RegisterForm`, `AuthContext`, `Sidebar`,
`AgentsApi`, `RagApi`, `RagSetsApi`, `ChatSend` and `ChatPage`.

Some behaviour the model makes visible, proved as lemmas:

- The RAG-sets 201 reply reports no permissions, while a listing right after
  shows the linked groups (`RagSetsApi.CreatedThenListed`).
- Chat send appends to a session found by id without checking who owns it
  (`ChatSend.SessionOwnerNotChecked`).
- The chat page always sends the session `default`, so every message opens a
  new session (`ChatPage.EverySendOpensNewSession`).
- A failed default-group or default-role link reports an error although the
  account is already stored (`Register.LinkFaultKeepsAccount`).
- Login reads the clock twice, so `exp - iat` can be 604801
  (`Login.ExpiryWithTwoReadings`).

## Model

| member | source | states |
|---|---|---|
| Permissions.CanonicalInjective | pages/api/auth/login.ts:31-33 | for resources without a colon, distinct (resource, action) pairs give distinct `resource:action` strings |
| Permissions.EffectiveIsSet | pages/api/auth/login.ts:25-47 | the server's list has no duplicates and holds exactly the permissions reachable through some role's or some group's grant; grants without a permission contribute nothing |
| Permissions.EffectiveOfNothing | pages/api/auth/login.ts:25-47 | no roles and no groups give no permissions |
| Permissions.EffectiveSetUnion | pages/api/auth/login.ts:25-47 | the reference set of concatenated role (or group) lists is the union of the parts' sets |
| Permissions.EffectiveSplitsIntoRolesAndGroups | pages/api/auth/login.ts:28-44 | the effective set is the union of what the roles give and what the groups give |
| Permissions.EffectiveOrderIndependent | pages/api/auth/login.ts:25-47 | permuting the roles or the groups leaves the effective set unchanged |
| Permissions.GrantAddedToGroupIsEffective | pages/api/auth/me.ts:83-101 | a grant added to one of the user's groups appears among the effective permissions |
| Permissions.ExtractPermissions | pages/api/auth/login.ts:25-47 | the nested loops return the first-occurrence deduplication of all role grant strings then all group grant strings, a list without duplicates holding exactly the reachable permissions |
| Permissions.CollectGrants | pages/api/auth/login.ts:28-44 | the role loop then the group loop build the deduplicated list of role strings followed by group strings |
| Permissions.CollectRoleGrants | pages/api/auth/login.ts:28-35 | the role loop builds the deduplicated list of every role's grant strings |
| Permissions.CollectGroupGrants | pages/api/auth/login.ts:37-44 | continuing the set, the group loop adds every group's grant strings in order |
| Permissions.AddGrants | pages/api/auth/login.ts:29-34 | the inner loop adds one role's or group's grant strings, skipping grants without a permission |
| Permissions.AddGrant | pages/api/auth/login.ts:30-32 | one `add` keeps the set equal to the deduplication of everything seen so far |
| Http.OrNull | pages/api/auth/register.ts:79 | `field \|\| null` is the field exactly when it is present and non-empty, null otherwise |
| Http.SubstringTokenRoundTrip | pages/api/auth/me.ts:22-28 | dropping seven characters from a `Bearer ` header leaves exactly the text after the prefix |
| Http.TokenExtractionsAgree | pages/api/agents/index.ts:12 | `split(' ')[1]` of a Bearer header always exists; it equals `substring(7)` exactly when the token has no space, and otherwise is the part before the first space |
| Http.BearerAuth | pages/api/rag/sets/index.ts:16-33 | a missing or non-Bearer header is NoToken; otherwise the token is the header minus seven characters, and a rejected one is BadToken |
| Http.VerifyToken | pages/api/agents/index.ts:6-19 | false without a `Bearer ` header; otherwise true exactly when the verifier accepts the text after `Bearer ` up to its next space, or all of it when it has no space |
| JsString.IncludesEmpty | pages/chat/index.tsx:180 | every string includes the empty string |
| JsString.TrimStartDropsLeadingSpace | src/components/Auth/RegisterForm.tsx:30 | `trimStart` removes exactly a prefix of white space and leaves a string that does not begin with white space |
| JsString.TrimEndDropsTrailingSpace | src/components/Auth/RegisterForm.tsx:30 | `trimEnd` removes exactly a suffix of white space and leaves a string that does not end with white space |
| JsString.TrimEmptyIffBlank | src/components/Auth/RegisterForm.tsx:30-37 | `trim()` is empty exactly for strings made only of white space |
| JsString.ToLower | pages/chat/index.tsx:180-181 | lower-casing keeps the length and maps each character by itself |
| JsString.IndexOf | pages/api/agents/index.ts:12 | the first position holding the character, or -1 when none does |
| JsString.LastIndexOf | pages/chat/index.tsx:143 | `lastIndexOf` with a clamped start: -1 or the last position at or before the start that holds the character |
| JsString.Substring | pages/chat/index.tsx:145 | for bounds within the string, the slice between them, whichever bound is larger |
| JsString.SubstringClampsAndSwaps | pages/chat/index.tsx:145 | the bounds may be given in either order, and a bound below 0 or past the end acts as 0 or the length |
| JsString.Split | pages/api/agents/index.ts:12 | `split` yields at least one part |
| JsString.SplitJoinRoundTrip | pages/api/agents/index.ts:12 | the parts of `split` hold no separator, and joining them with it gives the string back |
| JsString.ReplaceSpaceRunsNoSpace | pages/api/rag/index.ts:86 | after replacing white-space runs with a separator free of white space, none is left |
| JsString.ReplaceSpaceRunsIdentity | pages/api/rag/index.ts:86 | a string without white space is unchanged by the replacement |
| JsString.LowerCommutesWithReplace | pages/api/rag/sets/index.ts:127 | lower-casing before or after collapsing white-space runs gives the same string |
| JsString.NatToString | pages/api/chat/send.ts:149 | the decimal rendering of a natural number is a non-empty string of digits |
| JsString.NatToStringRoundTrip | pages/api/chat/send.ts:149 | reading back the rendered digits gives the number |
| Listing.Insert | pages/api/agents/index.ts:32-35 | inserting into the listing keeps its rows as a multiset plus the new row |
| Listing.InsertKeepsOrder | pages/api/agents/index.ts:34 | inserting into a newest-first listing keeps it newest first |
| Listing.NewestFirst | pages/api/agents/index.ts:32-35 | the listing holds every row exactly once |
| Listing.NewestFirstIsOrdered | pages/api/agents/index.ts:34 | no row is listed before a strictly newer one |
| Listing.ListedIffStored | pages/api/agents/index.ts:32-35 | a row is listed exactly when it is in the table |
| Listing.SumOfAppend | pages/api/rag/index.ts:57-58 | a sum over a concatenation is the sum of the parts' sums |
| Listing.SumOfNewestFirst | pages/api/rag/index.ts:52-58 | a sum over the listing equals the sum over the table |
| Store.FindByKey | pages/api/auth/login.ts:81-107 | the first row with the key, or None exactly when no row has it |
| Store.Names | pages/api/auth/login.ts:189-190 | the role or group names, one per entry, in order |
| Login.ExpiryIsSevenDays | pages/api/auth/login.ts:16-17 | with one clock reading, `exp` is exactly `iat + 604800` |
| Login.ExpiryWithTwoReadings | pages/api/auth/login.ts:16-17 | with two readings less than a second apart, `exp - iat` is 604800 or 604801 |
| Login.NonPostRefusedFirst | pages/api/auth/login.ts:61-64 | any non-POST is 405 and leaves the table as it was, whatever the body |
| Login.MissingFieldRefusedBeforeLookup | pages/api/auth/login.ts:74-77 | a missing email or password is 400 whatever the table holds, and nothing changes |
| Login.NoAccountEnumeration | pages/api/auth/login.ts:122-145 | an unknown email and a wrong password give the same 401 reply |
| Login.PasswordCheckedBeforeStatus | pages/api/auth/login.ts:132-161 | a non-ACTIVE account gets 401 for a wrong password and its status's 403 message for the right one |
| Login.StatusMessagesDistinct | pages/api/auth/login.ts:150-161 | PENDING, INACTIVE, SUSPENDED and other statuses have distinct messages, none equal to the credentials message |
| Login.TokenOnlyForActiveMatchedAccount | pages/api/auth/login.ts:150-170 | 200 with a token exactly for an ACTIVE account whose password matched; otherwise the table is unchanged |
| Login.SuccessfulLogin | pages/api/auth/login.ts:163-199 | the token signs the account's claims; the reply's roles, groups and permissions are the token's; the reply shows the old `lastLoginAt`; only that account's `lastLoginAt` changes |
| Login.HandleLogin | pages/api/auth/login.ts:49-206 | the handler's reply and new user table are those of the login route |
| Me.NonGetRefusedFirst | pages/api/auth/me.ts:15-18 | a non-GET is 405 whatever the header |
| Me.UnauthenticatedIs401 | pages/api/auth/me.ts:22-41 | no Bearer header is 401 "token required"; a token the verifier rejects is 401 "invalid token" |
| Me.LookupByTokenUserId | pages/api/auth/me.ts:45-80 | a token whose `userId` names no account is 404; otherwise the reply describes that account |
| Me.IgnoresTokenPermissions | pages/api/auth/me.ts:83-101 | tokens with the same `userId` give the same reply: the permissions, roles and groups in the token are never read |
| Me.LivePermissions | pages/api/auth/me.ts:83-126 | a 200 reply's permissions are exactly the account's current effective set, without duplicates |
| Me.GrantAfterLoginVisible | pages/api/auth/me.ts:83-101 | a grant added to a group after login appears in `/me` although the older token lacks it |
| Me.HandleMe | pages/api/auth/me.ts:5-133 | the handler's reply is the route's, and no table changes |
| Register.ValidatePassword | pages/api/auth/register.ts:6-28 | valid exactly when the length is at least 8 and all four classes occur; otherwise the message of the first failing check, in source order |
| Register.ShortPasswordExample | pages/api/auth/register.ts:7-9 | the sample `Ab1!`, which has a lower-case, an upper-case, a digit and a special character, is still refused for its length |
| Register.HashSignIsNotSpecial | pages/api/auth/register.ts:24-26 | the sample `Passw0rd#`, long enough and with the other three classes, is refused for lacking a special character, since `#` is not one |
| Register.StrongPasswordExample | pages/api/auth/register.ts:6-28 | a sample with all classes and eight characters is valid |
| Register.ValidateEmail | pages/api/auth/register.ts:31-34 | accepted exactly when the first `@` has text before it, no other `@` follows, there is no white space, and a `.` after the `@` has text on both sides |
| Register.ValidateEmailMatchesPattern | pages/api/auth/register.ts:32-33 | the check accepts exactly the strings the regular expression `^[^\s@]+@[^\s@]+\.[^\s@]+$` matches |
| Register.EmailExamplesAccepted | pages/api/auth/register.ts:31-34 | `a@b.c` and `a@b.c.` are accepted |
| Register.EmailExamplesMissingPart | pages/api/auth/register.ts:31-34 | `a@b`, `a@.bc` and `@b.c` are refused |
| Register.EmailExamplesStrayCharacter | pages/api/auth/register.ts:31-34 | `a@b@c.d` and `a b@c.d` are refused |
| Register.ErrorReply | pages/api/auth/register.ts:145-153 | P2002 gives the 400 duplicate-email reply; any other error gives 500 |
| Register.Provision | pages/api/auth/register.ts:75-153 | the account is appended; the default group is looked up and linked when it exists, then the default role; the first lookup or link that throws ends the request with its catch-block reply, keeping the account and the links made before it; otherwise 201 with the created user |
| Register.GuardOrder | pages/api/auth/register.ts:40-69 | 405, then missing field, bad email, weak password (with its own message), a throwing email lookup (the catch block's reply) and existing email, each leaving the accounts unchanged |
| Register.WritesOnlyAfterChecks | pages/api/auth/register.ts:40-91 | nothing is stored unless every check passes and the lookup, the hash and the insert succeed; then exactly one account is appended |
| Register.NewAccountDefaults | pages/api/auth/register.ts:75-119 | a new account is PENDING, unverified, holds the hash, has a null username unless given, and gets the default group and role only if each exists |
| Register.CreateFaultMapping | pages/api/auth/register.ts:62-153 | a throwing email lookup, hash or insert stores nothing; P2002 gives the duplicate message, anything else (a hashing error included) 500 |
| Register.LinkFaultKeepsAccount | pages/api/auth/register.ts:93-153 | after the insert, the request fails exactly when a group or role lookup or link throws, and the PENDING account stays stored with the links made before the failure |
| Register.RegisterTwice | pages/api/auth/register.ts:62-69 | registering the same email again is refused as a duplicate, or with the catch-block reply when the lookup throws, and stores nothing |
| Register.NewAccountAwaitsApproval | pages/api/auth/login.ts:150-161 | a freshly registered account logging in with its password gets 403 with the PENDING message |
| Register.HandleRegister | pages/api/auth/register.ts:36-155 | the handler's reply and tables are the route's, and unique ids and emails are preserved when the new id is fresh |
| Register.StoreAccount | pages/api/auth/register.ts:75-119 | the insert and the group and role lookups and links produce the reply and tables `Provision` describes |
| Register.NewAccountKeepsKeysDistinct | pages/api/auth/register.ts:62-91 | appending an account with a new email keeps emails distinct, and ids too when its id is new |
| RegisterForm.FormValidIff | src/components/Auth/RegisterForm.tsx:29-51 | the form is valid exactly when the name and email are not blank, the email matches, the password has at least 6 characters and equals the confirmation |
| RegisterForm.BlankNameRefusedFirst | src/components/Auth/RegisterForm.tsx:30-33 | a blank name is the reported error whatever the other fields hold |
| RegisterForm.FormatCheckImpliesNotBlank | src/components/Auth/RegisterForm.tsx:34-41 | an address the pattern accepts is never blank |
| RegisterForm.FormPassesServerRejects | src/components/Auth/RegisterForm.tsx:42-45 | a six-character password passes the form and is refused by the server as too short |
| RegisterForm.AsRegisterBody | src/components/Auth/RegisterForm.tsx:67-71 | the body carries the email and password and no username |
| RegisterForm.FormNameIsDropped | src/components/Auth/RegisterForm.tsx:67-71 | an account created from the form has a null username |
| RegisterForm.OutcomeError | src/components/Auth/RegisterForm.tsx:76-85 | no error on success, the server's message or a default on refusal, the network message on a throw |
| RegisterForm.Form.constructor | src/components/Auth/RegisterForm.tsx:13-18 | every field empty, no error, not loading |
| RegisterForm.Form.HandleChange | src/components/Auth/RegisterForm.tsx:20-27 | the edited field takes the value, the others keep theirs, and the error is cleared |
| RegisterForm.Form.ValidateForm | src/components/Auth/RegisterForm.tsx:29-51 | true exactly when every check passes; otherwise the first failing check's message is shown |
| RegisterForm.Form.HandleSubmit | src/components/Auth/RegisterForm.tsx:53-86 | nothing is sent unless the form is valid; otherwise the request carries the three fields, the error reflects the outcome and loading ends |
| AuthContext.Names | pages/api/auth/me.ts:116-117 | names sent as strings stay strings on the client, one per name |
| AuthContext.InitialStateIsSignedOut | src/context/AuthContext.tsx:45-53 | the first state is signed out and loading, with no permissions, groups or roles |
| AuthContext.LoginTransition | src/context/AuthContext.tsx:57-67 | LOGIN authenticates and ends loading; permissions from the payload or empty; groups and roles from the payload's user or empty |
| AuthContext.LogoutForgetsEverything | src/context/AuthContext.tsx:68-72 | LOGOUT gives the same signed-out, not-loading state whatever the prior state |
| AuthContext.ActionsChangeOnlyTheirFields | src/context/AuthContext.tsx:73-91 | SET_LOADING, UPDATE_PERMISSIONS and SET_USER change only their fields; an unknown action changes nothing |
| AuthContext.AuthenticatedOnlyThroughLogin | src/context/AuthContext.tsx:55-93 | authenticated after an action exactly when it was LOGIN, or already was and the action was not LOGOUT |
| AuthContext.NamesHaveNoPermissions | src/context/AuthContext.tsx:151-169 | roles and groups sent as names contribute no permission |
| AuthContext.AddPermissions | src/context/AuthContext.tsx:155-159 | the inner loop adds one entry's permissions to the set built so far |
| AuthContext.AddEntries | src/context/AuthContext.tsx:153-166 | the outer loop adds every entry's permissions, continuing the set |
| AuthContext.ClientExtractPermissions | src/context/AuthContext.tsx:151-169 | the client walk returns the deduplicated role permissions followed by group permissions |
| AuthContext.UpdatedPermissionsDecide | src/context/AuthContext.tsx:85-89 | after UPDATE_PERMISSIONS, `hasPermission` holds exactly for the new list, and `hasRole` and `hasGroupAccess` answer as before |
| AuthContext.LoginError | src/context/AuthContext.tsx:196-204 | the error a failed login rethrows: the server's message or a default, or the thrown message |
| AuthContext.AuthProvider.constructor | src/context/AuthContext.tsx:95-96 | the provider starts in the initial state with the given stored token |
| AuthContext.AuthProvider.Dispatch | src/context/AuthContext.tsx:96 | the state becomes the reducer's answer |
| AuthContext.AuthProvider.FetchUserInfo | src/context/AuthContext.tsx:121-149 | an ok `/me` logs in with the permissions walked from the reply's roles and groups; otherwise the token is removed and loading ends |
| AuthContext.AuthProvider.Bootstrap | src/context/AuthContext.tsx:98-119 | no token: loading ends; an undecodable or expired token is removed; a live token is sent as `Bearer` and handled as `fetchUserInfo` |
| AuthContext.AuthProvider.LogIn | src/context/AuthContext.tsx:171-205 | on success the token is stored and LOGIN carries the reply's permissions or none; on failure loading ends and the error is returned |
| AuthContext.AuthProvider.LogOut | src/context/AuthContext.tsx:207-210 | the token is removed and the state is LOGOUT's |
| AuthContext.AuthProvider.RefreshToken | src/context/AuthContext.tsx:224-229 | with a stored token, as `fetchUserInfo`: an ok `/me` keeps the token and logs in, a failed one removes it; without a token, nothing changes |
| AuthContext.LoginGrantsServerPermissions | src/context/AuthContext.tsx:187-190 | after login, `hasPermission` holds exactly for the login reply's permissions |
| AuthContext.BootstrapDropsPermissions | src/context/AuthContext.tsx:129-139 | the reload walk over a `/me` reply yields no permissions |
| AuthContext.ReloadLosesGrantedPermission | src/context/AuthContext.tsx:129-139 | a user the server grants `agents:read` does not hold it after a reload |
| AuthContext.ReloadKeepsServerPermissions | src/context/AuthContext.tsx:129-139 | with the intended reload, `hasPermission` holds exactly for the account's current effective set |
| AuthContext.HasRoleNeverHoldsForServerRoles | src/context/AuthContext.tsx:216-222 | after a login, `hasRole` and `hasGroupAccess` are false for every argument |
| AuthContext.HasRoleByNameAfterLogin | src/context/AuthContext.tsx:216-218 | with the intended `hasRole`, a logged-in user has exactly the roles the login reply names |
| AuthContext.HasGroupAccessByNameAfterLogin | src/context/AuthContext.tsx:220-222 | with the intended `hasGroupAccess`, a logged-in user has access to exactly the groups the login reply names |
| Sidebar.AnyPermission | src/components/Layout/Sidebar.tsx:43 | some permission of the list is held |
| Sidebar.AnyGroup | src/components/Layout/Sidebar.tsx:51 | some group of the list is accessible |
| Sidebar.GetItem | src/components/Layout/Sidebar.tsx:33-63 | null exactly when a non-empty permission list has none held or a non-empty group list none accessible; the item otherwise |
| Sidebar.Compact | src/components/Layout/Sidebar.tsx:100 | the filtered list is no longer than the original |
| Sidebar.CompactMembers | src/components/Layout/Sidebar.tsx:100 | filtering keeps exactly the non-null entries |
| Sidebar.MenuShape | src/components/Layout/Sidebar.tsx:66-100 | the three parents, the three dividers and help are always shown in order; the dashboard leads exactly when `dashboard:read` is held |
| Sidebar.NullChildrenKept | src/components/Layout/Sidebar.tsx:73-100 | a session with no permissions still sees a parent whose children are nulls |
| Sidebar.ChildGatedByItsPermission | src/components/Layout/Sidebar.tsx:73-98 | each of the nine children is shown exactly when its one permission is held |
| Sidebar.OrWithinAndAcross | src/components/Layout/Sidebar.tsx:42-55 | one held permission satisfies its list; the item is then shown exactly when the group list passes |
| Sidebar.Route | src/components/Layout/Sidebar.tsx:107-119 | a mapped key opens a path starting with `/`; parent keys are unmapped |
| Sidebar.Sidebar.constructor | src/components/Layout/Sidebar.tsx:30 | nothing selected and nothing opened |
| Sidebar.Sidebar.HandleMenuClick | src/components/Layout/Sidebar.tsx:103-125 | the selection becomes exactly the key; a mapped key appends its route to the navigations |
| AgentsApi.UnauthenticatedBeforeDispatch | pages/api/agents/index.ts:6-28 | without a Bearer header, or with a rejected token, every method is 401 and nothing is written |
| AgentsApi.OtherMethodsRefused | pages/api/agents/index.ts:104-106 | an authenticated method other than GET and POST is 405 with no write |
| AgentsApi.ListingIsNewestFirst | pages/api/agents/index.ts:30-63 | the listing holds every agent once, newest first, and `total` is the table size |
| AgentsApi.MissingFieldNoWrite | pages/api/agents/index.ts:68-72 | a POST missing name, model or version is 400 with no write |
| AgentsApi.CreatedAgentDefaults | pages/api/agents/index.ts:74-102 | a created agent is appended and returned, INACTIVE whatever the body's status, with the body's fields and the given configuration or `{}` |
| AgentsApi.HandleAgents | pages/api/agents/index.ts:21-107 | the handler's reply and agent table are the route's |
| RagApi.StatsOf | pages/api/rag/index.ts:40-46 | one entry per set, in order, with that set's file count and the sum of its file sizes |
| RagApi.StatsSums | pages/api/rag/index.ts:57-58 | the per-set statistics add up to the per-set sums |
| RagApi.TotalsOverAllFiles | pages/api/rag/index.ts:57-58 | the totals are the number, and the total size, of all files together |
| RagApi.StatusCountsBounded | pages/api/rag/index.ts:52-56 | the three status counts together never exceed the number of sets |
| RagApi.SummaryOrderIndependent | pages/api/rag/index.ts:52-59 | the summary is the same for any order of the sets |
| RagApi.VectorPathShape | pages/api/rag/index.ts:86 | the path is `/vector/` followed by a lower-case name with no white space |
| RagApi.UnauthenticatedBeforeDispatch | pages/api/rag/index.ts:6-28 | an unauthenticated request is 401 whatever the method, with no write |
| RagApi.ListingStatistics | pages/api/rag/index.ts:30-71 | every set once, newest first, with its statistics; the summary counts the READY, INDEXING and ERROR sets among all sets, and its totals are the number and size of all files |
| RagApi.CreateRules | pages/api/rag/index.ts:73-108 | a POST without a name is 400 with no write; otherwise an INDEXING set with metadata `{}` and the derived path is appended |
| RagApi.HandleRag | pages/api/rag/index.ts:21-113 | the handler's reply and set table are the route's |
| RagSetsApi.EnrichAll | pages/api/rag/sets/index.ts:60-80 | one view per set, in order, each the enriched view of that set |
| RagSetsApi.PathsDifferOnlyInRootAndSeparator | pages/api/rag/sets/index.ts:127 | the two routes' paths for a name differ only in the root and the separator |
| RagSetsApi.Linked | pages/api/rag/sets/index.ts:158-173 | every entry comes from a successful write, and every successful write gives an entry |
| RagSetsApi.LinkedInIdOrder | pages/api/rag/sets/index.ts:158-173 | the entries follow the order of the ids: the links of a concatenation are those of its parts, in order |
| RagSetsApi.LinkedSingle | pages/api/rag/sets/index.ts:158-173 | one id gives its entry exactly when its write succeeded |
| RagSetsApi.LinkedAllOrNothing | pages/api/rag/sets/index.ts:158-173 | all writes succeeding link every id; all failing link none |
| RagSetsApi.AuthBeforeDispatch | pages/api/rag/sets/index.ts:16-33 | a missing or rejected token is 401 whatever the method, with no write |
| RagSetsApi.ListingEnrichment | pages/api/rag/sets/index.ts:36-89 | one view per stored set, newest first, each with the fixed model name and creator |
| RagSetsApi.StoredSetsListed | pages/api/rag/sets/index.ts:50-80 | every stored set appears in the listing |
| RagSetsApi.ViewsComeFromStoredSets | pages/api/rag/sets/index.ts:60-80 | every view is a stored set's, with its file count, its chunk sum (missing counted as 0) and its access groups in order |
| RagSetsApi.DuplicateRefusedBeforeWrite | pages/api/rag/sets/index.ts:111-120 | a name in use is 400 with no write |
| RagSetsApi.NamesStayDistinct | pages/api/rag/sets/index.ts:111-155 | creates keep set names distinct |
| RagSetsApi.CreateDefaults | pages/api/rag/sets/index.ts:91-197 | a create stores a READY set at the derived path with the pipeline metadata and the requested or default model, linked to the groups whose write succeeded; the reply is 201 with zero counts and no permissions |
| RagSetsApi.CreatedThenListed | pages/api/rag/sets/index.ts:158-197 | after a create, the listing shows the linked groups that the 201 reply left out |
| RagSetsApi.LinkAccess | pages/api/rag/sets/index.ts:158-173 | the loop of access writes appends exactly the successful entries |
| RagSetsApi.HandleRagSets | pages/api/rag/sets/index.ts:5-211 | the handler's reply and set table are the route's |
| ChatSend.ResponseShape | pages/api/chat/send.ts:141-154 | both templates quote the question, and their openings tell them apart |
| ChatSend.FoundRagSet | pages/api/chat/send.ts:69-80 | a set is found only for a truthy id that names it |
| ChatSend.ReusedSession | pages/api/chat/send.ts:104-109 | a session is reused only for a truthy id other than `default` that exists |
| ChatSend.GuardOrder | pages/api/chat/send.ts:15-67 | 405, then 401, then 400 for a missing field, then 404 for an unknown agent, each with no write |
| ChatSend.DocsIffRagSetFound | pages/api/chat/send.ts:69-102 | the two placeholder documents are attached exactly when the set is found |
| ChatSend.SessionReuseRule | pages/api/chat/send.ts:104-126 | the session is reused exactly under that rule; otherwise a new session owned by the caller is added |
| ChatSend.TwoMessagesInOrder | pages/api/chat/send.ts:128-169 | exactly two messages are stored in the reply's session: the question, then the answer with the documents |
| ChatSend.TemplateByRagSet | pages/api/chat/send.ts:141-154 | the answer depends only on the question, the agent and the found set |
| ChatSend.ReferencesAreForTheAnswer | pages/api/chat/send.ts:171-191 | each reference row is for the answer message and the found set and carries the name and snippet of a document whose write succeeded; every such document has its row |
| ChatSend.ReferencesOnlyWithRagSet | pages/api/chat/send.ts:171-191 | references only with a found set; failed writes do not change the reply |
| ChatSend.SessionOwnerNotChecked | pages/api/chat/send.ts:104-139 | a session found by id is reused and written to whoever owns it |
| ChatSend.AnswerFaultLeavesQuestion | pages/api/chat/send.ts:128-169 | a failed answer write leaves the question stored without an answer |
| ChatSend.StoreReferences | pages/api/chat/send.ts:171-191 | the reference loop appends exactly the successful rows |
| ChatSend.Write | pages/api/chat/send.ts:104-216 | the writes produce the tables and reply of the route |
| ChatSend.HandleSend | pages/api/chat/send.ts:5-223 | the handler's reply and tables are the route's |
| ChatPage.MentionStart | pages/chat/index.tsx:143 | -1, or a position holding `@` |
| ChatPage.Mention | pages/chat/index.tsx:135-152 | a query exactly when an `@` is found at the start or after a space |
| ChatPage.MentionQueryIsTypedText | pages/chat/index.tsx:143-147 | with the cursor inside the text, the query is the text between the `@` and the cursor, with no further `@` |
| ChatPage.MentionRemovedExactly | pages/chat/index.tsx:155-165 | selecting removes exactly `@` and the query, keeping the text before and after |
| ChatPage.CursorAtStartOpensDropdown | pages/chat/index.tsx:143-165 | with the cursor at 0, a text starting with `@` opens the dropdown with query `@`, and selecting removes nothing |
| ChatPage.MentionBeforeCursor | pages/chat/index.tsx:143-147 | the corrected rule opens the dropdown only for a cursor after the start |
| ChatPage.MentionBeforeCursorIsTyped | pages/chat/index.tsx:143-147 | under the corrected rule the query is always the text typed between the `@` and the cursor |
| ChatPage.FilterRagSets | pages/chat/index.tsx:179-182 | a set is kept exactly when it is listed and its name or non-empty description contains the query, ignoring case |
| ChatPage.EmptyQueryKeepsAll | pages/chat/index.tsx:179-182 | an empty query keeps every set in order |
| ChatPage.FilterAppend | pages/chat/index.tsx:179-182 | the filter keeps list order: filtering a concatenation filters each part in turn |
| ChatPage.FirstKeptIsFirstMatch | pages/chat/index.tsx:179-182 | the first kept set, the one Enter picks, is the first matching set of the list |
| ChatPage.FilterIdempotent | pages/chat/index.tsx:179-182 | filtering twice by one query equals filtering once |
| ChatPage.QueryCaseIgnored | pages/chat/index.tsx:179-182 | the query's case does not matter |
| ChatPage.AnswerFor | pages/chat/index.tsx:214-243 | every outcome gives one non-empty assistant entry |
| ChatPage.EverySendOpensNewSession | pages/chat/index.tsx:206-211 | the page's session id is never looked up by the server |
| ChatPage.Page.constructor | pages/chat/index.tsx:66-79 | no messages, empty input, no selection, dropdown closed |
| ChatPage.Page.HandleInputChange | pages/chat/index.tsx:135-152 | the dropdown opens exactly under the mention rule, with its query or `''` |
| ChatPage.Page.SelectRagSet | pages/chat/index.tsx:155-171 | the set is picked, the dropdown closes and the mention is removed |
| ChatPage.Page.SendMessage | pages/chat/index.tsx:185-247 | nothing for a blank input or no agent; otherwise the trimmed question, then one answer, is appended, the request is sent and the input cleared |
| ChatPage.Page.HandleKeyPress | pages/chat/index.tsx:250-261 | Enter picks the first listed set while the dropdown is open and the list is non-empty, and otherwise sends as `sendMessage`; Escape closes the dropdown; any other key changes nothing |

## Left out

- Network, `fetch` and `localStorage`. `fetch` replies are parameters. Local
  storage is a single `storedToken` slot of `AuthProvider`.
- The chat page reads the key `token` (pages/chat/index.tsx:97, 117, 204),
  while login writes `auth_token` (src/context/AuthContext.tsx:189). The page's
  `Authorization` header is not modelled.
- `jwt.sign`, `jwt.verify`, `bcrypt.hash`, `bcrypt.compare` and the client's
  `decodeJWT` (base64 and JSON decoding) are uninterpreted parameters.
- The clock (`Date.now()`, `new Date()`) and generated ids are parameters.
  `toLocaleString` session titles, `Math.random()` processing times,
  `updatedAt` columns and the float `relevance` and `score` fields are not
  modelled.
- Prisma's nested `include` loading: an account carries its roles and
  groups, and a role or group carries its grants.
- The race between the duplicate pre-check and the insert. Only the P2002
  mapping is modelled.
- Concurrent `Promise.all` writes are modelled one after another, in order.
- Rows with equal `createdAt`: the database's order among them is unspecified,
  so the listing lemmas fix only the newest-first order.
- `null` and `undefined` are one `None`.
- `toLowerCase` maps only the ASCII letters; other characters are kept as
  they are. `\s` and `trim` use JavaScript's full white-space set.
- JavaScript's `.length` and `selectionStart` count UTF-16 code units, while
  the model counts characters, so a password, a mention or a cursor position
  containing characters outside the Basic Multilingual Plane is measured
  differently (pages/api/auth/register.ts:7,
  src/components/Auth/RegisterForm.tsx:42, pages/chat/index.tsx:137-145).
- The chat page's `fetchAgents` and `fetchRagSets` effects, `clearRagSet`,
  scrolling, the `setTimeout` focus restore, React batching and re-rendering.
  The state updates are sequential assignments.
- ChatPage.Page.SendMessage: the `await fetch` between appending the question
  and appending the answer (pages/chat/index.tsx:195-225) is one atomic step,
  so two overlapping sends, which `handleKeyPress` does not prevent because it
  never checks `loading`, cannot interleave their questions and answers here.
- Ids and timestamps of the chat page's messages.
- The `success: true` flags and logging.
- The page and layout files (`MainLayout`, `LoginForm`, the index, login,
  agents and rag pages, `ChatInterface`), `prisma/seed.ts` and the type
  declarations in `src/types/index.ts`.
- Login.HandleLogin: the outer catch (pages/api/auth/login.ts:201-205) is not
  modelled, so a throwing lookup, signer or `lastLoginAt` update has no
  500 reply; only the password comparison's own catch is modelled.
- Me.HandleMe: the outer catch (pages/api/auth/me.ts:128-132) is not modelled,
  so a throwing lookup has no 500 reply.
- JsString.Split: its contract states only that there is at least one part;
  the rest is in `JsString.SplitJoinRoundTrip`.

## Findings

| source | as written | input that shows it | evidently intended | confidence | as-written member | corrected member |
|---|---|---|---|---|---|---|
| src/context/AuthContext.tsx:129-139 | after a reload, permissions are walked from `user.roles[].permissions` and `user.groups[].permissions`, but `/me` sends roles and groups as name strings and the reply's own `permissions` is ignored | a user the server grants `agents:read` reloads the page: `hasPermission('agents:read')` is false | use the `/me` reply's `permissions`, as `login` does | high, not executed | AuthContext.ReloadLosesGrantedPermission | AuthContext.ReloadKeepsServerPermissions |
| src/context/AuthContext.tsx:216-222 | `hasRole` compares `role.name` and `hasGroupAccess` compares `group.id`, but login sends roles and groups as name strings | a user logged in with role `Admin`: `hasRole('Admin')` is false | match a role or group by its name whether it is a string or an object | high, not executed | AuthContext.HasRoleNeverHoldsForServerRoles | AuthContext.HasRoleByNameAfterLogin, AuthContext.HasGroupAccessByNameAfterLogin |
| pages/chat/index.tsx:143-165 | with the cursor at 0, `lastIndexOf('@', -1)` still finds an `@` at 0 and `substring(1, 0)` swaps its bounds | value `@abc`, cursor 0: the dropdown opens with query `@`, and picking a set removes nothing | open the dropdown only for an `@` strictly before the cursor | medium, not executed | ChatPage.CursorAtStartOpensDropdown | ChatPage.MentionBeforeCursorIsTyped |
