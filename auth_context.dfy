/**
 * The client's session state: a reducer over a closed set of actions, the
 * provider that drives it from the stored token, the `/me` and login replies,
 * and the capability queries the UI asks.
 */
module AuthContext {
  import opened Wrappers
  import opened Http
  import opened Permissions
  import Store
  import Jwt
  import Login
  import Me

  /**
   * A role or group as the client holds it. The server sends bare names
   * (`Name`); the client's types expect objects with an id, a name and their
   * permissions (`Record`). A bare string has no `id`, `name` or `permissions`.
   */
  datatype Entry =
    | Name(name: string)
    | Record(id: Option<string>, entryName: Option<string>, permissions: Option<seq<Permission>>)

  function EntryId(e: Entry): Option<string> {
    if e.Record? then e.id else None
  }

  function EntryName(e: Entry): Option<string> {
    if e.Record? then e.entryName else None
  }

  function EntryPermissions(e: Entry): seq<Permission> {
    if e.Record? && e.permissions.Some? then e.permissions.value else []
  }

  /** The user object of a reply, as far as the client reads it. */
  datatype ClientUser = ClientUser(
    id: string,
    email: string,
    roles: Option<seq<Entry>>,
    groups: Option<seq<Entry>>,
    permissions: Option<seq<string>>)

  function Names(names: seq<string>): (es: seq<Entry>)
    ensures |es| == |names|
    ensures forall i :: 0 <= i < |names| ==> es[i] == Name(names[i])
  {
    if names == [] then [] else [Name(names[0])] + Names(names[1..])
  }

  /** The `user` of a `/me` reply as the client receives it. */
  function FromMe(u: Me.MeUser): ClientUser {
    ClientUser(u.id, u.email, Some(Names(u.roles)), Some(Names(u.groups)), Some(u.permissions))
  }

  /** The `user` of a login reply as the client receives it. */
  function FromLogin(u: Login.UserView): ClientUser {
    ClientUser(u.id, u.email, Some(Names(u.roles)), Some(Names(u.groups)), Some(u.permissions))
  }

  datatype AuthState = AuthState(
    user: Option<ClientUser>,
    token: Option<string>,
    isAuthenticated: bool,
    isLoading: bool,
    permissions: seq<string>,
    groups: seq<Entry>,
    roles: seq<Entry>)

  /** Signed out, loading, nothing granted. */
  const InitialState := AuthState(None, None, false, true, [], [], [])

  datatype Action =
    | LoginAction(loginUser: Option<ClientUser>, loginToken: Option<string>, grantList: Option<seq<string>>)
    | LogoutAction
    | SetLoading(loading: bool)
    | SetUser(newUser: Option<ClientUser>)
    | UpdatePermissions(newPermissions: seq<string>)
    | UnknownAction(kind: string)

  /** `user?.groups || []` and `user?.roles || []`. */
  function GroupsOf(u: Option<ClientUser>): seq<Entry> {
    if u.Some? && u.value.groups.Some? then u.value.groups.value else []
  }

  function RolesOf(u: Option<ClientUser>): seq<Entry> {
    if u.Some? && u.value.roles.Some? then u.value.roles.value else []
  }

  /** `authReducer`. */
  function AuthReducer(s: AuthState, a: Action): AuthState {
    match a
    case LoginAction(u, t, p) =>
      s.(user := u, token := t, isAuthenticated := true, isLoading := false,
         permissions := p.GetOr([]), groups := GroupsOf(u), roles := RolesOf(u))
    case LogoutAction => InitialState.(isLoading := false)
    case SetLoading(b) => s.(isLoading := b)
    case SetUser(u) => s.(user := u, groups := GroupsOf(u), roles := RolesOf(u))
    case UpdatePermissions(p) => s.(permissions := p)
    case UnknownAction(_) => s
  }

  lemma InitialStateIsSignedOut()
    ensures !InitialState.isAuthenticated && InitialState.isLoading
    ensures InitialState.user.None? && InitialState.token.None?
    ensures InitialState.permissions == [] && InitialState.groups == [] && InitialState.roles == []
  {
  }

  /**
   * LOGIN authenticates and ends loading; permissions come from the payload
   * (or are empty), groups and roles from the payload's user (or are empty).
   */
  lemma LoginTransition(s: AuthState, u: Option<ClientUser>, t: Option<string>, p: Option<seq<string>>)
    ensures var s' := AuthReducer(s, LoginAction(u, t, p));
      && s'.isAuthenticated && !s'.isLoading && s'.user == u && s'.token == t
      && (s'.permissions == if p.Some? then p.value else [])
      && (s'.groups == if u.Some? && u.value.groups.Some? then u.value.groups.value else [])
      && (s'.roles == if u.Some? && u.value.roles.Some? then u.value.roles.value else [])
  {
  }

  /** LOGOUT gives the same state whatever came before: signed out, not loading. */
  lemma LogoutForgetsEverything(s1: AuthState, s2: AuthState)
    ensures AuthReducer(s1, LogoutAction) == AuthReducer(s2, LogoutAction)
    ensures var s' := AuthReducer(s1, LogoutAction);
      !s'.isAuthenticated && !s'.isLoading && s'.user.None? && s'.token.None?
      && s'.permissions == [] && s'.groups == [] && s'.roles == []
  {
  }

  /** Every other action changes only its own fields; an unknown one changes nothing. */
  lemma ActionsChangeOnlyTheirFields(s: AuthState, b: bool, u: Option<ClientUser>, p: seq<string>, kind: string)
    ensures AuthReducer(s, SetLoading(b)) == s.(isLoading := b)
    ensures AuthReducer(s, UpdatePermissions(p)) == s.(permissions := p)
    ensures var s' := AuthReducer(s, SetUser(u));
      s' == s.(user := u, groups := s'.groups, roles := s'.roles)
      && s'.groups == GroupsOf(u) && s'.roles == RolesOf(u)
    ensures AuthReducer(s, UnknownAction(kind)) == s
  {
  }

  /** The session is authenticated after an action exactly when it was LOGIN, or it already was and the action was not LOGOUT. */
  lemma AuthenticatedOnlyThroughLogin(s: AuthState, a: Action)
    ensures AuthReducer(s, a).isAuthenticated <==> a.LoginAction? || (s.isAuthenticated && !a.LogoutAction?)
  {
  }

  // ------------------------------------------------------------ client permission walk

  function PermissionStrings(ps: seq<Permission>): seq<string> {
    if ps == [] then [] else PermissionStrings(ps[..|ps| - 1]) + [Canonical(ps[|ps| - 1])]
  }

  /** Every entry's permission strings, entry after entry. */
  function EntryStrings(es: seq<Entry>): seq<string> {
    if es == [] then [] else EntryStrings(es[..|es| - 1]) + PermissionStrings(EntryPermissions(es[|es| - 1]))
  }

  /** The client's `extractPermissions`: `roles[].permissions`, then `groups[].permissions`, deduplicated. */
  function ClientEffective(u: ClientUser): seq<string> {
    Dedup(EntryStrings(u.roles.GetOr([])) + EntryStrings(u.groups.GetOr([])))
  }

  /** Entries that are bare names contribute nothing. */
  lemma {:induction false} NamesHaveNoPermissions(names: seq<string>)
    ensures EntryStrings(Names(names)) == []
  {
    if names != [] {
      var es := Names(names);
      NamesHaveNoPermissions(names[..|names| - 1]);
      assert es[..|es| - 1] == Names(names[..|names| - 1]);
    }
  }

  /** Adding `x` to the set built from `seen`. */
  lemma DedupSnoc(seen: seq<string>, x: string)
    ensures Dedup(seen + [x]) == if x in Dedup(seen) then Dedup(seen) else Dedup(seen) + [x]
  {
    assert (seen + [x])[..|seen|] == seen;
  }

  /** The inner `forEach`: one entry's permissions added to the set built from `base`. */
  method AddPermissions(acc: seq<string>, base: seq<string>, ps: seq<Permission>) returns (acc': seq<string>)
    requires acc == Dedup(base)
    ensures acc' == Dedup(base + PermissionStrings(ps))
  {
    acc' := acc;
    assert ps[..0] == [] && base + PermissionStrings([]) == base;
    for j := 0 to |ps|
      invariant acc' == Dedup(base + PermissionStrings(ps[..j]))
    {
      var x := Canonical(ps[j]);
      assert ps[..j + 1][..j] == ps[..j];
      assert base + PermissionStrings(ps[..j + 1]) == (base + PermissionStrings(ps[..j])) + [x];
      DedupSnoc(base + PermissionStrings(ps[..j]), x);
      if x !in acc' {
        acc' := acc' + [x];
      }
    }
    assert ps[..|ps|] == ps;
  }

  /** The outer `forEach` over one list of entries, continuing the set built from `seen`. */
  method AddEntries(acc: seq<string>, seen: seq<string>, es: seq<Entry>) returns (acc': seq<string>)
    requires acc == Dedup(seen)
    ensures acc' == Dedup(seen + EntryStrings(es))
  {
    acc' := acc;
    assert es[..0] == [] && seen + EntryStrings([]) == seen;
    for i := 0 to |es|
      invariant acc' == Dedup(seen + EntryStrings(es[..i]))
    {
      var ps := EntryPermissions(es[i]);
      var base := seen + EntryStrings(es[..i]);
      acc' := AddPermissions(acc', base, ps);
      EntryStringsStep(es, i);
      AppendAssociates(seen, EntryStrings(es[..i]), PermissionStrings(ps));
    }
    assert es[..|es|] == es;
  }

  lemma AppendAssociates(a: seq<string>, b: seq<string>, c: seq<string>)
    ensures a + (b + c) == (a + b) + c
  {
  }

  lemma EntryStringsStep(es: seq<Entry>, i: nat)
    requires i < |es|
    ensures EntryStrings(es[..i + 1]) == EntryStrings(es[..i]) + PermissionStrings(EntryPermissions(es[i]))
  {
    assert es[..i + 1][..i] == es[..i];
  }

  /** `extractPermissions` of the provider: roles first, then groups, into one set. */
  method ClientExtractPermissions(u: ClientUser) returns (permissions: seq<string>)
    ensures permissions == ClientEffective(u)
  {
    var roles, groups := u.roles.GetOr([]), u.groups.GetOr([]);
    assert [] + EntryStrings(roles) == EntryStrings(roles);
    permissions := AddEntries([], [], roles);
    permissions := AddEntries(permissions, EntryStrings(roles), groups);
  }

  // ------------------------------------------------------------ capability queries

  /** `hasPermission`: exact membership in the state's permissions. */
  predicate HasPermission(s: AuthState, p: string) {
    p in s.permissions
  }

  /** `hasRole`: some role's `name` equals the argument. */
  predicate HasRole(s: AuthState, roleName: string) {
    exists i :: 0 <= i < |s.roles| && EntryName(s.roles[i]) == Some(roleName)
  }

  /** `hasGroupAccess`: some group's `id` equals the argument. */
  predicate HasGroupAccess(s: AuthState, groupId: string) {
    exists i :: 0 <= i < |s.groups| && EntryId(s.groups[i]) == Some(groupId)
  }

  /**
   * UPDATE_PERMISSIONS replaces what `hasPermission` answers: afterwards it holds
   * exactly for the new list, and the role and group queries are untouched.
   */
  lemma UpdatedPermissionsDecide(s: AuthState, ps: seq<string>, p: string, roleName: string, groupId: string)
    ensures var s' := AuthReducer(s, UpdatePermissions(ps));
      && (HasPermission(s', p) <==> p in ps)
      && (HasRole(s', roleName) <==> HasRole(s, roleName))
      && (HasGroupAccess(s', groupId) <==> HasGroupAccess(s, groupId))
  {
  }

  // ------------------------------------------------------------ provider

  /** What the token decoder yields: the `exp` claim, when there is one. */
  datatype Decoded = Decoded(exp: Option<int>)

  /** A token is used on reload only when its `exp`, in milliseconds, is still ahead of the clock. */
  predicate Live(d: Decoded, nowMs: int) {
    d.exp.Some? && d.exp.value * 1000 > nowMs
  }

  /** How a `/me` request ended. */
  datatype MeOutcome = MeOk(meUser: ClientUser) | MeNotOk | MeThrew

  /** How a login request ended; `LoginThrew` carries the thrown error's message. */
  datatype LoginOutcome =
    | LoginOk(loginToken: string, loginUser: ClientUser)
    | LoginRejected(rejection: Option<string>)
    | LoginThrew(thrown: string)

  const MsgLoginFailed := "로그인에 실패했습니다"

  /** The error `login` rethrows for a failed request. */
  function LoginError(o: LoginOutcome): (message: string)
    requires !o.LoginOk?
    ensures o.LoginRejected? ==> message == if Truthy(o.rejection) then o.rejection.value else MsgLoginFailed
    ensures o.LoginThrew? ==> message == o.thrown
  {
    match o
    case LoginRejected(m) => if Truthy(m) then m.value else MsgLoginFailed
    case LoginThrew(m) => m
  }

  class AuthProvider {
    var state: AuthState
    /** The `auth_token` slot of local storage. */
    var storedToken: Option<string>

    constructor (stored: Option<string>)
      ensures state == InitialState && storedToken == stored
    {
      state := InitialState;
      storedToken := stored;
    }

    method Dispatch(a: Action)
      modifies this`state
      ensures state == AuthReducer(old(state), a)
    {
      state := AuthReducer(state, a);
    }

    /**
     * `fetchUserInfo`: on an ok reply the session logs in with the permissions
     * the client walks out of the reply's roles and groups; otherwise the stored
     * token is removed and loading ends.
     */
    method FetchUserInfo(token: string, outcome: MeOutcome)
      modifies this
      ensures outcome.MeOk? ==> (storedToken == old(storedToken)
        && state == AuthReducer(old(state), LoginAction(Some(outcome.meUser), Some(token), Some(ClientEffective(outcome.meUser)))))
      ensures !outcome.MeOk? ==> storedToken.None? && state == old(state).(isLoading := false)
    {
      match outcome {
        case MeOk(user) =>
          var permissions := ClientExtractPermissions(user);
          Dispatch(LoginAction(Some(user), Some(token), Some(permissions)));
        case _ =>
          storedToken := None;
          Dispatch(SetLoading(false));
      }
    }

    /**
     * The mount effect. Without a stored token loading just ends; an undecodable
     * or expired token is removed; otherwise `/me` is asked with it, and the
     * header sent is returned.
     */
    method Bootstrap(decode: string -> Option<Decoded>, nowMs: int, me: string -> MeOutcome)
      returns (sent: Option<string>)
      modifies this
      ensures !Truthy(old(storedToken)) ==>
        sent.None? && storedToken == old(storedToken) && state == old(state).(isLoading := false)
      ensures Truthy(old(storedToken)) && !(decode(old(storedToken).value).Some? && Live(decode(old(storedToken).value).value, nowMs)) ==>
        sent.None? && storedToken.None? && state == old(state).(isLoading := false)
      ensures Truthy(old(storedToken)) && decode(old(storedToken).value).Some? && Live(decode(old(storedToken).value).value, nowMs) ==>
        var token := old(storedToken).value;
        sent == Some("Bearer " + token)
        && (me(token).MeOk? ==> (storedToken == old(storedToken)
            && state == AuthReducer(old(state), LoginAction(Some(me(token).meUser), Some(token), Some(ClientEffective(me(token).meUser))))))
        && (!me(token).MeOk? ==> storedToken.None? && state == old(state).(isLoading := false))
    {
      if !Truthy(storedToken) {
        Dispatch(SetLoading(false));
        return None;
      }
      var token := storedToken.value;
      var decoded := decode(token);
      if decoded.Some? && Live(decoded.value, nowMs) {
        FetchUserInfo(token, me(token));
        return Some("Bearer " + token);
      }
      storedToken := None;
      Dispatch(SetLoading(false));
      return None;
    }

    /**
     * `login`: loading starts; on success the token is stored and LOGIN carries
     * the reply's own `permissions` (or none); on failure loading ends and the
     * error is returned to the caller.
     */
    method LogIn(outcome: LoginOutcome) returns (error: Option<string>)
      modifies this
      ensures outcome.LoginOk? ==> (error.None? && storedToken == Some(outcome.loginToken)
        && state == AuthReducer(old(state).(isLoading := true),
             LoginAction(Some(outcome.loginUser), Some(outcome.loginToken), Some(outcome.loginUser.permissions.GetOr([])))))
      ensures !outcome.LoginOk? ==> (error == Some(LoginError(outcome)) && storedToken == old(storedToken)
        && state == old(state).(isLoading := false))
    {
      Dispatch(SetLoading(true));
      match outcome {
        case LoginOk(token, user) =>
          var permissions := user.permissions.GetOr([]);
          storedToken := Some(token);
          Dispatch(LoginAction(Some(user), Some(token), Some(permissions)));
          error := None;
        case _ =>
          Dispatch(SetLoading(false));
          error := Some(LoginError(outcome));
      }
    }

    /** `logout`: the stored token is removed and the session signed out. */
    method LogOut()
      modifies this
      ensures storedToken.None? && state == AuthReducer(old(state), LogoutAction)
    {
      storedToken := None;
      Dispatch(LogoutAction);
    }

    /** `refreshToken`: with a stored token, `fetchUserInfo` again; otherwise nothing. */
    method RefreshToken(me: string -> MeOutcome)
      modifies this
      ensures !Truthy(old(storedToken)) ==> state == old(state) && storedToken == old(storedToken)
      ensures Truthy(old(storedToken)) && me(old(storedToken).value).MeOk? ==>
        var token := old(storedToken).value;
        storedToken == old(storedToken)
        && state == AuthReducer(old(state), LoginAction(Some(me(token).meUser), Some(token), Some(ClientEffective(me(token).meUser))))
      ensures Truthy(old(storedToken)) && !me(old(storedToken).value).MeOk? ==>
        storedToken.None? && state == old(state).(isLoading := false)
    {
      if Truthy(storedToken) {
        var token := storedToken.value;
        FetchUserInfo(token, me(token));
      }
    }
  }

  // ------------------------------------------------------------ properties across client and server

  /**
   * After a login, `hasPermission` answers from the server's effective set:
   * the login reply's permissions reach the state unchanged.
   */
  lemma LoginGrantsServerPermissions(s: AuthState, token: string, view: Login.UserView, p: string)
    ensures var s' := AuthReducer(s.(isLoading := true), LoginAction(Some(FromLogin(view)), Some(token), Some(view.permissions)));
      s'.isAuthenticated && s'.permissions == view.permissions && (HasPermission(s', p) <==> p in view.permissions)
  {
  }

  /**
   * As written, a reload signs the user in with no permissions at all: the
   * `/me` reply names roles and groups by string, which carry no
   * `permissions`, and the reply's own `permissions` field is not read.
   */
  lemma BootstrapDropsPermissions(u: Me.MeUser)
    ensures ClientEffective(FromMe(u)) == []
  {
    NamesHaveNoPermissions(u.roles);
    NamesHaveNoPermissions(u.groups);
  }

  /** Concretely: a user holding `agents:read` loses it on reload. */
  lemma ReloadLosesGrantedPermission(s: AuthState, token: string, u: Me.MeUser)
    requires "agents:read" in u.permissions
    ensures var s' := AuthReducer(s, LoginAction(Some(FromMe(u)), Some(token), Some(ClientEffective(FromMe(u)))));
      s'.isAuthenticated && !HasPermission(s', "agents:read")
  {
    BootstrapDropsPermissions(u);
  }

  /** The evidently intended reload: take the `/me` reply's permissions, as `login` does. */
  function ReloadPermissions(u: ClientUser): seq<string> {
    u.permissions.GetOr([])
  }

  /**
   * With the intended reload the state's permissions are the server's live
   * effective set, the same answer login gives.
   */
  lemma ReloadKeepsServerPermissions(header: Option<string>, users: seq<Store.Account>,
                                     verify: string -> Option<Jwt.Claims>, s: AuthState, token: string, p: string)
    requires Me.MeRoute("GET", header, users, verify).Success?
    ensures var u := Me.MeRoute("GET", header, users, verify).body.user;
      var a := users[Store.FindByKey(users, Store.AccountId, verify(TokenBySubstring(header.value)).value.userId).value];
      var s' := AuthReducer(s, LoginAction(Some(FromMe(u)), Some(token), Some(ReloadPermissions(FromMe(u)))));
      HasPermission(s', p) <==> p in EffectiveSet(a.userRoles, a.userGroups)
  {
    Me.LivePermissions(header, users, verify, p);
  }

  /**
   * As written, `hasRole` is false for every name once the roles come from a
   * server reply: bare strings have no `name` property. `hasGroupAccess` is
   * false for the same reason.
   */
  lemma HasRoleNeverHoldsForServerRoles(s: AuthState, token: string, view: Login.UserView, roleName: string, groupId: string)
    ensures var s' := AuthReducer(s, LoginAction(Some(FromLogin(view)), Some(token), Some(view.permissions)));
      !HasRole(s', roleName) && !HasGroupAccess(s', groupId)
  {
  }

  /** The evidently intended `hasRole`: a role matches by its name, whether sent as a string or an object. */
  predicate HasRoleByName(s: AuthState, roleName: string) {
    exists i :: 0 <= i < |s.roles| && (s.roles[i] == Name(roleName) || EntryName(s.roles[i]) == Some(roleName))
  }

  /** With the intended `hasRole`, a logged-in user has exactly the roles the login reply names. */
  lemma HasRoleByNameAfterLogin(s: AuthState, token: string, view: Login.UserView, roleName: string)
    ensures var s' := AuthReducer(s, LoginAction(Some(FromLogin(view)), Some(token), Some(view.permissions)));
      HasRoleByName(s', roleName) <==> roleName in view.roles
  {
    var s' := AuthReducer(s, LoginAction(Some(FromLogin(view)), Some(token), Some(view.permissions)));
    if roleName in view.roles {
      var i :| 0 <= i < |view.roles| && view.roles[i] == roleName;
      assert s'.roles[i] == Name(roleName);
    }
  }

  /**
   * The evidently intended `hasGroupAccess`: the server identifies a group only
   * by the string it sends, so a group matches when it is that string or an
   * object with that id.
   */
  predicate HasGroupAccessByName(s: AuthState, group: string) {
    exists i :: 0 <= i < |s.groups| && (s.groups[i] == Name(group) || EntryId(s.groups[i]) == Some(group))
  }

  /** With the intended `hasGroupAccess`, a logged-in user reaches exactly the groups the login reply names. */
  lemma HasGroupAccessByNameAfterLogin(s: AuthState, token: string, view: Login.UserView, group: string)
    ensures var s' := AuthReducer(s, LoginAction(Some(FromLogin(view)), Some(token), Some(view.permissions)));
      HasGroupAccessByName(s', group) <==> group in view.groups
  {
    var s' := AuthReducer(s, LoginAction(Some(FromLogin(view)), Some(token), Some(view.permissions)));
    if group in view.groups {
      var i :| 0 <= i < |view.groups| && view.groups[i] == group;
      assert s'.groups[i] == Name(group);
    }
  }
}
