/**
 * `GET /api/auth/me`: the Bearer token's `userId` names the account, and the
 * reply reports that account with its permissions recomputed from its current
 * role and group grants.
 */
module Me {
  import opened Wrappers
  import opened Http
  import opened Permissions
  import opened Store
  import opened Jwt
  import opened JsString
  import Login

  const MsgTokenRequired := "인증 토큰이 필요합니다"
  const MsgInvalidToken := "유효하지 않은 토큰입니다"
  const MsgUserNotFound := "사용자를 찾을 수 없습니다"
  const MsgSuccess := "사용자 정보 조회 성공"

  /** The account as `/me` shows it: the login view plus `createdAt`. */
  datatype MeUser = MeUser(
    id: string,
    email: string,
    username: Option<string>,
    status: Status,
    emailVerified: bool,
    roles: seq<string>,
    groups: seq<string>,
    permissions: seq<string>,
    lastLoginAt: Option<nat>,
    createdAt: nat)

  datatype MeBody = MeBody(message: string, user: MeUser)

  function Describe(a: Account): MeUser {
    MeUser(a.id, a.email, a.username, a.status, a.emailVerified, Names(a.userRoles, RoleName),
           Names(a.userGroups, GroupName), Effective(a.userRoles, a.userGroups), a.lastLoginAt, a.createdAt)
  }

  /** The route as a function of the method, the Authorization header, the table and the verifier. */
  function MeRoute(verb: string, header: Option<string>, users: seq<Account>,
                   verify: string -> Option<Claims>): Reply<MeBody>
  {
    if verb != "GET" then Failure(405, Login.MsgMethodNotAllowed)
    else match BearerAuth(header, verify)
      case NoToken => Failure(401, MsgTokenRequired)
      case BadToken => Failure(401, MsgInvalidToken)
      case Authorized(claims) =>
        match FindByKey(users, AccountId, claims.userId)
        case None => Failure(404, MsgUserNotFound)
        case Some(i) => Success(200, MeBody(MsgSuccess, Describe(users[i])))
  }

  /** A request that is not a GET is refused before the header is read. */
  lemma NonGetRefusedFirst(verb: string, header: Option<string>, users: seq<Account>,
                           verify: string -> Option<Claims>)
    requires verb != "GET"
    ensures MeRoute(verb, header, users, verify) == Failure(405, Login.MsgMethodNotAllowed)
  {
  }

  /**
   * Without a Bearer header the reply is 401 "token required"; with one, a token
   * the verifier rejects is 401 "invalid token". The token is the header minus
   * its first seven characters.
   */
  lemma UnauthenticatedIs401(header: Option<string>, users: seq<Account>, verify: string -> Option<Claims>)
    ensures !HasBearer(header) ==> MeRoute("GET", header, users, verify) == Failure(401, MsgTokenRequired)
    ensures HasBearer(header) && verify(TokenBySubstring(header.value)).None?
            ==> MeRoute("GET", header, users, verify) == Failure(401, MsgInvalidToken)
  {
  }

  /** A valid token whose `userId` names no account is 404; one that does gives that account. */
  lemma LookupByTokenUserId(header: Option<string>, users: seq<Account>, verify: string -> Option<Claims>)
    requires HasBearer(header) && verify(TokenBySubstring(header.value)).Some?
    ensures var c := verify(TokenBySubstring(header.value)).value;
      var r := MeRoute("GET", header, users, verify);
      && (FindByKey(users, AccountId, c.userId).None? <==> r == Failure(404, MsgUserNotFound))
      && (r.Success? ==> r.body.user.id == c.userId && r.body.user == Describe(users[FindByKey(users, AccountId, c.userId).value]))
  {
  }

  /**
   * The reply depends on the token only through its `userId`: the roles, groups
   * and permissions the token carries are never read.
   */
  lemma IgnoresTokenPermissions(h1: Option<string>, h2: Option<string>, users: seq<Account>,
                                verify: string -> Option<Claims>)
    requires HasBearer(h1) && HasBearer(h2)
    requires verify(TokenBySubstring(h1.value)).Some? && verify(TokenBySubstring(h2.value)).Some?
    requires verify(TokenBySubstring(h1.value)).value.userId == verify(TokenBySubstring(h2.value)).value.userId
    ensures MeRoute("GET", h1, users, verify) == MeRoute("GET", h2, users, verify)
  {
  }

  /**
   * The permissions in a 200 reply are exactly the account's current effective
   * set, without duplicates.
   */
  lemma LivePermissions(header: Option<string>, users: seq<Account>, verify: string -> Option<Claims>, x: string)
    requires MeRoute("GET", header, users, verify).Success?
    ensures var a := users[FindByKey(users, AccountId, verify(TokenBySubstring(header.value)).value.userId).value];
      var p := MeRoute("GET", header, users, verify).body.user.permissions;
      NoDuplicates(p) && (x in p <==> x in EffectiveSet(a.userRoles, a.userGroups))
  {
    var a := users[FindByKey(users, AccountId, verify(TokenBySubstring(header.value)).value.userId).value];
    EffectiveIsSet(a.userRoles, a.userGroups);
  }

  /**
   * A grant added to one of the user's groups after login shows up in `/me`
   * although the token, issued before, does not carry it.
   */
  lemma GrantAfterLoginVisible(users: seq<Account>, i: nat, k: nat, p: Permission,
                               verify: string -> Option<Claims>, sign: Claims -> string,
                               iatMs: nat, expMs: nat)
    requires i < |users| && DistinctKeys(users, AccountId)
    requires k < |users[i].userGroups|
    requires forall c :: verify(sign(c)) == Some(c)
    ensures var a := users[i];
      var g := a.userGroups[k].(groupPermissions := a.userGroups[k].groupPermissions + [Grant(Some(p))]);
      var users' := users[i := a.(userGroups := a.userGroups[k := g])];
      var token := sign(Login.GenerateClaims(a, iatMs, expMs));
      var r := MeRoute("GET", Some("Bearer " + token), users', verify);
      r.Success? && Canonical(p) in r.body.user.permissions
  {
    var a := users[i];
    var g := a.userGroups[k].(groupPermissions := a.userGroups[k].groupPermissions + [Grant(Some(p))]);
    var a' := a.(userGroups := a.userGroups[k := g]);
    var users' := users[i := a'];
    var c := Login.GenerateClaims(a, iatMs, expMs);
    var header := "Bearer " + sign(c);
    SubstringTokenRoundTrip(header);
    assert TokenBySubstring(header) == sign(c);
    assert forall j :: 0 <= j < |users'| && j != i ==> AccountId(users'[j]) != c.userId;
    assert c.userId == a.id && AccountId(users'[i]) == c.userId;
    var found := FindByKey(users', AccountId, c.userId);
    assert found.Some? && found.value <= i;
    assert found == Some(i);
    GrantAddedToGroupIsEffective(a.userRoles, a.userGroups, k, p);
    EffectiveIsSet(a'.userRoles, a'.userGroups);
  }

  /** The handler: guards in source order, then the lookup and the permission loop. */
  method HandleMe(db: Db, verb: string, header: Option<string>, verify: string -> Option<Claims>)
    returns (reply: Reply<MeBody>)
    ensures reply == MeRoute(verb, header, db.users, verify)
  {
    if verb != "GET" {
      return Failure(405, Login.MsgMethodNotAllowed);
    }
    if header.None? || !StartsWith(header.value, BearerPrefix) {
      return Failure(401, MsgTokenRequired);
    }
    var token := TokenBySubstring(header.value);
    var decoded := verify(token);
    if decoded.None? {
      return Failure(401, MsgInvalidToken);
    }
    var found := FindByKey(db.users, AccountId, decoded.value.userId);
    if found.None? {
      return Failure(404, MsgUserNotFound);
    }
    var user := db.users[found.value];
    var permissions := ExtractPermissions(user.userRoles, user.userGroups);
    reply := Success(200, MeBody(MsgSuccess,
      MeUser(user.id, user.email, user.username, user.status, user.emailVerified, Names(user.userRoles, RoleName),
             Names(user.userGroups, GroupName), permissions, user.lastLoginAt, user.createdAt)));
  }
}
