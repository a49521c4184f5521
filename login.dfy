/**
 * `POST /api/auth/login`: a chain of guards with fixed statuses and messages,
 * then a signed token, a `lastLoginAt` update and the public view of the user.
 */
module Login {
  import opened Wrappers
  import opened Http
  import opened Permissions
  import opened Store
  import opened Jwt

  const MsgMethodNotAllowed := "허용되지 않는 메서드입니다"
  const MsgMissingFields := "이메일과 비밀번호를 입력해주세요"
  const MsgInvalidCredentials := "이메일 또는 비밀번호가 올바르지 않습니다"
  const MsgCompareFailed := "비밀번호 검증 중 오류가 발생했습니다"
  const MsgPending := "계정이 승인 대기 중입니다. 관리자의 승인을 기다려주세요."
  const MsgInactive := "계정이 비활성화되었습니다. 관리자에게 문의하세요."
  const MsgSuspended := "계정이 일시 정지되었습니다. 관리자에게 문의하세요."
  const MsgAccountProblem := "계정에 문제가 있습니다."
  const MsgSuccess := "로그인 성공"

  datatype Credentials = Credentials(email: Option<string>, password: Option<string>)

  /** The three clock readings of one login, in milliseconds: for `iat`, for `exp` and for `lastLoginAt`. */
  datatype Clock = Clock(iatRead: nat, expRead: nat, loginAt: nat)

  /** The user as the login reply shows it: names for roles and groups, no password hash. */
  datatype UserView = UserView(
    id: string,
    email: string,
    username: Option<string>,
    status: Status,
    emailVerified: bool,
    roles: seq<string>,
    groups: seq<string>,
    permissions: seq<string>,
    lastLoginAt: Option<nat>)

  datatype LoginBody = LoginBody(message: string, token: string, user: UserView)

  /** The reply and the user table after the request. */
  datatype LoginResult = LoginResult(reply: Reply<LoginBody>, users: seq<Account>)

  /** The 403 message for an account that is not ACTIVE. */
  function StatusMessage(s: Status): string {
    match s
    case Pending => MsgPending
    case Inactive => MsgInactive
    case Suspended => MsgSuspended
    case _ => MsgAccountProblem
  }

  /** The token payload; the clock is read once for `iat` and once more for `exp`. */
  function GenerateClaims(a: Account, iatReadMs: nat, expReadMs: nat): Claims {
    Claims(a.id, a.email, a.username, a.status, Names(a.userRoles, RoleName), Names(a.userGroups, GroupName),
           Effective(a.userRoles, a.userGroups), iatReadMs / 1000, expReadMs / 1000 + TokenLifetime)
  }

  /** With a single clock reading the token expires exactly seven days after it was issued. */
  lemma ExpiryIsSevenDays(a: Account, nowMs: nat)
    ensures GenerateClaims(a, nowMs, nowMs).exp == GenerateClaims(a, nowMs, nowMs).iat + 604800
  {
  }

  /**
   * With two readings less than a second apart the lifetime is seven days, or
   * seven days and one second when the readings straddle a second boundary.
   */
  lemma ExpiryWithTwoReadings(a: Account, t1: nat, t2: nat)
    requires t1 <= t2 < t1 + 1000
    ensures var c := GenerateClaims(a, t1, t2); TokenLifetime <= c.exp - c.iat <= TokenLifetime + 1
  {
    var q1, q2 := t1 / 1000, t2 / 1000;
    assert q1 * 1000 <= t1 < q1 * 1000 + 1000;
    assert q2 * 1000 <= t2 < q2 * 1000 + 1000;
    assert q1 <= q2 <= q1 + 1;
  }

  function View(a: Account): UserView {
    UserView(a.id, a.email, a.username, a.status, a.emailVerified,
             Names(a.userRoles, RoleName), Names(a.userGroups, GroupName), Effective(a.userRoles, a.userGroups),
             a.lastLoginAt)
  }

  /**
   * The login route as a function of the request, the user table, the password
   * comparison (`None` when it throws), the signer and the clock.
   */
  function LoginRoute(verb: string, body: Credentials, users: seq<Account>,
                      compare: (string, string) -> Option<bool>, sign: Claims -> string,
                      clock: Clock): LoginResult
  {
    if verb != "POST" then LoginResult(Failure(405, MsgMethodNotAllowed), users)
    else if !Truthy(body.email) || !Truthy(body.password) then LoginResult(Failure(400, MsgMissingFields), users)
    else match FindByKey(users, AccountEmail, body.email.value)
      case None => LoginResult(Failure(401, MsgInvalidCredentials), users)
      case Some(i) =>
        var a := users[i];
        match compare(body.password.value, a.passwordHash)
        case None => LoginResult(Failure(500, MsgCompareFailed), users)
        case Some(false) => LoginResult(Failure(401, MsgInvalidCredentials), users)
        case Some(true) =>
          if a.status != Active then LoginResult(Failure(403, StatusMessage(a.status)), users)
          else
            var token := sign(GenerateClaims(a, clock.iatRead, clock.expRead));
            LoginResult(Success(200, LoginBody(MsgSuccess, token, View(a))),
                        users[i := a.(lastLoginAt := Some(clock.loginAt))])
  }

  /** A request that is not a POST is refused before anything else is looked at. */
  lemma NonPostRefusedFirst(verb: string, body: Credentials, users: seq<Account>,
                            compare: (string, string) -> Option<bool>, sign: Claims -> string, clock: Clock)
    requires verb != "POST"
    ensures LoginRoute(verb, body, users, compare, sign, clock) == LoginResult(Failure(405, MsgMethodNotAllowed), users)
  {
  }

  /** A missing email or password is refused before the table is consulted, and nothing changes. */
  lemma MissingFieldRefusedBeforeLookup(body: Credentials, users: seq<Account>, users': seq<Account>,
                                        compare: (string, string) -> Option<bool>, sign: Claims -> string, clock: Clock)
    requires !Truthy(body.email) || !Truthy(body.password)
    ensures LoginRoute("POST", body, users, compare, sign, clock).reply == Failure(400, MsgMissingFields)
    ensures LoginRoute("POST", body, users, compare, sign, clock).users == users
    ensures LoginRoute("POST", body, users, compare, sign, clock).reply
         == LoginRoute("POST", body, users', compare, sign, clock).reply
  {
  }

  /**
   * An unknown email and a wrong password get the same status and the same
   * message, so the reply does not reveal which accounts exist.
   */
  lemma NoAccountEnumeration(email: string, password: string, users: seq<Account>,
                             compare: (string, string) -> Option<bool>, sign: Claims -> string, clock: Clock)
    requires email != "" && password != ""
    requires FindByKey(users, AccountEmail, email).None?
             || compare(password, users[FindByKey(users, AccountEmail, email).value].passwordHash) == Some(false)
    ensures LoginRoute("POST", Credentials(Some(email), Some(password)), users, compare, sign, clock).reply
         == Failure(401, MsgInvalidCredentials)
  {
  }

  /**
   * The password is checked before the status: a non-ACTIVE account gets 401
   * for a wrong password and its status message (403) for the right one.
   */
  lemma PasswordCheckedBeforeStatus(email: string, password: string, users: seq<Account>,
                                    compare: (string, string) -> Option<bool>, sign: Claims -> string, clock: Clock)
    requires email != "" && password != ""
    requires FindByKey(users, AccountEmail, email).Some?
    requires users[FindByKey(users, AccountEmail, email).value].status != Active
    ensures var a := users[FindByKey(users, AccountEmail, email).value];
      var r := LoginRoute("POST", Credentials(Some(email), Some(password)), users, compare, sign, clock).reply;
      && (compare(password, a.passwordHash) == Some(false) ==> r == Failure(401, MsgInvalidCredentials))
      && (compare(password, a.passwordHash) == Some(true) ==> r == Failure(403, StatusMessage(a.status)))
  {
  }

  /** Each named status has its own message, and none of them is the credentials message. */
  lemma StatusMessagesDistinct(s: Status)
    ensures StatusMessage(s) != MsgInvalidCredentials
    ensures s == Pending <==> StatusMessage(s) == MsgPending
    ensures s == Inactive <==> StatusMessage(s) == MsgInactive
    ensures s == Suspended <==> StatusMessage(s) == MsgSuspended
  {
  }

  /**
   * A token is issued, and `lastLoginAt` written, exactly for an ACTIVE account
   * whose password matched; every other request leaves the table as it was.
   */
  lemma TokenOnlyForActiveMatchedAccount(verb: string, body: Credentials, users: seq<Account>,
                                         compare: (string, string) -> Option<bool>, sign: Claims -> string, clock: Clock)
    ensures var r := LoginRoute(verb, body, users, compare, sign, clock);
      r.reply.Success? <==>
        && verb == "POST" && Truthy(body.email) && Truthy(body.password)
        && FindByKey(users, AccountEmail, body.email.value).Some?
        && compare(body.password.value, users[FindByKey(users, AccountEmail, body.email.value).value].passwordHash) == Some(true)
        && users[FindByKey(users, AccountEmail, body.email.value).value].status == Active
    ensures var r := LoginRoute(verb, body, users, compare, sign, clock);
      !r.reply.Success? ==> r.users == users
  {
  }

  /**
   * On success: the token signs the account's claims, the reply's roles, groups
   * and permissions are the token's, the reply shows the `lastLoginAt` read
   * before the update, and only that account's `lastLoginAt` changes.
   */
  lemma SuccessfulLogin(email: string, password: string, users: seq<Account>,
                        compare: (string, string) -> Option<bool>, sign: Claims -> string, clock: Clock)
    requires LoginRoute("POST", Credentials(Some(email), Some(password)), users, compare, sign, clock).reply.Success?
    ensures FindByKey(users, AccountEmail, email).Some?
    ensures var i := FindByKey(users, AccountEmail, email).value;
      var a := users[i];
      var c := GenerateClaims(a, clock.iatRead, clock.expRead);
      var r := LoginRoute("POST", Credentials(Some(email), Some(password)), users, compare, sign, clock);
      && r.reply.body.token == sign(c)
      && r.reply.body.user.permissions == c.permissions
      && r.reply.body.user.roles == c.roles && r.reply.body.user.groups == c.groups
      && r.reply.body.user.lastLoginAt == a.lastLoginAt
      && |r.users| == |users|
      && r.users[i] == a.(lastLoginAt := Some(clock.loginAt))
      && forall j :: 0 <= j < |users| && j != i ==> r.users[j] == users[j]
  {
  }

  /** The login handler: the guards in source order, then the token, the update and the reply. */
  method HandleLogin(db: Db, verb: string, body: Credentials,
                     compare: (string, string) -> Option<bool>, sign: Claims -> string, clock: Clock)
    returns (reply: Reply<LoginBody>)
    requires db.Valid()
    modifies db`users
    ensures db.Valid()
    ensures LoginResult(reply, db.users) == LoginRoute(verb, body, old(db.users), compare, sign, clock)
  {
    if verb != "POST" {
      return Failure(405, MsgMethodNotAllowed);
    }
    if !Truthy(body.email) || !Truthy(body.password) {
      return Failure(400, MsgMissingFields);
    }
    var found := FindByKey(db.users, AccountEmail, body.email.value);
    if found.None? {
      return Failure(401, MsgInvalidCredentials);
    }
    var user := db.users[found.value];
    var matched := compare(body.password.value, user.passwordHash);
    if matched.None? {
      return Failure(500, MsgCompareFailed);
    }
    if !matched.value {
      return Failure(401, MsgInvalidCredentials);
    }
    if user.status != Active {
      return Failure(403, StatusMessage(user.status));
    }
    var token := sign(GenerateClaims(user, clock.iatRead, clock.expRead));
    db.users := db.users[found.value := user.(lastLoginAt := Some(clock.loginAt))];
    var permissions := ExtractPermissions(user.userRoles, user.userGroups);
    reply := Success(200, LoginBody(MsgSuccess, token,
      UserView(user.id, user.email, user.username, user.status, user.emailVerified,
               Names(user.userRoles, RoleName), Names(user.userGroups, GroupName), permissions, user.lastLoginAt)));
  }
}
