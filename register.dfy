/**
 * `POST /api/auth/register`: the password-strength and email-format checks,
 * then the guard chain, the creation of a PENDING account and its link to the
 * default group and role.
 */
module Register {
  import opened Wrappers
  import opened JsString
  import opened Http
  import opened Permissions
  import opened Store
  import Jwt
  import Login

  const MsgRequired := "이메일과 비밀번호는 필수입니다."
  const MsgBadEmail := "올바른 이메일 형식이 아닙니다."
  const MsgDuplicate := "이미 사용 중인 이메일입니다."
  const MsgServerError := "서버 오류가 발생했습니다."
  const MsgRegistered := "회원가입이 완료되었습니다. 관리자 승인 후 서비스를 이용하실 수 있습니다."

  const MsgTooShort := "비밀번호는 최소 8자 이상이어야 합니다."
  const MsgNoLower := "비밀번호에 소문자가 포함되어야 합니다."
  const MsgNoUpper := "비밀번호에 대문자가 포함되어야 합니다."
  const MsgNoDigit := "비밀번호에 숫자가 포함되어야 합니다."
  const MsgNoSpecial := "비밀번호에 특수문자(@$!%*?&)가 포함되어야 합니다."

  const DefaultGroupName := "General Users"
  const DefaultRoleName := "User"

  // ------------------------------------------------------------ password

  predicate IsLower(c: char) { 'a' <= c <= 'z' }
  predicate IsUpper(c: char) { 'A' <= c <= 'Z' }
  predicate IsDigit(c: char) { '0' <= c <= '9' }
  predicate IsSpecial(c: char) { c in "@$!%*?&" }

  /** The lookahead `(?=.*[a-z])` succeeds at some position exactly when some character is in the class. */
  predicate HasLower(s: string) { exists i :: 0 <= i < |s| && IsLower(s[i]) }
  predicate HasUpper(s: string) { exists i :: 0 <= i < |s| && IsUpper(s[i]) }
  predicate HasDigit(s: string) { exists i :: 0 <= i < |s| && IsDigit(s[i]) }
  predicate HasSpecial(s: string) { exists i :: 0 <= i < |s| && IsSpecial(s[i]) }

  datatype PasswordCheck = PasswordOk | PasswordWeak(message: string)

  /**
   * `validatePassword`: the first failing check decides the message, in the
   * order length, lower case, upper case, digit, special character.
   */
  function ValidatePassword(pw: string): (r: PasswordCheck)
    ensures r.PasswordOk? <==> |pw| >= 8 && HasLower(pw) && HasUpper(pw) && HasDigit(pw) && HasSpecial(pw)
    ensures |pw| < 8 ==> r == PasswordWeak(MsgTooShort)
    ensures |pw| >= 8 && !HasLower(pw) ==> r == PasswordWeak(MsgNoLower)
    ensures |pw| >= 8 && HasLower(pw) && !HasUpper(pw) ==> r == PasswordWeak(MsgNoUpper)
    ensures |pw| >= 8 && HasLower(pw) && HasUpper(pw) && !HasDigit(pw) ==> r == PasswordWeak(MsgNoDigit)
    ensures |pw| >= 8 && HasLower(pw) && HasUpper(pw) && HasDigit(pw) && !HasSpecial(pw) ==> r == PasswordWeak(MsgNoSpecial)
  {
    if |pw| < 8 then PasswordWeak(MsgTooShort)
    else if !HasLower(pw) then PasswordWeak(MsgNoLower)
    else if !HasUpper(pw) then PasswordWeak(MsgNoUpper)
    else if !HasDigit(pw) then PasswordWeak(MsgNoDigit)
    else if !HasSpecial(pw) then PasswordWeak(MsgNoSpecial)
    else PasswordOk
  }

  /** A sample short password with every character class still fails on length. */
  lemma ShortPasswordExample()
    ensures ValidatePassword("Ab1!") == PasswordWeak(MsgTooShort)
  {
  }

  /** A sample eight-character password whose only symbol is `#`: `#` is not an accepted special character. */
  lemma HashSignIsNotSpecial()
    ensures ValidatePassword("Passw0rd#") == PasswordWeak(MsgNoSpecial)
  {
    var pw := "Passw0rd#";
    assert IsUpper(pw[0]) && IsLower(pw[1]) && IsDigit(pw[5]);
    forall i | 0 <= i < |pw|
      ensures !IsSpecial(pw[i])
    {
    }
  }

  lemma StrongPasswordExample()
    ensures ValidatePassword("Passw0rd!") == PasswordOk
  {
    var pw := "Passw0rd!";
    assert IsUpper(pw[0]) && IsLower(pw[1]) && IsDigit(pw[5]) && IsSpecial(pw[8]);
  }

  // ------------------------------------------------------------ email

  /** A character `[^\s@]` matches. */
  predicate Plain(c: char) { !IsSpace(c) && c != '@' }

  /**
   * The whole string matches `^[^\s@]+@[^\s@]+\.[^\s@]+$`: an `@` at `at` and a
   * `.` at `dot`, each part non-empty, every other character plain.
   */
  ghost predicate MatchesEmailPattern(s: string) {
    exists at, dot :: 0 < at && at + 1 < dot < |s| - 1 && s[at] == '@' && s[dot] == '.'
      && forall j :: 0 <= j < |s| && j != at ==> Plain(s[j])
  }

  /** The domain has a `.` that is neither its first nor its last character. */
  predicate InteriorDot(d: string) {
    exists k :: 0 < k < |d| - 1 && d[k] == '.'
  }

  /**
   * `validateEmail`: one `@` with text before it, no white space, and a `.`
   * after it with text on both sides.
   */
  function ValidateEmail(s: string): (ok: bool)
    ensures var at := IndexOf(s, '@');
      ok <==> && at > 0 && NoSpace(s)
              && (forall j :: 0 <= j < |s| && j != at ==> s[j] != '@')
              && (exists k :: at + 1 < k < |s| - 1 && s[k] == '.')
  {
    var at := IndexOf(s, '@');
    if at <= 0 then false
    else
      DomainShift(s, at);
      NoSpace(s) && IndexOf(s[at + 1..], '@') < 0 && InteriorDot(s[at + 1..])
  }

  /** What the checks on the domain `s[at + 1..]` say about `s` itself. */
  lemma DomainShift(s: string, at: int)
    requires 0 <= at < |s|
    ensures IndexOf(s[at + 1..], '@') < 0 <==> forall j :: at < j < |s| ==> s[j] != '@'
    ensures InteriorDot(s[at + 1..]) <==> exists k :: at + 1 < k < |s| - 1 && s[k] == '.'
  {
    var d := s[at + 1..];
    if IndexOf(d, '@') >= 0 {
      assert s[at + 1 + IndexOf(d, '@')] == '@';
    } else {
      forall j | at < j < |s|
        ensures s[j] != '@'
      {
        assert s[j] == d[j - at - 1];
      }
    }
    if InteriorDot(d) {
      var k :| 0 < k < |d| - 1 && d[k] == '.';
      assert s[at + 1 + k] == '.';
    }
    if exists k :: at + 1 < k < |s| - 1 && s[k] == '.' {
      var k :| at + 1 < k < |s| - 1 && s[k] == '.';
      assert d[k - at - 1] == '.';
    }
  }

  /** The check accepts exactly the strings the regular expression matches. */
  lemma ValidateEmailMatchesPattern(s: string)
    ensures ValidateEmail(s) <==> MatchesEmailPattern(s)
  {
    var at := IndexOf(s, '@');
    if ValidateEmail(s) {
      var d := s[at + 1..];
      var k :| 0 < k < |d| - 1 && d[k] == '.';
      var dot := at + 1 + k;
      assert s[dot] == d[k];
      forall j | 0 <= j < |s| && j != at
        ensures Plain(s[j])
      {
        if j > at {
          assert s[j] == d[j - at - 1];
        }
      }
      assert 0 < at && at + 1 < dot < |s| - 1 && s[at] == '@' && s[dot] == '.';
    }
    if MatchesEmailPattern(s) {
      var a, dot :| 0 < a && a + 1 < dot < |s| - 1 && s[a] == '@' && s[dot] == '.'
        && forall j :: 0 <= j < |s| && j != a ==> Plain(s[j]);
      assert at == a;
      var d := s[at + 1..];
      assert d[dot - at - 1] == s[dot];
      forall j | 0 <= j < |d|
        ensures d[j] != '@'
      {
        assert d[j] == s[at + 1 + j];
      }
      forall j | 0 <= j < |s|
        ensures !IsSpace(s[j])
      {
        if j != at {
          assert Plain(s[j]);
        }
      }
    }
  }

  /** Sample addresses: a trailing dot still leaves an interior one. */
  lemma EmailExamplesAccepted()
    ensures ValidateEmail("a@b.c")
    ensures ValidateEmail("a@b.c.")
  {
    assert "a@b.c"[2..] == "b.c" && "b.c"[1] == '.';
    assert "a@b.c."[2..] == "b.c." && "b.c."[1] == '.';
  }

  lemma EmailExamplesMissingPart()
    ensures !ValidateEmail("a@b")
    ensures !ValidateEmail("a@.bc")
    ensures !ValidateEmail("@b.c")
  {
    assert "a@b"[2..] == "b";
    assert "a@.bc"[2..] == ".bc";
  }

  lemma EmailExamplesStrayCharacter()
    ensures !ValidateEmail("a@b@c.d")
    ensures !ValidateEmail("a b@c.d")
  {
    assert "a@b@c.d"[2..] == "b@c.d" && "b@c.d"[1] == '@';
    assert IsSpace("a b@c.d"[1]);
  }

  // ------------------------------------------------------------ handler

  datatype RegisterBody = RegisterBody(email: Option<string>, password: Option<string>, username: Option<string>)

  /** A thrown Prisma error: the unique-constraint violation (`P2002`) or anything else. */
  datatype DbError = UniqueViolation | OtherDbError

  /**
   * Which of the awaited calls throws, if any: the lookup of the email, the
   * password hash, the account insert, the lookup and link of the default
   * group, and the lookup and link of the default role.
   */
  datatype Faults = Faults(findUser: Option<DbError>, hashFails: bool, createUser: Option<DbError>,
                           findGroup: Option<DbError>, linkGroup: Option<DbError>,
                           findRole: Option<DbError>, linkRole: Option<DbError>)

  const NoFaults := Faults(None, false, None, None, None, None, None)

  /** The created user as the 201 reply shows it. */
  datatype NewUser = NewUser(id: string, email: string, username: Option<string>, status: Status,
                             emailVerified: bool, createdAt: nat)

  datatype RegisterReply = RegisterReply(message: string, user: NewUser)

  datatype RegisterResult = RegisterResult(reply: Reply<RegisterReply>, users: seq<Account>)

  /** The catch block: a unique violation reads as a duplicate email, anything else as a server error. */
  function ErrorReply(e: DbError): (r: Reply<RegisterReply>)
    ensures r.Failure?
    ensures r.status == 400 <==> e == UniqueViolation
  {
    match e
    case UniqueViolation => Failure(400, MsgDuplicate)
    case OtherDbError => Failure(500, MsgServerError)
  }

  /** The account `prisma.user.create` stores. */
  function NewAccount(id: string, email: string, passwordHash: string, username: Option<string>, now: nat): Account {
    Account(id, email, passwordHash, OrNull(username), Pending, false, [], [], None, now)
  }

  function Created(a: Account): RegisterReply {
    RegisterReply(MsgRegistered, NewUser(a.id, a.email, a.username, a.status, a.emailVerified, a.createdAt))
  }

  /**
   * The route as a function of the request, the three tables, the hash
   * function, the generated id, the clock and the faults of the three writes.
   * A failed link leaves the created account in place.
   */
  function RegisterRoute(verb: string, body: RegisterBody, users: seq<Account>, groups: seq<Group>,
                         roles: seq<Role>, hash: string -> string, newId: string, now: nat,
                         faults: Faults): RegisterResult
  {
    if verb != "POST" then RegisterResult(Failure(405, Login.MsgMethodNotAllowed), users)
    else if !Truthy(body.email) || !Truthy(body.password) then RegisterResult(Failure(400, MsgRequired), users)
    else if !ValidateEmail(body.email.value) then RegisterResult(Failure(400, MsgBadEmail), users)
    else if ValidatePassword(body.password.value).PasswordWeak? then
      RegisterResult(Failure(400, ValidatePassword(body.password.value).message), users)
    else if faults.findUser.Some? then RegisterResult(ErrorReply(faults.findUser.value), users)
    else if FindByKey(users, AccountEmail, body.email.value).Some? then RegisterResult(Failure(400, MsgDuplicate), users)
    else if faults.hashFails then RegisterResult(Failure(500, MsgServerError), users)
    else if faults.createUser.Some? then RegisterResult(ErrorReply(faults.createUser.value), users)
    else Provision(NewAccount(newId, body.email.value, hash(body.password.value), body.username, now),
                   users, groups, roles, faults)
  }

  /** The group step passes: its lookup does not throw, nor its link when the group exists. */
  predicate GroupStepOk(groups: seq<Group>, faults: Faults) {
    faults.findGroup.None? && (FindByKey(groups, GroupName, DefaultGroupName).Some? ==> faults.linkGroup.None?)
  }

  /** The role step passes: its lookup does not throw, nor its link when the role exists. */
  predicate RoleStepOk(roles: seq<Role>, faults: Faults) {
    faults.findRole.None? && (FindByKey(roles, RoleName, DefaultRoleName).Some? ==> faults.linkRole.None?)
  }

  /**
   * The writes after the checks: the account is appended, then the default
   * group is looked up and linked when it exists, then the default role. The
   * first call that throws ends the request with its error reply, and the
   * account stays stored with the links made so far.
   */
  function Provision(a: Account, users: seq<Account>, groups: seq<Group>, roles: seq<Role>,
                     faults: Faults): (r: RegisterResult)
    ensures |r.users| == |users| + 1 && r.users[..|users|] == users
    ensures r.users[|users|] == a.(userGroups := r.users[|users|].userGroups, userRoles := r.users[|users|].userRoles)
    ensures var gi := FindByKey(groups, GroupName, DefaultGroupName);
      r.users[|users|].userGroups == if GroupStepOk(groups, faults) && gi.Some? then [groups[gi.value]] else a.userGroups
    ensures var ri := FindByKey(roles, RoleName, DefaultRoleName);
      r.users[|users|].userRoles
        == if GroupStepOk(groups, faults) && RoleStepOk(roles, faults) && ri.Some? then [roles[ri.value]] else a.userRoles
    ensures r.reply.Success? <==> GroupStepOk(groups, faults) && RoleStepOk(roles, faults)
    ensures r.reply.Success? ==> r.reply == Success(201, Created(a))
    ensures !GroupStepOk(groups, faults)
      ==> r.reply == ErrorReply(if faults.findGroup.Some? then faults.findGroup.value else faults.linkGroup.value)
    ensures GroupStepOk(groups, faults) && !RoleStepOk(roles, faults)
      ==> r.reply == ErrorReply(if faults.findRole.Some? then faults.findRole.value else faults.linkRole.value)
  {
    var gi := FindByKey(groups, GroupName, DefaultGroupName);
    if faults.findGroup.Some? then RegisterResult(ErrorReply(faults.findGroup.value), users + [a])
    else if gi.Some? && faults.linkGroup.Some? then RegisterResult(ErrorReply(faults.linkGroup.value), users + [a])
    else
      var a1 := if gi.Some? then a.(userGroups := [groups[gi.value]]) else a;
      var ri := FindByKey(roles, RoleName, DefaultRoleName);
      if faults.findRole.Some? then RegisterResult(ErrorReply(faults.findRole.value), users + [a1])
      else if ri.Some? && faults.linkRole.Some? then RegisterResult(ErrorReply(faults.linkRole.value), users + [a1])
      else
        var a2 := if ri.Some? then a1.(userRoles := [roles[ri.value]]) else a1;
        RegisterResult(Success(201, Created(a)), users + [a2])
  }

  /**
   * The guards in order: 405, missing field, email format, password strength
   * (with its own message), a failed email lookup, existing email. Each leaves
   * the table unchanged.
   */
  lemma GuardOrder(verb: string, body: RegisterBody, users: seq<Account>, groups: seq<Group>, roles: seq<Role>,
                   hash: string -> string, newId: string, now: nat, faults: Faults)
    ensures var r := RegisterRoute(verb, body, users, groups, roles, hash, newId, now, faults);
      && (verb != "POST" ==> r.reply == Failure(405, Login.MsgMethodNotAllowed))
      && (verb == "POST" && (!Truthy(body.email) || !Truthy(body.password)) ==> r.reply == Failure(400, MsgRequired))
      && (verb == "POST" && Truthy(body.email) && Truthy(body.password) && !ValidateEmail(body.email.value)
          ==> r.reply == Failure(400, MsgBadEmail))
      && (verb == "POST" && Truthy(body.email) && Truthy(body.password) && ValidateEmail(body.email.value)
          && ValidatePassword(body.password.value).PasswordWeak?
          ==> r.reply == Failure(400, ValidatePassword(body.password.value).message))
      && (verb == "POST" && Truthy(body.email) && Truthy(body.password) && ValidateEmail(body.email.value)
          && ValidatePassword(body.password.value).PasswordOk? && faults.findUser.Some?
          ==> r.reply == ErrorReply(faults.findUser.value))
      && (verb == "POST" && Truthy(body.email) && Truthy(body.password) && ValidateEmail(body.email.value)
          && ValidatePassword(body.password.value).PasswordOk? && faults.findUser.None?
          && FindByKey(users, AccountEmail, body.email.value).Some?
          ==> r.reply == Failure(400, MsgDuplicate))
      && (verb != "POST" || !Truthy(body.email) || !Truthy(body.password) || !ValidateEmail(body.email.value)
          || ValidatePassword(body.password.value).PasswordWeak? || faults.findUser.Some?
          || FindByKey(users, AccountEmail, body.email.value).Some?
          ==> r.users == users)
  {
  }

  /**
   * Nothing is written unless every check passes and the account is created;
   * then exactly one account is appended.
   */
  lemma WritesOnlyAfterChecks(verb: string, body: RegisterBody, users: seq<Account>, groups: seq<Group>,
                              roles: seq<Role>, hash: string -> string, newId: string, now: nat, faults: Faults)
    ensures var r := RegisterRoute(verb, body, users, groups, roles, hash, newId, now, faults);
      (r.users != users) <==>
        && verb == "POST" && Truthy(body.email) && Truthy(body.password)
        && ValidateEmail(body.email.value) && ValidatePassword(body.password.value).PasswordOk?
        && faults.findUser.None? && FindByKey(users, AccountEmail, body.email.value).None?
        && !faults.hashFails && faults.createUser.None?
    ensures var r := RegisterRoute(verb, body, users, groups, roles, hash, newId, now, faults);
      r.users != users ==> |r.users| == |users| + 1 && r.users[..|users|] == users
  {
    var r := RegisterRoute(verb, body, users, groups, roles, hash, newId, now, faults);
    if r.users != users {
      assert |r.users| == |users| + 1;
    }
  }

  /**
   * A successful registration stores a PENDING, unverified account with the
   * hashed password, a null username unless one was given, no last login, the
   * default group if it exists and the default role if it exists.
   */
  lemma NewAccountDefaults(verb: string, body: RegisterBody, users: seq<Account>, groups: seq<Group>,
                           roles: seq<Role>, hash: string -> string, newId: string, now: nat, faults: Faults)
    requires RegisterRoute(verb, body, users, groups, roles, hash, newId, now, faults).reply.Success?
    ensures var r := RegisterRoute(verb, body, users, groups, roles, hash, newId, now, faults);
      var gi := FindByKey(groups, GroupName, DefaultGroupName);
      var ri := FindByKey(roles, RoleName, DefaultRoleName);
      && r.reply.status == 201
      && |r.users| == |users| + 1 && r.users[..|users|] == users
      && var a := r.users[|users|];
      && a.id == newId && a.email == body.email.value && a.passwordHash == hash(body.password.value)
      && a.status == Pending && !a.emailVerified && a.lastLoginAt == None && a.createdAt == now
      && (a.username.None? <==> !Truthy(body.username))
      && (a.userGroups == if gi.Some? then [groups[gi.value]] else [])
      && (a.userRoles == if ri.Some? then [roles[ri.value]] else [])
      && r.reply.body.user.status == Pending && r.reply.body.user.id == newId
  {
  }

  /**
   * A call that throws before the account is written (the email lookup, the
   * hash, the insert) stores nothing; the catch block maps P2002 to the
   * duplicate message and anything else, a hashing error included, to 500.
   */
  lemma CreateFaultMapping(body: RegisterBody, users: seq<Account>, groups: seq<Group>, roles: seq<Role>,
                           hash: string -> string, newId: string, now: nat, faults: Faults)
    requires Truthy(body.email) && Truthy(body.password)
    requires ValidateEmail(body.email.value) && ValidatePassword(body.password.value).PasswordOk?
    ensures var r := RegisterRoute("POST", body, users, groups, roles, hash, newId, now, faults);
      var newEmail := faults.findUser.None? && FindByKey(users, AccountEmail, body.email.value).None?;
      && (faults.findUser == Some(UniqueViolation) ==> r == RegisterResult(Failure(400, MsgDuplicate), users))
      && (faults.findUser == Some(OtherDbError) ==> r == RegisterResult(Failure(500, MsgServerError), users))
      && (newEmail && faults.hashFails ==> r == RegisterResult(Failure(500, MsgServerError), users))
      && (newEmail && !faults.hashFails && faults.createUser == Some(UniqueViolation)
          ==> r == RegisterResult(Failure(400, MsgDuplicate), users))
      && (newEmail && !faults.hashFails && faults.createUser == Some(OtherDbError)
          ==> r == RegisterResult(Failure(500, MsgServerError), users))
  {
  }

  /**
   * Once the account is inserted, a failure while looking up or linking the
   * default group or role is reported as an error although the account stays
   * stored, with the links made before the failure.
   */
  lemma LinkFaultKeepsAccount(body: RegisterBody, users: seq<Account>, groups: seq<Group>, roles: seq<Role>,
                              hash: string -> string, newId: string, now: nat, faults: Faults)
    requires Truthy(body.email) && Truthy(body.password)
    requires ValidateEmail(body.email.value) && ValidatePassword(body.password.value).PasswordOk?
    requires faults.findUser.None? && FindByKey(users, AccountEmail, body.email.value).None?
    requires !faults.hashFails && faults.createUser.None?
    ensures var r := RegisterRoute("POST", body, users, groups, roles, hash, newId, now, faults);
      var gi := FindByKey(groups, GroupName, DefaultGroupName);
      && |r.users| == |users| + 1 && r.users[..|users|] == users
      && r.users[|users|].id == newId && r.users[|users|].email == body.email.value
      && r.users[|users|].status == Pending
      && (r.reply.Failure? <==> !GroupStepOk(groups, faults) || !RoleStepOk(roles, faults))
      && (!GroupStepOk(groups, faults) ==> r.users[|users|].userGroups == [] && r.users[|users|].userRoles == [])
      && (GroupStepOk(groups, faults) && !RoleStepOk(roles, faults)
          ==> && r.users[|users|].userGroups == (if gi.Some? then [groups[gi.value]] else [])
              && r.users[|users|].userRoles == [])
  {
  }

  /**
   * Registering the same email twice: the second request is refused as a
   * duplicate, unless its email lookup throws, and stores nothing either way.
   */
  lemma RegisterTwice(body: RegisterBody, users: seq<Account>, groups: seq<Group>, roles: seq<Role>,
                      hash: string -> string, id1: string, id2: string, t1: nat, t2: nat, faults: Faults)
    requires RegisterRoute("POST", body, users, groups, roles, hash, id1, t1, NoFaults).reply.Success?
    ensures var users' := RegisterRoute("POST", body, users, groups, roles, hash, id1, t1, NoFaults).users;
      var r := RegisterRoute("POST", body, users', groups, roles, hash, id2, t2, faults);
      r == RegisterResult(if faults.findUser.Some? then ErrorReply(faults.findUser.value)
                          else Failure(400, MsgDuplicate), users')
  {
    var users' := RegisterRoute("POST", body, users, groups, roles, hash, id1, t1, NoFaults).users;
    NewAccountDefaults("POST", body, users, groups, roles, hash, id1, t1, NoFaults);
    assert AccountEmail(users'[|users|]) == body.email.value;
  }

  /**
   * A new account cannot log in until approved: with the password it was
   * registered with, login answers 403 with the PENDING message.
   */
  lemma NewAccountAwaitsApproval(body: RegisterBody, users: seq<Account>, groups: seq<Group>, roles: seq<Role>,
                                 hash: string -> string, newId: string, now: nat,
                                 compare: (string, string) -> Option<bool>, sign: Jwt.Claims -> string,
                                 clock: Login.Clock)
    requires RegisterRoute("POST", body, users, groups, roles, hash, newId, now, NoFaults).reply.Success?
    requires compare(body.password.value, hash(body.password.value)) == Some(true)
    ensures var users' := RegisterRoute("POST", body, users, groups, roles, hash, newId, now, NoFaults).users;
      Login.LoginRoute("POST", Login.Credentials(body.email, body.password), users', compare, sign, clock)
        == Login.LoginResult(Failure(403, Login.MsgPending), users')
  {
    var users' := RegisterRoute("POST", body, users, groups, roles, hash, newId, now, NoFaults).users;
    NewAccountDefaults("POST", body, users, groups, roles, hash, newId, now, NoFaults);
    assert forall j :: 0 <= j < |users| ==> users'[j] == users[j];
    assert FindByKey(users', AccountEmail, body.email.value) == Some(|users|);
  }

  /**
   * The handler. It keeps user ids and emails unique as long as the generated
   * id is not already taken.
   */
  method HandleRegister(db: Db, verb: string, body: RegisterBody, hash: string -> string, newId: string,
                        now: nat, faults: Faults)
    returns (reply: Reply<RegisterReply>)
    requires db.Valid()
    modifies db`users
    ensures FindByKey(old(db.users), AccountId, newId).None? ==> db.Valid()
    ensures RegisterResult(reply, db.users)
         == RegisterRoute(verb, body, old(db.users), db.groups, db.roles, hash, newId, now, faults)
  {
    if verb != "POST" {
      return Failure(405, Login.MsgMethodNotAllowed);
    }
    if !Truthy(body.email) || !Truthy(body.password) {
      return Failure(400, MsgRequired);
    }
    var email, password := body.email.value, body.password.value;
    if !ValidateEmail(email) {
      return Failure(400, MsgBadEmail);
    }
    var validation := ValidatePassword(password);
    if validation.PasswordWeak? {
      return Failure(400, validation.message);
    }
    if faults.findUser.Some? {
      return ErrorReply(faults.findUser.value);
    }
    var existing := FindByKey(db.users, AccountEmail, email);
    if existing.Some? {
      return Failure(400, MsgDuplicate);
    }
    if faults.hashFails {
      return Failure(500, MsgServerError);
    }
    if faults.createUser.Some? {
      return ErrorReply(faults.createUser.value);
    }
    var newUser := NewAccount(newId, email, hash(password), body.username, now);
    reply := StoreAccount(db, newUser, faults);
    var stored := db.users[|old(db.users)|];
    assert db.users == old(db.users) + [stored];
    assert stored.email == email && stored.id == newId;
    NewAccountKeepsKeysDistinct(old(db.users), stored);
  }

  /** `user.create`, then the `userGroup` and `userRole` lookups and links, each call in turn. */
  method StoreAccount(db: Db, newUser: Account, faults: Faults) returns (reply: Reply<RegisterReply>)
    modifies db`users
    ensures RegisterResult(reply, db.users) == Provision(newUser, old(db.users), db.groups, db.roles, faults)
  {
    var n := |db.users|;
    db.users := db.users + [newUser];
    if faults.findGroup.Some? {
      return ErrorReply(faults.findGroup.value);
    }
    var userGroup := FindByKey(db.groups, GroupName, DefaultGroupName);
    if userGroup.Some? {
      if faults.linkGroup.Some? {
        return ErrorReply(faults.linkGroup.value);
      }
      db.users := db.users[n := db.users[n].(userGroups := [db.groups[userGroup.value]])];
    }
    if faults.findRole.Some? {
      return ErrorReply(faults.findRole.value);
    }
    var userRole := FindByKey(db.roles, RoleName, DefaultRoleName);
    if userRole.Some? {
      if faults.linkRole.Some? {
        return ErrorReply(faults.linkRole.value);
      }
      db.users := db.users[n := db.users[n].(userRoles := [db.roles[userRole.value]])];
    }
    reply := Success(201, Created(newUser));
  }

  /** Appending an account whose email is new keeps emails distinct, and ids too when its id is new. */
  lemma NewAccountKeepsKeysDistinct(users: seq<Account>, a: Account)
    requires DistinctKeys(users, AccountEmail) && DistinctKeys(users, AccountId)
    requires FindByKey(users, AccountEmail, a.email).None?
    ensures DistinctKeys(users + [a], AccountEmail)
    ensures FindByKey(users, AccountId, a.id).None? ==> DistinctKeys(users + [a], AccountId)
  {
    var us := users + [a];
    assert forall j :: 0 <= j < |users| ==> us[j] == users[j];
  }
}
