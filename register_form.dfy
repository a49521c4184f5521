/**
 * The sign-up form: its four fields, the error line and the loading flag;
 * client-side validation in a fixed order, and the request it submits.
 */
module RegisterForm {
  import opened Wrappers
  import opened JsString
  import opened Http
  import Permissions
  import Store
  import Register

  const MsgNameRequired := "이름을 입력해주세요."
  const MsgEmailRequired := "이메일을 입력해주세요."
  const MsgEmailFormat := "올바른 이메일 형식을 입력해주세요."
  const MsgPasswordLength := "비밀번호는 최소 6자 이상이어야 합니다."
  const MsgPasswordMismatch := "비밀번호가 일치하지 않습니다."
  const MsgSignupFailed := "회원가입에 실패했습니다."
  const MsgSignupError := "회원가입 중 오류가 발생했습니다."

  datatype Field = Name | Email | Password | ConfirmPassword

  /** The JSON body the form posts: `name`, `email` and `password`, and nothing else. */
  datatype SignupRequest = SignupRequest(name: string, email: string, password: string)

  /** How the request ended: a response with its `ok` flag and optional `message`, or a thrown fetch. */
  datatype SubmitOutcome = Responded(ok: bool, message: Option<string>) | NetworkError

  /** The five client-side checks, in the order they run. */
  datatype FormError = NameRequired | EmailRequired | EmailFormat | PasswordLength | PasswordMismatch

  function Message(e: FormError): string {
    match e
    case NameRequired => MsgNameRequired
    case EmailRequired => MsgEmailRequired
    case EmailFormat => MsgEmailFormat
    case PasswordLength => MsgPasswordLength
    case PasswordMismatch => MsgPasswordMismatch
  }

  /** The first failing check, in source order, or None when all pass. */
  function FirstFormError(name: string, email: string, password: string, confirm: string): Option<FormError> {
    if Trim(name) == "" then Some(NameRequired)
    else if Trim(email) == "" then Some(EmailRequired)
    else if !Register.ValidateEmail(email) then Some(EmailFormat)
    else if |password| < 6 then Some(PasswordLength)
    else if password != confirm then Some(PasswordMismatch)
    else None
  }

  /** The form is valid exactly when all five checks pass. */
  lemma FormValidIff(name: string, email: string, password: string, confirm: string)
    ensures FirstFormError(name, email, password, confirm).None? <==>
      && Trim(name) != "" && Trim(email) != "" && Register.ValidateEmail(email)
      && |password| >= 6 && password == confirm
  {
    var nameOk, emailOk, formatOk := Trim(name) != "", Trim(email) != "", Register.ValidateEmail(email);
    if nameOk && emailOk && formatOk {
      assert FirstFormError(name, email, password, confirm)
          == if |password| < 6 then Some(PasswordLength) else if password != confirm then Some(PasswordMismatch) else None;
    }
  }

  /** A name made only of white space is refused first, whatever the other fields hold. */
  lemma BlankNameRefusedFirst(name: string, email: string, password: string, confirm: string)
    requires forall i :: 0 <= i < |name| ==> IsSpace(name[i])
    ensures FirstFormError(name, email, password, confirm) == Some(NameRequired)
  {
    TrimEmptyIffBlank(name);
  }

  /**
   * An address the regular expression accepts is never blank, so the
   * "enter an email" message only appears for a blank field.
   */
  lemma FormatCheckImpliesNotBlank(email: string)
    requires Register.ValidateEmail(email)
    ensures Trim(email) != ""
  {
    var at := IndexOf(email, '@');
    assert !IsSpace(email[at]);
    TrimEmptyIffBlank(email);
  }

  /**
   * The form accepts passwords of six or seven characters, which the server's
   * eight-character rule then refuses with its own message.
   */
  lemma FormPassesServerRejects()
    ensures FirstFormError("Kim", "a@b.c", "Ab1!xy", "Ab1!xy").None?
    ensures Register.ValidatePassword("Ab1!xy") == Register.PasswordWeak(Register.MsgTooShort)
  {
    Register.EmailExamplesAccepted();
    FormatCheckImpliesNotBlank("a@b.c");
    assert !IsSpace("Kim"[0]);
    TrimEmptyIffBlank("Kim");
  }

  /** The body the form sends, as the registration route reads it: no `username`, so it is null. */
  function AsRegisterBody(req: SignupRequest): (body: Register.RegisterBody)
    ensures body.username.None?
    ensures body.email == Some(req.email) && body.password == Some(req.password)
  {
    Register.RegisterBody(Some(req.email), Some(req.password), None)
  }

  /** An account created from the form always has a null username; the name typed is dropped. */
  lemma FormNameIsDropped(req: SignupRequest, users: seq<Store.Account>, groups: seq<Permissions.Group>,
                          roles: seq<Permissions.Role>, hash: string -> string, newId: string, now: nat)
    requires Register.RegisterRoute("POST", AsRegisterBody(req), users, groups, roles, hash, newId, now,
                                    Register.NoFaults).reply.Success?
    ensures var r := Register.RegisterRoute("POST", AsRegisterBody(req), users, groups, roles, hash, newId, now,
                                            Register.NoFaults);
      r.users[|users|].username.None? && r.reply.body.user.username.None?
  {
    Register.NewAccountDefaults("POST", AsRegisterBody(req), users, groups, roles, hash, newId, now, Register.NoFaults);
  }

  /** The error line after a request: none on success, the server's message or a default otherwise. */
  function OutcomeError(outcome: SubmitOutcome): (e: string)
    ensures outcome.Responded? && outcome.ok ==> e == ""
    ensures outcome.Responded? && !outcome.ok ==> e == (if Truthy(outcome.message) then outcome.message.value else MsgSignupFailed)
    ensures outcome.NetworkError? ==> e == MsgSignupError
  {
    match outcome
    case Responded(ok, message) => if ok then "" else if Truthy(message) then message.value else MsgSignupFailed
    case NetworkError => MsgSignupError
  }

  class Form {
    var name: string
    var email: string
    var password: string
    var confirmPassword: string
    var error: string
    var isLoading: bool

    /** The form as first rendered: every field empty, no error, not loading. */
    constructor ()
      ensures name == "" && email == "" && password == "" && confirmPassword == ""
      ensures error == "" && !isLoading
    {
      name, email, password, confirmPassword := "", "", "", "";
      error, isLoading := "", false;
    }

    function Value(f: Field): string
      reads this
    {
      match f
      case Name => name
      case Email => email
      case Password => password
      case ConfirmPassword => confirmPassword
    }

    /** `handleChange`: the edited field takes the new value, the others keep theirs, and any error is cleared. */
    method HandleChange(f: Field, value: string)
      modifies this
      ensures Value(f) == value
      ensures forall g :: g != f ==> Value(g) == old(Value(g))
      ensures error == "" && isLoading == old(isLoading)
    {
      match f {
        case Name => name := value;
        case Email => email := value;
        case Password => password := value;
        case ConfirmPassword => confirmPassword := value;
      }
      if error != "" {
        error := "";
      }
    }

    /** `validateForm`: on the first failing check its message becomes the error and the result is false. */
    method ValidateForm() returns (ok: bool)
      modifies this`error
      ensures ok <==> FirstFormError(name, email, password, confirmPassword).None?
      ensures !ok ==> error == Message(FirstFormError(name, email, password, confirmPassword).value)
      ensures ok ==> error == old(error)
    {
      if Trim(name) == "" {
        error := Message(NameRequired);
        return false;
      }
      if Trim(email) == "" {
        error := Message(EmailRequired);
        return false;
      }
      if !Register.ValidateEmail(email) {
        error := Message(EmailFormat);
        return false;
      }
      if |password| < 6 {
        error := Message(PasswordLength);
        return false;
      }
      if password != confirmPassword {
        error := Message(PasswordMismatch);
        return false;
      }
      return true;
    }

    /**
     * `handleSubmit`: nothing is sent unless validation passes; otherwise the
     * request carries the three fields, the error line reflects the outcome and
     * loading ends. `succeeded` is whether `onSuccess` is called.
     */
    method HandleSubmit(respond: SignupRequest -> SubmitOutcome) returns (sent: Option<SignupRequest>, succeeded: bool)
      modifies this`error, this`isLoading
      ensures sent.None? <==> FirstFormError(name, email, password, confirmPassword).Some?
      ensures sent.None? ==> error == Message(FirstFormError(name, email, password, confirmPassword).value)
                             && isLoading == old(isLoading) && !succeeded
      ensures sent.Some? ==> sent.value == SignupRequest(name, email, password)
                             && error == OutcomeError(respond(sent.value)) && !isLoading
                             && (succeeded <==> respond(sent.value).Responded? && respond(sent.value).ok)
    {
      var valid := ValidateForm();
      if !valid {
        return None, false;
      }
      isLoading := true;
      error := "";
      var request := SignupRequest(name, email, password);
      var outcome := respond(request);
      match outcome {
        case Responded(ok, message) =>
          if ok {
            succeeded := true;
          } else {
            error := if Truthy(message) then message.value else MsgSignupFailed;
            succeeded := false;
          }
        case NetworkError =>
          error := MsgSignupError;
          succeeded := false;
      }
      isLoading := false;
      sent := Some(request);
    }
  }
}
