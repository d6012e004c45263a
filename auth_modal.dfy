/**
 * The login / signup dialog: an ordered chain of checks over the form
 * record, each failing check ending the handler with an error toast, and on
 * success the user record handed to `onLogin`, a toast, and `onClose`.
 */
module AuthModal {

  import opened Wrappers

  datatype FormData = FormData(
    email: string,
    password: string,
    name: string,
    phone: string,
    confirmPassword: string,
    agreeTerms: bool)

  /** The user record passed to `onLogin`. */
  datatype User = User(id: string, name: string, email: string, verified: bool)

  /** The reason a handler returns early, one per error toast. */
  datatype AuthError = MissingCredentials | MissingFields | PasswordMismatch | TermsNotAgreed

  /** What a handler does, in order: the two callbacks and the toasts. */
  datatype Effect =
    | CallOnLogin(user: User)
    | ShowToast(title: string, description: string, destructive: bool)
    | CallOnClose

  /** The name a login falls back to when the name field is empty. */
  const DefaultName: string := "김민준"

  /** The toasts a successful login and a successful signup show. */
  const LoginWelcome: Effect := ShowToast("로그인 성공", "환영합니다!", false)
  const SignupWelcome: Effect := ShowToast("회원가입 성공", "환영합니다! 이메일 인증을 완료해주세요.", false)

  /** The dialog's initial form. */
  const EmptyForm: FormData := FormData("", "", "", "", "", false)

  /** The checks of `handleLogin` and the user it builds. */
  function Login(f: FormData): (r: Result<User, AuthError>)
    ensures r.Failure? <==> f.email == "" || f.password == ""
    ensures r.Failure? ==> r.error == MissingCredentials
    ensures r.Success? ==> r.value.email == f.email && r.value.verified && r.value.id == "1"
    ensures r.Success? && f.name != "" ==> r.value.name == f.name
    ensures r.Success? && f.name == "" ==> r.value.name == DefaultName
  {
    if f.email == "" || f.password == "" then Failure(MissingCredentials)
    else Success(User("1", if f.name != "" then f.name else DefaultName, f.email, true))
  }

  predicate AllFieldsFilled(f: FormData)
  {
    f.email != "" && f.password != "" && f.name != "" && f.phone != ""
  }

  /** The checks of `handleSignup`, in the order the handler runs them, and the user it builds. */
  function Signup(f: FormData): (r: Result<User, AuthError>)
    ensures r == Failure(MissingFields) <==> !AllFieldsFilled(f)
    ensures r == Failure(PasswordMismatch) <==> AllFieldsFilled(f) && f.password != f.confirmPassword
    ensures r == Failure(TermsNotAgreed)
        <==> AllFieldsFilled(f) && f.password == f.confirmPassword && !f.agreeTerms
    ensures r.Success? <==> AllFieldsFilled(f) && f.password == f.confirmPassword && f.agreeTerms
    ensures r.Success? ==> r.value.name == f.name && r.value.email == f.email && !r.value.verified
    ensures r != Failure(MissingCredentials)
  {
    if !AllFieldsFilled(f) then Failure(MissingFields)
    else if f.password != f.confirmPassword then Failure(PasswordMismatch)
    else if !f.agreeTerms then Failure(TermsNotAgreed)
    else Success(User("1", f.name, f.email, false))
  }

  /** The destructive toast each early return shows. */
  function ErrorToast(e: AuthError): (t: Effect)
    ensures t.ShowToast? && t.destructive
  {
    match e
    case MissingCredentials => ShowToast("입력 오류", "이메일과 비밀번호를 입력해주세요.", true)
    case MissingFields => ShowToast("입력 오류", "모든 필드를 입력해주세요.", true)
    case PasswordMismatch => ShowToast("비밀번호 오류", "비밀번호가 일치하지 않습니다.", true)
    case TermsNotAgreed => ShowToast("약관 동의", "서비스 이용약관에 동의해주세요.", true)
  }

  /** `onLogin(user)` is called exactly once, and `onClose` is the last thing done and happens after it. */
  ghost predicate LogsInThenCloses(effects: seq<Effect>, user: User)
  {
    && |effects| >= 2
    && effects[|effects| - 1] == CallOnClose
    && (exists i :: 0 <= i < |effects| - 1 && effects[i] == CallOnLogin(user))
    && (forall i, j :: 0 <= i < j < |effects| && effects[i].CallOnLogin? ==> !effects[j].CallOnLogin?)
  }

  /** Neither callback is called. */
  ghost predicate CallsNeither(effects: seq<Effect>)
  {
    forall i :: 0 <= i < |effects| ==> !effects[i].CallOnLogin? && !effects[i].CallOnClose?
  }

  /** `handleLogin`: the effects it performs, in order. */
  method HandleLogin(f: FormData) returns (effects: seq<Effect>)
    ensures Login(f).Success? ==> LogsInThenCloses(effects, Login(f).value)
    ensures Login(f).Success? ==> effects == [CallOnLogin(Login(f).value), LoginWelcome, CallOnClose]
    ensures Login(f).Failure? ==> effects == [ErrorToast(MissingCredentials)] && CallsNeither(effects)
  {
    effects := [];
    if f.email == "" || f.password == "" {
      effects := effects + [ShowToast("입력 오류", "이메일과 비밀번호를 입력해주세요.", true)];
      return;
    }
    var user := User("1", if f.name != "" then f.name else DefaultName, f.email, true);
    effects := effects + [CallOnLogin(user)];
    effects := effects + [LoginWelcome];
    effects := effects + [CallOnClose];
    assert effects[0] == CallOnLogin(user);
  }

  /** `handleSignup`: the effects it performs, in order. */
  method HandleSignup(f: FormData) returns (effects: seq<Effect>)
    ensures Signup(f).Success? ==> LogsInThenCloses(effects, Signup(f).value)
    ensures Signup(f).Success? ==> effects == [CallOnLogin(Signup(f).value), SignupWelcome, CallOnClose]
    ensures Signup(f).Failure? ==> effects == [ErrorToast(Signup(f).error)] && CallsNeither(effects)
  {
    effects := [];
    if f.email == "" || f.password == "" || f.name == "" || f.phone == "" {
      effects := effects + [ShowToast("입력 오류", "모든 필드를 입력해주세요.", true)];
      return;
    }
    if f.password != f.confirmPassword {
      effects := effects + [ShowToast("비밀번호 오류", "비밀번호가 일치하지 않습니다.", true)];
      return;
    }
    if !f.agreeTerms {
      effects := effects + [ShowToast("약관 동의", "서비스 이용약관에 동의해주세요.", true)];
      return;
    }
    var user := User("1", f.name, f.email, false);
    effects := effects + [CallOnLogin(user)];
    effects := effects + [SignupWelcome];
    effects := effects + [CallOnClose];
    assert effects[0] == CallOnLogin(user);
  }

  /** Login never looks at the phone, the confirmation password or the terms box. */
  lemma LoginIgnoresSignupFields(f: FormData, phone: string, confirm: string, agree: bool)
    ensures Login(f.(phone := phone, confirmPassword := confirm, agreeTerms := agree)) == Login(f)
  {
  }

  /**
   * A form that passes signup also passes login, and login then yields the
   * same user except that it is verified.
   */
  lemma SignupFormCanLogIn(f: FormData)
    requires Signup(f).Success?
    ensures Login(f).Success?
    ensures Login(f).value == Signup(f).value.(verified := true)
  {
  }

  /** The initial form is rejected by both handlers, each with its first check. */
  lemma EmptyFormRejected()
    ensures Login(EmptyForm) == Failure(MissingCredentials)
    ensures Signup(EmptyForm) == Failure(MissingFields)
  {
  }
}
