/** The registration and login forms: length bounds on the name, phone
    number and password. Nothing is trimmed or re-cased. */
module AuthSchema {
  import opened Common
  import opened Js
  import opened Zod

  datatype RegisterForm = RegisterForm(name: string, email: string, phoneNumber: string, password: string)

  datatype RegisterInput = RegisterInput(name: JsValue, email: JsValue, phoneNumber: JsValue, password: JsValue)

  datatype LoginForm = LoginForm(email: string, password: string)

  datatype LoginInput = LoginInput(email: JsValue, password: JsValue)

  /** A password of 8 to 30 characters. */
  predicate PasswordLength(s: string) {
    8 <= |s| <= 30
  }

  /** `RegisterSchema.safeParse`: a name of at least 2 characters, an
      email, a phone number of at least 10 characters and a password of 8 to
      30 characters, all kept exactly as sent. */
  function ParseRegister(input: RegisterInput): (r: Option<RegisterForm>)
    ensures r.Some? <==>
      && input.name.Str? && |input.name.s| >= 2
      && input.email.Str?
      && input.phoneNumber.Str? && |input.phoneNumber.s| >= 10
      && input.password.Str? && 8 <= |input.password.s| <= 30
    ensures r.Some? ==>
      r.value == RegisterForm(input.name.s, input.email.s, input.phoneNumber.s, input.password.s)
  {
    var name := Text(input.name);
    var email := Text(input.email);
    var phoneNumber := Text(input.phoneNumber);
    var password := Text(input.password);
    if name.None? || |name.value| < 2 || email.None? then None
    else if phoneNumber.None? || |phoneNumber.value| < 10 then None
    else if password.None? || !PasswordLength(password.value) then None
    else Some(RegisterForm(name.value, email.value, phoneNumber.value, password.value))
  }

  /** `LoginSchema.safeParse`: an email and a password of 8 to 30
      characters, kept exactly as sent. */
  function ParseLogin(input: LoginInput): (r: Option<LoginForm>)
    ensures r.Some? <==> input.email.Str? && input.password.Str? && 8 <= |input.password.s| <= 30
    ensures r.Some? ==> r.value == LoginForm(input.email.s, input.password.s)
  {
    var email := Text(input.email);
    var password := Text(input.password);
    if email.None? || password.None? || !PasswordLength(password.value) then None
    else Some(LoginForm(email.value, password.value))
  }

  /** The two forms bound the password alike: whoever could register can
      send the same email and password to log in. */
  lemma RegisteredCanLogIn(input: RegisterInput)
    requires ParseRegister(input).Some?
    ensures var f := ParseRegister(input).value;
      ParseLogin(LoginInput(Str(f.email), Str(f.password))) == Some(LoginForm(f.email, f.password))
  {
  }
}
