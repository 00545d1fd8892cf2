// app/schemas/auth.py: the validators of the registration, login, password-reset and
// e-mail-verification request bodies. `EmailStr` is the `emailOf` parameter: the library's
// check, giving the address in its normal form (display name and surrounding whitespace
// dropped, domain lower-cased), or None for an invalid one. Every body keeps the normal form.

module AuthSchemas {

  import opened Wrappers
  import opened Text
  import opened Enums
  import opened Db
  import opened Constants
  import opened Pydantic

  const PASSWORD_RULE: string :=
    "Password must contain at least 1 uppercase letter, 1 lowercase letter, 1 digit, and be 8-32 characters long."

  /**
   * An `EmailStr` field: refused when the address is invalid, otherwise replaced by its normal
   * form. `PasswordForgotRequest` and `EmailChangeRequest` are this one field and nothing else.
   */
  function EmailCheck(email: string, emailOf: string -> Option<string>): (r: Result<string>)
    ensures r.Ok? <==> emailOf(email).Some?
    ensures r.Ok? ==> r.value == emailOf(email).value
    ensures r.Err? ==> r.error.HttpError? && r.error.status == 422
  {
    match emailOf(email)
    case Some(n) => Ok(n)
    case None => Err(Invalid("value is not a valid email address"))
  }

  /** An optional `EmailStr` field after validation: absent when not given or invalid. */
  function NormalEmail(email: Option<string>, emailOf: string -> Option<string>): Option<string>
  {
    if email.Some? then emailOf(email.value) else None
  }

  /** `password`: 8..32 characters, then PASSWORD_REGEX. */
  function PasswordCheck(p: string): (r: Result<string>)
    ensures r.Ok? <==> PasswordMatches(p)
    ensures r.Ok? ==> r.value == p
  {
    var v :- LengthCheck(p, 8, 32);
    if PasswordMatches(v) then Ok(v) else Err(ValueError(PASSWORD_RULE))
  }

  /** `RegisterRequest.username`: stripped, 4..16 characters, then `if not v or not fullmatch`. */
  function RegisterUsername(raw: string): (r: Result<string>)
    ensures r.Ok? <==> UsernameMatches(Strip(raw))
    ensures r.Ok? ==> r.value == Strip(raw)
  {
    var v :- LengthCheck(Strip(raw), 4, 16);
    if v == "" || !UsernameMatches(v) then Err(ValueError("Invalid format")) else Ok(v)
  }

  /** `LoginRequest.username`: stripped, 4..16 characters, then `if v and not fullmatch`. */
  function LoginUsername(raw: string): (r: Result<string>)
  {
    var v :- LengthCheck(Strip(raw), 4, 16);
    if v != "" && !UsernameMatches(v) then Err(ValueError("Invalid format")) else Ok(v)
  }

  /** The two username validators differ only on the empty string, which the length bound already refuses. */
  lemma UsernameValidatorsAgree(raw: string)
    ensures LoginUsername(raw) == RegisterUsername(raw)
  {
  }

  datatype RegisterRequest = RegisterRequest(email: string, username: string, password: string)

  /**
   * `RegisterRequest`, reporting the first invalid field: since USERNAME_REGEX and
   * PASSWORD_REGEX fix the lengths the fields declare, the regexes alone decide.
   */
  function ValidateRegister(email: string, username: string, password: string, emailOf: string -> Option<string>)
    : (r: Result<RegisterRequest>)
    ensures r.Ok? <==> emailOf(email).Some? && UsernameMatches(Strip(username)) && PasswordMatches(password)
    ensures r.Ok? ==> r.value == RegisterRequest(emailOf(email).value, Strip(username), password)
    ensures r.Err? ==> r.error.HttpError? && r.error.status == 422
  {
    var e :- EmailCheck(email, emailOf);
    var u :- RegisterUsername(username);
    var p :- PasswordCheck(password);
    Ok(RegisterRequest(e, u, p))
  }

  /**
   * Two spellings of one address (differing in the case of the domain, say) register the same
   * e-mail, so the second registration finds the first account and is refused with 409.
   */
  lemma RegisterSpellingsAgree(e1: string, e2: string, username: string, password: string,
                               emailOf: string -> Option<string>)
    requires emailOf(e1) == emailOf(e2)
    ensures ValidateRegister(e1, username, password, emailOf) == ValidateRegister(e2, username, password, emailOf)
  {
  }

  datatype LoginRequest = LoginRequest(who: AccountRef, password: string)

  /** `not self.email`: absent or empty. */
  predicate Given(v: Option<string>)
  {
    v.Some? && v.value != ""
  }

  /** An optional field: absent, or validated by `check`. */
  function OptionalCheck(v: Option<string>, check: string -> Result<string>): (r: Result<Option<string>>)
    ensures r.Ok? <==> v.None? || check(v.value).Ok?
    ensures r.Ok? ==> r.value == (if v.Some? then Some(check(v.value).value) else None)
  {
    if v.None? then Ok(None)
    else if check(v.value).Err? then Err(check(v.value).error)
    else Ok(Some(check(v.value).value))
  }

  /** The model validator of `LoginRequest` and `UserBotUpdateRequest`: exactly one of e-mail and username. */
  function OneOfEmailOrUsername(e: Option<string>, u: Option<string>): (r: Result<AccountRef>)
    ensures r.Ok? <==> Given(e) != Given(u)
    ensures r.Ok? ==> r.value == (if Given(e) then ByEmail(e.value) else ByUsername(u.value))
    ensures r.Err? ==> r.error.HttpError? && r.error.status == 422
  {
    if !Given(e) && !Given(u) then Err(ValueError("Either 'email' or 'username' must be provided."))
    else if Given(e) && Given(u) then Err(ValueError("'email' and 'username' cannot both be provided."))
    else if Given(e) then Ok(ByEmail(e.value))
    else Ok(ByUsername(u.value))
  }

  /**
   * `LoginRequest`: the fields, then exactly one of e-mail and username. The username, when
   * given, is stripped and must match USERNAME_REGEX.
   */
  function ValidateLogin(email: Option<string>, username: Option<string>, password: string,
                         emailOf: string -> Option<string>)
    : (r: Result<LoginRequest>)
    ensures r.Ok? <==> (email.Some? ==> emailOf(email.value).Some?)
                       && (username.Some? ==> UsernameMatches(Strip(username.value)))
                       && PasswordMatches(password)
                       && (Given(NormalEmail(email, emailOf)) != username.Some?)
    ensures r.Ok? ==> (r.value.password == password
      && r.value.who == (if Given(NormalEmail(email, emailOf)) then ByEmail(NormalEmail(email, emailOf).value)
                         else ByUsername(Strip(username.value))))
  {
    var e :- OptionalCheck(email, x => EmailCheck(x, emailOf));
    var u :- OptionalCheck(username, LoginUsername);
    var p :- PasswordCheck(password);
    UsernameValidatorsAgreeOn(username);
    var who :- OneOfEmailOrUsername(e, u);
    Ok(LoginRequest(who, p))
  }

  lemma UsernameValidatorsAgreeOn(username: Option<string>)
    ensures username.Some? ==> LoginUsername(username.value) == RegisterUsername(username.value)
  {
    if username.Some? {
      UsernameValidatorsAgree(username.value);
    }
  }

  /** A logged-in username is never empty, so the `if v` guard of the login validator never skips the regex. */
  lemma LoginUsernameChecked(raw: string)
    requires LoginUsername(raw).Ok?
    ensures UsernameMatches(LoginUsername(raw).value) && 4 <= |LoginUsername(raw).value| <= 16
  {
  }

  datatype PasswordResetRequest = PasswordResetRequest(otp: string, email: string, newPassword: string)

  /** `PasswordResetRequest`: a code of exactly `OTP_LENGTH` characters and a new password of 8..32 characters. */
  function ValidatePasswordReset(otp: string, email: string, newPassword: string, emailOf: string -> Option<string>)
    : (r: Result<PasswordResetRequest>)
    ensures r.Ok? <==> |otp| == OTP_LENGTH && emailOf(email).Some? && 8 <= |newPassword| <= 32
    ensures r.Ok? ==> r.value == PasswordResetRequest(otp, emailOf(email).value, newPassword)
  {
    var o :- LengthCheck(otp, OTP_LENGTH, OTP_LENGTH);
    var e :- EmailCheck(email, emailOf);
    var p :- LengthCheck(newPassword, 8, 32);
    Ok(PasswordResetRequest(o, e, p))
  }

  /** The reset body declares only the length of the new password: one registration would refuse passes it. */
  lemma ResetAcceptsWeakerPasswords(email: string, emailOf: string -> Option<string>)
    requires emailOf(email).Some?
    ensures ValidatePasswordReset("123456", email, "aaaaaaaa", emailOf).Ok?
    ensures ValidateRegister(email, "alice", "aaaaaaaa", emailOf).Err?
  {
    assert !IsAsciiUpper("aaaaaaaa"[0]);
    assert forall i :: 0 <= i < |"aaaaaaaa"| ==> !IsAsciiUpper("aaaaaaaa"[i]);
  }

  datatype PasswordChangeRequest = PasswordChangeRequest(email: string, oldPassword: string, newPassword: string)

  /** `PasswordChangeRequest`: a valid address and two passwords of 8..32 characters each. */
  function ValidatePasswordChange(email: string, oldPassword: string, newPassword: string,
                                  emailOf: string -> Option<string>): (r: Result<PasswordChangeRequest>)
    ensures r.Ok? <==> emailOf(email).Some? && 8 <= |oldPassword| <= 32 && 8 <= |newPassword| <= 32
    ensures r.Ok? ==> r.value == PasswordChangeRequest(emailOf(email).value, oldPassword, newPassword)
  {
    var e :- EmailCheck(email, emailOf);
    var o :- LengthCheck(oldPassword, 8, 32);
    var p :- LengthCheck(newPassword, 8, 32);
    Ok(PasswordChangeRequest(e, o, p))
  }

  datatype EmailVerifyRequest = EmailVerifyRequest(otp: string, userId: int)

  /** `EmailVerifyRequest`: a code of exactly `OTP_LENGTH` characters and an account id of at least 1. */
  function ValidateEmailVerify(otp: string, userId: int): (r: Result<EmailVerifyRequest>)
    ensures r.Ok? <==> |otp| == OTP_LENGTH && userId >= 1
    ensures r.Ok? ==> r.value == EmailVerifyRequest(otp, userId)
  {
    var o :- LengthCheck(otp, OTP_LENGTH, OTP_LENGTH);
    if userId < 1 then Err(Invalid("Input should be greater than or equal to 1"))
    else Ok(EmailVerifyRequest(o, userId))
  }
}
