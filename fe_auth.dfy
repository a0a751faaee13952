/** The front-end helpers of the sign-up, password-reset and login forms
    (Front-end/src/components/Auth/Register.js, ResetPassword.js, Login.js):
    Persian-key detection, password strength, the order of form checks and
    the mapping of the login reply to the next screen. React state and
    rendering are left out; each check returns what it would set. */
module FeAuth {
  import opened Wrappers
  import opened Strings

  // ------------------------------------------------------------------
  // Characters
  // ------------------------------------------------------------------

  /** `isPersianChar(key)`: the first UTF-16 unit of the key name is in
      [1570, 1740] or is a zero-width (non-)joiner. An empty key has no code. */
  predicate IsPersianKey(key: string) {
    key != [] && ((1570 <= key[0] as int <= 1740) || key[0] as int == 8204 || key[0] as int == 8205)
  }

  /** `/[آ-ی]/.test(s)`: a character between U+0622 and U+06CC. */
  predicate HasPersianLetter(s: string) {
    exists i :: 0 <= i < |s| && 0x622 <= s[i] as int <= 0x6CC
  }

  /** Every Persian letter typed as a key is caught by the key guard. */
  lemma PersianLetterKeysCaught(s: string)
    requires |s| == 1 && HasPersianLetter(s)
    ensures IsPersianKey(s)
  {
  }

  /** JavaScript `\S`. */
  predicate NonSpace(c: char) { !JsIsSpace(c) }

  /** `/\S+@\S+\.\S+/.test(s)`: somewhere an `@` with a non-space before it,
      then non-spaces up to a `.` with a non-space after it. */
  predicate EmailLike(s: string) {
    exists a, d :: 0 < a && a + 1 < d && d + 1 < |s| && EmailAt(s, a, d)
  }

  /** The match of that pattern with its `@` at `a` and its `.` at `d`. */
  predicate EmailAt(s: string, a: int, d: int)
    requires 0 < a && a + 1 < d && d + 1 < |s|
  {
    s[a] == '@' && NonSpace(s[a - 1]) && NonSpaceBetween(s, a + 1, d) && s[d] == '.' && NonSpace(s[d + 1])
  }

  predicate NonSpaceBetween(s: string, lo: int, hi: int)
    requires 0 <= lo <= hi <= |s|
  {
    forall j :: lo <= j < hi ==> NonSpace(s[j])
  }

  /** `/^09\d{9}$/.test(s)`. */
  predicate PhoneLike(s: string) {
    |s| == 11 && s[0] == '0' && s[1] == '9' && forall i :: 2 <= i < 11 ==> IsAsciiDigit(s[i])
  }

  // ------------------------------------------------------------------
  // Password strength
  // ------------------------------------------------------------------

  predicate IsStrengthSpecial(c: char) {
    c in "!@#$%^&*(),.?\":{}|<>"
  }

  /** Some character of `p` is of the class `f`: `/[...]/.test(p)`. */
  predicate HasCharOf(p: string, f: char -> bool) {
    exists i :: 0 <= i < |p| && f(p[i])
  }

  /** The five checks of `getPasswordStrength`, as a count. */
  function PassedChecks(p: string): (n: nat)
    ensures n <= 5
  {
    (if Utf16Length(p) >= 8 then 1 else 0)
    + (if HasCharOf(p, IsAsciiLower) then 1 else 0)
    + (if HasCharOf(p, IsAsciiUpper) then 1 else 0)
    + (if HasCharOf(p, IsAsciiDigit) then 1 else 0)
    + (if HasCharOf(p, IsStrengthSpecial) then 1 else 0)
  }

  datatype Strength = Strength(title: string, width: nat, color: string)

  const VeryStrong := "بسیار قوی"
  const Medium := "متوسط"
  const Weak := "ضعیف"

  /** `getPasswordStrength`. The sign-up form gives the medium band width
      60, the reset form 50; nothing else differs. */
  function PasswordStrength(p: string, mediumWidth: nat): (s: Strength)
    ensures p == "" ==> s == Strength("", 0, "")
    ensures p != "" && PassedChecks(p) == 5 ==> s == Strength(VeryStrong, 100, "#28a745")
    ensures p != "" && 3 <= PassedChecks(p) < 5 ==> s == Strength(Medium, mediumWidth, "#ffc107")
    ensures p != "" && PassedChecks(p) < 3 ==> s == Strength(Weak, 20, "#dc3545")
  {
    if p == "" then Strength("", 0, "")
    else if PassedChecks(p) == 5 && Utf16Length(p) >= 8 then Strength(VeryStrong, 100, "#28a745")
    else if PassedChecks(p) >= 3 then Strength(Medium, mediumWidth, "#ffc107")
    else Strength(Weak, 20, "#dc3545")
  }

  /** "Very strong" needs every check, so it implies the minimum length and
      one character of each kind. */
  lemma VeryStrongMeansAllChecks(p: string, mediumWidth: nat)
    requires PasswordStrength(p, mediumWidth).title == VeryStrong
    ensures Utf16Length(p) >= 8
    ensures HasCharOf(p, IsAsciiLower)
    ensures HasCharOf(p, IsAsciiUpper)
    ensures HasCharOf(p, IsAsciiDigit)
    ensures HasCharOf(p, IsStrengthSpecial)
  {
    VeryStrongPassesAll(p, mediumWidth);
    AllChecksPassed(p);
  }

  lemma VeryStrongPassesAll(p: string, mediumWidth: nat)
    requires PasswordStrength(p, mediumWidth).title == VeryStrong
    ensures PassedChecks(p) == 5
  {
    assert VeryStrong != "" && VeryStrong != Medium && VeryStrong != Weak;
  }

  lemma AllChecksPassed(p: string)
    requires PassedChecks(p) == 5
    ensures Utf16Length(p) >= 8
    ensures HasCharOf(p, IsAsciiLower)
    ensures HasCharOf(p, IsAsciiUpper)
    ensures HasCharOf(p, IsAsciiDigit)
    ensures HasCharOf(p, IsStrengthSpecial)
  {
  }

  /** The two forms classify every password alike and only draw the medium
      band differently. */
  lemma FormsAgreeOnLabel(p: string)
    ensures PasswordStrength(p, 60).title == PasswordStrength(p, 50).title
    ensures PasswordStrength(p, 60).width != PasswordStrength(p, 50).width <==> PasswordStrength(p, 60).title == Medium
  {
  }

  // ------------------------------------------------------------------
  // Sign-up form
  // ------------------------------------------------------------------

  datatype RegisterForm = RegisterForm(firstName: string, lastName: string, phone: string, email: string,
                                       password: string, password2: string)

  const PersianKeyboard := "لطفاً کیبورد خود را به حالت انگلیسی تغییر دهید"

  /** A required field: its message when empty. */
  function RequiredError(v: string, message: string): (r: Option<string>)
    ensures r.None? <==> v != ""
  {
    if v == "" then Some(message) else None
  }

  /** The phone check: required, then `^09\d{9}$`. */
  function PhoneError(phone: string): (r: Option<string>)
    ensures r.None? <==> PhoneLike(phone)
  {
    if phone == "" then Some("شماره تلفن الزامی است")
    else if !PhoneLike(phone) then Some("شماره تلفن نامعتبر است. لطفاً یک شماره معتبر وارد کنید (مثلاً: 09123456789)")
    else None
  }

  /** The email check: required, then the address pattern. */
  function EmailError(email: string): (r: Option<string>)
    ensures r.None? <==> EmailLike(email)
  {
    if email == "" then Some("ایمیل الزامی است")
    else if !EmailLike(email) then Some("ایمیل نامعتبر است")
    else None
  }

  /** The password check of the sign-up form: required, eight characters,
      no Persian letter. */
  function PasswordError(password: string): (r: Option<string>)
    ensures r.None? <==> Utf16Length(password) >= 8 && !HasPersianLetter(password)
  {
    if password == "" then Some("رمز عبور الزامی است")
    else if Utf16Length(password) < 8 then Some("رمز عبور باید حداقل 8 کاراکتر باشد")
    else if HasPersianLetter(password) then Some("رمز عبور نباید شامل کاراکتر فارسی باشد")
    else None
  }

  /** The confirmation check: the same text, then no Persian letter. */
  function ConfirmError(password: string, password2: string): (r: Option<string>)
    ensures r.None? <==> password2 == password && !HasPersianLetter(password2)
  {
    if password != password2 then Some("رمزهای عبور یکسان نیستند")
    else if HasPersianLetter(password2) then Some("رمز عبور نباید شامل کاراکتر فارسی باشد")
    else None
  }

  /** The fields `handleSubmit` checks. */
  const RegisterFields: set<string> := {"first_name", "last_name", "phone", "email", "password", "password2"}

  /** The message `handleSubmit` records for one field, if any. */
  function FieldError(f: RegisterForm, field: string): Option<string> {
    if field == "first_name" then RequiredError(f.firstName, "نام الزامی است")
    else if field == "last_name" then RequiredError(f.lastName, "نام خانوادگی الزامی است")
    else if field == "phone" then PhoneError(f.phone)
    else if field == "email" then EmailError(f.email)
    else if field == "password" then PasswordError(f.password)
    else if field == "password2" then ConfirmError(f.password, f.password2)
    else None
  }

  /** The field errors `handleSubmit` collects. */
  function RegisterErrors(f: RegisterForm): (e: map<string, string>)
    ensures "first_name" in e <==> f.firstName == ""
    ensures "last_name" in e <==> f.lastName == ""
    ensures "phone" in e <==> !PhoneLike(f.phone)
    ensures "email" in e <==> !EmailLike(f.email)
    ensures "password" in e <==> Utf16Length(f.password) < 8 || HasPersianLetter(f.password)
    ensures "password2" in e <==> f.password != f.password2 || HasPersianLetter(f.password2)
    ensures e.Keys <= RegisterFields
    ensures e == map[] <==>
      && f.firstName != "" && f.lastName != "" && PhoneLike(f.phone) && EmailLike(f.email)
      && Utf16Length(f.password) >= 8 && !HasPersianLetter(f.password) && f.password2 == f.password
  {
    var e := map field | field in RegisterFields && FieldError(f, field).Some? :: FieldError(f, field).value;
    assert e == map[] <==> e.Keys == {};
    e
  }

  /** What a submit does: abort with the field errors, or send the form. */
  datatype Submit<T> = Abort(errors: T) | Send

  function RegisterSubmit(f: RegisterForm): (r: Submit<map<string, string>>)
    ensures r.Send? <==> RegisterErrors(f) == map[]
    ensures r.Abort? ==> r.errors == RegisterErrors(f) && r.errors != map[]
  {
    var e := RegisterErrors(f);
    if e != map[] then Abort(e) else Send
  }

  /** The password key guards: a Persian key is suppressed and reported on
      that field; any other key clears a pending error of that field. */
  function PasswordKeyDown(key: string, field: string, errors: map<string, string>): (r: (bool, map<string, string>))
    ensures r.0 <==> IsPersianKey(key)
    ensures r.0 ==> r.1 == errors[field := PersianKeyboard]
    ensures !r.0 && field in errors && errors[field] != "" ==> r.1 == errors[field := ""]
    ensures forall k :: k in errors && k != field ==> k in r.1 && r.1[k] == errors[k]
  {
    if IsPersianKey(key) then (true, errors[field := PersianKeyboard])
    else if field in errors && errors[field] != "" then (false, errors[field := ""])
    else (false, errors)
  }

  // ------------------------------------------------------------------
  // Password-reset form
  // ------------------------------------------------------------------

  /** `isPasswordValid`. */
  predicate ResetSubmittable(newPassword: string, confirm: string) {
    Utf16Length(newPassword) >= 8 && confirm == newPassword && PasswordStrength(newPassword, 50).title == VeryStrong
  }

  /** The reset form can be sent exactly when the confirmation agrees and
      every strength check passes. */
  lemma ResetSubmittableIff(newPassword: string, confirm: string)
    ensures ResetSubmittable(newPassword, confirm) <==> confirm == newPassword && PassedChecks(newPassword) == 5
  {
    if PassedChecks(newPassword) == 5 {
      assert newPassword != "";
    }
  }

  /** `requestResetOTP` up to the request. */
  function RequestResetCheck(email: string): (r: Submit<string>)
    ensures r.Send? <==> email != "" && EmailLike(email) && !HasPersianLetter(email)
  {
    if email == "" then Abort("لطفاً ایمیل خود را وارد کنید")
    else if !EmailLike(email) then Abort("آدرس ایمیل نامعتبر است")
    else if HasPersianLetter(email) then Abort("ایمیل نباید شامل کاراکتر فارسی باشد")
    else Send
  }

  datatype ResetStep = RequestStep | ResetStepShown

  /** The step after the request step: it advances only after a request was
      sent and answered with success. `reply` is None when the request
      failed. */
  function StepAfterRequest(email: string, reply: Option<string>): (s: ResetStep)
    ensures s == ResetStepShown <==> RequestResetCheck(email).Send? && reply.Some?
  {
    if RequestResetCheck(email).Abort? then RequestStep
    else if reply.Some? then ResetStepShown
    else RequestStep
  }

  /** `resetPassword` up to the request: strength, then agreement, then
      Persian letters. */
  function ResetCheck(newPassword: string, confirm: string): (r: Submit<string>)
    ensures r.Send? <==> PasswordStrength(newPassword, 50).title == VeryStrong && newPassword == confirm
                         && !HasPersianLetter(newPassword)
    ensures PasswordStrength(newPassword, 50).title != VeryStrong ==> r == Abort("رمز عبور باید بسیار قوی باشد")
  {
    if PasswordStrength(newPassword, 50).title != VeryStrong then Abort("رمز عبور باید بسیار قوی باشد")
    else if newPassword != confirm then Abort("رمزهای عبور با هم مطابقت ندارند")
    else if HasPersianLetter(newPassword) then Abort("رمز عبور نباید شامل کاراکتر فارسی باشد")
    else Send
  }

  // ------------------------------------------------------------------
  // Login form
  // ------------------------------------------------------------------

  /** The field errors of the login form. */
  function LoginErrors(email: string, password: string): (e: map<string, string>)
    ensures "email" in e <==> !EmailLike(email)
    ensures "password" in e <==> Utf16Length(password) < 8 || HasPersianLetter(password)
    ensures e == map[] <==> EmailLike(email) && Utf16Length(password) >= 8 && !HasPersianLetter(password)
    ensures e.Keys <= {"email", "password"}
  {
    var e1: map<string, string> :=
      if email == "" then map["email" := "ایمیل الزامی است"]
      else if !EmailLike(email) then map["email" := "ایمیل نامعتبر است"]
      else map[];
    if password == "" then e1["password" := "رمز عبور الزامی است"]
    else if Utf16Length(password) < 8 then e1["password" := "رمز عبور باید حداقل ۸ کاراکتر باشد"]
    else if HasPersianLetter(password) then e1["password" := "رمز عبور نباید شامل کاراکتر فارسی باشد"]
    else e1
  }

  /** Where the login form goes once the request returns. `status` is None
      when no response arrived; `message` is the reply's `message` field. */
  datatype LoginScreen =
    | Dashboard
    | Stay
    | ThrottleWarning
    | VerifyEmail(message: string)
    | GeneralError(message: string)

  const LoginFailed := "ورود ناموفق بود."

  function LoginOutcome(status: Option<int>, message: Option<string>): (s: LoginScreen)
    ensures status == Some(200) ==> s == Dashboard
    ensures status == Some(429) ==> s == ThrottleWarning
    ensures status == Some(400) ==> s == GeneralError("ایمیل یا رمز عبور اشتباه است.")
    ensures status == Some(401) ==>
      var m := if message.Some? && message.value != "" then message.value else LoginFailed;
      s == (if Contains(m, "وریفای") || Contains(m, "verify") then VerifyEmail(m) else GeneralError(m))
    ensures s.VerifyEmail? ==> status == Some(401)
  {
    if status.Some? && 200 <= status.value < 300 then
      if status.value == 200 then Dashboard else Stay
    else if status == Some(429) then ThrottleWarning
    else if status == Some(401) then
      var m := if message.Some? && message.value != "" then message.value else LoginFailed;
      if Contains(m, "وریفای") || Contains(m, "verify") then VerifyEmail(m) else GeneralError(m)
    else if status == Some(400) then GeneralError("ایمیل یا رمز عبور اشتباه است.")
    else GeneralError("خطایی رخ داده است. لطفاً دوباره تلاش کنید.")
  }
}
