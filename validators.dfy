/** The input validators (Back-end/core/validator.py). Every field validator
    first runs the HTML/JavaScript check, then strips the value and raises
    when its pattern MATCHES, the opposite of what each pattern describes;
    `FieldValidator` keeps that behaviour and `IntendedFieldValidator` is the
    evidently intended one. DRF ignores a validator's return value; it is
    still modelled. `\d`, `\w` and letter classes are taken over ASCII, `\s`
    as Python's white space. */
module Validators {
  import opened Wrappers
  import opened Strings
  import opened OtpModel

  /** What a serializer field hands a validator: a string or anything else. */
  datatype PyValue = Str(s: string) | NonStr

  const InvalidType := "Invalid value type."
  const HtmlRejected := "کد های html و جاوا اسکریپتی  مجاز نیست ای متجاوز!"
  const NameRejected := " در فیلد نام فقط مجاز به وارد کردن حروف فارسی یا انگلیسی هستید."
  const EmailRejected := "مقدار نا معتبر است."
  const ValueRejected := "مقدار نامعتبر است."

  // ------------------------------------------------------------------
  // HTML_PATTERN: `<.*?>|javascript:|on\w+\s*=`, case-insensitive
  // ------------------------------------------------------------------

  /** `.*?>` matches at the start of `u`: a `>` before any newline. */
  predicate CloseOnLine(u: string) {
    u != [] && (u[0] == '>' || (u[0] != '\n' && CloseOnLine(u[1..])))
  }

  function WordRun(s: string): (n: nat)
    ensures n <= |s| && (forall i :: 0 <= i < n ==> IsWordChar(s[i])) && (n < |s| ==> !IsWordChar(s[n]))
  {
    if s == [] || !IsWordChar(s[0]) then 0 else 1 + WordRun(s[1..])
  }

  function SpaceRun(s: string): (n: nat)
    ensures n <= |s| && (forall i :: 0 <= i < n ==> PyIsSpace(s[i])) && (n < |s| ==> !PyIsSpace(s[n]))
  {
    if s == [] || !PyIsSpace(s[0]) then 0 else 1 + SpaceRun(s[1..])
  }

  /** `on\w+\s*=` at the start of `t`, ignoring case. Word characters and
      white space are disjoint and `=` is neither, so the greedy runs decide. */
  predicate HandlerAt(t: string) {
    && |t| >= 2 && LowerChar(t[0]) == 'o' && LowerChar(t[1]) == 'n'
    && var w := WordRun(t[2..]);
    && w > 0
    && var sp := SpaceRun(t[2 + w..]);
    && 2 + w + sp < |t| && t[2 + w + sp] == '='
  }

  /** `t` starts with the lower-case literal `lit`, ignoring case. */
  predicate StartsIgnoringCase(t: string, lit: string) {
    lit == [] || (t != [] && LowerChar(t[0]) == lit[0] && StartsIgnoringCase(t[1..], lit[1..]))
  }

  /** One of the three alternatives matches at the start of `t`. */
  predicate HtmlAt(t: string) {
    || (t != [] && t[0] == '<' && CloseOnLine(t[1..]))
    || StartsIgnoringCase(t, "javascript:")
    || HandlerAt(t)
  }

  /** `HTML_PATTERN.search(s)` succeeds. */
  predicate ContainsHtml(s: string) {
    s != [] && (HtmlAt(s) || ContainsHtml(s[1..]))
  }

  /** `no_html_js_validator`. */
  function NoHtmlJs(v: PyValue): (r: Result<string, string>)
    ensures v.NonStr? ==> r == Failure(InvalidType)
    ensures v.Str? ==> (r.Success? <==> !ContainsHtml(PyStrip(v.s)))
    ensures r.Success? ==> r.value == PyStrip(v.s)
    ensures r.Failure? && v.Str? ==> r.error == HtmlRejected
  {
    if v.NonStr? then Failure(InvalidType)
    else
      var t := PyStrip(v.s);
      if ContainsHtml(t) then Failure(HtmlRejected) else Success(t)
  }

  /** A one-line tag such as `<script>`. */
  predicate OneLineTag(t: string) {
    |t| >= 2 && t[0] == '<' && t[|t| - 1] == '>' && forall i :: 0 <= i < |t| ==> t[i] != '\n'
  }

  /** Any one-line tag is refused. */
  lemma TagRejected(t: string)
    requires OneLineTag(t)
    ensures NoHtmlJs(Str(t)) == Failure(HtmlRejected)
  {
    TrimClean(t, PyIsSpace);
    TagIsHtml(t);
  }

  lemma TagIsHtml(t: string)
    requires OneLineTag(t)
    ensures ContainsHtml(t)
  {
    CloseAtEnd(t[1..]);
  }

  /** `.*?>` finds the closing `>` of a line that ends with one. */
  lemma {:induction false} CloseAtEnd(u: string)
    requires u != [] && u[|u| - 1] == '>'
    requires forall i :: 0 <= i < |u| ==> u[i] != '\n'
    ensures CloseOnLine(u)
  {
    if u[0] != '>' {
      CloseAtEnd(u[1..]);
    }
  }

  // ------------------------------------------------------------------
  // The field patterns
  // ------------------------------------------------------------------

  datatype Field = NameField | EmailField | OtpField | PasswordField | PhoneField

  predicate IsNameChar(c: char) {
    (0x622 <= c as int <= 0x6CC) || IsAsciiLetter(c) || c as int == 0x200C || PyIsSpace(c)
    || c == '-' || c == '\'' || c == '.'
  }

  predicate IsEmailLocalChar(c: char) {
    IsAsciiLetter(c) || IsAsciiDigit(c) || c == '.' || c == '_' || c == '%' || c == '+' || c == '-'
  }

  predicate IsEmailDomainChar(c: char) {
    IsAsciiLetter(c) || IsAsciiDigit(c) || c == '.' || c == '-'
  }

  predicate IsPasswordSpecial(c: char) {
    c == '@' || c == '$' || c == '!' || c == '%' || c == '*' || c == '?' || c == '&'
  }

  predicate AllChars(s: string, p: char -> bool) {
    forall i :: 0 <= i < |s| ==> p(s[i])
  }

  /** Length of the longest suffix of letters. */
  function LetterSuffix(s: string): (n: nat)
    ensures n <= |s| && (forall i :: |s| - n <= i < |s| ==> IsAsciiLetter(s[i]))
    ensures n < |s| ==> !IsAsciiLetter(s[|s| - n - 1])
  {
    if s == [] || !IsAsciiLetter(s[|s| - 1]) then 0 else 1 + LetterSuffix(s[..|s| - 1])
  }

  /** Index of the first `@`, |s| when there is none. */
  function FirstAt(s: string): (i: nat)
    ensures i <= |s| && (forall j :: 0 <= j < i ==> s[j] != '@') && (i < |s| ==> s[i] == '@')
  {
    if s == [] then 0 else if s[0] == '@' then 0 else 1 + FirstAt(s[1..])
  }

  /** `^[A-Za-z0-9._%+-]+@[A-Za-z0-9.-]+\.[A-Za-z]{2,}$` on a stripped value.
      The local part cannot hold `@`, so the split is at the first `@`; the
      top-level domain is the longest run of letters at the end. */
  predicate EmailMatches(t: string) {
    && var a := FirstAt(t);
    && 1 <= a < |t| && AllChars(t[..a], IsEmailLocalChar)
    && var d := t[a + 1..];
    && AllChars(d, IsEmailDomainChar)
    && var m := LetterSuffix(d);
    && m >= 2 && |d| - m - 1 >= 1 && d[|d| - m - 1] == '.'
  }

  /** The pattern of a field matches the stripped value `t` (which has no
      white space at either end, so `$` sees no trailing newline). */
  predicate PatternMatches(f: Field, t: string) {
    match f
    case NameField => t != [] && AllChars(t, IsNameChar)
    case EmailField => EmailMatches(t)
    // `[0-9]\d{5}$` is not anchored at the start.
    case OtpField => |t| >= 6 && AllChars(t[|t| - 6..], IsAsciiDigit)
    case PasswordField =>
      && |t| >= 8
      && AllChars(t, c => IsAsciiLetter(c) || IsAsciiDigit(c) || IsPasswordSpecial(c))
      && (exists i :: 0 <= i < |t| && IsAsciiLower(t[i]))
      && (exists i :: 0 <= i < |t| && IsAsciiUpper(t[i]))
      && (exists i :: 0 <= i < |t| && IsAsciiDigit(t[i]))
      && (exists i :: 0 <= i < |t| && IsPasswordSpecial(t[i]))
    case PhoneField => |t| == 11 && t[0] == '0' && t[1] == '9' && AllChars(t[2..], IsAsciiDigit)
  }

  function RejectMessage(f: Field): string {
    match f
    case NameField => NameRejected
    case EmailField => EmailRejected
    case _ => ValueRejected
  }

  /** `name_validator`, `email_validator`, `otp_validator`,
      `password_validator`, `phone_validator` as written: the HTML check
      first, then a value is rejected exactly when the pattern matches. */
  function FieldValidator(f: Field, v: PyValue): (r: Result<string, string>)
    ensures NoHtmlJs(v).Failure? ==> r == NoHtmlJs(v)
    ensures NoHtmlJs(v).Success? ==> (r.Failure? <==> PatternMatches(f, PyStrip(v.s)))
    ensures r.Success? ==> v.Str? && r.value == PyStrip(v.s)
    ensures r.Failure? && NoHtmlJs(v).Success? ==> r.error == RejectMessage(f)
  {
    var checked := NoHtmlJs(v);
    if checked.Failure? then checked
    else
      var t := PyStrip(v.s);
      if PatternMatches(f, t) then Failure(RejectMessage(f)) else Success(t)
  }

  /** Whatever a field validator accepts, it accepts again unchanged. */
  lemma FieldValidatorIdempotent(f: Field, v: PyValue)
    requires FieldValidator(f, v).Success?
    ensures FieldValidator(f, Str(FieldValidator(f, v).value)) == FieldValidator(f, v)
  {
    TrimTwice(v.s, PyIsSpace);
  }

  /** A well-formed Iranian mobile number such as 09123456789. */
  predicate MobileNumber(t: string) {
    |t| == 11 && t[0] == '0' && t[1] == '9' && AllChars(t, IsAsciiDigit)
  }

  /** As written, the phone validator refuses every well-formed mobile
      number. */
  lemma PhoneValidatorRejectsValidNumbers(t: string)
    requires MobileNumber(t)
    ensures FieldValidator(PhoneField, Str(t)) == Failure(ValueRejected)
  {
    MobileNumberClean(t);
  }

  lemma MobileNumberClean(t: string)
    requires MobileNumber(t)
    ensures PyStrip(t) == t && NoHtmlJs(Str(t)) == Success(t) && PatternMatches(PhoneField, t)
  {
    DigitsStripped(t);
    DigitsNoHtml(t);
    MobilePattern(t);
  }

  lemma MobilePattern(t: string)
    requires MobileNumber(t)
    ensures PatternMatches(PhoneField, t)
  {
  }

  lemma DigitsNoHtml(t: string)
    requires AllChars(t, IsAsciiDigit)
    ensures NoHtmlJs(Str(t)) == Success(t)
  {
    DigitsStripped(t);
    DigitsHaveNoHtml(t);
  }

  /** As written, the OTP validator refuses every code the server generates. */
  lemma OtpValidatorRejectsGeneratedCodes(n: nat)
    requires n < 1000000
    ensures FieldValidator(OtpField, Str(GenerateOtp(n))).Failure?
  {
    var t := GenerateOtp(n);
    GenerateOtpSpec(n);
    DigitsHaveNoHtml(t);
    assert PyStrip(t) == t by { DigitsStripped(t); }
    assert t[|t| - 6..] == t;
  }

  /** A character of an address the e-mail pattern describes. */
  predicate IsAddressChar(c: char) {
    IsEmailLocalChar(c) || c == '@'
  }

  /** An address matching the e-mail pattern holds only address characters. */
  lemma AddressChars(t: string)
    requires EmailMatches(t)
    ensures AllChars(t, IsAddressChar)
  {
    var a := FirstAt(t);
    forall i | 0 <= i < |t|
      ensures IsAddressChar(t[i])
    {
      if i < a {
        assert t[..a][i] == t[i];
      } else if i > a {
        assert t[a + 1..][i - a - 1] == t[i];
      }
    }
  }

  /** A literal matched ignoring case fixes every character it covers. */
  lemma {:induction false} StartsIgnoringCaseAt(t: string, lit: string, i: nat)
    requires StartsIgnoringCase(t, lit) && i < |lit|
    ensures i < |t| && LowerChar(t[i]) == lit[i]
  {
    if i > 0 {
      StartsIgnoringCaseAt(t[1..], lit[1..], i - 1);
    }
  }

  /** Address characters hold no `<`, `:` or `=`, so no alternative of the
      HTML pattern can match. */
  lemma {:induction false} AddressHasNoHtml(t: string)
    requires AllChars(t, IsAddressChar)
    ensures !ContainsHtml(t)
  {
    if t != [] {
      AddressHasNoHtml(t[1..]);
      if StartsIgnoringCase(t, "javascript:") {
        StartsIgnoringCaseAt(t, "javascript:", 10);
      }
    }
  }

  /** Such an address passes the HTML check unchanged. */
  lemma AddressClean(t: string)
    requires EmailMatches(t)
    ensures PyStrip(t) == t && NoHtmlJs(Str(t)) == Success(t)
  {
    AddressChars(t);
    TrimClean(t, PyIsSpace);
    AddressHasNoHtml(t);
  }

  /** A clean value whose field pattern matches is refused, as written. */
  lemma RejectedWhenMatching(f: Field, t: string)
    requires NoHtmlJs(Str(t)) == Success(t) && PyStrip(t) == t && PatternMatches(f, t)
    ensures FieldValidator(f, Str(t)) == Failure(RejectMessage(f))
  {
  }

  /** "u@ex.com" is an address the e-mail pattern describes. */
  lemma OrdinaryAddress()
    ensures EmailMatches("u@ex.com")
  {
    var t := "u@ex.com";
    OrdinaryParts();
    assert t[..1] == "u" && t[2..] == "ex.com";
  }

  lemma OrdinaryParts()
    ensures FirstAt("u@ex.com") == 1
    ensures AllChars("u", IsEmailLocalChar) && AllChars("ex.com", IsEmailDomainChar)
    ensures LetterSuffix("ex.com") == 3 && "ex.com"[2] == '.'
  {
    assert "u@ex.com"[1..] == "@ex.com";
    OrdinaryDomain();
    OrdinarySuffix();
  }

  lemma OrdinaryDomain()
    ensures AllChars("ex.com", IsEmailDomainChar)
  {
    var d := "ex.com";
    forall i | 0 <= i < |d|
      ensures IsEmailDomainChar(d[i])
    {
      assert d[i] in {'e', 'x', '.', 'c', 'o', 'm'};
    }
  }

  lemma OrdinarySuffix()
    ensures LetterSuffix("ex.com") == 3
  {
    var d := "ex.com";
    assert d[..5] == "ex.co" && d[..5][..4] == "ex.c" && d[..5][..4][..3] == "ex.";
    assert LetterSuffix("ex.") == 0;
    assert LetterSuffix("ex.c") == 1;
    assert LetterSuffix("ex.co") == 2;
  }

  /** As written, the e-mail validator refuses every address its pattern
      describes. */
  lemma EmailValidatorRejectsAddresses(t: string)
    requires PatternMatches(EmailField, t)
    ensures FieldValidator(EmailField, Str(t)) == Failure(EmailRejected)
  {
    AddressClean(t);
    RejectedWhenMatching(EmailField, t);
  }

  // ------------------------------------------------------------------
  // Intended behaviour
  // ------------------------------------------------------------------

  /** The OTP pattern with both ends anchored, as the model field's own
      validator `^\d{6}$` has it; the other patterns are already anchored. */
  predicate IntendedMatches(f: Field, t: string) {
    if f == OtpField then |t| == 6 && AllChars(t, IsAsciiDigit) else PatternMatches(f, t)
  }

  /** The validators as evidently intended: a value is accepted exactly when
      it matches its field's pattern. */
  function IntendedFieldValidator(f: Field, v: PyValue): (r: Result<string, string>)
    ensures NoHtmlJs(v).Failure? ==> r == NoHtmlJs(v)
    ensures NoHtmlJs(v).Success? ==> (r.Success? <==> IntendedMatches(f, PyStrip(v.s)))
    ensures r.Success? ==> v.Str? && r.value == PyStrip(v.s)
  {
    var checked := NoHtmlJs(v);
    if checked.Failure? then checked
    else
      var t := PyStrip(v.s);
      if IntendedMatches(f, t) then Success(t) else Failure(RejectMessage(f))
  }

  /** The intended OTP validator accepts every generated code and nothing
      else than six digits (after stripping). */
  lemma IntendedOtpValidatorAcceptsGeneratedCodes(n: nat, v: PyValue)
    requires n < 1000000
    ensures IntendedFieldValidator(OtpField, Str(GenerateOtp(n))) == Success(GenerateOtp(n))
    ensures IntendedFieldValidator(OtpField, v).Success? ==>
      v.Str? && |PyStrip(v.s)| == 6 && AllChars(PyStrip(v.s), IsAsciiDigit)
  {
    var t := GenerateOtp(n);
    GenerateOtpSpec(n);
    DigitsHaveNoHtml(t);
    DigitsStripped(t);
  }

  /** The intended e-mail validator accepts every such address as it is. */
  lemma IntendedEmailValidatorAcceptsAddresses(t: string)
    requires PatternMatches(EmailField, t)
    ensures IntendedFieldValidator(EmailField, Str(t)) == Success(t)
  {
    AddressClean(t);
  }

  /** The intended phone validator accepts exactly the stripped mobile
      numbers the written one refuses. */
  lemma IntendedPhoneValidatorAcceptsValidNumbers(t: string)
    requires MobileNumber(t)
    ensures IntendedFieldValidator(PhoneField, Str(t)) == Success(t)
  {
    MobileNumberClean(t);
  }

  /** ... and accepts nothing else. */
  lemma IntendedPhoneValidatorAcceptsOnlyNumbers(v: PyValue)
    requires IntendedFieldValidator(PhoneField, v).Success?
    ensures v.Str? && MobileNumber(PyStrip(v.s))
  {
    MobileFromPattern(PyStrip(v.s));
  }

  lemma MobileFromPattern(u: string)
    requires PatternMatches(PhoneField, u)
    ensures MobileNumber(u)
  {
    assert forall i :: 2 <= i < |u| ==> u[2..][i - 2] == u[i];
  }

  /** A string of digits holds no HTML or script. */
  lemma {:induction false} DigitsHaveNoHtml(t: string)
    requires AllChars(t, IsAsciiDigit)
    ensures !ContainsHtml(t)
  {
    if t != [] {
      DigitsHaveNoHtml(t[1..]);
      assert LowerChar(t[0]) != 'j';
    }
  }

  /** Digits carry no white space to strip. */
  lemma DigitsStripped(t: string)
    requires AllChars(t, IsAsciiDigit)
    ensures PyStrip(t) == t
  {
    TrimClean(t, PyIsSpace);
  }
}
