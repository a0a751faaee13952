/** The request serializers of the code endpoints
    (Back-end/auth_app/serializers.py). `is_valid` checks every field and
    reports the refused ones together; the model keeps their names. A field
    reaches its validator after DRF's own checks (present, a string, not
    blank and, for an e-mail field, Django's address syntax), whose verdict is
    given as a flag, and after DRF trims it. The validator attached to the
    field runs as written in Back-end/core/validator.py or, for comparison,
    as evidently intended. */
module AuthSerializers {
  import opened Wrappers
  import opened OtpModel
  import opened Validators

  /** Which reading of the field validators a serializer runs. */
  datatype Reading = AsWritten | Intended

  function RunValidator(reading: Reading, f: Field, value: string): Result<string, string> {
    if reading == AsWritten then FieldValidator(f, Str(value)) else IntendedFieldValidator(f, Str(value))
  }

  /** The choices of `RequestOTPSerializer.purpose`. */
  const PurposeChoices: seq<string> := ["verify", "login", "reset"]

  /** An e-mail field with `email_validator` attached refuses the value. */
  predicate EmailRefused(reading: Reading, email: string, emailChecked: bool) {
    !emailChecked || RunValidator(reading, EmailField, email).Failure?
  }

  /** `RequestOTPSerializer(data).is_valid()`: the names of the refused
      fields, empty when the data is valid. `email` is the trimmed value,
      `emailChecked` DRF's own verdict on it, `purpose` the submitted choice. */
  function RequestOtpErrors(reading: Reading, email: string, emailChecked: bool, purpose: Option<string>): (errors: set<string>)
    ensures "email" in errors <==> EmailRefused(reading, email, emailChecked)
    ensures "purpose" in errors <==> purpose.None? || purpose.value !in PurposeChoices
    ensures errors <= {"email", "purpose"}
  {
    (if EmailRefused(reading, email, emailChecked) then {"email"} else {})
    + (if purpose.None? || purpose.value !in PurposeChoices then {"purpose"} else {})
  }

  /** `VerifyOTPSerializer(data).is_valid()`, with `otp` the trimmed code and
      `otpChecked` DRF's own verdict on it. */
  function VerifyOtpErrors(reading: Reading, email: string, emailChecked: bool, otp: string, otpChecked: bool): (errors: set<string>)
    ensures "email" in errors <==> EmailRefused(reading, email, emailChecked)
    ensures "otp" in errors <==> !otpChecked || RunValidator(reading, OtpField, otp).Failure?
    ensures errors <= {"email", "otp"}
  {
    (if EmailRefused(reading, email, emailChecked) then {"email"} else {})
    + (if !otpChecked || RunValidator(reading, OtpField, otp).Failure? then {"otp"} else {})
  }

  /** As written, both serializers refuse every address the e-mail pattern
      describes, whatever DRF's own checks say. */
  lemma AddressRefusedAsWritten(email: string, emailChecked: bool, purpose: Option<string>, otp: string, otpChecked: bool)
    requires PatternMatches(EmailField, email)
    ensures "email" in RequestOtpErrors(AsWritten, email, emailChecked, purpose)
    ensures "email" in VerifyOtpErrors(AsWritten, email, emailChecked, otp, otpChecked)
  {
    EmailValidatorRejectsAddresses(email);
  }

  /** As written, `VerifyOTPSerializer` refuses every code the server
      issues. */
  lemma IssuedCodeRefusedAsWritten(email: string, emailChecked: bool, n: nat, otpChecked: bool)
    requires n < 1000000
    ensures "otp" in VerifyOtpErrors(AsWritten, email, emailChecked, GenerateOtp(n), otpChecked)
  {
    OtpValidatorRejectsGeneratedCodes(n);
  }

  /** As intended, a well-formed address with a valid purpose passes
      `RequestOTPSerializer` once DRF's own checks pass. */
  lemma IntendedAcceptsRequest(email: string, purpose: string)
    requires PatternMatches(EmailField, email) && purpose in PurposeChoices
    ensures RequestOtpErrors(Intended, email, true, Some(purpose)) == {}
  {
    IntendedEmailValidatorAcceptsAddresses(email);
  }

  /** As intended, a well-formed address with an issued code passes
      `VerifyOTPSerializer` once DRF's own checks pass. */
  lemma IntendedAcceptsIssuedCode(email: string, n: nat)
    requires PatternMatches(EmailField, email) && n < 1000000
    ensures VerifyOtpErrors(Intended, email, true, GenerateOtp(n), true) == {}
  {
    IntendedEmailValidatorAcceptsAddresses(email);
    IntendedOtpValidatorAcceptsGeneratedCodes(n, Str(GenerateOtp(n)));
  }
}
