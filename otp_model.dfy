/** One-time codes (Back-end/auth_app/models.py): their purposes, expiry and
    generation, and the `^\d{6}$` check on the stored code. */
module OtpModel {
  import opened Strings

  datatype OtpPurpose = Verify | Login | Reset

  function PurposeName(p: OtpPurpose): string {
    match p
    case Verify => "verify"
    case Login => "login"
    case Reset => "reset"
  }

  /** `EmailOTP.is_expired`: strictly past creation plus the configured
      minutes; the boundary instant itself is not expired. */
  predicate IsExpired(createdAt: int, now: int, expirationMinutes: int) {
    now > createdAt + expirationMinutes * 60
  }

  lemma ExpiryBoundary(createdAt: int, m: int)
    ensures !IsExpired(createdAt, createdAt + m * 60, m)
    ensures IsExpired(createdAt, createdAt + m * 60 + 1, m)
  {
  }

  function Zeros(k: nat): (r: string)
    ensures |r| == k && forall i :: 0 <= i < k ==> r[i] == '0'
  {
    if k == 0 then [] else Zeros(k - 1) + ['0']
  }

  /** Python `str.zfill(width)` on an unsigned digit string. */
  function ZFill(s: string, width: nat): (r: string)
    ensures |r| == if |s| < width then width else |s|
  {
    if |s| < width then Zeros(width - |s|) + s else s
  }

  function Pow10(k: nat): nat {
    if k == 0 then 1 else 10 * Pow10(k - 1)
  }

  lemma {:induction false} NatToStringLength(n: nat, k: nat)
    requires 0 < k && n < Pow10(k)
    ensures |NatToString(n)| <= k
  {
    if n >= 10 {
      assert k > 1;
      NatToStringLength(n / 10, k - 1);
    }
  }

  lemma {:induction false} LeadingZerosValue(k: nat, s: string)
    requires forall i :: 0 <= i < |s| ==> IsAsciiDigit(s[i])
    ensures forall i :: 0 <= i < |Zeros(k) + s| ==> IsAsciiDigit((Zeros(k) + s)[i])
    ensures DigitsValue(Zeros(k) + s) == DigitsValue(s)
    decreases |s|, k
  {
    var z := Zeros(k);
    if s == [] {
      assert z + s == z;
      if k > 0 {
        assert z[..k - 1] == Zeros(k - 1);
        LeadingZerosValue(k - 1, []);
        assert Zeros(k - 1) + [] == Zeros(k - 1);
      }
    } else {
      var init := s[..|s| - 1];
      LeadingZerosValue(k, init);
      assert (z + s)[..|z + s| - 1] == z + init;
    }
  }

  /** `generate_otp` for the drawn number `n` (`secrets.randbelow(10**6)`). */
  function GenerateOtp(n: nat): (code: string)
    requires n < 1000000
  {
    ZFill(NatToString(n), 6)
  }

  /** A generated code has six characters, all decimal digits, and reads back
      as the drawn number. */
  lemma GenerateOtpSpec(n: nat)
    requires n < 1000000
    ensures |GenerateOtp(n)| == 6
    ensures forall i :: 0 <= i < 6 ==> IsAsciiDigit(GenerateOtp(n)[i])
    ensures DigitsValue(GenerateOtp(n)) == n
  {
    assert Pow10(6) == 1000000;
    NatToStringLength(n, 6);
    var s := NatToString(n);
    LeadingZerosValue(6 - |s|, s);
    NatToStringValue(n);
  }

  /** The field's `RegexValidator(r'^\d{6}$')`, searched: `$` also matches
      before one final newline. */
  predicate OtpFieldMatches(s: string) {
    (|s| == 6 || (|s| == 7 && s[6] == '\n')) && forall i :: 0 <= i < 6 ==> IsAsciiDigit(s[i])
  }

  /** Every generated code passes the field check. */
  lemma GeneratedCodesPassField(n: nat)
    requires n < 1000000
    ensures OtpFieldMatches(GenerateOtp(n))
  {
    GenerateOtpSpec(n);
  }

  /** The field check also admits a code followed by a newline. */
  lemma FieldAdmitsTrailingNewline(n: nat)
    requires n < 1000000
    ensures OtpFieldMatches(GenerateOtp(n) + "\n")
  {
    GenerateOtpSpec(n);
  }
}
