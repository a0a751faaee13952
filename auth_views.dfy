/** The one-time-code endpoints (Back-end/auth_app/views.py): issuing codes
    for e-mail verification, login and password reset, consuming them, the
    token cap applied at OTP login, password change and the client-IP helper.
    Mail delivery is reduced to the code that would be mailed; password
    hashing to storing and comparing the password itself. The views that
    use a serializer run its field checks first (`AuthSerializers`); the
    others read the request body directly. */
module AuthViews {
  import opened Wrappers
  import opened Strings
  import opened OtpModel
  import opened Tokens
  import opened AuthSerializers

  // ------------------------------------------------------------------
  // Client IP
  // ------------------------------------------------------------------

  /** `s.split(',')[0]`. */
  function FirstField(s: string): (r: string)
    ensures |r| <= |s| && r == s[..|r|]
    ensures ',' !in r
    ensures r == s || s[|r|] == ','
  {
    if s == [] || s[0] == ',' then [] else [s[0]] + FirstField(s[1..])
  }

  /** `get_client_ip`: the first hop of a non-empty X-Forwarded-For header,
      otherwise REMOTE_ADDR (None when absent). */
  function GetClientIp(forwardedFor: Option<string>, remoteAddr: Option<string>): (ip: Option<string>)
    ensures forwardedFor.Some? && forwardedFor.value != "" ==> ip == Some(FirstField(forwardedFor.value))
    ensures forwardedFor.None? || forwardedFor.value == "" ==> ip == remoteAddr
  {
    if forwardedFor.Some? && forwardedFor.value != "" then Some(FirstField(forwardedFor.value)) else remoteAddr
  }

  // ------------------------------------------------------------------
  // Stored state
  // ------------------------------------------------------------------

  datatype OtpRow = OtpRow(id: nat, email: string, code: string, purpose: OtpPurpose, createdAt: int, isUsed: bool)

  datatype Account = Account(id: UserId, isActive: bool, isVerified: bool, isStaff: bool, password: string)

  /** The user rows keyed by e-mail and the code rows. */
  class AuthDb {
    var accounts: map<string, Account>
    var otps: seq<OtpRow>
    var nextOtpId: nat

    constructor(accounts: map<string, Account>)
      ensures this.accounts == accounts && otps == []
    {
      this.accounts := accounts;
      otps := [];
      nextOtpId := 0;
    }
  }

  /** A row the lookup `filter(email, otp, is_used=False, purpose)` returns. */
  predicate Matches(row: OtpRow, email: string, code: string, purpose: OtpPurpose) {
    row.email == email && row.code == code && !row.isUsed && row.purpose == purpose
  }

  /** A row the delete `filter(email, is_used=False, purpose).delete()` removes. */
  predicate Pending(row: OtpRow, email: string, purpose: OtpPurpose) {
    row.email == email && !row.isUsed && row.purpose == purpose
  }

  /** The rows surviving that delete, in order. */
  function Without(rows: seq<OtpRow>, email: string, purpose: OtpPurpose): (r: seq<OtpRow>)
    ensures |r| <= |rows|
    ensures forall i :: 0 <= i < |r| ==> !Pending(r[i], email, purpose) && r[i] in rows
    ensures forall x :: x in rows && !Pending(x, email, purpose) ==> x in r
  {
    if rows == [] then []
    else
      var rest := Without(rows[1..], email, purpose);
      assert forall x :: x in rows && x != rows[0] ==> x in rows[1..];
      if Pending(rows[0], email, purpose) then rest else [rows[0]] + rest
  }

  /** The delete works row by row, so the survivors keep their order. */
  lemma {:induction false} WithoutAppend(a: seq<OtpRow>, b: seq<OtpRow>, email: string, purpose: OtpPurpose)
    ensures Without(a + b, email, purpose) == Without(a, email, purpose) + Without(b, email, purpose)
  {
    if a == [] {
      assert a + b == b;
    } else {
      assert (a + b)[1..] == a[1..] + b;
      WithoutAppend(a[1..], b, email, purpose);
    }
  }

  /** `.latest('created_at')` over the matching rows: the index of a matching
      row with the greatest creation time. */
  function Latest(rows: seq<OtpRow>, email: string, code: string, purpose: OtpPurpose): (r: Option<nat>)
    ensures r.None? <==> forall i :: 0 <= i < |rows| ==> !Matches(rows[i], email, code, purpose)
    ensures r.Some? ==> r.value < |rows| && Matches(rows[r.value], email, code, purpose)
    ensures r.Some? ==> forall i :: 0 <= i < |rows| && Matches(rows[i], email, code, purpose) ==>
                          rows[i].createdAt <= rows[r.value].createdAt
  {
    if rows == [] then None
    else
      var last := |rows| - 1;
      var prev := Latest(rows[..last], email, code, purpose);
      if Matches(rows[last], email, code, purpose) && (prev.None? || rows[prev.value].createdAt <= rows[last].createdAt)
      then Some(last)
      else prev
  }

  /** Issue a fresh code: every unused code of this e-mail and purpose is
      deleted and the new one appended. */
  method IssueCode(db: AuthDb, email: string, purpose: OtpPurpose, drawn: nat, now: int) returns (code: string)
    requires drawn < 1000000
    modifies db
    ensures code == GenerateOtp(drawn)
    ensures db.otps == Without(old(db.otps), email, purpose) + [OtpRow(old(db.nextOtpId), email, code, purpose, now, false)]
    ensures db.accounts == old(db.accounts)
  {
    code := GenerateOtp(drawn);
    db.otps := Without(db.otps, email, purpose) + [OtpRow(db.nextOtpId, email, code, purpose, now, false)];
    db.nextOtpId := db.nextOtpId + 1;
  }

  /** After issuing, the new code is the only unused code for that e-mail and
      purpose. */
  lemma OneLiveCode(rows: seq<OtpRow>, email: string, purpose: OtpPurpose, newRow: OtpRow)
    requires newRow.email == email && newRow.purpose == purpose && !newRow.isUsed
    ensures var r := Without(rows, email, purpose) + [newRow];
      forall i :: 0 <= i < |r| && Pending(r[i], email, purpose) ==> i == |r| - 1
  {
  }

  /** Codes are bound to their purpose: a code issued for one purpose is never
      found by a lookup for another. */
  lemma PurposeBound(rows: seq<OtpRow>, email: string, code: string, p: OtpPurpose, q: OtpPurpose)
    requires p != q
    requires forall i :: 0 <= i < |rows| && rows[i].email == email && rows[i].code == code ==> rows[i].purpose == p
    ensures Latest(rows, email, code, q).None?
  {
  }

  /** A code marked used never matches again. */
  lemma UsedNeverMatches(rows: seq<OtpRow>, i: nat, email: string, code: string, purpose: OtpPurpose)
    requires i < |rows|
    ensures var r := rows[i := rows[i].(isUsed := true)];
      Latest(r, email, code, purpose) != Some(i)
  {
  }

  /** A view's answer: a status with its message, or the 400 that
      `is_valid(raise_exception=True)` raises, naming the refused fields. */
  datatype Reply = Reply(status: int, msg: string) | FieldErrors(status: int, fields: set<string>)

  /** Every code in the table was issued by `GenerateOtp`. */
  predicate IssuedCodes(rows: seq<OtpRow>) {
    forall i :: 0 <= i < |rows| ==> exists n: nat :: n < 1000000 && rows[i].code == GenerateOtp(n)
  }

  /** Issuing a code keeps every code in the table an issued one. */
  lemma IssuingKeepsCodesIssued(rows: seq<OtpRow>, email: string, purpose: OtpPurpose, id: nat, drawn: nat, now: int)
    requires IssuedCodes(rows) && drawn < 1000000
    ensures IssuedCodes(Without(rows, email, purpose) + [OtpRow(id, email, GenerateOtp(drawn), purpose, now, false)])
  {
    var r := Without(rows, email, purpose) + [OtpRow(id, email, GenerateOtp(drawn), purpose, now, false)];
    forall i | 0 <= i < |r|
      ensures exists n: nat :: n < 1000000 && r[i].code == GenerateOtp(n)
    {
      if i == |r| - 1 {
        assert r[i].code == GenerateOtp(drawn);
      } else {
        var w := Without(rows, email, purpose);
        assert r[i] == w[i] && w[i] in rows;
        var j :| 0 <= j < |rows| && rows[j] == w[i];
      }
    }
  }

  /** As written, `VerifyOTPView` never reaches its lookup with a code the
      table holds: every such code was issued, and `VerifyOTPSerializer`
      refuses every issued code. */
  lemma VerifyUnreachableAsWritten(rows: seq<OtpRow>, email: string, emailChecked: bool, code: string, codeChecked: bool)
    requires IssuedCodes(rows)
    ensures VerifyOtpErrors(AsWritten, email, emailChecked, code, codeChecked) == {} ==> Latest(rows, email, code, Verify).None?
  {
    var k := Latest(rows, email, code, Verify);
    if k.Some? {
      var n: nat :| n < 1000000 && rows[k.value].code == GenerateOtp(n);
      IssuedCodeRefusedAsWritten(email, emailChecked, n, codeChecked);
    }
  }

  // ------------------------------------------------------------------
  // E-mail verification
  // ------------------------------------------------------------------

  /** `RequestOTPView.post`: `RequestOTPSerializer` first; then unknown or
      already-verified e-mails are refused with nothing stored; otherwise a
      fresh VERIFY code replaces the old ones and is mailed. */
  method RequestVerifyOtp(db: AuthDb, reading: Reading, email: string, emailChecked: bool, purpose: Option<string>,
                          drawn: nat, now: int) returns (r: Reply, mailed: Option<string>)
    requires drawn < 1000000
    modifies db
    ensures var errors := RequestOtpErrors(reading, email, emailChecked, purpose);
      errors != {} ==> r == FieldErrors(400, errors) && mailed.None? && unchanged(db)
    ensures RequestOtpErrors(reading, email, emailChecked, purpose) == {} && email !in old(db.accounts) ==>
      r == Reply(400, "کاربری با این ایمیل یافت نشد.") && mailed.None? && unchanged(db)
    ensures RequestOtpErrors(reading, email, emailChecked, purpose) == {} && email in old(db.accounts)
            && old(db.accounts)[email].isVerified ==>
      r == Reply(400, "این ایمیل قبلاً وریفای شده است.") && mailed.None? && unchanged(db)
    ensures r.status == 200 <==>
      RequestOtpErrors(reading, email, emailChecked, purpose) == {} && email in old(db.accounts) && !old(db.accounts)[email].isVerified
    ensures r.status == 200 ==> (
      && mailed == Some(GenerateOtp(drawn)) && db.accounts == old(db.accounts)
      && db.otps == Without(old(db.otps), email, Verify) + [OtpRow(old(db.nextOtpId), email, GenerateOtp(drawn), Verify, now, false)])
  {
    var errors := RequestOtpErrors(reading, email, emailChecked, purpose);
    if errors != {} {
      return FieldErrors(400, errors), None;
    }
    if email !in db.accounts {
      return Reply(400, "کاربری با این ایمیل یافت نشد."), None;
    }
    if db.accounts[email].isVerified {
      return Reply(400, "این ایمیل قبلاً وریفای شده است."), None;
    }
    var code := IssueCode(db, email, Verify, drawn, now);
    return Reply(200, "در صورت وجود حساب، کد تأیید ارسال شد."), Some(code);
  }

  /** `VerifyOTPView.post`: `VerifyOTPSerializer` first; then the latest
      unused VERIFY code for the e-mail and code is consumed and the user
      verified; a missing code, an expired code (left unused), an unknown user
      or an already-verified user is refused with nothing changed. */
  method VerifyOtp(db: AuthDb, reading: Reading, email: string, emailChecked: bool, code: string, codeChecked: bool,
                   now: int, expirationMinutes: int) returns (r: Reply)
    modifies db
    ensures r.status != 200 ==> unchanged(db)
    ensures var errors := VerifyOtpErrors(reading, email, emailChecked, code, codeChecked);
      errors != {} ==> r == FieldErrors(400, errors)
    ensures VerifyOtpErrors(reading, email, emailChecked, code, codeChecked) == {} && Latest(old(db.otps), email, code, Verify).None? ==>
      r == Reply(400, "کد اشتباه است یا وجود ندارد")
    ensures var k := Latest(old(db.otps), email, code, Verify);
      VerifyOtpErrors(reading, email, emailChecked, code, codeChecked) == {} && k.Some? && IsExpired(old(db.otps)[k.value].createdAt, now, expirationMinutes) ==>
      r == Reply(400, "کد منقضی شده")
    ensures var k := Latest(old(db.otps), email, code, Verify);
      VerifyOtpErrors(reading, email, emailChecked, code, codeChecked) == {}
      && k.Some? && !IsExpired(old(db.otps)[k.value].createdAt, now, expirationMinutes) && email !in old(db.accounts) ==>
      r == Reply(400, "کاربر یافت نشد")
    ensures var k := Latest(old(db.otps), email, code, Verify);
      VerifyOtpErrors(reading, email, emailChecked, code, codeChecked) == {}
      && k.Some? && !IsExpired(old(db.otps)[k.value].createdAt, now, expirationMinutes)
      && email in old(db.accounts) && old(db.accounts)[email].isVerified ==>
      r == Reply(400, "ایمیل قبلاً وریفای شده است")
    ensures r.status == 200 <==>
      var k := Latest(old(db.otps), email, code, Verify);
      && VerifyOtpErrors(reading, email, emailChecked, code, codeChecked) == {}
      && k.Some? && !IsExpired(old(db.otps)[k.value].createdAt, now, expirationMinutes)
      && email in old(db.accounts) && !old(db.accounts)[email].isVerified
    ensures r.status == 200 ==>
      var k := Latest(old(db.otps), email, code, Verify).value;
      && r == Reply(200, "ایمیل وریفای شد.")
      && db.otps == old(db.otps)[k := old(db.otps)[k].(isUsed := true)]
      && db.accounts == old(db.accounts)[email := old(db.accounts)[email].(isVerified := true)]
  {
    var errors := VerifyOtpErrors(reading, email, emailChecked, code, codeChecked);
    if errors != {} {
      return FieldErrors(400, errors);
    }
    var k := Latest(db.otps, email, code, Verify);
    if k.None? {
      return Reply(400, "کد اشتباه است یا وجود ندارد");
    }
    if IsExpired(db.otps[k.value].createdAt, now, expirationMinutes) {
      return Reply(400, "کد منقضی شده");
    }
    if email !in db.accounts {
      return Reply(400, "کاربر یافت نشد");
    }
    if db.accounts[email].isVerified {
      return Reply(400, "ایمیل قبلاً وریفای شده است");
    }
    db.otps := db.otps[k.value := db.otps[k.value].(isUsed := true)];
    db.accounts := db.accounts[email := db.accounts[email].(isVerified := true)];
    return Reply(200, "ایمیل وریفای شد.");
  }

  // ------------------------------------------------------------------
  // OTP login
  // ------------------------------------------------------------------

  /** `RequestLoginOTPView.post`: `RequestOTPSerializer` first; then 404 for
      an unknown e-mail, 403 for an inactive account, otherwise a fresh LOGIN
      code. */
  method RequestLoginOtp(db: AuthDb, reading: Reading, email: string, emailChecked: bool, purpose: Option<string>,
                         drawn: nat, now: int) returns (r: Reply, mailed: Option<string>)
    requires drawn < 1000000
    modifies db
    ensures var errors := RequestOtpErrors(reading, email, emailChecked, purpose);
      errors != {} ==> r == FieldErrors(400, errors) && mailed.None? && unchanged(db)
    ensures RequestOtpErrors(reading, email, emailChecked, purpose) == {} && email !in old(db.accounts) ==>
      r == Reply(404, "کاربری با این ایمیل یافت نشد.") && mailed.None? && unchanged(db)
    ensures RequestOtpErrors(reading, email, emailChecked, purpose) == {} && email in old(db.accounts)
            && !old(db.accounts)[email].isActive ==>
      r == Reply(403, "اکانت شما غیرفعال است.") && mailed.None? && unchanged(db)
    ensures r.status == 200 <==>
      RequestOtpErrors(reading, email, emailChecked, purpose) == {} && email in old(db.accounts) && old(db.accounts)[email].isActive
    ensures r.status == 200 ==> (
      && mailed == Some(GenerateOtp(drawn)) && db.accounts == old(db.accounts)
      && db.otps == Without(old(db.otps), email, Login) + [OtpRow(old(db.nextOtpId), email, GenerateOtp(drawn), Login, now, false)])
  {
    var errors := RequestOtpErrors(reading, email, emailChecked, purpose);
    if errors != {} {
      return FieldErrors(400, errors), None;
    }
    if email !in db.accounts {
      return Reply(404, "کاربری با این ایمیل یافت نشد."), None;
    }
    if !db.accounts[email].isActive {
      return Reply(403, "اکانت شما غیرفعال است."), None;
    }
    var code := IssueCode(db, email, Login, drawn, now);
    return Reply(200, "کد ورود به ایمیل ارسال شد."), Some(code);
  }

  /** `LoginWithOTPView.post`: checks in order (both fields present, a
      matching LOGIN code, not expired, a known user, a verified user); the code
      is consumed only on success, after the token cleanup (whose failure is
      swallowed), and a new token is issued. */
  method LoginWithOtp(db: AuthDb, tokens: TokenStore, email: Option<string>, code: Option<string>, now: int,
                      expirationMinutes: int, maxTokens: nat, failAt: Option<nat>) returns (r: Reply, issued: Option<Token>)
    requires tokens.Valid()
    requires forall i :: 0 <= i < |tokens.outstanding| ==> tokens.outstanding[i].createdAt <= now
    modifies db, tokens
    ensures tokens.Valid()
    ensures r.status != 200 ==> unchanged(db) && unchanged(tokens) && issued.None?
    ensures email.None? || email.value == "" || code.None? || code.value == "" ==> r == Reply(400, "ایمیل و کد OTP الزامی است")
    ensures r.status == 200 <==>
      && email.Some? && email.value != "" && code.Some? && code.value != ""
      && var k := Latest(old(db.otps), email.value, code.value, Login);
      && k.Some? && !IsExpired(old(db.otps)[k.value].createdAt, now, expirationMinutes)
      && email.value in old(db.accounts) && old(db.accounts)[email.value].isVerified
    ensures Given(email) && Given(code) && Latest(old(db.otps), email.value, code.value, Login).None? ==>
      r == Reply(400, "کد اشتباه است یا وجود ندارد")
    ensures Given(email) && Given(code) ==> var k := Latest(old(db.otps), email.value, code.value, Login);
      k.Some? && IsExpired(old(db.otps)[k.value].createdAt, now, expirationMinutes) ==> r == Reply(400, "کد منقضی شده")
    ensures Given(email) && Given(code) ==> var k := Latest(old(db.otps), email.value, code.value, Login);
      k.Some? && !IsExpired(old(db.otps)[k.value].createdAt, now, expirationMinutes) && email.value !in old(db.accounts) ==>
      r == Reply(400, "کاربری با این ایمیل یافت نشد")
    ensures Given(email) && Given(code) ==> var k := Latest(old(db.otps), email.value, code.value, Login);
      k.Some? && !IsExpired(old(db.otps)[k.value].createdAt, now, expirationMinutes)
      && email.value in old(db.accounts) && !old(db.accounts)[email.value].isVerified ==>
      r == Reply(403, "ایمیل هنوز وریفای نشده")
    ensures r.status == 200 ==>
      var k := Latest(old(db.otps), email.value, code.value, Login).value;
      var user := old(db.accounts)[email.value].id;
      && db.otps == old(db.otps)[k := old(db.otps)[k].(isUsed := true)]
      && db.accounts == old(db.accounts)
      && r == Reply(200, "ورود موفق")
      && issued.Some? && issued.value.user == user
      && tokens.outstanding == old(tokens.outstanding) + [issued.value]
      && (failAt.None? ==> |Active(OfUser(tokens.outstanding, user), tokens.blacklisted)| <= maxTokens + 1)
  {
    if email.None? || email.value == "" || code.None? || code.value == "" {
      return Reply(400, "ایمیل و کد OTP الزامی است"), None;
    }
    var e := email.value;
    var k := Latest(db.otps, e, code.value, Login);
    if k.None? {
      return Reply(400, "کد اشتباه است یا وجود ندارد"), None;
    }
    if IsExpired(db.otps[k.value].createdAt, now, expirationMinutes) {
      return Reply(400, "کد منقضی شده"), None;
    }
    if e !in db.accounts {
      return Reply(400, "کاربری با این ایمیل یافت نشد"), None;
    }
    var account := db.accounts[e];
    if !account.isVerified {
      return Reply(403, "ایمیل هنوز وریفای نشده"), None;
    }
    var t := CompleteLogin(db, tokens, k.value, account.id, now, maxTokens, failAt);
    return Reply(200, "ورود موفق"), Some(t);
  }

  /** The success path shared by the login views: cap the user's tokens,
      consume code `k` and issue a new token. */
  method CompleteLogin(db: AuthDb, tokens: TokenStore, k: nat, user: UserId, now: int, maxTokens: nat, failAt: Option<nat>)
    returns (t: Token)
    requires k < |db.otps| && tokens.Valid()
    requires forall i :: 0 <= i < |tokens.outstanding| ==> tokens.outstanding[i].createdAt <= now
    modifies db, tokens
    ensures tokens.Valid()
    ensures db.otps == old(db.otps)[k := old(db.otps)[k].(isUsed := true)] && db.accounts == old(db.accounts)
    ensures t.user == user && tokens.outstanding == old(tokens.outstanding) + [t]
    ensures failAt.None? ==> |Active(OfUser(tokens.outstanding, user), tokens.blacklisted)| <= maxTokens + 1
  {
    tokens.Cleanup(user, maxTokens, failAt);
    ghost var before := tokens.outstanding;
    db.otps := db.otps[k := db.otps[k].(isUsed := true)];
    t := tokens.Issue(user, now);
    if failAt.None? {
      ghost var mine := OfUser(before, user);
      assert |mine| > maxTokens ==> mine[maxTokens..|mine|] == mine[maxTokens..];
      LoginTokenCap(before, user, maxTokens, tokens.blacklisted, t);
    }
  }

  // ------------------------------------------------------------------
  // Password reset and change
  // ------------------------------------------------------------------

  /** `RequestResetPasswordOTPView.post`: an empty e-mail is refused, an
      unknown one gets 404, otherwise a fresh RESET code. */
  method RequestResetOtp(db: AuthDb, email: Option<string>, drawn: nat, now: int) returns (r: Reply, mailed: Option<string>)
    requires drawn < 1000000
    modifies db
    ensures r.status != 200 ==> unchanged(db) && mailed.None?
    ensures email.None? || email.value == "" ==> r == Reply(400, "ایمیل الزامی است")
    ensures email.Some? && email.value != "" && email.value !in old(db.accounts) ==> r == Reply(404, "کاربری با این ایمیل یافت نشد.")
    ensures r.status == 200 <==> email.Some? && email.value != "" && email.value in old(db.accounts)
    ensures r.status == 200 ==> (
      && mailed == Some(GenerateOtp(drawn)) && db.accounts == old(db.accounts)
      && db.otps == Without(old(db.otps), email.value, Reset) + [OtpRow(old(db.nextOtpId), email.value, GenerateOtp(drawn), Reset, now, false)])
  {
    if email.None? || email.value == "" {
      return Reply(400, "ایمیل الزامی است"), None;
    }
    if email.value !in db.accounts {
      return Reply(404, "کاربری با این ایمیل یافت نشد."), None;
    }
    var code := IssueCode(db, email.value, Reset, drawn, now);
    return Reply(200, "کد برای ایمیل ارسال شد."), Some(code);
  }

  predicate Given(v: Option<string>) { v.Some? && v.value != "" }

  /** `ResetPasswordWithOTPView.post`: all three fields are required; the
      latest RESET code must exist and be unexpired; then the user (404 when
      missing, code left unused) gets the new password and the code is used. */
  method ResetPassword(db: AuthDb, email: Option<string>, code: Option<string>, newPassword: Option<string>,
                       now: int, expirationMinutes: int) returns (r: Reply)
    modifies db
    ensures r.status != 200 ==> unchanged(db)
    ensures !Given(email) || !Given(code) || !Given(newPassword) ==> r == Reply(400, "ایمیل، کد OTP و رمز جدید باید ارسال شود")
    ensures Given(email) && Given(code) && Given(newPassword) && Latest(old(db.otps), email.value, code.value, Reset).None? ==>
      r == Reply(400, "کد نامعتبر است")
    ensures Given(email) && Given(code) && Given(newPassword) ==> var k := Latest(old(db.otps), email.value, code.value, Reset);
      k.Some? && IsExpired(old(db.otps)[k.value].createdAt, now, expirationMinutes) ==> r == Reply(400, "کد منقضی شده")
    ensures Given(email) && Given(code) && Given(newPassword) ==> var k := Latest(old(db.otps), email.value, code.value, Reset);
      k.Some? && !IsExpired(old(db.otps)[k.value].createdAt, now, expirationMinutes) && email.value !in old(db.accounts) ==>
      r == Reply(404, "کاربر یافت نشد")
    ensures r.status == 200 <==>
      && Given(email) && Given(code) && Given(newPassword)
      && var k := Latest(old(db.otps), email.value, code.value, Reset);
      && k.Some? && !IsExpired(old(db.otps)[k.value].createdAt, now, expirationMinutes)
      && email.value in old(db.accounts)
    ensures r.status == 200 ==>
      var k := Latest(old(db.otps), email.value, code.value, Reset).value;
      && r == Reply(200, "رمز عبور با موفقیت تغییر کرد")
      && db.otps == old(db.otps)[k := old(db.otps)[k].(isUsed := true)]
      && db.accounts == old(db.accounts)[email.value := old(db.accounts)[email.value].(password := newPassword.value)]
  {
    if !Given(email) || !Given(code) || !Given(newPassword) {
      return Reply(400, "ایمیل، کد OTP و رمز جدید باید ارسال شود");
    }
    var k := Latest(db.otps, email.value, code.value, Reset);
    if k.None? {
      return Reply(400, "کد نامعتبر است");
    }
    if IsExpired(db.otps[k.value].createdAt, now, expirationMinutes) {
      return Reply(400, "کد منقضی شده");
    }
    if email.value !in db.accounts {
      return Reply(404, "کاربر یافت نشد");
    }
    db.accounts := db.accounts[email.value := db.accounts[email.value].(password := newPassword.value)];
    db.otps := db.otps[k.value := db.otps[k.value].(isUsed := true)];
    return Reply(200, "رمز عبور با موفقیت تغییر کرد");
  }

  /** `ChangePasswordView.post` for the signed-in user `email`: both fields
      required, the old password must match, then the new one is stored. */
  method ChangePassword(db: AuthDb, email: string, oldPassword: Option<string>, newPassword: Option<string>) returns (r: Reply)
    requires email in db.accounts
    modifies db
    ensures r.status != 200 ==> unchanged(db)
    ensures !Given(oldPassword) || !Given(newPassword) ==> r == Reply(400, "رمز عبور فعلی و جدید باید ارسال شود")
    ensures Given(oldPassword) && Given(newPassword) && oldPassword.value != old(db.accounts)[email].password ==>
      r == Reply(400, "رمز عبور فعلی اشتباه است")
    ensures r.status == 200 <==> Given(oldPassword) && Given(newPassword) && oldPassword.value == old(db.accounts)[email].password
    ensures r.status == 200 ==> (
      && db.accounts == old(db.accounts)[email := old(db.accounts)[email].(password := newPassword.value)]
      && db.otps == old(db.otps))
  {
    if !Given(oldPassword) || !Given(newPassword) {
      return Reply(400, "رمز عبور فعلی و جدید باید ارسال شود");
    }
    if oldPassword.value != db.accounts[email].password {
      return Reply(400, "رمز عبور فعلی اشتباه است");
    }
    db.accounts := db.accounts[email := db.accounts[email].(password := newPassword.value)];
    return Reply(200, "رمز عبور با موفقیت تغییر کرد");
  }
}
