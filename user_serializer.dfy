/** Registration (`RegisterSerializer` and `RegisterView.post`,
    Back-end/users/serializers.py and Back-end/users/views.py). The validated
    request is the serializer's dictionary of string fields; mail sending is
    reduced to the list of mails that would be sent. */
module UserSerializer {
  import opened Wrappers
  import opened ChannelModel
  import opened Responses
  import opened AuthViews

  const EmailTaken := "این ایمیل قبلا ثبت شده است."
  const Mismatch := "رمزها یکسان نیستند."
  const TooShort := "طول رمز باید حداقل ۸ کاراکتر باشد."
  const MinPasswordLength := 8
  const Invalid := "اطلاعات نامعتبر است."
  const Registered := "ثبت‌نام موقت انجام شد. وارد داشبورد شدید اما باید ایمیل را وریفای کنید."

  /** The fields the form declares; every one is required. */
  predicate WellFormed(data: map<string, string>) {
    "first_name" in data && "last_name" in data && "phone" in data
    && "email" in data && "password" in data && "password2" in data
  }

  /** `validate_email`. */
  function ValidateEmail(accounts: map<string, Account>, email: string): (r: Result<string, string>)
    ensures r.Success? <==> email !in accounts
    ensures r.Success? ==> r.value == email
    ensures r.Failure? ==> r.error == EmailTaken
  {
    if email in accounts then Failure(EmailTaken) else Success(email)
  }

  /** `validate`: the passwords must agree, and only then is their length
      checked. */
  function Validate(data: map<string, string>): (r: Result<map<string, string>, string>)
    requires "password" in data && "password2" in data
    ensures r.Success? <==> data["password"] == data["password2"] && |data["password"]| >= MinPasswordLength
    ensures r.Success? ==> r.value == data
    ensures data["password"] != data["password2"] ==> r == Failure(Mismatch)
    ensures data["password"] == data["password2"] && |data["password"]| < MinPasswordLength ==> r == Failure(TooShort)
  {
    if data["password"] != data["password2"] then Failure(Mismatch)
    else if |data["password"]| < MinPasswordLength then Failure(TooShort)
    else Success(data)
  }

  /** `create`: `password2` is dropped, every other field is kept as is. */
  function CreateFields(data: map<string, string>): (r: map<string, string>)
    ensures r.Keys == data.Keys - {"password2"}
    ensures forall k :: k in r ==> r[k] == data[k]
  {
    map k | k in data && k != "password2" :: data[k]
  }

  datatype Mail = Mail(subject: string, recipients: set<string>)

  const PendingSubject := "ثبت‌نام شما در حال بررسی است"
  const AdminSubject := "درخواست ثبت‌نام جدید"

  /** Addresses of the active staff accounts. */
  function AdminEmails(accounts: map<string, Account>): (r: set<string>)
    ensures forall e :: e in r <==> e in accounts && accounts[e].isStaff && accounts[e].isActive
  {
    set e | e in accounts && accounts[e].isStaff && accounts[e].isActive
  }

  /** `RegisterView.post`: field errors (the e-mail) come before the
      object-level check; a valid form creates the account and mails the user
      and, when there are active staff, all of them in one mail. The new
      account's flags are the user model's defaults, passed in. */
  method Register(db: AuthDb, data: map<string, string>, newId: UserId, activeByDefault: bool)
    returns (r: HttpResponse, mails: seq<Mail>)
    requires WellFormed(data)
    modifies db
    ensures r.status == 200 <==> ValidateEmail(old(db.accounts), data["email"]).Success? && Validate(data).Success?
    ensures r.status != 200 ==> unchanged(db) && mails == []
    ensures ValidateEmail(old(db.accounts), data["email"]).Failure? ==>
      r == ErrorResponse(Invalid, Some(JObject(map["email" := JList([JStr(EmailTaken)])])), 400, None)
    ensures ValidateEmail(old(db.accounts), data["email"]).Success? && Validate(data).Failure? ==>
      r == ErrorResponse(Invalid, Some(JObject(map["non_field_errors" := JList([JStr(Validate(data).error)])])), 400, None)
    ensures r.status == 200 ==> (
      && r == SuccessResponse(Registered, None, 200)
      && db.accounts == old(db.accounts)[data["email"] := Account(newId, activeByDefault, false, false, data["password"])]
      && db.otps == old(db.otps)
      && mails == [Mail(PendingSubject, {data["email"]})]
                  + (if AdminEmails(db.accounts) == {} then [] else [Mail(AdminSubject, AdminEmails(db.accounts))]))
  {
    var email := ValidateEmail(db.accounts, data["email"]);
    if email.Failure? {
      return ErrorResponse(Invalid, Some(JObject(map["email" := JList([JStr(email.error)])])), 400, None), [];
    }
    var checked := Validate(data);
    if checked.Failure? {
      return ErrorResponse(Invalid, Some(JObject(map["non_field_errors" := JList([JStr(checked.error)])])), 400, None), [];
    }
    var fields := CreateFields(checked.value);
    db.accounts := db.accounts[fields["email"] := Account(newId, activeByDefault, false, false, fields["password"])];
    mails := [Mail(PendingSubject, {fields["email"]})];
    var admins := AdminEmails(db.accounts);
    if admins != {} {
      mails := mails + [Mail(AdminSubject, admins)];
    }
    return SuccessResponse(Registered, None, 200), mails;
  }

  /** A registration never creates a staff account, so the admins mailed are
      exactly those there were before. */
  lemma AdminsUnchangedByRegistration(accounts: map<string, Account>, email: string, a: Account)
    requires email !in accounts && !a.isStaff
    ensures AdminEmails(accounts[email := a]) == AdminEmails(accounts)
  {
  }
}
