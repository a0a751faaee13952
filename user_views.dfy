/** Password login (`LoginView.post`, Back-end/users/views.py): the order of
    its checks, the cap on active refresh tokens and the cookies it sets.
    JWT signing is reduced to issuing a token row. */
module UserViews {
  import opened Wrappers
  import opened Tokens
  import opened Responses
  import opened AuthViews

  const MissingFields := "لطفاً ایمیل و رمز را وارد کنید."
  const BadCredentials := "ایمیل یا رمز اشتباه است."
  const NotApproved := "حساب شما هنوز توسط ادمین تأیید نشده است. پس از تأیید، ایمیلی از ما دریافت خواهید کرد."
  const NotVerified := "ایمیل شما هنوز وریفای نشده است."
  const LoggedIn := "ورود موفق بود."

  datatype Cookie = Cookie(name: string, httpOnly: bool)

  /** The reply of a refused login, in the source's check order; None when
      every check passes. */
  function LoginRefusal(accounts: map<string, Account>, email: Option<string>, password: Option<string>): (r: Option<HttpResponse>)
    ensures (!Given(email) || !Given(password)) ==> r == Some(ErrorResponse(MissingFields, None, 400, None))
    ensures Given(email) && Given(password) && (email.value !in accounts || accounts[email.value].password != password.value)
            ==> r == Some(ErrorResponse(BadCredentials, None, 401, None))
    ensures r.None? <==>
      && Given(email) && Given(password) && email.value in accounts
      && accounts[email.value].password == password.value
      && accounts[email.value].isActive && accounts[email.value].isVerified
    ensures r.Some? ==> "status" in r.value.body && r.value.body["status"] == JStr("error") && r.value.status in {400, 401}
  {
    if !Given(email) || !Given(password) then Some(ErrorResponse(MissingFields, None, 400, None))
    else if email.value !in accounts then Some(ErrorResponse(BadCredentials, None, 401, None))
    else
      var account := accounts[email.value];
      if account.password != password.value then Some(ErrorResponse(BadCredentials, None, 401, None))
      else if !account.isActive then
        Some(ErrorResponse(NotApproved, None, 401, Some(map["approval_required" := JBool(true), "email" := JStr(email.value)])))
      else if !account.isVerified then
        Some(ErrorResponse(NotVerified, None, 401, Some(map["verification_required" := JBool(true), "email" := JStr(email.value)])))
      else None
  }

  /** An unknown e-mail and a wrong password are indistinguishable. */
  lemma NoAccountProbe(accounts: map<string, Account>, e1: string, e2: string, p1: string, p2: string)
    requires e1 != "" && e2 != "" && p1 != "" && p2 != ""
    requires e1 !in accounts
    requires e2 in accounts && accounts[e2].password != p2
    ensures LoginRefusal(accounts, Some(e1), Some(p1)) == LoginRefusal(accounts, Some(e2), Some(p2))
  {
  }

  /** Approval is checked before verification: an inactive account with the
      right password always gets the approval flag, verified or not. */
  lemma ApprovalBeforeVerification(accounts: map<string, Account>, email: string, password: string)
    requires email != "" && password != "" && email in accounts
    requires accounts[email].password == password && !accounts[email].isActive
    ensures var r := LoginRefusal(accounts, Some(email), Some(password));
      r.Some? && "approval_required" in r.value.body && "verification_required" !in r.value.body
  {
  }

  /** `LoginView.post`: a refusal leaves the tokens alone; otherwise the
      user's tokens beyond the cap are blacklisted (a failure there is
      swallowed), a new token is issued and exactly the `access` and
      `refresh` cookies are set, both http-only. */
  method PasswordLogin(db: AuthDb, tokens: TokenStore, email: Option<string>, password: Option<string>, now: int,
                       maxTokens: nat, failAt: Option<nat>) returns (r: HttpResponse, cookies: seq<Cookie>, issued: Option<Token>)
    requires tokens.Valid()
    requires forall i :: 0 <= i < |tokens.outstanding| ==> tokens.outstanding[i].createdAt <= now
    modifies tokens
    ensures tokens.Valid()
    ensures LoginRefusal(db.accounts, email, password).Some? ==>
      r == LoginRefusal(db.accounts, email, password).value && cookies == [] && issued.None? && unchanged(tokens)
    ensures LoginRefusal(db.accounts, email, password).None? ==>
      var user := db.accounts[email.value].id;
      && r == SuccessResponse(LoggedIn, None, 200)
      && cookies == [Cookie("access", true), Cookie("refresh", true)]
      && issued.Some? && issued.value.user == user
      && tokens.outstanding == old(tokens.outstanding) + [issued.value]
      && (failAt.None? ==> |Active(OfUser(tokens.outstanding, user), tokens.blacklisted)| <= maxTokens + 1)
  {
    var refusal := LoginRefusal(db.accounts, email, password);
    if refusal.Some? {
      return refusal.value, [], None;
    }
    var user := db.accounts[email.value].id;
    tokens.Cleanup(user, maxTokens, failAt);
    ghost var before := tokens.outstanding;
    var t := tokens.Issue(user, now);
    if failAt.None? {
      ghost var mine := OfUser(before, user);
      assert |mine| > maxTokens ==> mine[maxTokens..|mine|] == mine[maxTokens..];
      LoginTokenCap(before, user, maxTokens, tokens.blacklisted, t);
    }
    return SuccessResponse(LoggedIn, None, 200), [Cookie("access", true), Cookie("refresh", true)], Some(t);
  }
}
