/** The password login seen end to end: the reply `LoginView.post` sends
    (Back-end/users/views.py) read by the login form (Login.js). */
module LoginFlow {
  import opened Wrappers
  import opened Strings
  import opened Responses
  import opened AuthViews
  import opened UserViews
  import opened FeAuth

  /** The screen the login form shows for a reply of the back end: the
      status, and the envelope's `message` when it is a string. */
  function ScreenFor(r: HttpResponse): (s: LoginScreen)
    ensures r.status == 200 ==> s == Dashboard
  {
    var message := if "message" in r.body && r.body["message"].JStr? then Some(r.body["message"].s) else None;
    LoginOutcome(Some(r.status), message)
  }

  /** An active account that has not confirmed its e-mail is sent to the
      verification page: the back end's refusal says "وریفای" and the form
      looks for that word. */
  lemma {:induction false} UnverifiedLoginOpensVerifyPage(accounts: map<string, Account>, email: string, password: string)
    requires email != "" && password != "" && email in accounts
    requires accounts[email].password == password && accounts[email].isActive && !accounts[email].isVerified
    ensures LoginRefusal(accounts, Some(email), Some(password)).Some?
    ensures ScreenFor(LoginRefusal(accounts, Some(email), Some(password)).value) == VerifyEmail(NotVerified)
  {
    var r := LoginRefusal(accounts, Some(email), Some(password)).value;
    assert r.status == 401;
    assert r.body["message"] == JStr(NotVerified);
    assert OccursAt(NotVerified, "وریفای", 15);
    ContainsIff(NotVerified, "وریفای");
  }

  /** A refusal never takes the form to the dashboard. */
  lemma RefusalNeverReachesDashboard(accounts: map<string, Account>, email: Option<string>, password: Option<string>)
    requires LoginRefusal(accounts, email, password).Some?
    ensures ScreenFor(LoginRefusal(accounts, email, password).value) != Dashboard
  {
  }
}
