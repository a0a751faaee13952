/** The daily activity report (`daily_log_report`, Back-end/core/tasks.py):
    today's lines of the combined log are classified into counters and lists,
    and a summary mail is composed. Reading the file is reduced to its
    existence and its lines (each with its line break, as Python yields
    them); the clock to `today`, the `%Y-%m-%d` date string. */
module LogReport {
  import opened Wrappers
  import opened Strings

  /** Index of the first occurrence of `sub` in `s`. */
  function Find(s: string, sub: string): (r: Option<nat>)
    decreases |s|
    ensures r.Some? ==> OccursAt(s, sub, r.value)
    ensures r.Some? ==> forall j :: 0 <= j < r.value ==> !OccursAt(s, sub, j)
    ensures r.None? ==> forall j :: !OccursAt(s, sub, j)
  {
    if StartsWith(s, sub) then
      assert OccursAt(s, sub, 0);
      Some(0)
    else if s == [] then
      assert forall j :: !OccursAt(s, sub, j);
      None
    else
      var k := Find(s[1..], sub);
      ShiftOccurs(s, sub);
      if k.Some? then Some(k.value + 1) else None
  }

  lemma ShiftOccurs(s: string, sub: string)
    requires s != [] && !StartsWith(s, sub)
    ensures !OccursAt(s, sub, 0)
    ensures forall j :: 1 <= j ==> (OccursAt(s, sub, j) <==> OccursAt(s[1..], sub, j - 1))
  {
    forall j | 1 <= j
      ensures OccursAt(s, sub, j) <==> OccursAt(s[1..], sub, j - 1)
    {
      if j <= |s| - |sub| {
        assert s[1..][j - 1..j - 1 + |sub|] == s[j..j + |sub|];
      }
    }
  }

  /** Python `s.split(sep)[0]`. */
  function FirstPiece(s: string, sep: string): (r: string)
    requires sep != []
    ensures |r| <= |s| && r == s[..|r|]
    ensures |r| < |s| ==> OccursAt(s, sep, |r|)
    ensures forall j :: 0 <= j < |r| ==> !OccursAt(s, sep, j)
  {
    match Find(s, sep)
    case Some(i) => s[..i]
    case None => s
  }

  /** `line.split('User ')[1].split(' ')[0]`, None when the split raises
      (there is no `User ` in the line). */
  function UserToken(line: string): (r: Option<string>)
    ensures r.None? <==> Find(line, "User ").None?
    ensures r.Some? ==> !Contains(r.value, " ")
  {
    match Find(line, "User ")
    case None => None
    case Some(i) =>
      var piece := FirstPiece(line[i + 5..], "User ");
      var token := FirstPiece(piece, " ");
      NoSpaceIn(token, piece);
      Some(token)
  }

  lemma NoSpaceIn(token: string, piece: string)
    requires token == FirstPiece(piece, " ")
    ensures !Contains(token, " ")
  {
    ContainsIff(token, " ");
    forall j | OccursAt(token, " ", j)
      ensures false
    {
      assert token[j..j + 1] == piece[j..j + 1];
      assert OccursAt(piece, " ", j);
    }
  }

  /** The report dictionary. */
  datatype Report = Report(
    totalActivities: nat,
    totalErrors: nat,
    failedPosts: nat,
    securityWarnings: nat,
    activeUsers: set<string>,
    errors: seq<string>,
    securityEvents: seq<string>)

  const Empty := Report(0, 0, 0, 0, {}, [], [])

  /** How one line changes the report. The three categories are tested
      independently, so one line may count in several. */
  function Classify(r: Report, line: string, today: string): (r': Report)
    ensures !Contains(line, today) ==> r' == r
  {
    if !Contains(line, today) then r
    else WarningStep(ErrorStep(ActivityStep(r, line), line), line)
  }

  /** An `[INFO]` line about a published post counts an activity and, when it
      names a user, marks the user active. */
  function ActivityStep(r: Report, line: string): (r': Report)
    ensures r'.errors == r.errors && r'.totalErrors == r.totalErrors && r'.failedPosts == r.failedPosts
    ensures r'.securityEvents == r.securityEvents && r'.securityWarnings == r.securityWarnings
  {
    if Contains(line, "[INFO]") && Contains(line, "published post") then
      var users :=
        if Contains(line, "User") && UserToken(line).Some? then r.activeUsers + {UserToken(line).value}
        else r.activeUsers;
      r.(totalActivities := r.totalActivities + 1, activeUsers := users)
    else r
  }

  /** An `[ERROR]` line is counted and listed; one about a failed
      publication is also counted as a failed post. */
  function ErrorStep(r: Report, line: string): (r': Report)
    ensures Consistent(r) ==> Consistent(r')
  {
    if Contains(line, "[ERROR]") then
      r.(totalErrors := r.totalErrors + 1,
         failedPosts := if Contains(line, "publish") && Contains(line, "Failed") then r.failedPosts + 1 else r.failedPosts,
         errors := r.errors + [PyStrip(line)])
    else r
  }

  /** A `[WARNING]` line about security is counted and listed. */
  function WarningStep(r: Report, line: string): (r': Report)
    ensures Consistent(r) ==> Consistent(r')
  {
    if Contains(line, "[WARNING]") && Contains(line, "security") then
      r.(securityWarnings := r.securityWarnings + 1, securityEvents := r.securityEvents + [PyStrip(line)])
    else r
  }

  /** The report after the given lines. */
  function Tally(lines: seq<string>, today: string): Report {
    if lines == [] then Empty
    else Classify(Tally(lines[..|lines| - 1], today), lines[|lines| - 1], today)
  }

  /** The bookkeeping the report keeps consistent. */
  ghost predicate Consistent(r: Report) {
    |r.errors| == r.totalErrors && r.failedPosts <= r.totalErrors
    && |r.securityEvents| == r.securityWarnings && |r.activeUsers| <= r.totalActivities
  }

  lemma ClassifyConsistent(r: Report, line: string, today: string)
    requires Consistent(r)
    ensures Consistent(Classify(r, line, today))
  {
    if Contains(line, today) {
      ActivityConsistent(r, line);
    }
  }

  /** A publication adds at most one active user. */
  lemma ActivityConsistent(r: Report, line: string)
    requires Consistent(r)
    ensures Consistent(ActivityStep(r, line))
  {
    if Contains(line, "[INFO]") && Contains(line, "published post") && Contains(line, "User") && UserToken(line).Some? {
      var u := UserToken(line).value;
      assert |r.activeUsers + {u}| <= |r.activeUsers| + 1 by {
        if u in r.activeUsers {
          assert r.activeUsers + {u} == r.activeUsers;
        }
      }
    }
  }

  /** Every error line is listed, failed publications are among the errors,
      every security warning is listed, and no more users are counted active
      than publications. */
  lemma {:induction false} TallyConsistent(lines: seq<string>, today: string)
    ensures Consistent(Tally(lines, today))
  {
    if lines != [] {
      TallyConsistent(lines[..|lines| - 1], today);
      ClassifyConsistent(Tally(lines[..|lines| - 1], today), lines[|lines| - 1], today);
    }
  }

  /** Lines of other days leave the report as it was. */
  lemma {:induction false} OtherDaysIgnored(lines: seq<string>, other: seq<string>, today: string)
    requires forall i :: 0 <= i < |other| ==> !Contains(other[i], today)
    ensures Tally(lines + other, today) == Tally(lines, today)
    decreases |other|
  {
    if other != [] {
      var init := other[..|other| - 1];
      assert (lines + other)[..|lines + other| - 1] == lines + init;
      assert (lines + other)[|lines + other| - 1] == other[|other| - 1];
      OtherDaysIgnored(lines, init, today);
    } else {
      assert lines + other == lines;
    }
  }

  /** The loop over the file, proved against `Tally`. */
  method CountLines(lines: seq<string>, today: string) returns (r: Report)
    ensures r == Tally(lines, today)
    ensures Consistent(r)
  {
    r := Empty;
    for i := 0 to |lines|
      invariant r == Tally(lines[..i], today)
    {
      assert lines[..i + 1][..i] == lines[..i];
      r := Classify(r, lines[i], today);
    }
    assert lines[..|lines|] == lines;
    TallyConsistent(lines, today);
  }

  /** A report section: the first five entries, one per line, or "none". */
  function Listing(items: seq<string>): (r: string)
    ensures items == [] ==> r == "ندارد"
    ensures items != [] ==> r == Join(items[..if |items| < 5 then |items| else 5], "\n")
  {
    if items == [] then "ندارد" else Join(items[..if |items| < 5 then |items| else 5], "\n")
  }

  /** The mail body. */
  function Body(r: Report, today: string): string {
    "\nگزارش روزانه عملکرد - " + today + "\n\n"
    + "آمار کلی:\n"
    + "- کاربران فعال: " + NatToString(|r.activeUsers|) + "\n"
    + "- پست‌های ارسالی: " + NatToString(r.totalActivities) + "\n"
    + "- خطاها: " + NatToString(r.totalErrors) + "\n"
    + "  - ارسال ناموفق پست: " + NatToString(r.failedPosts) + "\n"
    + "- اخطارهای امنیتی: " + NatToString(r.securityWarnings) + "\n\n"
    + "خطاها (تست):\n" + Listing(r.errors) + "\n\n"
    + "رویدادهای امنیتی (تست):\n" + Listing(r.securityEvents) + "\n\n"
    + "این گزارش به صورت خودکار تولید شده است.\n"
  }

  /** `daily_log_report`: None for `logFile` when the file does not exist;
      a read failure carries its message. The mail is composed only when
      the file was read; a failure to send it does not change the result. */
  method DailyLogReport(today: string, logFile: Option<Result<seq<string>, string>>)
    returns (result: string, mail: Option<string>)
    ensures logFile.None? ==> result == "Log file not found." && mail.None?
    ensures logFile.Some? && logFile.value.Failure? ==> result == "Failed to read log: " + logFile.value.error && mail.None?
    ensures logFile.Some? && logFile.value.Success? ==>
      result == "Daily report completed for " + today + "." && mail == Some(Body(Tally(logFile.value.value, today), today))
  {
    if logFile.None? {
      return "Log file not found.", None;
    }
    if logFile.value.Failure? {
      return "Failed to read log: " + logFile.value.error, None;
    }
    var r := CountLines(logFile.value.value, today);
    return "Daily report completed for " + today + ".", Some(Body(r, today));
  }
}
