/** The failed-posts page (Front-end/src/components/Dashboard/FailedPosts.js):
    how a stored delivery error is turned into a Persian message and a
    repair hint, how long texts are shortened, and how the list loses a post
    once it is retried or deleted. */
module FeFailedPosts {
  import opened Wrappers
  import opened Strings

  // ------------------------------------------------------------------
  // Substring facts
  // ------------------------------------------------------------------

  /** A string contains no string longer than itself. */
  lemma ContainsNoLonger(s: string, sub: string)
    requires |sub| > |s|
    ensures !Contains(s, sub)
  {
    ContainsIff(s, sub);
  }

  /** A string contains no string with a character it lacks. */
  lemma ContainsNoMissingChar(s: string, sub: string, c: char)
    requires c in sub && c !in s
    ensures !Contains(s, sub)
  {
    ContainsIff(s, sub);
  }

  // ------------------------------------------------------------------
  // `/TelegramError:\s*(.+)/i`
  // ------------------------------------------------------------------

  const Tag := "telegramerror:"

  /** The tag starts at `i`, ignoring the case of ASCII letters (the `i`
      flag without `u` folds no other character onto these). */
  predicate TagAt(s: string, i: int) {
    0 <= i && i + |Tag| <= |s| && forall k :: 0 <= k < |Tag| ==> LowerChar(s[i + k]) == Tag[k]
  }

  /** The first tag at or after `from`. */
  function FirstTag(s: string, from: nat): (r: Option<nat>)
    ensures r.Some? ==> from <= r.value && TagAt(s, r.value) && forall j :: from <= j < r.value ==> !TagAt(s, j)
    ensures r.None? ==> forall j :: from <= j ==> !TagAt(s, j)
    decreases |s| - from
  {
    if from + |Tag| > |s| then None
    else if TagAt(s, from) then Some(from)
    else FirstTag(s, from + 1)
  }

  /** The end of the run of white space starting at `p`. */
  function SkipSpaces(s: string, p: nat): (q: nat)
    requires p <= |s|
    ensures p <= q <= |s|
    ensures forall k :: p <= k < q ==> JsIsSpace(s[k])
    ensures q < |s| ==> !JsIsSpace(s[q])
    decreases |s| - p
  {
    if p < |s| && JsIsSpace(s[p]) then SkipSpaces(s, p + 1) else p
  }

  /** The end of the line starting at `q`. */
  function LineEnd(s: string, q: nat): (e: nat)
    requires q <= |s|
    ensures q <= e <= |s|
    ensures forall k :: q <= k < e ==> !JsIsLineTerminator(s[k])
    ensures e < |s| ==> JsIsLineTerminator(s[e])
    decreases |s| - q
  {
    if q < |s| && !JsIsLineTerminator(s[q]) then LineEnd(s, q + 1) else q
  }

  predicate NoLineTerminator(s: string) {
    forall k :: 0 <= k < |s| ==> !JsIsLineTerminator(s[k])
  }

  /** The trimmed group of the first match, or None when nothing matches. */
  function TelegramDetail(s: string): (r: Option<string>)
    ensures (forall j :: !TagAt(s, j)) ==> r.None?
    ensures r.Some? ==> NoLineTerminator(r.value)
    ensures r.Some? ==> r.value == [] || (!JsIsSpace(r.value[0]) && !JsIsSpace(r.value[|r.value| - 1]))
  {
    match FirstTag(s, 0)
    case None => None
    case Some(i) => GroupAfterTag(s, i + |Tag|)
  }

  /** The trimmed group when the tag ends at `p`. `\s*` takes the white
      space; `.+` then takes the rest of the line. When only white space
      follows, backtracking hands `.+` one white-space character that is
      not a line break (if there is one), which trims to the empty string;
      with none, the pattern fails. */
  function GroupAfterTag(s: string, p: nat): (r: Option<string>)
    requires p <= |s|
    ensures r.Some? ==> NoLineTerminator(r.value)
    ensures r.Some? ==> r.value == [] || (!JsIsSpace(r.value[0]) && !JsIsSpace(r.value[|r.value| - 1]))
    ensures r.None? <==> forall k :: p <= k < |s| ==> JsIsLineTerminator(s[k])
  {
    var q := SkipSpaces(s, p);
    if q < |s| then
      var line := s[q..LineEnd(s, q)];
      TrimmedLine(line);
      Some(JsTrim(line))
    else if exists k :: p <= k < |s| && !JsIsLineTerminator(s[k]) then Some("")
    else None
  }

  lemma TrimmedLine(line: string)
    requires NoLineTerminator(line)
    ensures NoLineTerminator(JsTrim(line))
  {
    var t := TrimStart(line, JsIsSpace);
    var r := TrimEnd(t, JsIsSpace);
    assert forall k :: 0 <= k < |r| ==> r[k] == line[|line| - |t| + k];
  }

  /** A message with the tag in front yields the text after it. */
  lemma TaggedDetail(d: string)
    requires d != [] && NoLineTerminator(d) && !JsIsSpace(d[0]) && !JsIsSpace(d[|d| - 1])
    ensures TelegramDetail("TelegramError: " + d) == Some(d)
  {
    var s := "TelegramError: " + d;
    assert s[..15] == "TelegramError: ";
    assert TagAt(s, 0);
    assert FirstTag(s, 0) == Some(0);
    assert s[14] == ' ' && s[15] == d[0];
    assert SkipSpaces(s, 15) == 15;
    assert SkipSpaces(s, 14) == 15;
    assert s[15..] == d;
    assert s[15..LineEnd(s, 15)] == d;
    TrimClean(d, JsIsSpace);
  }

  // ------------------------------------------------------------------
  // First matching rule
  // ------------------------------------------------------------------

  /** A row of a lookup table: the substrings that select it, and its text. */
  datatype Rule = Rule(patterns: seq<string>, text: string)

  predicate Selects(rule: Rule, m: string) {
    exists i :: 0 <= i < |rule.patterns| && Contains(m, rule.patterns[i])
  }

  /** The first row of `rules` that `m` selects. */
  function FirstRule(rules: seq<Rule>, m: string): (r: Option<nat>)
    ensures r.Some? ==> r.value < |rules| && Selects(rules[r.value], m)
    ensures r.Some? ==> forall j :: 0 <= j < r.value ==> !Selects(rules[j], m)
    ensures r.None? <==> forall j :: 0 <= j < |rules| ==> !Selects(rules[j], m)
  {
    if rules == [] then None
    else if Selects(rules[0], m) then Some(0)
    else match FirstRule(rules[1..], m)
      case None => None
      case Some(k) => Some(k + 1)
  }

  function Lookup(rules: seq<Rule>, m: string, fallback: string): (r: string)
    ensures FirstRule(rules, m).None? ==> r == fallback
    ensures FirstRule(rules, m).Some? ==> r == rules[FirstRule(rules, m).value].text
  {
    match FirstRule(rules, m)
    case None => fallback
    case Some(k) => rules[k].text
  }

  // ------------------------------------------------------------------
  // Messages and hints
  // ------------------------------------------------------------------

  const Unknown := "خطای نامشخص"

  const TooLongText := "متن پیام بیش از حد مجاز است"
  const NoChatText := "چت یا کانال یافت نشد"
  const BlockedText := "ربات توسط کاربر مسدود شده است"
  const BadPeerText := "شناسه کانال معتبر نیست"
  const LongMessageText := "پیام بیش از حد طولانی است"
  const BadFileText := "فایل آپلود شده معتبر نیست"
  const ExpiredText := "لینک فایل منقضی شده است"

  const Translations := [
    Rule(["Text is too long"], TooLongText),
    Rule(["chat not found"], NoChatText),
    Rule(["bot was blocked"], BlockedText),
    Rule(["PEER_ID_INVALID"], BadPeerText),
    Rule(["Message is too long"], LongMessageText),
    Rule(["wrong file identifier"], BadFileText),
    Rule(["file reference expired"], ExpiredText)
  ]

  const ShortenHint := "متن پست را کوتاه کنید یا به چند پست کوچکتر تقسیم کنید."
  const ChannelHint := "از صحت شناسه کانال و دسترسی ربات به کانال اطمینان حاصل کنید."
  const UnblockHint := "کاربر باید ربات را آن‌بلوک کند یا پست را به کانال دیگری ارسال کنید."
  const UploadHint := "فایل را دوباره آپلود کنید و پست را مجدداً ارسال نمایید."
  const DefaultHint := "پست را دوباره ارسال کنید. اگر مشکل ادامه داشت، با پشتیبانی تماس بگیرید."

  const Solutions := [
    Rule(["Text is too long", "message too long"], ShortenHint),
    Rule(["chat not found", "PEER_ID_INVALID"], ChannelHint),
    Rule(["bot was blocked"], UnblockHint),
    Rule(["wrong file identifier", "file reference expired"], UploadHint)
  ]

  /** `translateError`: the Persian text of the first known phrase in the
      message; an unknown message is shown as it is. */
  function TranslateError(m: string): (r: string)
    ensures FirstRule(Translations, m).None? ==> r == m
    ensures FirstRule(Translations, m).Some? ==> r == Translations[FirstRule(Translations, m).value].text
  {
    Lookup(Translations, m, m)
  }

  /** `getErrorSolution`. */
  function ErrorSolution(m: string): (r: string)
    ensures FirstRule(Solutions, m).None? ==> r == DefaultHint
    ensures FirstRule(Solutions, m).Some? ==> r == Solutions[FirstRule(Solutions, m).value].text
  {
    Lookup(Solutions, m, DefaultHint)
  }

  /** The part of the stored error that is shown: the text after the tag
      when the pattern matches, the whole error otherwise. */
  function Detail(raw: string): (d: string)
    ensures TelegramDetail(raw).None? ==> d == raw
    ensures TelegramDetail(raw).Some? ==> d == TelegramDetail(raw).value
  {
    match TelegramDetail(raw)
    case Some(g) => g
    case None => raw
  }

  /** `parseErrorMessage`. A missing or empty error reads "unknown". */
  function ParseErrorMessage(raw: Option<string>): (r: string)
    ensures (raw.None? || raw == Some("")) ==> r == Unknown
    ensures raw.Some? && raw.value != "" ==> r == TranslateError(Detail(raw.value))
  {
    if raw.None? || raw.value == "" then Unknown else TranslateError(Detail(raw.value))
  }

  /** The hint the page shows under a failed post: the hint of the
      translated message. */
  function ShownHint(raw: Option<string>): string {
    ErrorSolution(ParseErrorMessage(raw))
  }

  predicate NoAsciiLetter(m: string) {
    forall k :: 0 <= k < |m| ==> !IsAsciiLetter(m[k])
  }

  /** A text without ASCII letters selects no hint. */
  lemma PersianSelectsNoHint(m: string)
    requires NoAsciiLetter(m)
    ensures ErrorSolution(m) == DefaultHint
  {
    forall j, i | 0 <= j < |Solutions| && 0 <= i < |Solutions[j].patterns|
      ensures !Contains(m, Solutions[j].patterns[i])
    {
      var p := Solutions[j].patterns[i];
      assert IsAsciiLetter(p[0]);
      ContainsNoMissingChar(m, p, p[0]);
    }
  }

  /** The translations and the "unknown" text are Persian. */
  lemma TranslationsPersian()
    ensures NoAsciiLetter(Unknown)
    ensures NoAsciiLetter(TooLongText)
    ensures NoAsciiLetter(NoChatText)
    ensures NoAsciiLetter(BlockedText)
    ensures NoAsciiLetter(BadPeerText)
    ensures NoAsciiLetter(LongMessageText)
    ensures NoAsciiLetter(BadFileText)
    ensures NoAsciiLetter(ExpiredText)
  {
    PersianUnknown();
    PersianTooLongText();
    PersianNoChatText();
    PersianBlockedText();
    PersianBadPeerText();
    PersianLongMessageText();
    PersianBadFileText();
    PersianExpiredText();
  }

  lemma PersianUnknown() ensures NoAsciiLetter(Unknown) { }
  lemma PersianTooLongText() ensures NoAsciiLetter(TooLongText) { }
  lemma PersianNoChatText() ensures NoAsciiLetter(NoChatText) { }
  lemma PersianBlockedText() ensures NoAsciiLetter(BlockedText) { }
  lemma PersianBadPeerText() ensures NoAsciiLetter(BadPeerText) { }
  lemma PersianLongMessageText() ensures NoAsciiLetter(LongMessageText) { }
  lemma PersianBadFileText() ensures NoAsciiLetter(BadFileText) { }
  lemma PersianExpiredText() ensures NoAsciiLetter(ExpiredText) { }

  /** A message that no translation picks carries none of the phrases of
      the channel, unblock and upload hints. */
  lemma UntranslatedHint(d: string)
    requires FirstRule(Translations, d).None?
    ensures ErrorSolution(d) == ShortenHint || ErrorSolution(d) == DefaultHint
  {
    assert !Selects(Translations[1], d) && !Selects(Translations[2], d) && !Selects(Translations[3], d);
    assert !Selects(Translations[5], d) && !Selects(Translations[6], d);
    assert !Selects(Solutions[1], d) by {
      assert Solutions[1].patterns == [Translations[1].patterns[0], Translations[3].patterns[0]];
    }
    assert !Selects(Solutions[2], d) by {
      assert Solutions[2].patterns == Translations[2].patterns;
    }
    assert !Selects(Solutions[3], d) by {
      assert Solutions[3].patterns == [Translations[5].patterns[0], Translations[6].patterns[0]];
    }
  }

  /** Every translation is Persian text. */
  lemma TranslationTextsPersian(j: nat)
    requires j < |Translations|
    ensures NoAsciiLetter(Translations[j].text)
  {
    TranslationsPersian();
    if j == 0 { assert Translations[0].text == TooLongText; }
    else if j == 1 { assert Translations[1].text == NoChatText; }
    else if j == 2 { assert Translations[2].text == BlockedText; }
    else if j == 3 { assert Translations[3].text == BadPeerText; }
    else if j == 4 { assert Translations[4].text == LongMessageText; }
    else if j == 5 { assert Translations[5].text == BadFileText; }
    else { assert Translations[6].text == ExpiredText; }
  }

  /** The hint of a translated message is the shorten hint or the default. */
  lemma HintOfTranslated(d: string)
    ensures ErrorSolution(TranslateError(d)) == ShortenHint || ErrorSolution(TranslateError(d)) == DefaultHint
  {
    match FirstRule(Translations, d)
    case Some(j) =>
      TranslationTextsPersian(j);
      PersianSelectsNoHint(Translations[j].text);
    case None =>
      UntranslatedHint(d);
  }

  /** As written, the channel, unblock and upload hints never appear: a
      message carrying their phrases is translated to Persian first, and
      the hints look for the English phrases. */
  lemma ShownHintNeverSpecific(raw: Option<string>)
    ensures ShownHint(raw) == ShortenHint || ShownHint(raw) == DefaultHint
  {
    if raw.None? || raw.value == "" {
      PersianUnknown();
      PersianSelectsNoHint(Unknown);
    } else {
      HintOfTranslated(Detail(raw.value));
    }
  }

  /** The hint evidently intended: the one for the untranslated detail. */
  function IntendedHint(raw: Option<string>): (r: string)
    ensures raw.Some? && raw.value != "" ==> r == ErrorSolution(Detail(raw.value))
  {
    if raw.None? || raw.value == "" then DefaultHint else ErrorSolution(Detail(raw.value))
  }

  /** A message without the tag is shown whole. */
  lemma UntaggedDetail(s: string)
    requires forall j :: 0 <= j <= |s| - |Tag| ==> LowerChar(s[j]) != 't'
    ensures Detail(s) == s
  {
    assert Tag[0] == 't';
    forall j | 0 <= j <= |s| - |Tag|
      ensures !TagAt(s, j)
    {
      assert LowerChar(s[j + 0]) != Tag[0];
    }
    assert TelegramDetail(s).None?;
  }

  /** A message selects a row one of whose phrases it is. */
  lemma SelectsOwnPhrase(rule: Rule, i: nat)
    requires i < |rule.patterns|
    ensures Selects(rule, rule.patterns[i])
  {
    var p := rule.patterns[i];
    assert OccursAt(p, p, 0);
    ContainsIff(p, p);
  }

  /** With the intended reading, a "chat not found" error gets the channel
      hint that the page as written never shows. */
  lemma {:induction false} IntendedChannelHint()
    ensures IntendedHint(Some("chat not found")) == ChannelHint
    ensures ShownHint(Some("chat not found")) == DefaultHint
  {
    var s := "chat not found";
    UntaggedDetail(s);
    assert s == Solutions[1].patterns[0] == Translations[1].patterns[0];
    SelectsOwnPhrase(Solutions[1], 0);
    SelectsOwnPhrase(Translations[1], 0);
    ChatSolution(s);
    ChatTranslation(s);
    PersianNoChatText();
    PersianSelectsNoHint(NoChatText);
  }

  /** The row `FirstRule` picks is the first one selected. */
  lemma FirstRuleIs(rules: seq<Rule>, m: string, k: nat)
    requires k < |rules| && Selects(rules[k], m)
    requires forall j :: 0 <= j < k ==> !Selects(rules[j], m)
    ensures FirstRule(rules, m) == Some(k)
  {
  }

  /** A message selects no row none of whose phrases it contains. */
  lemma NotSelected(rule: Rule, m: string)
    requires forall i :: 0 <= i < |rule.patterns| ==> !Contains(m, rule.patterns[i])
    ensures !Selects(rule, m)
  {
  }

  /** A message shorter than both phrases of the shorten hint that carries
      a phrase of the channel hint gets the channel hint. */
  lemma ChatSolution(s: string)
    requires |s| < 16 && Selects(Solutions[1], s)
    ensures ErrorSolution(s) == ChannelHint
  {
    ChatSkipsShortenHint(s);
    FirstRuleIs(Solutions, s, 1);
  }

  lemma ChatSkipsShortenHint(s: string)
    requires |s| < 16
    ensures !Selects(Solutions[0], s)
  {
    ContainsNoLonger(s, Solutions[0].patterns[0]);
    ContainsNoLonger(s, Solutions[0].patterns[1]);
    NotSelected(Solutions[0], s);
  }

  /** Likewise for the translation table. */
  lemma ChatTranslation(s: string)
    requires |s| < 16 && Selects(Translations[1], s)
    ensures TranslateError(s) == NoChatText
  {
    ChatSkipsTooLong(s);
    FirstRuleIs(Translations, s, 1);
  }

  lemma ChatSkipsTooLong(s: string)
    requires |s| < 16
    ensures !Selects(Translations[0], s)
  {
    ContainsNoLonger(s, Translations[0].patterns[0]);
    NotSelected(Translations[0], s);
  }

  /** With the intended reading, the unblock hint is reachable. */
  lemma {:induction false} IntendedUnblockHint()
    ensures IntendedHint(Some("bot was blocked")) == UnblockHint
  {
    var b := "bot was blocked";
    BlockedUntagged(b);
    BlockedLacks(b);
    BlockedSkipsEarlierHints(b);
    assert b == Solutions[2].patterns[0];
    SelectsOwnPhrase(Solutions[2], 0);
    FirstRuleIs(Solutions, b, 2);
  }

  /** A message without 'T', 'm', 'h' and 'P' selects neither the shorten
      nor the channel hint. */
  lemma BlockedSkipsEarlierHints(b: string)
    requires 'T' !in b && 'm' !in b && 'h' !in b && 'P' !in b
    ensures !Selects(Solutions[0], b) && !Selects(Solutions[1], b)
  {
    SkipsRule(Solutions[0], b, "Tm");
    SkipsRule(Solutions[1], b, "hP");
  }

  /** A message skips a row when each phrase of the row has a character,
      given in `witnesses`, that the message lacks. */
  lemma SkipsRule(rule: Rule, m: string, witnesses: seq<char>)
    requires |witnesses| == |rule.patterns|
    requires forall i :: 0 <= i < |witnesses| ==> witnesses[i] in rule.patterns[i] && witnesses[i] !in m
    ensures !Selects(rule, m)
  {
    forall i | 0 <= i < |witnesses|
      ensures !Contains(m, rule.patterns[i])
    {
      ContainsNoMissingChar(m, rule.patterns[i], witnesses[i]);
    }
  }

  lemma BlockedUntagged(b: string)
    requires b == "bot was blocked"
    ensures Detail(b) == b
  {
    assert LowerChar(b[0]) == 'b' && LowerChar(b[1]) == 'o';
    UntaggedDetail(b);
  }

  lemma BlockedLacks(b: string)
    requires b == "bot was blocked"
    ensures 'T' !in b && 'm' !in b && 'h' !in b && 'P' !in b
  {
  }

  lemma WrongFileUntagged(w: string)
    requires w == "wrong file identifier"
    ensures Detail(w) == w
  {
    assert forall j :: 0 <= j < 8 ==> LowerChar(w[j]) != 't';
    UntaggedDetail(w);
  }

  lemma WrongFileLacks(w: string)
    requires w == "wrong file identifier"
    ensures 'T' !in w && 'm' !in w && 'c' !in w && 'P' !in w && 'b' !in w
  {
  }

  /** With the intended reading, the upload hint is reachable. */
  lemma {:induction false} IntendedUploadHint()
    ensures IntendedHint(Some("wrong file identifier")) == UploadHint
  {
    var w := "wrong file identifier";
    WrongFileUntagged(w);
    WrongFileLacks(w);
    assert w == Solutions[3].patterns[0];
    SelectsOwnPhrase(Solutions[3], 0);
    UploadSolution(w);
  }

  /** A message without 'T', 'm', 'c', 'P' and 'b' that carries a phrase of
      the upload hint gets the upload hint. */
  lemma UploadSolution(w: string)
    requires 'T' !in w && 'm' !in w && 'c' !in w && 'P' !in w && 'b' !in w
    requires Selects(Solutions[3], w)
    ensures ErrorSolution(w) == UploadHint
  {
    WrongFileSkipsEarlierHints(w);
    FirstRuleIs(Solutions, w, 3);
  }

  lemma WrongFileSkipsEarlierHints(w: string)
    requires 'T' !in w && 'm' !in w && 'c' !in w && 'P' !in w && 'b' !in w
    ensures !Selects(Solutions[0], w) && !Selects(Solutions[1], w) && !Selects(Solutions[2], w)
  {
    SkipsRule(Solutions[0], w, "Tm");
    SkipsRule(Solutions[1], w, "cP");
    SkipsRule(Solutions[2], w, "b");
  }

  // ------------------------------------------------------------------
  // Truncation and the list
  // ------------------------------------------------------------------

  /** `truncateText`: nothing for a missing text, the text when it fits,
      else its first `maxLength` code units and an ellipsis. Lengths are
      JavaScript's, in UTF-16 code units. */
  function TruncateText(text: Option<string>, maxLength: nat): (r: string)
    ensures text.None? || text == Some("") ==> r == ""
    ensures text.Some? && Utf16Length(text.value) <= maxLength ==> r == text.value
    ensures text.Some? && Utf16Length(text.value) > maxLength ==>
      var n := |r| - 3;
      && |r| >= 3 && r[n..] == "..." && n < |text.value| && r[..n] == text.value[..n]
      && Utf16Length(r[..n]) <= maxLength && Utf16Length(text.value[..n + 1]) > maxLength
    ensures |r| <= maxLength + 3
  {
    if text.None? || text.value == "" then ""
    else if Utf16Length(text.value) <= maxLength then text.value
    else
      var t := text.value;
      var p := Utf16Prefix(t, maxLength);
      assert t[..|t|] == t;
      var r := p + "...";
      assert r[..|p|] == p;
      r
  }

  datatype FailedPost = FailedPost(id: nat, content: string, errorMessage: Option<string>)

  /** `prev.filter(post => post.id !== postId)`. */
  function WithoutPost(posts: seq<FailedPost>, id: nat): (r: seq<FailedPost>)
    ensures forall p :: p in r <==> p in posts && p.id != id
    ensures |r| <= |posts|
  {
    if posts == [] then []
    else if posts[0].id == id then WithoutPost(posts[1..], id)
    else [posts[0]] + WithoutPost(posts[1..], id)
  }

  /** Removing a post twice is removing it once. */
  lemma {:induction false} WithoutPostIdempotent(posts: seq<FailedPost>, id: nat)
    ensures WithoutPost(WithoutPost(posts, id), id) == WithoutPost(posts, id)
  {
    if posts != [] {
      WithoutPostIdempotent(posts[1..], id);
      if posts[0].id != id {
        assert ([posts[0]] + WithoutPost(posts[1..], id))[1..] == WithoutPost(posts[1..], id);
      }
    }
  }

  /** The page's list of failed posts. */
  class FailedList {
    var posts: seq<FailedPost>

    constructor (loaded: seq<FailedPost>)
      ensures posts == loaded
    {
      posts := loaded;
    }

    /** `retryPost`: the post leaves the list only when the server accepts
        the retry. */
    method Retry(id: nat, accepted: bool) returns (alert: string)
      modifies this
      ensures posts == (if accepted then WithoutPost(old(posts), id) else old(posts))
      ensures alert == (if accepted then "پست با موفقیت به صف ارسال مجدد اضافه شد!"
                        else "خطا در ارسال مجدد پست. لطفاً دوباره تلاش کنید.")
    {
      if accepted {
        posts := WithoutPost(posts, id);
        alert := "پست با موفقیت به صف ارسال مجدد اضافه شد!";
      } else {
        alert := "خطا در ارسال مجدد پست. لطفاً دوباره تلاش کنید.";
      }
    }

    /** `deletePost`: nothing happens unless the user confirms; the post
        leaves the list only when the server deletes it. */
    method Delete(id: nat, confirmed: bool, accepted: bool) returns (alert: Option<string>)
      modifies this
      ensures posts == (if confirmed && accepted then WithoutPost(old(posts), id) else old(posts))
      ensures !confirmed ==> alert.None?
      ensures confirmed ==> alert == Some(if accepted then "پست با موفقیت حذف شد." else "خطا در حذف پست.")
    {
      if !confirmed {
        return None;
      }
      if accepted {
        posts := WithoutPost(posts, id);
        alert := Some("پست با موفقیت حذف شد.");
      } else {
        alert := Some("خطا در حذف پست.");
      }
    }
  }
}
