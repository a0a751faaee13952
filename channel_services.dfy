/** The two platform adapters (Back-end/channels/services.py): the verification
    probe, single-message / single-file / album sends, and the mapping of an HTTP
    reply to a `(success, detail)` pair. Every HTTP call is an oracle argument:
    `transport` answers a request, `fileExists` says whether an upload can be
    opened. */
module ChannelServices {
  import opened Wrappers
  import opened Strings
  import opened ChannelModel

  // ------------------------------------------------------------------
  // Wire values
  // ------------------------------------------------------------------

  /** One entry of the per-file list the dispatch task hands to an adapter. */
  datatype FileInfo = FileInfo(path: string, caption: Option<string>)

  /** One element of the JSON `media` array of an album call. */
  datatype MediaEntry = MediaEntry(kind: string, media: string, caption: Option<string>, parseMode: Option<string>)

  datatype FormVal = Str(s: string) | Flag(b: bool) | MediaList(entries: seq<MediaEntry>)

  /** An opened upload: the multipart field name and the file behind it. */
  datatype Upload = Upload(field: string, path: string)

  /** A bot-API call: the API method (`sendMessage`, `sendPhoto`, ...), the form
      fields actually sent (a field whose value is None is not sent), the
      uploads and the timeout in seconds (None: no timeout). */
  datatype Request = Request(apiMethod: string, data: seq<(string, FormVal)>, uploads: seq<Upload>, timeout: Option<nat>)

  datatype ReplyJson = ReplyJson(ok: bool, description: Option<string>)

  /** What the HTTP layer answers: a reply (status, raw body, and the parsed body
      or the decoder's error message), or an exception with its type name. */
  datatype Transport =
    | Reply(status: int, text: string, json: Result<ReplyJson, string>)
    | Raised(typeName: string, message: string, isTimeout: bool)

  datatype SendResult = SendResult(ok: bool, detail: string)

  /** The outcome of one adapter call, the request it made (None: no request
      was made) and the upload handles still open when it returned. */
  datatype Delivery = Delivery(result: SendResult, request: Option<Request>, leaked: seq<Upload>)

  const UnknownPlatformMessage := "پلتفرم ناشناخته است."
  const TelegramTimeoutMessage := "Timeout: ارسال به تلگرام بیش از حد طول کشید."
  const FileNotFoundPrefix := "فایل پیدا نشد: "
  const NoEligibleMediaMessage := "هیچ فایل تصویری یا ویدیویی معتبری برای آلبوم پیدا نشد."
  const TelegramUnknownError := "خطای نامشخص تلگرام"
  const BaleUnknownError := "خطای نامشخص از بله."

  /** Python's message for a file that cannot be opened. */
  function FileNotFoundText(path: string): string {
    "[Errno 2] No such file or directory: '" + path + "'"
  }

  /** A form field that `requests` sends only when its value is not None. */
  function OptField(name: string, v: Option<string>): seq<(string, FormVal)> {
    match v
    case Some(s) => [(name, Str(s))]
    case None => []
  }

  // ------------------------------------------------------------------
  // File classification by extension (case-insensitive)
  // ------------------------------------------------------------------

  const TelegramPhotoExts: seq<string> := [".jpg", ".jpeg", ".png", ".gif"]
  const TelegramVideoExts: seq<string> := [".mp4", ".mov", ".mkv", ".avi", ".webm"]
  const TelegramVoiceExts: seq<string> := [".oga", ".ogg"]
  const BalePhotoExts: seq<string> := [".png", ".jpg", ".gif"]
  const BaleVideoExts: seq<string> := [".mp4", ".mov", ".avi"]
  const BaleAlbumPhotoExts: seq<string> := [".jpg", ".jpeg", ".png"]
  const BaleAlbumVideoExts: seq<string> := [".mp4", ".mov", ".mkv"]

  /** Whether the lower-cased path ends with one of `exts`. */
  predicate HasExtension(path: string, exts: seq<string>) {
    EndsWithAny(LowerAscii(path), exts)
  }

  predicate EndsWithAny(s: string, exts: seq<string>) {
    exists i :: 0 <= i < |exts| && EndsWith(s, exts[i])
  }

  datatype FileKind = Photo | Video | Voice | Document

  /** The multipart field (and `sendX` suffix) for a kind. */
  function KindField(k: FileKind): string {
    match k
    case Photo => "photo"
    case Video => "video"
    case Voice => "voice"
    case Document => "document"
  }

  function KindMethod(k: FileKind): string {
    match k
    case Photo => "sendPhoto"
    case Video => "sendVideo"
    case Voice => "sendVoice"
    case Document => "sendDocument"
  }

  /** The Telegram endpoint for a single file: photo, then video, then voice
      extensions are tried in that order; anything else is a document. */
  function TelegramFileKind(path: string): (k: FileKind)
    ensures k == Photo <==> HasExtension(path, TelegramPhotoExts)
    ensures k == Video <==> !HasExtension(path, TelegramPhotoExts) && HasExtension(path, TelegramVideoExts)
    ensures k == Voice <==> !HasExtension(path, TelegramPhotoExts) && !HasExtension(path, TelegramVideoExts)
                            && HasExtension(path, TelegramVoiceExts)
  {
    if HasExtension(path, TelegramPhotoExts) then Photo
    else if HasExtension(path, TelegramVideoExts) then Video
    else if HasExtension(path, TelegramVoiceExts) then Voice
    else Document
  }

  /** Bale's single-file endpoint: a narrower photo/video set and no voice call. */
  function BaleFileKind(path: string): (k: FileKind)
    ensures k != Voice
    ensures k == Photo <==> HasExtension(path, BalePhotoExts)
    ensures k == Video <==> !HasExtension(path, BalePhotoExts) && HasExtension(path, BaleVideoExts)
  {
    if HasExtension(path, BalePhotoExts) then Photo
    else if HasExtension(path, BaleVideoExts) then Video
    else Document
  }

  /** Classification ignores letter case: a path and its lower-cased form land
      on the same endpoint. */
  lemma KindIgnoresCase(path: string)
    ensures TelegramFileKind(LowerAscii(path)) == TelegramFileKind(path)
    ensures BaleFileKind(LowerAscii(path)) == BaleFileKind(path)
  {
    LowerAsciiIdempotent(path);
  }

  // ------------------------------------------------------------------
  // Albums
  // ------------------------------------------------------------------

  /** How an adapter builds an album: how many files it looks at (None: all),
      which extensions count as photo and video, the caption given to entries
      other than original index 0, and the parse mode of each entry. */
  datatype AlbumRules = AlbumRules(
    cap: Option<nat>,
    photoExts: seq<string>,
    videoExts: seq<string>,
    laterCaption: Option<string>,
    parseMode: Option<string>)

  /** Telegram: the first 10 files, captions "" after index 0, MarkdownV2. */
  const TelegramAlbum := AlbumRules(Some(10), TelegramPhotoExts, TelegramVideoExts, Some(""), Some("MarkdownV2"))

  /** Bale: every file, no caption (JSON null) after index 0, no parse mode. */
  const BaleAlbum := AlbumRules(None, BaleAlbumPhotoExts, BaleAlbumVideoExts, None, None)

  /** Number of leading files the album loop visits. */
  function Considered(rules: AlbumRules, n: nat): (r: nat)
    ensures r <= n
    ensures rules.cap.Some? ==> r <= rules.cap.value
    ensures rules.cap.None? ==> r == n
    ensures rules.cap.Some? ==> r == (if n < rules.cap.value then n else rules.cap.value)
  {
    match rules.cap
    case Some(c) => if n < c then n else c
    case None => n
  }

  /** The album entry type of a file, or None when the album skips it. */
  function AlbumKind(rules: AlbumRules, path: string): Option<string> {
    if HasExtension(path, rules.photoExts) then Some("photo")
    else if HasExtension(path, rules.videoExts) then Some("video")
    else None
  }

  function FieldName(i: nat): string { "file" + NatToString(i) }

  /** The entry for the file at original index `i`; only index 0 carries the
      file's own caption. */
  function AlbumEntry(rules: AlbumRules, files: seq<FileInfo>, i: nat): MediaEntry
    requires i < |files| && AlbumKind(rules, files[i].path).Some?
  {
    MediaEntry(AlbumKind(rules, files[i].path).value, "attach://" + FieldName(i),
               if i == 0 then files[0].caption else rules.laterCaption, rules.parseMode)
  }

  /** The state of the album loop: entries built, handles opened, the original
      index of each entry, and the path whose opening failed (which ends the loop). */
  datatype AlbumState = AlbumState(media: seq<MediaEntry>, uploads: seq<Upload>, indices: seq<nat>, missing: Option<string>)

  /** The album loop over the first `n` files, as a fold. The entry is appended
      before its file is opened, as in the source. */
  function AlbumFold(rules: AlbumRules, files: seq<FileInfo>, fileExists: string -> bool, n: nat): AlbumState
    requires n <= |files|
  {
    if n == 0 then AlbumState([], [], [], None)
    else
      var s := AlbumFold(rules, files, fileExists, n - 1);
      var i := n - 1;
      if s.missing.Some? || AlbumKind(rules, files[i].path).None? then s
      else
        var e := AlbumEntry(rules, files, i);
        if fileExists(files[i].path) then
          AlbumState(s.media + [e], s.uploads + [Upload(FieldName(i), files[i].path)], s.indices + [i], None)
        else
          AlbumState(s.media + [e], s.uploads, s.indices + [i], Some(files[i].path))
  }

  /** Entries of an album built from the first `n` files: in file order, each
      the entry of an eligible file. */
  ghost predicate AlbumIndexed(rules: AlbumRules, files: seq<FileInfo>, n: nat, s: AlbumState)
    requires n <= |files|
  {
    && |s.media| == |s.indices| <= n
    && (forall k :: 0 <= k < |s.indices| ==> s.indices[k] < n)
    && (forall k, l :: 0 <= k < l < |s.indices| ==> s.indices[k] < s.indices[l])
    && (forall k :: 0 <= k < |s.indices| ==> AlbumKind(rules, files[s.indices[k]].path).Some?)
    && (forall k :: 0 <= k < |s.indices| ==> s.media[k] == AlbumEntry(rules, files, s.indices[k]))
  }

  /** Uploads of an album: one opened handle per entry, except the last entry
      when its file could not be opened. */
  ghost predicate AlbumUploaded(files: seq<FileInfo>, fileExists: string -> bool, s: AlbumState)
  {
    && (s.missing.None? ==> |s.uploads| == |s.indices|)
    && (s.missing.Some? ==> (|s.uploads| + 1 == |s.indices|
                            && s.indices[|s.indices| - 1] < |files|
                            && s.missing.value == files[s.indices[|s.indices| - 1]].path
                            && !fileExists(s.missing.value)))
    && (forall k :: 0 <= k < |s.uploads| ==>
          k < |s.indices| && s.indices[k] < |files|
          && s.uploads[k] == Upload(FieldName(s.indices[k]), files[s.indices[k]].path)
          && fileExists(s.uploads[k].path))
  }

  /** With no failed open, every eligible file among the first `n` has an entry. */
  ghost predicate AlbumComplete(rules: AlbumRules, files: seq<FileInfo>, n: nat, s: AlbumState)
    requires n <= |files|
  {
    s.missing.None? ==> forall i :: 0 <= i < n && AlbumKind(rules, files[i].path).Some? ==> i in s.indices
  }

  lemma {:induction false} AlbumFoldIndexed(rules: AlbumRules, files: seq<FileInfo>, fileExists: string -> bool, n: nat)
    requires n <= |files|
    ensures AlbumIndexed(rules, files, n, AlbumFold(rules, files, fileExists, n))
  {
    if n > 0 {
      AlbumFoldIndexed(rules, files, fileExists, n - 1);
      var prev := AlbumFold(rules, files, fileExists, n - 1);
      var s := AlbumFold(rules, files, fileExists, n);
      var i := n - 1;
      if prev.missing.None? && AlbumKind(rules, files[i].path).Some? {
        assert s.indices == prev.indices + [i];
        assert s.media == prev.media + [AlbumEntry(rules, files, i)];
        AlbumIndexedSnoc(rules, files, n, prev, s);
      } else {
        assert s == prev;
        AlbumIndexedWiden(rules, files, n, s);
      }
    }
  }

  /** Appending the entry of the eligible file `n - 1` keeps an album indexed. */
  lemma AlbumIndexedSnoc(rules: AlbumRules, files: seq<FileInfo>, n: nat, prev: AlbumState, s: AlbumState)
    requires 0 < n <= |files| && AlbumIndexed(rules, files, n - 1, prev)
    requires AlbumKind(rules, files[n - 1].path).Some?
    requires s.indices == prev.indices + [n - 1] && s.media == prev.media + [AlbumEntry(rules, files, n - 1)]
    ensures AlbumIndexed(rules, files, n, s)
  {
  }

  /** An album indexed over the first `n - 1` files is indexed over `n`. */
  lemma AlbumIndexedWiden(rules: AlbumRules, files: seq<FileInfo>, n: nat, s: AlbumState)
    requires 0 < n <= |files| && AlbumIndexed(rules, files, n - 1, s)
    ensures AlbumIndexed(rules, files, n, s)
  {
  }

  lemma {:induction false} AlbumFoldUploaded(rules: AlbumRules, files: seq<FileInfo>, fileExists: string -> bool, n: nat)
    requires n <= |files|
    ensures AlbumUploaded(files, fileExists, AlbumFold(rules, files, fileExists, n))
  {
    if n > 0 {
      AlbumFoldUploaded(rules, files, fileExists, n - 1);
      AlbumFoldIndexed(rules, files, fileExists, n - 1);
    }
  }

  lemma {:induction false} AlbumFoldComplete(rules: AlbumRules, files: seq<FileInfo>, fileExists: string -> bool, n: nat)
    requires n <= |files|
    ensures AlbumComplete(rules, files, n, AlbumFold(rules, files, fileExists, n))
  {
    if n > 0 {
      AlbumFoldComplete(rules, files, fileExists, n - 1);
      var prev := AlbumFold(rules, files, fileExists, n - 1);
      var s := AlbumFold(rules, files, fileExists, n);
      if s.missing.None? {
        assert prev.missing.None?;
        forall i | 0 <= i < n && AlbumKind(rules, files[i].path).Some? ensures i in s.indices {
          if i < n - 1 {
            assert i in prev.indices;
          }
        }
      }
    }
  }

  /** The album fold keeps entries in file order, one per eligible file, each
      naming the upload field it is paired with. */
  lemma AlbumFoldShape(rules: AlbumRules, files: seq<FileInfo>, fileExists: string -> bool, n: nat)
    requires n <= |files|
    ensures var s := AlbumFold(rules, files, fileExists, n);
      AlbumIndexed(rules, files, n, s) && AlbumUploaded(files, fileExists, s) && AlbumComplete(rules, files, n, s)
  {
    AlbumFoldIndexed(rules, files, fileExists, n);
    AlbumFoldUploaded(rules, files, fileExists, n);
    AlbumFoldComplete(rules, files, fileExists, n);
  }

  /** Every entry names `attach://<field>` of the upload at the same position,
      and only original index 0 may carry the file's caption. */
  lemma AlbumEntriesMatchUploads(rules: AlbumRules, files: seq<FileInfo>, fileExists: string -> bool, n: nat)
    requires n <= |files|
    ensures var s := AlbumFold(rules, files, fileExists, n);
      && (forall k :: 0 <= k < |s.uploads| && k < |s.media| ==> s.media[k].media == "attach://" + s.uploads[k].field)
      && (forall k :: 0 <= k < |s.media| && k < |s.indices| && s.indices[k] != 0 ==> s.media[k].caption == rules.laterCaption)
      && (forall k :: 0 < k < |s.indices| ==> s.indices[k] != 0)
      && (0 < |s.media| && 0 < |s.indices| && s.indices[0] == 0 ==> s.media[0].caption == files[0].caption)
  {
    AlbumFoldIndexed(rules, files, fileExists, n);
    AlbumFoldUploaded(rules, files, fileExists, n);
    var s := AlbumFold(rules, files, fileExists, n);
    forall k | 0 < k < |s.indices| ensures s.indices[k] != 0 {
      assert s.indices[0] < s.indices[k];
    }
  }

  /** Telegram albums hold at most 10 entries, and an album is empty exactly
      when none of the files looked at is a photo or a video. */
  lemma TelegramAlbumBounds(files: seq<FileInfo>, fileExists: string -> bool)
    ensures var n := Considered(TelegramAlbum, |files|);
      var s := AlbumFold(TelegramAlbum, files, fileExists, n);
      && |s.media| <= 10
      && (s.media == [] <==> forall i :: 0 <= i < n ==> AlbumKind(TelegramAlbum, files[i].path).None?)
  {
    var n := Considered(TelegramAlbum, |files|);
    AlbumFoldShape(TelegramAlbum, files, fileExists, n);
    var s := AlbumFold(TelegramAlbum, files, fileExists, n);
    if s.media == [] {
      assert s.indices == [];
      assert s.missing.None?;
      forall i | 0 <= i < n ensures AlbumKind(TelegramAlbum, files[i].path).None? {
        assert i !in s.indices;
      }
    } else {
      var j := s.indices[0];
      assert j < n && AlbumKind(TelegramAlbum, files[j].path).Some?;
    }
  }

  /** The album loop: visits the considered files in order, appends an entry for
      each photo/video, opens its upload, and stops at the first file that
      cannot be opened. */
  method BuildAlbum(rules: AlbumRules, files: seq<FileInfo>, fileExists: string -> bool) returns (s: AlbumState)
    ensures s == AlbumFold(rules, files, fileExists, Considered(rules, |files|))
  {
    var n := Considered(rules, |files|);
    s := AlbumState([], [], [], None);
    var i := 0;
    while i < n
      invariant 0 <= i <= n
      invariant s == AlbumFold(rules, files, fileExists, i)
      invariant s.missing.None?
    {
      var path := files[i].path;
      if AlbumKind(rules, path).Some? {
        var entry := AlbumEntry(rules, files, i);
        if fileExists(path) {
          s := AlbumState(s.media + [entry], s.uploads + [Upload(FieldName(i), path)], s.indices + [i], None);
        } else {
          s := AlbumState(s.media + [entry], s.uploads, s.indices + [i], Some(path));
          assert s == AlbumFold(rules, files, fileExists, i + 1);
          AlbumFoldStops(rules, files, fileExists, i + 1, n);
          return;
        }
      }
      i := i + 1;
    }
  }

  /** Once a file has failed to open, the rest of the loop changes nothing. */
  lemma {:induction false} AlbumFoldStops(rules: AlbumRules, files: seq<FileInfo>, fileExists: string -> bool, m: nat, n: nat)
    requires m <= n <= |files|
    requires AlbumFold(rules, files, fileExists, m).missing.Some?
    ensures AlbumFold(rules, files, fileExists, n) == AlbumFold(rules, files, fileExists, m)
    decreases n - m
  {
    if m < n {
      AlbumFoldStops(rules, files, fileExists, m, n - 1);
    }
  }

  // ------------------------------------------------------------------
  // Reply mapping
  // ------------------------------------------------------------------

  /** Telegram's reading of an HTTP reply or exception. */
  function TelegramOutcome(t: Transport): (r: SendResult)
    ensures r.ok <==> t.Reply? && t.status == 200 && t.json.Success? && t.json.value.ok
    ensures r.ok ==> r.detail == ""
    ensures t.Reply? && t.status != 200 ==> r.detail == "HTTP " + IntToString(t.status) + ": " + t.text
    ensures t.Reply? && t.status == 200 && t.json.Success? && !t.json.value.ok ==>
              r.detail == "Telegram API Error: " + t.json.value.description.GetOr(TelegramUnknownError)
    ensures t.Raised? && t.isTimeout ==> r.detail == TelegramTimeoutMessage
  {
    match t
    case Raised(ty, msg, timeout) =>
      if timeout then SendResult(false, TelegramTimeoutMessage) else SendResult(false, ty + ": " + msg)
    case Reply(status, text, json) =>
      if status != 200 then SendResult(false, "HTTP " + IntToString(status) + ": " + text)
      else match json
        case Failure(m) => SendResult(false, "JSONDecodeError: " + m)
        case Success(j) =>
          if j.ok then SendResult(true, "")
          else SendResult(false, "Telegram API Error: " + j.description.GetOr(TelegramUnknownError))
  }

  /** Bale's reading: the same success rule, the description without a prefix,
      and no special case for timeouts. */
  function BaleOutcome(t: Transport): (r: SendResult)
    ensures r.ok <==> t.Reply? && t.status == 200 && t.json.Success? && t.json.value.ok
    ensures r.ok ==> r.detail == ""
    ensures t.Reply? && t.status != 200 ==> r.detail == "HTTP " + IntToString(t.status) + ": " + t.text
    ensures t.Reply? && t.status == 200 && t.json.Success? && !t.json.value.ok ==>
              r.detail == t.json.value.description.GetOr(BaleUnknownError)
    ensures t.Raised? ==> r.detail == t.typeName + ": " + t.message
  {
    match t
    case Raised(ty, msg, _) => SendResult(false, ty + ": " + msg)
    case Reply(status, text, json) =>
      if status != 200 then SendResult(false, "HTTP " + IntToString(status) + ": " + text)
      else match json
        case Failure(m) => SendResult(false, "JSONDecodeError: " + m)
        case Success(j) =>
          if j.ok then SendResult(true, "") else SendResult(false, j.description.GetOr(BaleUnknownError))
  }

  /** The two adapters agree on every reply except a 200 whose `ok` is false
      (Telegram adds a prefix) and a timeout (Telegram has its own message). */
  lemma OutcomesAgree(t: Transport)
    requires !(t.Reply? && t.status == 200 && t.json.Success? && !t.json.value.ok)
    requires !(t.Raised? && t.isTimeout)
    ensures TelegramOutcome(t) == BaleOutcome(t)
  {
  }

  // ------------------------------------------------------------------
  // Telegram sends
  // ------------------------------------------------------------------

  function TelegramTextRequest(chatId: Option<string>, text: Option<string>): Request {
    var t := match text case Some(s) => if s == "" then " " else s case None => " ";
    Request("sendMessage", OptField("chat_id", chatId) + [("text", Str(t)), ("parse_mode", Str("HTML")),
            ("disable_web_page_preview", Flag(true))], [], Some(60))
  }

  /** The caption of a single upload: the file's caption when it is non-empty,
      otherwise the text. */
  function SingleCaption(f: FileInfo, text: Option<string>): Option<string> {
    if f.caption.Some? && f.caption.value != "" then f.caption else text
  }

  function TelegramFileRequest(chatId: Option<string>, text: Option<string>, f: FileInfo): Request {
    var k := TelegramFileKind(f.path);
    Request(KindMethod(k), OptField("chat_id", chatId) + OptField("caption", SingleCaption(f, text))
            + [("parse_mode", Str("MarkdownV2"))], [Upload(KindField(k), f.path)], Some(120))
  }

  function TelegramAlbumRequest(chatId: Option<string>, s: AlbumState): Request {
    Request("sendMediaGroup", OptField("chat_id", chatId) + [("media", MediaList(s.media))], s.uploads, Some(180))
  }

  /** What `send_message_telegram` does: never raises, always closes what it
      opened, and rejects an album with no eligible file before making any
      request. */
  predicate TelegramDelivery(chatId: Option<string>, text: Option<string>, files: seq<FileInfo>,
                             fileExists: string -> bool, transport: Request -> Transport, d: Delivery)
  {
    && d.leaked == []
    && (d.request.Some? ==> d.result == TelegramOutcome(transport(d.request.value)))
    && (files == [] ==> d.request == Some(TelegramTextRequest(chatId, text)))
    && (|files| == 1 ==>
         if fileExists(files[0].path) then d.request == Some(TelegramFileRequest(chatId, text, files[0]))
         else d.request.None? && d.result == SendResult(false, FileNotFoundPrefix + FileNotFoundText(files[0].path)))
    && (|files| > 1 ==>
         var s := AlbumFold(TelegramAlbum, files, fileExists, Considered(TelegramAlbum, |files|));
         if s.missing.Some? then
           d.request.None? && d.result == SendResult(false, FileNotFoundPrefix + FileNotFoundText(s.missing.value))
         else if s.media == [] then d.request.None? && d.result == SendResult(false, NoEligibleMediaMessage)
         else d.request == Some(TelegramAlbumRequest(chatId, s)))
  }

  /** `send_message_telegram`. */
  method SendTelegram(chatId: Option<string>, text: Option<string>, files: seq<FileInfo>,
                      fileExists: string -> bool, transport: Request -> Transport) returns (d: Delivery)
    ensures TelegramDelivery(chatId, text, files, fileExists, transport, d)
  {
    if files == [] {
      var req := TelegramTextRequest(chatId, text);
      d := Delivery(TelegramOutcome(transport(req)), Some(req), []);
    } else if |files| == 1 {
      if !fileExists(files[0].path) {
        d := Delivery(SendResult(false, FileNotFoundPrefix + FileNotFoundText(files[0].path)), None, []);
      } else {
        var req := TelegramFileRequest(chatId, text, files[0]);
        d := Delivery(TelegramOutcome(transport(req)), Some(req), []);
      }
    } else {
      var s := BuildAlbum(TelegramAlbum, files, fileExists);
      if s.missing.Some? {
        d := Delivery(SendResult(false, FileNotFoundPrefix + FileNotFoundText(s.missing.value)), None, []);
      } else if s.media == [] {
        d := Delivery(SendResult(false, NoEligibleMediaMessage), None, []);
      } else {
        var req := TelegramAlbumRequest(chatId, s);
        d := Delivery(TelegramOutcome(transport(req)), Some(req), []);
      }
    }
  }

  // ------------------------------------------------------------------
  // Bale sends
  // ------------------------------------------------------------------

  function BaleTextRequest(chatId: Option<string>, text: Option<string>): Request {
    Request("sendMessage", OptField("chat_id", chatId) + OptField("text", text), [], None)
  }

  /** Bale sends the caption only with photos; videos and documents carry the
      text in a `text` field instead. */
  function BaleFileRequest(chatId: Option<string>, text: Option<string>, f: FileInfo): Request {
    var k := BaleFileKind(f.path);
    var data := if k == Photo then OptField("caption", SingleCaption(f, text)) + OptField("chat_id", chatId)
                else OptField("text", text) + OptField("chat_id", chatId);
    Request(KindMethod(k), data, [Upload(KindField(k), f.path)], None)
  }

  function BaleAlbumRequest(chatId: Option<string>, s: AlbumState): Request {
    Request("sendMediaGroup", OptField("chat_id", chatId) + [("media", MediaList(s.media))], s.uploads, None)
  }

  /** What `send_message_bale` does: no cap on the album, no check for an
      empty album, and the album's upload handles are never closed. */
  predicate BaleDelivery(chatId: Option<string>, text: Option<string>, files: seq<FileInfo>,
                         fileExists: string -> bool, transport: Request -> Transport, d: Delivery)
  {
    && (d.request.Some? ==> d.result == BaleOutcome(transport(d.request.value)))
    && (files == [] ==> d.request == Some(BaleTextRequest(chatId, text)) && d.leaked == [])
    && (|files| == 1 ==> (d.leaked == [] &&
         if fileExists(files[0].path) then d.request == Some(BaleFileRequest(chatId, text, files[0]))
         else d.request.None? && d.result == SendResult(false, "FileNotFoundError: " + FileNotFoundText(files[0].path))))
    && (|files| > 1 ==>
         var s := AlbumFold(BaleAlbum, files, fileExists, |files|);
         && d.leaked == s.uploads
         && if s.missing.Some? then
              d.request.None? && d.result == SendResult(false, "FileNotFoundError: " + FileNotFoundText(s.missing.value))
            else d.request == Some(BaleAlbumRequest(chatId, s)))
  }

  /** `send_message_bale`. */
  method SendBale(chatId: Option<string>, text: Option<string>, files: seq<FileInfo>,
                  fileExists: string -> bool, transport: Request -> Transport) returns (d: Delivery)
    ensures BaleDelivery(chatId, text, files, fileExists, transport, d)
  {
    if files == [] {
      var req := BaleTextRequest(chatId, text);
      d := Delivery(BaleOutcome(transport(req)), Some(req), []);
    } else if |files| == 1 {
      if !fileExists(files[0].path) {
        d := Delivery(SendResult(false, "FileNotFoundError: " + FileNotFoundText(files[0].path)), None, []);
      } else {
        var req := BaleFileRequest(chatId, text, files[0]);
        d := Delivery(BaleOutcome(transport(req)), Some(req), []);
      }
    } else {
      var s := BuildAlbum(BaleAlbum, files, fileExists);
      if s.missing.Some? {
        d := Delivery(SendResult(false, "FileNotFoundError: " + FileNotFoundText(s.missing.value)), None, s.uploads);
      } else {
        var req := BaleAlbumRequest(chatId, s);
        d := Delivery(BaleOutcome(transport(req)), Some(req), s.uploads);
      }
    }
  }

  /** Bale albums are sent even when no file is a photo or a video: the album
      is then complete with an empty media list (and `SendBale` posts it). */
  lemma BaleSendsEmptyAlbum(files: seq<FileInfo>, fileExists: string -> bool)
    requires forall i :: 0 <= i < |files| ==> AlbumKind(BaleAlbum, files[i].path).None?
    ensures var s := AlbumFold(BaleAlbum, files, fileExists, |files|);
      s.missing.None? && s.media == [] && s.uploads == []
  {
    AlbumFoldIndexed(BaleAlbum, files, fileExists, |files|);
    AlbumFoldUploaded(BaleAlbum, files, fileExists, |files|);
    var s := AlbumFold(BaleAlbum, files, fileExists, |files|);
    assert s.indices == [];
  }

  /** `send_message_to_channel`: routes by platform; any other platform fails
      without a request. */
  method SendMessageToChannel(channel: Channel, text: Option<string>, files: seq<FileInfo>,
                              fileExists: string -> bool, transport: Request -> Transport) returns (d: Delivery)
    ensures channel.platform.OtherPlatform? ==> d == Delivery(SendResult(false, UnknownPlatformMessage), None, [])
    ensures channel.platform == Telegram ==> TelegramDelivery(channel.platformChannelId, text, files, fileExists, transport, d)
    ensures channel.platform == Bale ==> BaleDelivery(channel.platformChannelId, text, files, fileExists, transport, d)
  {
    match channel.platform {
      case Telegram =>
        d := SendTelegram(channel.platformChannelId, text, files, fileExists, transport);
      case Bale =>
        d := SendBale(channel.platformChannelId, text, files, fileExists, transport);
      case OtherPlatform(_) =>
        d := Delivery(SendResult(false, UnknownPlatformMessage), None, []);
    }
  }

  // ------------------------------------------------------------------
  // Verification probe
  // ------------------------------------------------------------------

  const ProbeText := "در حال بررسی دسترسی ربات برای ارسال پست..."
  const TelegramUnknownProbeError := "خطای ناشناخته از سمت تلگرام"
  const BaleUnknownProbeError := "خطای ناشناخته از سمت بله"

  /** The probe message sent to the handle (JSON body, 5 s timeout). */
  function ProbeRequest(username: string): Request {
    Request("sendMessage", [("chat_id", Str(username)), ("text", Str(ProbeText))], [], Some(5))
  }

  /** The `result.chat` object of a probe reply; None marks an absent key. */
  datatype ProbeChat = ProbeChat(id: Option<string>, username: Option<string>)

  /** A probe reply (status, `result.chat` if present, `description` if
      present) or a connection-level error. */
  datatype ProbeReply =
    | ProbeHttp(status: int, chat: Option<ProbeChat>, description: Option<string>)
    | ProbeConnectionError(message: string)

  /** A verified identity, a reason for refusal, or an exception that escapes
      the probe function (its type name). */
  datatype VerifyResult = Verified(chatId: string, username: Option<string>) | Unverified(reason: string) | VerifyCrashed(exception: string)

  /** `verify_telegram_channel`: success only on HTTP 200 with an echoed chat id. */
  function VerifyTelegram(username: string, reply: ProbeReply): (r: VerifyResult)
    ensures r.Verified? <==> reply.ProbeHttp? && reply.status == 200 && reply.chat.Some? && reply.chat.value.id.Some?
    ensures r.Verified? ==> r.chatId == reply.chat.value.id.value && r.username == reply.chat.value.username
    ensures reply.ProbeHttp? && reply.status != 200 ==> r == Unverified(reply.description.GetOr(TelegramUnknownProbeError))
    ensures reply.ProbeConnectionError? ==> r == Unverified("خطا در اتصال به سرور تلگرام: " + reply.message)
    ensures reply.ProbeHttp? && reply.status == 200 && !r.Verified? ==> r == VerifyCrashed("KeyError")
  {
    match reply
    case ProbeConnectionError(m) => Unverified("خطا در اتصال به سرور تلگرام: " + m)
    case ProbeHttp(status, chat, desc) =>
      if status != 200 then Unverified(desc.GetOr(TelegramUnknownProbeError))
      else if chat.None? || chat.value.id.None? then VerifyCrashed("KeyError")
      else Verified(chat.value.id.value, chat.value.username)
  }

  /** `verify_bale_channel`: any HTTP 200 verifies; a missing chat id or username
      falls back to the handle itself. */
  function VerifyBale(username: string, reply: ProbeReply): (r: VerifyResult)
    ensures r.Verified? <==> reply.ProbeHttp? && reply.status == 200
    ensures r.Verified? ==>
      r.username == Some(if reply.chat.Some? && reply.chat.value.username.Some? then reply.chat.value.username.value else username)
    ensures r.Verified? && (reply.chat.None? || reply.chat.value.id.None?) ==> r.chatId == username
    ensures r.Verified? && reply.chat.Some? && reply.chat.value.id.Some? ==> r.chatId == reply.chat.value.id.value
    ensures reply.ProbeHttp? && reply.status != 200 ==> r == Unverified(reply.description.GetOr(BaleUnknownProbeError))
    ensures reply.ProbeConnectionError? ==> r == Unverified("خطا در اتصال به سرور بله: " + reply.message)
  {
    match reply
    case ProbeConnectionError(m) => Unverified("خطا در اتصال به سرور بله: " + m)
    case ProbeHttp(status, chat, desc) =>
      if status != 200 then Unverified(desc.GetOr(BaleUnknownProbeError))
      else
        var c := chat.GetOr(ProbeChat(None, None));
        Verified(c.id.GetOr(username), Some(c.username.GetOr(username)))
  }

  /** `verify_channel`: routes by platform; any other platform is refused and
      its answer does not depend on any reply. */
  function VerifyChannel(platform: Platform, username: string, reply: ProbeReply): (r: VerifyResult)
    ensures platform == Telegram ==> r == VerifyTelegram(username, reply)
    ensures platform == Bale ==> r == VerifyBale(username, reply)
    ensures platform.OtherPlatform? ==> r == Unverified(UnknownPlatformMessage)
  {
    match platform
    case Telegram => VerifyTelegram(username, reply)
    case Bale => VerifyBale(username, reply)
    case OtherPlatform(_) => Unverified(UnknownPlatformMessage)
  }

  /** Whatever the handle: Telegram refuses any non-200 answer with the
      platform's description; an empty 200 answer verifies Bale with the
      handle standing in for the chat id and the username; a 200 answer that
      echoes a chat id verifies Telegram with that id. */
  lemma ProbeAnswers(handle: string, status: int, description: string, chatId: string)
    ensures status != 200 ==>
      VerifyChannel(Telegram, handle, ProbeHttp(status, None, Some(description))) == Unverified(description)
    ensures VerifyChannel(Bale, handle, ProbeHttp(200, None, None)) == Verified(handle, Some(handle))
    ensures VerifyChannel(Telegram, handle, ProbeHttp(200, Some(ProbeChat(Some(chatId), None)), None)) == Verified(chatId, None)
  {
  }
}
