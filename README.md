# social_manager — a Dafny model of the posting and account core

social_manager lets a user register Telegram and Bale channels and write
posts (text or media) for them. A post can go out at once or at a scheduled
time. It is dispatched by a background task that calls each platform's bot
API and records the outcome. Around this sit:

- account flows: one-time e-mail codes, password and code login, a
  token cap, and reset;
- request throttles, input validators, log masking and a daily log report;
- the browser forms that collect the data.

This project models that core in Dafny and proves properties of the model.
Each source file becomes one module:

| module | models |
|---|---|
| `Dispatch` | the dispatch task `send_post_task` (imperative: a loop over the channels, then the status written back) |
| `ChannelServices` | the Telegram and Bale adapters: file-kind choice, album construction, reply mapping, the verification probes |
| `PostModel`, `PostSerializer`, `PostViews` | the post row and its status/type choices; validation, creation and update; the create / edit / cancel / retry / list / media views |
| `ChannelModel`, `ChannelSerializer`, `ChannelViews` | the channel row, handle validation, registration and editing |
| `Throttles` | the role scope and the sliding-window OTP throttle |
| `OtpModel`, `AuthSerializers`, `AuthViews`, `Tokens` | code generation and expiry; the request serializers of the code views; the seven code-based account views; outstanding/blacklisted refresh tokens |
| `UserViews`, `UserSerializer`, `Signals` | password login, registration, the approval mail on activation |
| `Validators`, `LogMasking`, `LogFilters`, `LogReport`, `Responses` | the field validators, token masking in log records, the per-thread log context, the daily report fold, the response envelopes |
| `FeAuth`, `LoginFlow` | the sign-up, reset and login forms, and how the login form reads the back end's refusals |
| `FePostEditor`, `FeFailedPosts`, `FeMediaPopup` | the post editor, the failed-posts page, the media popup |

`Wrappers` (Option/Result) and `Strings` (substring search, trimming, ASCII
case folding, digit strings) are shared helpers.

External effects become parameters:

- An HTTP reply from a bot API is a `Transport` or `ProbeReply` value.
- The platform send used by the dispatch task is a `SendOracle` function.
- The clock is an `int` of seconds.
- A drawn random number is a `nat` below 10^6.
- Whether a file can be opened is a predicate.
- A sent mail is the returned recipient or body.

Classes stand for the rows and objects the source mutates in place: `Post`,
`ChannelTable`, `AuthDb`, `TokenStore`, `OtpThrottle`, `LogRecord`,
`LogContext`, `UserInstance`, `TaskQueue`, and on the front end the
`Editor` and `FailedList` state. Their methods state the whole new state.

## Model

| member | source | states |
|---|---|---|
| Dispatch.OnUncaughtError | Back-end/posts/tasks.py:10 | an uncaught error schedules a retry after 60 s exactly while fewer than 3 retries were used, and gives up otherwise |
| Dispatch.RetriesAreBounded | Back-end/posts/tasks.py:90-92 | a task that fails on every run executes exactly 1 + (3 − retries used) more times |
| Dispatch.ReplyAttempt | Back-end/posts/tasks.py:57-68 | a channel counts as a successful send exactly when the adapter returned success; an exception or a failure only adds a line |
| Dispatch.OneLinePerChannel | Back-end/posts/tasks.py:32-68 | the fan-out yields exactly one result line per channel, in channel order, and line k is channel k's line |
| Dispatch.SuccessesPositive | Back-end/posts/tasks.py:70-74 | the success count is positive exactly when some channel reported success |
| Dispatch.MediaWithoutFilesSendsNothing | Back-end/posts/tasks.py:36-41 | a media post without attachments never calls the platform send and counts no success |
| Dispatch.BuildFileList | Back-end/posts/tasks.py:43-48 | one file entry per attachment, in order; the first entry has the post text as caption and the others "" |
| Dispatch.FileListIsBuilt | Back-end/posts/tasks.py:43-48 | any list with those four properties is the reference file list |
| Dispatch.FanOut | Back-end/posts/tasks.py:29-68 | the loop's results and success count equal the per-channel fold over all channels; no channel stops the loop |
| Dispatch.SendPostTask | Back-end/posts/tasks.py:11-92 | missing post: "Post does not exist". Non-pending post: the skip message, post unchanged. No channels: "No channels found", post unchanged (still pending). Otherwise the status is sent (with sent_at = now) iff some channel succeeded, else failed (sent_at kept); error_message and the result are both the lines joined by "; "; no other field changes |
| Dispatch.StoreOutcome | Back-end/posts/tasks.py:70-77 | status sent with `sent_at` set iff some channel took the post, failed otherwise; the joined result lines become the error message; every other column is kept |
| ChannelServices.TelegramFileKind | Back-end/channels/services.py:108-125 | photo iff the case-folded path ends in a photo extension; else video iff a video extension; else voice iff .oga/.ogg; else document |
| ChannelServices.BaleFileKind | Back-end/channels/services.py:204-220 | Bale never picks voice; photo and video by its own extension lists, document otherwise |
| ChannelServices.KindIgnoresCase | Back-end/channels/services.py:114 | both choices give the same kind for a path and its lower-cased form |
| ChannelServices.Considered | Back-end/channels/services.py:138 | Telegram considers exactly min(10, n) files, Bale all n |
| ChannelServices.AlbumFoldShape | Back-end/channels/services.py:138-157 | the album keeps exactly the considered photo/video files in order, each entry names attach://file<i> for its original index i, and only index 0 carries a caption |
| ChannelServices.AlbumEntriesMatchUploads | Back-end/channels/services.py:138-157 | every album entry names attach://<field> of the upload beside it; only an entry for file 0 carries that file's caption, all others the later-file caption |
| ChannelServices.TelegramAlbumBounds | Back-end/channels/services.py:134-160 | a Telegram album has at most 10 entries, and it is empty exactly when none of the first 10 files is a photo or video |
| ChannelServices.BuildAlbum | Back-end/channels/services.py:134-160 | the album-building loop computes the album fold over the considered files |
| ChannelServices.AlbumFoldStops | Back-end/channels/services.py:150-152 | once a file is found missing, later files change nothing |
| ChannelServices.TelegramOutcome | Back-end/channels/services.py:169-191 | success iff HTTP 200 with ok; 200 without ok gives the prefixed API description; any other status "HTTP <code>: <body>"; a timeout its fixed message |
| ChannelServices.BaleOutcome | Back-end/channels/services.py:269-279 | success iff HTTP 200 with ok; other statuses "HTTP <code>: <body>"; an exception its type and message |
| ChannelServices.OutcomesAgree | Back-end/channels/services.py:169-177 | apart from 200-not-ok replies and timeouts, the two adapters map a reply to the same result |
| ChannelServices.SendTelegram | Back-end/channels/services.py:92-191 | meets `TelegramDelivery`: no files gives one text request. One file gives the request for its kind, with caption = file caption or else the text. Several files give an album request, or a failure before any request when the album is empty. A missing file fails before any request, naming the path. The result is the reply mapping, and no opened handle is left open |
| ChannelServices.SendBale | Back-end/channels/services.py:193-279 | meets `BaleDelivery`: the same branches for Bale, with no 10-file cap and no empty check; album upload handles are reported as leaked |
| ChannelServices.BaleSendsEmptyAlbum | Back-end/channels/services.py:235-267 | a Bale album with no photo or video still issues a request with an empty media list |
| ChannelServices.SendMessageToChannel | Back-end/channels/services.py:81-88 | a telegram channel gets exactly what `TelegramDelivery` describes for its chat id, a bale channel what `BaleDelivery` describes; any other platform fails with "unknown platform" and no request |
| ChannelServices.VerifyTelegram | Back-end/channels/services.py:11-34 | verified iff HTTP 200 with a chat carrying an id, returning that id; a 200 reply without one raises KeyError; non-200 gives the description or a default; a connection error gives its message |
| ChannelServices.VerifyBale | Back-end/channels/services.py:37-64 | verified iff HTTP 200; the chat id, else the given handle; the chat's username, else the given handle; the description or the default message on other statuses; the connection-error text |
| ChannelServices.VerifyChannel | Back-end/channels/services.py:67-76 | routes by platform; an unknown platform is refused |
| ChannelServices.ProbeAnswers | Back-end/channels/services.py:11-64 | for every handle: a non-200 Telegram answer is refused with its description; an empty 200 Bale answer verifies with the handle as chat id and username; a 200 Telegram answer with a chat id verifies with that id |
| ChannelModel.ParsePlatform | Back-end/channels/services.py:70-76 | a platform string is read back to the same name |
| PostModel.ParseStatus | Back-end/posts/models.py:11-17 | exactly the five status names parse, each to the status of that name |
| PostModel.StatusRoundTrip | Back-end/posts/models.py:11-17 | printing a status and parsing it gives it back |
| PostModel.IsScheduledBoundary | Back-end/posts/models.py:42-43 | a post is scheduled only strictly before its time, never at it, and never without one |
| PostModel.UserMediaPath | Back-end/posts/models.py:7-8 | the path is "user_" + owner + "/" + filename, piece by piece |
| PostModel.UserMediaPathSeparates | Back-end/posts/models.py:7-8 | two owners without "/" in their names never share an upload path |
| PostModel.Post.constructor | Back-end/posts/models.py:27-36 | a new post is pending, with no error message and no sent time |
| PostSerializer.FirstForeign | Back-end/posts/serializers.py:55-57 | finds the first channel owned by someone else, or none iff all belong to the requester |
| PostSerializer.Validate | Back-end/posts/serializers.py:39-58 | accepted iff content or media, media type has files, any schedule is strictly in the future, channels are non-empty and (with a requester) all owned; each of the five refusals gives its own message exactly when the earlier checks pass, the last naming the first foreign channel |
| PostSerializer.ScheduleBoundary | Back-end/posts/serializers.py:46-47 | a schedule equal to now is refused |
| PostSerializer.Distinct | Back-end/posts/serializers.py:64 | the stored channel set has the same members as the input and no repeats |
| PostSerializer.CreateAttachments | Back-end/posts/serializers.py:65-66 | one attachment per uploaded file, in order, at its user path |
| PostSerializer.Create | Back-end/posts/serializers.py:60-67 | the new post is pending with no error, has exactly the given channels and one attachment per file |
| PostSerializer.Update | Back-end/posts/serializers.py:69-82 | supplied fields overwrite; channels only when supplied; supplied files replace all attachments, omitted files keep them; status, error, owner, id and creation time never change |
| PostSerializer.SetAttributes | Back-end/posts/serializers.py:72-73 | each supplied plain column takes the supplied value and the others keep theirs; channels and attachments are not touched |
| PostViews.TaskQueue.Enqueue | Back-end/posts/views.py:37-39 | records one enqueue event |
| PostViews.EtaFor | Back-end/posts/views.py:36-39 | an eta is used iff the schedule is strictly in the future, and it is that schedule |
| PostViews.PerformCreate | Back-end/posts/views.py:34-39 | the created post is pending and exactly one task is enqueued, with the eta rule |
| PostViews.Put | Back-end/posts/views.py:95-107 | someone else's post: 404, nothing changes; invalid data: 400, nothing changes; else every supplied field (content, kind, schedule, sent time, channels, files) is written and the rest kept, the post is reset to pending with owner, id and creation time unchanged, and it is re-enqueued by the eta rule |
| PostViews.Cancel | Back-end/posts/views.py:172-188 | 200 iff the requester's post is pending with a schedule strictly after now; then it becomes cancelled and every other column is kept; each refusal has its own message and changes nothing |
| PostViews.Retry | Back-end/posts/views.py:203-220 | 200 iff the requester's post is failed; then it is pending with no error, every other column kept, and one immediate task is enqueued; refusals change nothing |
| PostViews.InsertKeepsOrder | Back-end/posts/views.py:56 | inserting by creation date keeps a newest-first list newest first |
| PostViews.SortNewestFirst | Back-end/posts/views.py:56 | the ordering is newest first and a permutation of the rows |
| PostViews.Where | Back-end/posts/views.py:56-59 | a filter keeps exactly the rows satisfying it |
| PostViews.WhereKeepsOrder | Back-end/posts/views.py:56-59 | filtering keeps the newest-first order |
| PostViews.ListPostsSpec | Back-end/posts/views.py:52-61 | the listing holds exactly the requester's posts (with the given status, when one is given), newest first |
| PostViews.PageSize | Back-end/posts/views.py:41-44 | the page size is 10 by default, the requested size when positive, and never above 100 |
| PostViews.GetProtectedMedia | Back-end/posts/views.py:134-157 | 404 for a missing attachment, 403 unless owner or staff, 500 when unreadable; otherwise the file, named in the download header |
| ChannelSerializer.ValidateUsername | Back-end/channels/serializers.py:11-26 | accepted iff it starts with "@" and the same owner has no other channel with that handle |
| ChannelSerializer.ValidateChannel | Back-end/channels/serializers.py:11-26 | a channel form is accepted iff its platform is a known choice and its handle is accepted; otherwise every refused field is reported under its name, the platform with DRF's text quoting the submitted value and the handle with its own message |
| ChannelSerializer.BothFieldsReported | Back-end/channels/serializers.py:12-13 | platform "twitter" with a handle lacking "@" gives both errors at once, the first reading "\"twitter\" is not a valid choice." |
| ChannelSerializer.OtherOwnersDoNotCollide | Back-end/channels/serializers.py:16 | adding another owner's channel with the same handle does not change the answer |
| ChannelSerializer.EditKeepsOwnHandle | Back-end/channels/serializers.py:18-22 | an edit may keep its own handle, while registering that handle again is refused |
| ChannelViews.ChannelTable.constructor | Back-end/channels/views.py:17-18 | an empty channel table |
| ChannelViews.CreateChannel | Back-end/channels/views.py:31-57 | invalid form: 400 with the field errors; platform other than telegram: 400 with no probe; a refused probe: 400 with the reason, nothing saved; a probe that raises: 500; a verified probe saves one verified row with the echoed chat id; handles stay unique per owner |
| ChannelViews.ListChannels | Back-end/channels/views.py:73-74 | exactly the requester's channels |
| ChannelViews.PutAsWritten | Back-end/channels/views.py:104-122 | as written, an invalid form gets 400 with the field errors and every edit that changes the handle or platform fails with NameError; neither saves anything; unchanged edits save |
| ChannelViews.Put | Back-end/channels/views.py:104-122 | missing: 404; not the owner: 403; an invalid form: 400 with the field errors; an edit of handle or platform is probed, a refusal saves nothing, a verified probe saves verified with an empty failure reason; unchanged edits save without a probe |
| Throttles.Scope | Back-end/config/throttles.py:9-17 | anon iff not authenticated, admin iff an authenticated staff user, user otherwise |
| Throttles.Recent | Back-end/config/throttles.py:38-39 | keeps exactly the timestamps strictly newer than now − 300 s |
| Throttles.WindowAfterAllow | Back-end/config/throttles.py:38-45 | when no stored stamp lies in the future, every stamp stored after an allowed request lies in (now − 300 s, now] |
| Throttles.OtpThrottle.constructor | Back-end/config/throttles.py:21-25 | an empty cache |
| Throttles.OtpThrottle.AllowRequest | Back-end/config/throttles.py:27-47 | no email: allowed, nothing stored; otherwise allowed iff fewer than 5 recent stamps under "otp_request:<email>", and only then the recent stamps plus now are stored; a refusal leaves the cache unchanged; no key ever holds more than 5 stamps |
| OtpModel.ExpiryBoundary | Back-end/auth_app/models.py:25-27 | a code is not expired at exactly creation + N minutes and is expired one second later |
| OtpModel.ZFill | Back-end/auth_app/models.py:31 | zero padding gives max(width, length) characters |
| OtpModel.GenerateOtpSpec | Back-end/auth_app/models.py:30-31 | a generated code has 6 characters, all decimal digits, whose value is the drawn number |
| OtpModel.GeneratedCodesPassField | Back-end/auth_app/models.py:17-20 | every generated code passes the model field's ^\d{6}$ check |
| OtpModel.FieldAdmitsTrailingNewline | Back-end/auth_app/models.py:19 | the field check also admits a code followed by a newline, as Python's $ does |
| AuthViews.FirstField | Back-end/auth_app/views.py:30 | the first comma-separated element: a prefix with no comma, ending at the first comma |
| AuthViews.GetClientIp | Back-end/auth_app/views.py:27-33 | the first element of a non-empty X-Forwarded-For, else REMOTE_ADDR |
| AuthViews.AuthDb.constructor | Back-end/auth_app/views.py:70-113 | the account map with an empty code store |
| AuthViews.Without | Back-end/auth_app/views.py:98-99 | removes exactly the unused codes of that email and purpose and keeps every other row; with `WithoutAppend` the survivors keep their order |
| AuthViews.WithoutAppend | Back-end/auth_app/views.py:98-99 | the delete works row by row: filtering a concatenation is the concatenation of the filtered parts, so the survivors keep their order |
| AuthViews.Latest | Back-end/auth_app/views.py:138-145 | a matching unused code of that email and purpose with the latest creation time, or none iff none matches |
| AuthViews.IssueCode | Back-end/auth_app/views.py:98-103 | deletes the earlier unused codes of that purpose and appends one new code |
| AuthViews.OneLiveCode | Back-end/auth_app/views.py:98-103 | after a request exactly one unused code of that email and purpose remains |
| AuthViews.PurposeBound | Back-end/auth_app/views.py:143 | a code issued for one purpose never matches a lookup for another |
| AuthViews.UsedNeverMatches | Back-end/auth_app/views.py:142 | a code marked used can never be the latest match again |
| AuthViews.IssuingKeepsCodesIssued | Back-end/auth_app/views.py:98-103 | issuing a code keeps every code in the table one that `generate_otp` produced |
| AuthViews.VerifyUnreachableAsWritten | Back-end/auth_app/views.py:130-144 | as written, a code the table holds never gets past `VerifyOTPSerializer` to the lookup, so verification never succeeds |
| AuthViews.RequestVerifyOtp | Back-end/auth_app/views.py:78-113 | refused fields: 400 naming them, store unchanged, no mail; then unknown or verified email: 400 with its message, store unchanged, no mail; otherwise one fresh code is stored and mailed |
| AuthViews.VerifyOtp | Back-end/auth_app/views.py:124-167 | refused fields: 400 naming them; then no matching code: 400; an expired code: 400 and not consumed; an unknown user: 400 "user not found"; an already verified e-mail: 400; success marks the code used and the user verified, with its message; refusals change nothing |
| AuthViews.RequestLoginOtp | Back-end/auth_app/views.py:184-218 | refused fields: 400 naming them; then unknown email: 404; inactive account: 403; otherwise one fresh login code is stored and mailed |
| AuthViews.LoginWithOtp | Back-end/auth_app/views.py:237-310 | missing fields: 400; no match: 400; expired: 400; unknown user: 400; unverified: 403; each with its own message and nothing changed; success consumes the code, caps the tokens and issues one |
| AuthViews.CompleteLogin | Back-end/auth_app/views.py:274-290 | marks the code used and issues one token; an uninterrupted cleanup leaves at most cap + 1 active tokens |
| AuthViews.RequestResetOtp | Back-end/auth_app/views.py:330-360 | missing email: 400; unknown: 404; otherwise one fresh reset code is stored and mailed |
| AuthViews.ResetPassword | Back-end/auth_app/views.py:383-420 | missing field: 400; no match: 400 "invalid code"; expired: 400 and not consumed; unknown user: 404; each with its own message and nothing changed; success consumes the code and sets the password |
| AuthViews.ChangePassword | Back-end/auth_app/views.py:443-467 | a missing field or a wrong old password: 400 with the password unchanged; otherwise the new password is set |
| AuthSerializers.RequestOtpErrors | Back-end/auth_app/serializers.py:7-9 | the e-mail field is refused iff DRF's own check or `email_validator` refuses it; the purpose iff it is missing or not one of verify, login, reset; nothing else is reported |
| AuthSerializers.VerifyOtpErrors | Back-end/auth_app/serializers.py:11-13 | the e-mail field as above; the code iff DRF's own check or `otp_validator` refuses it; nothing else is reported |
| AuthSerializers.AddressRefusedAsWritten | Back-end/auth_app/serializers.py:8 | as written, both serializers refuse every address matching the e-mail pattern |
| AuthSerializers.IssuedCodeRefusedAsWritten | Back-end/auth_app/serializers.py:13 | as written, `VerifyOTPSerializer` refuses every issued code |
| AuthSerializers.IntendedAcceptsRequest | Back-end/auth_app/serializers.py:7-9 | with the intended validators a well-formed address and a valid purpose pass |
| AuthSerializers.IntendedAcceptsIssuedCode | Back-end/auth_app/serializers.py:11-13 | with the intended validators a well-formed address and an issued code pass |
| Tokens.TokenStore.constructor | Back-end/users/views.py:86 | an empty token store |
| Tokens.TokenStore.Cleanup | Back-end/users/views.py:85-93 | blacklists exactly the user's tokens after the first max in creation order, up to the failure point when one occurs; the store is otherwise unchanged |
| Tokens.TokenStore.Issue | Back-end/users/views.py:95 | appends one new token with a fresh id, issued now |
| Tokens.CleanupLeavesAtMost | Back-end/users/views.py:85-91 | after an uninterrupted cleanup at most max of the user's tokens are active |
| Tokens.LoginTokenCap | Back-end/auth_app/views.py:274-290 | after cleanup and one new token at most max + 1 are active |
| UserViews.LoginRefusal | Back-end/users/views.py:56-83 | missing fields: 400; unknown email or wrong password: 401 with one message; every refusal is an error envelope with 400 or 401; no refusal iff the password matches an active, verified account |
| UserViews.NoAccountProbe | Back-end/users/views.py:64-69 | an unknown email and a wrong password give identical responses |
| UserViews.ApprovalBeforeVerification | Back-end/users/views.py:71-83 | an inactive account gets the approval refusal even when also unverified |
| UserViews.PasswordLogin | Back-end/users/views.py:56-116 | a refusal touches no token; success caps the tokens, issues one, and sets exactly the access and refresh cookies, both http-only |
| UserSerializer.ValidateEmail | Back-end/users/serializers.py:16-19 | accepted iff no account has that email |
| UserSerializer.Validate | Back-end/users/serializers.py:21-26 | accepted iff the passwords match and are at least 8 long; a mismatch is reported before the length |
| UserSerializer.CreateFields | Back-end/users/serializers.py:28-30 | the stored fields are the input without password2 |
| UserSerializer.AdminEmails | Back-end/users/serializers.py:47 | exactly the active staff e-mails |
| UserSerializer.Register | Back-end/users/serializers.py:16-62 | created iff both checks pass; a refusal stores and mails nothing; success stores the account, mails the user, and mails the admins when there are any |
| UserSerializer.AdminsUnchangedByRegistration | Back-end/users/serializers.py:47-60 | registering a non-staff user does not change who is notified |
| Signals.UserInstance.constructor | Back-end/users/signals.py:9-14 | a new, unsaved instance |
| Signals.PreSave | Back-end/users/signals.py:8-14 | records the stored active flag, or False for an unsaved instance |
| Signals.PostSave | Back-end/users/signals.py:16-32 | mails exactly on an update from inactive to active, never on creation |
| Signals.Save | Back-end/users/signals.py:8-32 | across both signals: a mail iff an existing inactive user is saved active |
| Validators.NoHtmlJs | Back-end/core/validator.py:16-23 | non-strings are refused; a string is accepted iff its stripped form contains no tag, "javascript:" or on<word>=, and the stripped form is returned |
| Validators.TagRejected | Back-end/core/validator.py:13 | any one-line <…> tag is refused |
| Validators.FieldValidator | Back-end/core/validator.py:26-65 | runs the HTML check first, then refuses exactly when the field's pattern matches the stripped value, which it otherwise returns |
| Validators.FieldValidatorIdempotent | Back-end/core/validator.py:28-33 | validating the returned value again gives the same result |
| Validators.PhoneValidatorRejectsValidNumbers | Back-end/core/validator.py:60-65 | every well-formed mobile number 09xxxxxxxxx is refused |
| Validators.OtpValidatorRejectsGeneratedCodes | Back-end/core/validator.py:44-49 | every generated code is refused |
| Validators.EmailValidatorRejectsAddresses | Back-end/core/validator.py:36-41 | every address the e-mail pattern describes is refused |
| Validators.OrdinaryAddress | Back-end/core/validator.py:8 | "u@ex.com" is such an address |
| Validators.IntendedFieldValidator | Back-end/core/validator.py:26-65 | with the test the right way round: accepted iff the pattern matches |
| Validators.IntendedOtpValidatorAcceptsGeneratedCodes | Back-end/core/validator.py:44-49 | the corrected validator accepts every generated code |
| Validators.IntendedEmailValidatorAcceptsAddresses | Back-end/core/validator.py:36-41 | the corrected e-mail validator accepts every such address unchanged |
| Validators.IntendedPhoneValidatorAcceptsValidNumbers | Back-end/core/validator.py:60-65 | the corrected validator accepts every mobile number |
| Validators.IntendedPhoneValidatorAcceptsOnlyNumbers | Back-end/core/validator.py:60-65 | and accepts nothing else |
| LogMasking.Replacement | Back-end/core/logging_filters.py:14 | both replacements start with "bot" and cannot continue a token |
| LogMasking.MaskNoMatch | Back-end/core/logging_filters.py:14 | a text with no token is left unchanged |
| LogMasking.MaskLeavesNoToken | Back-end/core/logging_filters.py:8-14 | after masking no bot<digits>:<secret> remains |
| LogMasking.MaskIdempotent | Back-end/core/logging_filters.py:14 | masking twice equals masking once |
| LogMasking.MaskWithoutBot | Back-end/core/logging_filters.py:14 | a text without "bot" is unchanged |
| LogMasking.NoNewTokenAtFront | Back-end/core/logging_filters.py:14 | masking a suffix never creates a token across the join |
| LogMasking.NoTokenAcrossReplacement | Back-end/core/logging_filters.py:14 | a token in front of a replaced match would already have matched the original text |
| LogMasking.ReplacementNeverMatches | utils/loging_setup.py:11 | a replacement followed by clean text contains no token |
| LogFilters.LogRecord.constructor | Back-end/core/logging_filters.py:10-11 | a record with its message and arguments and no context fields |
| LogFilters.TelegramRequestFilter | Back-end/core/logging_filters.py:10-17 | always keeps the record; a message without api.telegram.org is untouched; otherwise the rendered message is masked to bot***:*** and the args cleared |
| LogFilters.TelegramFilterStable | Back-end/core/logging_filters.py:14-16 | filtering an already masked message changes nothing |
| LogFilters.TokenMaskingFilter | utils/loging_setup.py:9-12 | always keeps the record; a string message is masked to bot[REDACTED]; a non-string is untouched |
| LogFilters.RedactionIdempotent | utils/loging_setup.py:11 | masking is idempotent |
| LogFilters.LogContext.constructor | Back-end/core/logging_filters.py:5 | no thread has a context |
| LogFilters.LogContext.Fields | Back-end/core/logging_filters.py:23 | a thread's fields, empty when absent |
| LogFilters.LogContext.Set | Back-end/core/logging_filters.py:29-45 | writes one key of one thread; other keys and threads keep their values |
| LogFilters.LogContext.SetUserId | Back-end/core/logging_filters.py:29-33 | sets user_id for the thread |
| LogFilters.LogContext.SetRequestId | Back-end/core/logging_filters.py:35-39 | sets request_id for the thread |
| LogFilters.LogContext.SetClientIp | Back-end/core/logging_filters.py:41-45 | sets client_ip for the thread |
| LogFilters.LogContext.ClearContext | Back-end/core/logging_filters.py:46-47 | removes the thread's entry; an absent one is a no-op |
| LogFilters.LogContext.ContextFilter | Back-end/core/logging_filters.py:21-27 | always keeps the record; stamps the thread's fields, defaulting to Anonymous, Unknown, Unknown |
| LogFilters.Lookup | Back-end/core/logging_filters.py:24-26 | the stored value or the default |
| LogFilters.ContextRoundTrip | Back-end/core/logging_filters.py:21-45 | after the three setters the filter stamps exactly the values set |
| LogReport.Find | Back-end/core/tasks.py:49 | the first occurrence of a substring, or none iff there is none |
| LogReport.UserToken | Back-end/core/tasks.py:47-52 | present iff the line contains "User "; never contains a space |
| LogReport.Classify | Back-end/core/tasks.py:41-62 | a line without today's date changes nothing |
| LogReport.ClassifyConsistent | Back-end/core/tasks.py:45-62 | one line keeps errors = error count, failed posts ≤ errors, events = warning count, users ≤ activities |
| LogReport.ActivityConsistent | Back-end/core/tasks.py:45-52 | a published-post line adds at most one active user, so active users never outnumber activities |
| LogReport.ErrorStep | Back-end/core/tasks.py:54-58 | an error line keeps every listed error counted and failed posts among the errors |
| LogReport.WarningStep | Back-end/core/tasks.py:60-62 | a security warning keeps every listed event counted |
| LogReport.TallyConsistent | Back-end/core/tasks.py:41-62 | the whole fold keeps those relations |
| LogReport.OtherDaysIgnored | Back-end/core/tasks.py:42-43 | appending lines of other days does not change the report |
| LogReport.CountLines | Back-end/core/tasks.py:39-62 | the loop computes the fold, and its result is consistent |
| LogReport.Listing | Back-end/core/tasks.py:80-83 | "ندارد" for none, otherwise the first five joined by newlines |
| LogReport.DailyLogReport | Back-end/core/tasks.py:34-100 | a missing file: "Log file not found." with no mail; a read failure: its message, no mail; otherwise the report mail and the completion message |
| Responses.SuccessResponse | Back-end/utils/responses.py:3-12 | status "success" and the message; data only when given; the given status code; no other keys |
| Responses.ErrorResponse | Back-end/utils/responses.py:14-25 | status "error" and the message; errors only when given; data keys merged last and overriding; no other keys |
| Responses.EnvelopesDiffer | Back-end/utils/responses.py:3-25 | a success envelope never equals an error envelope whose data does not override status |
| FeAuth.PersianLetterKeysCaught | Front-end/src/components/Auth/Register.js:25-28 | every character of the letter class [آ-ی] is also a Persian key |
| FeAuth.PassedChecks | Front-end/src/components/Auth/Register.js:35-48 | at most five checks pass; the length check counts UTF-16 code units, as JavaScript's `length` does |
| FeAuth.PasswordStrength | Front-end/src/components/Auth/Register.js:31-63 | empty: no label, width 0; all five checks: very strong, 100; three or four: medium; fewer: weak, 20 |
| FeAuth.VeryStrongMeansAllChecks | Front-end/src/components/Auth/Register.js:35-48 | a very strong password is at least 8 UTF-16 code units long and has a lower, an upper, a digit and a special character |
| FeAuth.FormsAgreeOnLabel | Front-end/src/components/Auth/ResetPassword.js:54-86 | the sign-up and reset meters give the same label and differ in width exactly on medium (60 vs 50) |
| FeAuth.RequiredError | Front-end/src/components/Auth/Register.js:122-127 | no error iff the field is filled |
| FeAuth.PhoneError | Front-end/src/components/Auth/Register.js:128-132 | no error iff the phone matches ^09\d{9}$ |
| FeAuth.EmailError | Front-end/src/components/Auth/Register.js:133-137 | no error iff the e-mail matches \S+@\S+\.\S+ |
| FeAuth.PasswordError | Front-end/src/components/Auth/Register.js:138-144 | no error iff at least 8 UTF-16 code units long with no Persian letter |
| FeAuth.ConfirmError | Front-end/src/components/Auth/Register.js:145-149 | no error iff equal to the password and free of Persian letters |
| FeAuth.RegisterErrors | Front-end/src/components/Auth/Register.js:120-149 | each field has an error exactly when its check fails; no other keys; empty iff every check passes |
| FeAuth.RegisterSubmit | Front-end/src/components/Auth/Register.js:151-155 | the request is sent iff there are no errors; otherwise it aborts with them |
| FeAuth.PasswordKeyDown | Front-end/src/components/Auth/Register.js:83-111 | a Persian key is suppressed and sets that field's error; another key clears a set error; other fields are untouched |
| FeAuth.ResetSubmittableIff | Front-end/src/components/Auth/ResetPassword.js:91-97 | submittable iff the confirmation equals the password and all five checks pass |
| FeAuth.RequestResetCheck | Front-end/src/components/Auth/ResetPassword.js:105-123 | the code request is sent iff the e-mail is non-empty, well-formed and free of Persian letters |
| FeAuth.StepAfterRequest | Front-end/src/components/Auth/ResetPassword.js:105-128 | the reset step is shown iff the request was sent and succeeded |
| FeAuth.ResetCheck | Front-end/src/components/Auth/ResetPassword.js:143-160 | the reset is sent iff the password is very strong, confirmed and free of Persian letters; a weak password is reported first |
| FeAuth.LoginErrors | Front-end/src/components/Auth/Login.js:71-89 | e-mail and password errors exactly when their checks fail (length in UTF-16 code units); empty iff both pass |
| Strings.AstralUtf16Length | Front-end/src/components/Auth/Login.js:79 | four emoji count as eight, so "😀😀😀😀" passes the eight-character check |
| Strings.BmpUtf16Length | Front-end/src/components/Auth/Register.js:140 | within the Basic Multilingual Plane the JavaScript length is the number of characters |
| Strings.Utf16Prefix | Front-end/src/components/Dashboard/FailedPosts.js:151 | a prefix of the text of at most n code units that the next character would push past n |
| FeAuth.LoginOutcome | Front-end/src/components/Auth/Login.js:108-139 | 200 opens the dashboard; 429 the throttle page; 401 the verify page iff the message mentions وریفای or verify, else a general error; 400 the wrong-credentials text |
| LoginFlow.ScreenFor | Front-end/src/components/Auth/Login.js:104-139 | a 200 reply opens the dashboard |
| LoginFlow.UnverifiedLoginOpensVerifyPage | Back-end/users/views.py:78-83 | an active, unverified account's refusal leads the login form to the verify page |
| LoginFlow.RefusalNeverReachesDashboard | Back-end/users/views.py:60-83 | no refusal of the back end opens the dashboard |
| FePostEditor.Without | Front-end/src/components/Dashboard/PostEditor.js:56-57 | removes exactly that id and keeps the list free of duplicates |
| FePostEditor.Toggled | Front-end/src/components/Dashboard/PostEditor.js:54-60 | the id is present afterwards iff it was absent; others unchanged; never a duplicate |
| FePostEditor.ToggleTwice | Front-end/src/components/Dashboard/PostEditor.js:54-60 | toggling an unselected id twice restores the selection |
| FePostEditor.RemoveAt | Front-end/src/components/Dashboard/PostEditor.js:68-70 | removes exactly the element at the index; an index out of range changes nothing |
| FePostEditor.SubmitCheck | Front-end/src/components/Dashboard/PostEditor.js:74-87 | passes iff a channel is selected, there is content or media, and media has files; the channel message comes first |
| FePostEditor.PayloadFields | Front-end/src/components/Dashboard/PostEditor.js:92-122 | the form always has one content entry, one channels entry per selected id, types media (with every file) or text, and scheduled_time iff scheduling is on with a value |
| FePostEditor.BuildForm | Front-end/src/components/Dashboard/PostEditor.js:92-122 | the loops build that form |
| FePostEditor.Editor.constructor | Front-end/src/components/Dashboard/PostEditor.js:4-12 | an empty form |
| FePostEditor.Editor.ToggleChannel | Front-end/src/components/Dashboard/PostEditor.js:54-60 | toggles the id and changes nothing else |
| FePostEditor.Editor.SetHasMedia | Front-end/src/components/Dashboard/PostEditor.js:47-51 | unchecking media clears the files |
| FePostEditor.Editor.AddFiles | Front-end/src/components/Dashboard/PostEditor.js:62-65 | appends the picked files |
| FePostEditor.Editor.RemoveFile | Front-end/src/components/Dashboard/PostEditor.js:68-70 | removes the file at the index |
| FePostEditor.Editor.Submit | Front-end/src/components/Dashboard/PostEditor.js:72-150 | a failed check sends nothing and shows its message; otherwise the payload is sent; success resets every field, a server error keeps them and shows the error |
| FeFailedPosts.TelegramDetail | Front-end/src/components/Dashboard/FailedPosts.js:79-81 | none without the tag; otherwise a trimmed, single-line detail |
| FeFailedPosts.GroupAfterTag | Front-end/src/components/Dashboard/FailedPosts.js:79-81 | the group has no line break and is trimmed; there is none exactly when only line breaks follow the tag |
| FeFailedPosts.TaggedDetail | Front-end/src/components/Dashboard/FailedPosts.js:79-81 | "TelegramError: " + d gives back d for any trimmed single-line d |
| FeFailedPosts.FirstRule | Front-end/src/components/Dashboard/FailedPosts.js:84-109 | the first rule that matches, and none iff none does |
| FeFailedPosts.TranslateError | Front-end/src/components/Dashboard/FailedPosts.js:84-93 | the first matching translation, or the input unchanged |
| FeFailedPosts.ErrorSolution | Front-end/src/components/Dashboard/FailedPosts.js:95-109 | the first matching hint, or the default |
| FeFailedPosts.Detail | Front-end/src/components/Dashboard/FailedPosts.js:79-81 | the tagged detail when present, else the whole message |
| FeFailedPosts.ParseErrorMessage | Front-end/src/components/Dashboard/FailedPosts.js:77-82 | an empty error gives the unknown-error text; otherwise the translated detail |
| FeFailedPosts.ShownHintNeverSpecific | Front-end/src/components/Dashboard/FailedPosts.js:245-247 | as written, the shown hint is only ever the shorten hint or the default |
| FeFailedPosts.HintOfTranslated | Front-end/src/components/Dashboard/FailedPosts.js:245-247 | a message already translated to Persian only ever gets the shorten hint or the default |
| FeFailedPosts.IntendedHint | Front-end/src/components/Dashboard/FailedPosts.js:95-109 | the hint computed from the untranslated detail |
| FeFailedPosts.IntendedChannelHint | Front-end/src/components/Dashboard/FailedPosts.js:95-109 | "chat not found" gets the channel hint, while the page shows the default |
| FeFailedPosts.IntendedUnblockHint | Front-end/src/components/Dashboard/FailedPosts.js:95-109 | "bot was blocked" gets the unblock hint |
| FeFailedPosts.IntendedUploadHint | Front-end/src/components/Dashboard/FailedPosts.js:95-109 | "wrong file identifier" gets the upload hint |
| FeFailedPosts.TruncateText | Front-end/src/components/Dashboard/FailedPosts.js:148-152 | empty gives ""; a text of at most max UTF-16 code units is unchanged; a longer one is its longest prefix of at most max code units plus "..." |
| FeFailedPosts.WithoutPost | Front-end/src/components/Dashboard/FailedPosts.js:119 | removes exactly the posts with that id |
| FeFailedPosts.WithoutPostIdempotent | Front-end/src/components/Dashboard/FailedPosts.js:138 | removing twice equals removing once |
| FeFailedPosts.FailedList.constructor | Front-end/src/components/Dashboard/FailedPosts.js:42-51 | the loaded list |
| FeFailedPosts.FailedList.Retry | Front-end/src/components/Dashboard/FailedPosts.js:111-130 | an accepted retry removes only that post; a refused one keeps the list; each has its alert |
| FeFailedPosts.FailedList.Delete | Front-end/src/components/Dashboard/FailedPosts.js:132-146 | nothing without confirmation; an accepted delete removes only that post |
| FeMediaPopup.LastSegment | Front-end/src/components/Dashboard/MediaPopup.js:9 | the suffix after the last ".", containing no "." |
| FeMediaPopup.SegmentOfDotted | Front-end/src/components/Dashboard/MediaPopup.js:9 | the segment of prefix + "." + ext is ext when ext has no "." |
| FeMediaPopup.RenderMedia | Front-end/src/components/Dashboard/MediaPopup.js:7-39 | nothing iff no URL; image iff an image type; video iff not an image but a video type; audio iff neither but an audio type (so never .ogg); download iff none of the three; the source is the URL |
| FeMediaPopup.OggIsVideo | Front-end/src/components/Dashboard/MediaPopup.js:17-23 | an .ogg file is always shown as video |
| FeMediaPopup.ExtensionCaseIgnored | Front-end/src/components/Dashboard/MediaPopup.js:9 | the type ignores the case of the extension |
| FeMediaPopup.Popup | Front-end/src/components/Dashboard/MediaPopup.js:47-57 | no attachments gives the "no media" text; otherwise one rendered item per attachment, in order |

## Left out

- Network: the bot API replies, the probe replies and the platform send are inputs. No HTTP is modelled.
- E-mail: sending is modelled only as "who gets mail with what". Template rendering and SMTP are not modelled.
- JWT: token contents, cookie attributes other than name and http-only, and refresh/logout views are not modelled. Tokens are opaque ids.
- Passwords: hashing is replaced by equality of stored and given passwords.
- Django, DRF and Celery machinery:
  - The views start after DRF's own field parsing. For the serializers of Back-end/auth_app/serializers.py, DRF's own checks of a field (present, a string, not blank, Django's address syntax) are given as one flag per field, and the value is taken after DRF trims it.
  - `is_valid` field errors other than the serializers' own checks are not modelled.
  - `AuthSerializers.RequestOtpErrors` and `AuthSerializers.VerifyOtpErrors` give the names of the refused fields, not the error texts DRF puts under them.
  - Read-only fields are absent from the input datatypes, so they cannot be set.
  - Pagination slicing beyond the page size, `delete` and the plain `get` views are library behaviour.
- The users' model file, users/models.py, is not part of this model. Whether a new account starts active is a parameter of `UserSerializer.Register`.
- Regular expressions and Unicode:
  - `\d`, `\w` and letter classes are ASCII.
  - `str.strip` and the JavaScript trim use explicit whitespace sets.
  - JavaScript `toLowerCase` and Python `str.lower` (the file-kind choice in Back-end/channels/services.py:114-250) are ASCII lowering. Python also lowers a few non-ASCII characters onto ASCII letters, such as the Kelvin sign U+212A onto "k". A path ending in ".M\u212AV" is therefore sent as a video by the source but as a document by `ChannelServices.TelegramFileKind`.
  - Persian-range tests are on code points.
- `LogFilters.TelegramRequestFilter`: `record.getMessage()` is given as the `rendered` argument. Python's %-formatting is not modelled.
- Threads: the logging context is a map keyed by an explicit thread id. No concurrency is modelled.
- Front end:
  - React rendering, hooks, navigation timers and the axios calls are left out.
  - A server reply is reduced to its status, its message or a ready error text.
  - PostEditor's choice of error text from the reply body is reduced to a given `serverError`.
  - Channel fetching and caching are left out.
- Bale album handles: they are never closed in the source. The model reports them as `leaked` rather than modelling file objects.
- `ChannelViews.Put`: stores the verified chat id as `platform_channel_id`. Line 118 passes the whole result object, but the missing import on line 112 makes that line unreachable as written.
- `LogReport.UserToken`: its contract states presence and the absence of spaces. The exact token (text after the first "User " up to the next space) is its definition.
- `FeFailedPosts.TelegramDetail`: its contract states the shape of the result (no tag gives none; trimmed; single line) and the round trip `TaggedDetail`. The regular expression's backtracking is its definition.
- `FeFailedPosts.TruncateText`: when `substr` would cut a surrogate pair, JavaScript keeps its lone first half. A Dafny string holds only whole characters, so the model stops before that character, one code unit short.
- `Tokens.TokenStore.Cleanup`: a database failure is modelled as a position `failAt` at which the loop stops. Which exception occurs is not modelled.
- `UserSerializer.Register`: its duplicate-e-mail refusal carries the text of `validate_email`. The user model of Back-end/users/models.py is not part of this model. If that model declares the e-mail unique, as the older copy users/models.py:32 does, DRF's own uniqueness check refuses first with Django's "… already exists." text.
- Two mismatches are kept as written:
  - Login.js shows its fixed 400 message, but the back end refuses bad credentials with 401, which the form reads as a general error.
  - FailedPosts.js translates "Message is too long", but its hint table looks for "message too long".
- Defects reproduced as written:
  - A post with no channels stays pending (Back-end/posts/tasks.py:21-24).
  - No code path writes the `sending` status.
  - The Telegram adapter prefixes a 200-not-ok description with "Telegram API Error: " and Bale does not.
  - A Bale album has no 10-file cap and no empty check.

## Findings

| source | as written | input that shows it | evidently intended | confidence | as-written member | corrected member |
|---|---|---|---|---|---|---|
| Back-end/core/validator.py:44-49 | `otp_validator` raises when `OTP_PATTERN` matches | any generated code, e.g. "000123" | raise when the pattern does not match | high, not executed | Validators.OtpValidatorRejectsGeneratedCodes | Validators.IntendedOtpValidatorAcceptsGeneratedCodes |
| Back-end/core/validator.py:36-41 | `email_validator` raises when `EMAIL_PATTERN` matches | "u@ex.com" | raise when the pattern does not match | high, not executed | Validators.EmailValidatorRejectsAddresses | Validators.IntendedEmailValidatorAcceptsAddresses |
| Back-end/auth_app/serializers.py:11-13 | `VerifyOTPSerializer` runs the inverted `otp_validator` before the view, so VerifyOTPView answers 400 to every code it issued | the code "000123" just mailed to "u@ex.com" | run the validators the right way round | high, not executed | AuthViews.VerifyUnreachableAsWritten | AuthSerializers.IntendedAcceptsIssuedCode |
| Back-end/core/validator.py:60-65 | `phone_validator` raises when `PHONE_PATTERN` matches | "09123456789" | accept exactly the numbers matching ^09\d{9}$ | high, not executed | Validators.PhoneValidatorRejectsValidNumbers | Validators.IntendedPhoneValidatorAcceptsValidNumbers |
| Back-end/channels/views.py:112 | calls `verify_channel`, which line 8 does not import | an edit changing the handle from "@a" to "@b" | probe the new handle with the platform dispatcher | high, not executed | ChannelViews.PutAsWritten | ChannelViews.Put |
| Front-end/src/components/Dashboard/FailedPosts.js:247 | the hint is computed from the already translated (Persian) message | error_message "chat not found" shows the default hint | compute the hint from the untranslated detail | high, not executed | FeFailedPosts.ShownHintNeverSpecific | FeFailedPosts.IntendedChannelHint |
