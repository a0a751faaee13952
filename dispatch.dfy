/** The dispatch task `send_post_task` (Back-end/posts/tasks.py): fan a pending
    post out over its channels, one result line per channel, and fold the
    outcomes into the post's final status. The platform send is an oracle
    argument; `ChannelServices.SendMessageToChannel` is the adapter behind it. */
module Dispatch {
  import opened Wrappers
  import opened Strings
  import opened ChannelModel
  import opened ChannelServices
  import opened PostModel

  /** What `send_message_to_channel` does for one channel: it returns a
      `(success, error)` pair or raises with a message. */
  datatype SendReply = Returned(ok: bool, error: string) | Raised(message: string)

  type SendOracle = (Channel, Option<string>, seq<FileInfo>) -> SendReply

  /** The dispatch task's own outcome: a returned string, or a scheduled retry. */
  datatype TaskOutcome = Done(message: string) | RetryIn(seconds: nat) | GaveUp

  const MaxRetries: nat := 3
  const RetryDelay: nat := 60

  /** Celery's `self.retry` under `max_retries=3, default_retry_delay=60`: the
      task runs again after 60 s until three retries have been used. */
  function OnUncaughtError(retriesSoFar: nat): (r: TaskOutcome)
    ensures r.RetryIn? <==> retriesSoFar < MaxRetries
    ensures r.RetryIn? ==> r.seconds == RetryDelay
    ensures !r.RetryIn? ==> r == GaveUp
  {
    if retriesSoFar < MaxRetries then RetryIn(RetryDelay) else GaveUp
  }

  /** A task that fails on every run is executed at most 1 + 3 times. */
  lemma {:induction false} RetriesAreBounded(retriesSoFar: nat)
    requires retriesSoFar <= MaxRetries
    ensures Runs(retriesSoFar) == MaxRetries - retriesSoFar + 1
    decreases MaxRetries - retriesSoFar
  {
    if retriesSoFar < MaxRetries {
      RetriesAreBounded(retriesSoFar + 1);
    }
  }

  /** Number of runs of an always-failing task that has used `retriesSoFar`
      retries, following `OnUncaughtError`. */
  function Runs(retriesSoFar: nat): nat
    decreases MaxRetries - retriesSoFar
  {
    if OnUncaughtError(retriesSoFar).RetryIn? then 1 + Runs(retriesSoFar + 1) else 1
  }

  // ------------------------------------------------------------------
  // Per-channel step
  // ------------------------------------------------------------------

  /** One channel's result line and whether it counts as a successful send. */
  datatype Attempt = Attempt(line: string, success: bool)

  function LineFor(ch: Channel, what: string): string {
    "Channel " + ch.username + ": " + what
  }

  function ReplyAttempt(ch: Channel, r: SendReply): (a: Attempt)
    ensures a.success <==> r.Returned? && r.ok
  {
    match r
    case Returned(ok, err) =>
      if ok then Attempt(LineFor(ch, "Sent successfully"), true)
      else Attempt(LineFor(ch, "Failed - " + err), false)
    case Raised(msg) => Attempt(LineFor(ch, "Error - " + msg), false)
  }

  /** The step for one channel: a text post sends the text, a media post sends
      its file list (or records that it has none), any other type is refused. */
  function ChannelAttempt(kind: PostKind, text: Option<string>, files: seq<FileInfo>, ch: Channel, send: SendOracle): Attempt {
    match kind
    case TextPost => ReplyAttempt(ch, send(ch, text, []))
    case MediaPost =>
      if files == [] then Attempt(LineFor(ch, "No media attachment found"), false)
      else ReplyAttempt(ch, send(ch, None, files))
    case OtherKind(_) => Attempt(LineFor(ch, "Unsupported post type"), false)
  }

  /** The attempts over the first `n` channels, in channel order. */
  function Attempts(kind: PostKind, text: Option<string>, files: seq<FileInfo>, chs: seq<Channel>, send: SendOracle, n: nat): seq<Attempt>
    requires n <= |chs|
  {
    if n == 0 then [] else Attempts(kind, text, files, chs, send, n - 1) + [ChannelAttempt(kind, text, files, chs[n - 1], send)]
  }

  /** The result lines of the attempts, in order. */
  function Lines(atts: seq<Attempt>): (r: seq<string>)
    ensures |r| == |atts|
  {
    seq(|atts|, k requires 0 <= k < |atts| => atts[k].line)
  }

  function Successes(atts: seq<Attempt>): nat {
    if atts == [] then 0 else Successes(atts[..|atts| - 1]) + (if atts[|atts| - 1].success then 1 else 0)
  }

  /** Every channel contributes exactly one line, at its own position and
      naming its own handle; no channel's outcome affects another's. */
  lemma {:induction false} OneLinePerChannel(kind: PostKind, text: Option<string>, files: seq<FileInfo>, chs: seq<Channel>, send: SendOracle, n: nat)
    requires n <= |chs|
    ensures var atts := Attempts(kind, text, files, chs, send, n);
      && |atts| == n
      && forall k :: 0 <= k < n ==> atts[k] == ChannelAttempt(kind, text, files, chs[k], send)
  {
    if n > 0 {
      OneLinePerChannel(kind, text, files, chs, send, n - 1);
    }
  }

  /** The post counts as sent exactly when some channel reported success. */
  lemma {:induction false} SuccessesPositive(atts: seq<Attempt>)
    ensures Successes(atts) > 0 <==> exists k :: 0 <= k < |atts| && atts[k].success
  {
    if atts != [] {
      var init := atts[..|atts| - 1];
      SuccessesPositive(init);
      if exists k :: 0 <= k < |init| && init[k].success {
        var k :| 0 <= k < |init| && init[k].success;
        assert atts[k].success;
      }
      if exists k :: 0 <= k < |atts| && atts[k].success {
        var k :| 0 <= k < |atts| && atts[k].success;
        if k < |init| {
          assert init[k].success;
        }
      }
    }
  }

  /** A media post with no attachments calls the sender for no channel: its
      attempts are the same whatever the sender would answer, and none succeeds. */
  lemma {:induction false} MediaWithoutFilesSendsNothing(text: Option<string>, chs: seq<Channel>, send1: SendOracle, send2: SendOracle, n: nat)
    requires n <= |chs|
    ensures Attempts(MediaPost, text, [], chs, send1, n) == Attempts(MediaPost, text, [], chs, send2, n)
    ensures Successes(Attempts(MediaPost, text, [], chs, send1, n)) == 0
  {
    if n > 0 {
      MediaWithoutFilesSendsNothing(text, chs, send1, send2, n - 1);
      var init := Attempts(MediaPost, text, [], chs, send1, n - 1);
      var full := Attempts(MediaPost, text, [], chs, send1, n);
      assert full == init + [ChannelAttempt(MediaPost, text, [], chs[n - 1], send1)];
      assert full[..|full| - 1] == init;
    }
  }

  // ------------------------------------------------------------------
  // The dispatch task
  // ------------------------------------------------------------------

  /** The per-file list of a media post: one entry per attachment, in order;
      the first carries the post text as caption, the others "". */
  method BuildFileList(text: Option<string>, attachments: seq<string>) returns (files: seq<FileInfo>)
    ensures |files| == |attachments|
    ensures forall i :: 0 <= i < |files| ==> files[i].path == attachments[i]
    ensures |files| > 0 ==> files[0].caption == text
    ensures forall i :: 0 < i < |files| ==> files[i].caption == Some("")
  {
    files := [];
    var i := 0;
    while i < |attachments|
      invariant 0 <= i <= |attachments| && |files| == i
      invariant forall j :: 0 <= j < i ==> files[j].path == attachments[j]
      invariant i > 0 ==> files[0].caption == text
      invariant forall j :: 0 < j < i ==> files[j].caption == Some("")
    {
      files := files + [FileInfo(attachments[i], if i == 0 then text else Some(""))];
      i := i + 1;
    }
  }

  /** The file list as a value, for stating what the dispatch task sends. */
  function FileList(text: Option<string>, attachments: seq<string>): seq<FileInfo> {
    seq(|attachments|, i requires 0 <= i < |attachments| => FileInfo(attachments[i], if i == 0 then text else Some("")))
  }

  lemma FileListIsBuilt(text: Option<string>, attachments: seq<string>, files: seq<FileInfo>)
    requires |files| == |attachments|
    requires forall i :: 0 <= i < |files| ==> files[i].path == attachments[i]
    requires |files| > 0 ==> files[0].caption == text
    requires forall i :: 0 < i < |files| ==> files[i].caption == Some("")
    ensures files == FileList(text, attachments)
  {
  }

  /** Appending one attempt appends its line and adds its success. */
  lemma AttemptSnoc(atts: seq<Attempt>, a: Attempt)
    ensures Lines(atts + [a]) == Lines(atts) + [a.line]
    ensures Successes(atts + [a]) == Successes(atts) + (if a.success then 1 else 0)
  {
    assert (atts + [a])[..|atts|] == atts;
  }

  /** The channel loop: every channel is visited, in order, whatever the
      earlier ones answered; it yields the result lines and the success count. */
  method FanOut(kind: PostKind, text: Option<string>, files: seq<FileInfo>, chs: seq<Channel>, send: SendOracle)
    returns (results: seq<string>, successfulSends: nat)
    ensures results == Lines(Attempts(kind, text, files, chs, send, |chs|))
    ensures successfulSends == Successes(Attempts(kind, text, files, chs, send, |chs|))
  {
    ghost var atts: seq<Attempt> := [];
    results := [];
    successfulSends := 0;
    var i := 0;
    while i < |chs|
      invariant 0 <= i <= |chs|
      invariant atts == Attempts(kind, text, files, chs, send, i)
      invariant results == Lines(atts)
      invariant successfulSends == Successes(atts)
    {
      var a := ChannelAttempt(kind, text, files, chs[i], send);
      AttemptSnoc(atts, a);
      atts := atts + [a];
      results := results + [a.line];
      successfulSends := successfulSends + (if a.success then 1 else 0);
      i := i + 1;
    }
  }

  /** `send_post_task` on an existing post (None: the post does not exist). It
      changes nothing unless the post is pending and has channels; otherwise it
      visits every channel and stores the outcome. `now` is the clock reading
      used for `sent_at`. */
  method SendPostTask(post: Post?, send: SendOracle, now: int) returns (out: TaskOutcome)
    modifies post
    ensures post == null ==> out == Done("Post does not exist")
    ensures post != null && old(post.status) != Pending ==>
      out == Done("Skipped: Post is in status '" + StatusName(old(post.status)) + "'") && unchanged(post)
    ensures post != null && old(post.status) == Pending && old(post.channels) == [] ==>
      out == Done("No channels found") && unchanged(post)
    ensures post != null && old(post.status) == Pending && old(post.channels) != [] ==>
      var chs := old(post.channels);
      var atts := Attempts(old(post.kind), old(post.content), FileList(old(post.content), old(post.attachments)), chs, send, |chs|);
      var report := Join(Lines(atts), "; ");
      && out == Done(report)
      && post.errorMessage == Some(report)
      && post.status == (if Successes(atts) > 0 then Sent else Failed)
      && post.sentAt == (if Successes(atts) > 0 then Some(now) else old(post.sentAt))
      && post.id == old(post.id) && post.owner == old(post.owner) && post.channels == chs
      && post.content == old(post.content) && post.kind == old(post.kind)
      && post.attachments == old(post.attachments) && post.scheduledTime == old(post.scheduledTime)
      && post.createdAt == old(post.createdAt)
  {
    if post == null {
      return Done("Post does not exist");
    }
    if post.status != Pending {
      return Done("Skipped: Post is in status '" + StatusName(post.status) + "'");
    }
    var chs := post.channels;
    if chs == [] {
      return Done("No channels found");
    }
    var text := post.content;
    var files := BuildFileList(text, post.attachments);
    FileListIsBuilt(text, post.attachments, files);
    var results, successfulSends := FanOut(post.kind, text, files, chs, send);
    var report := StoreOutcome(post, results, successfulSends, now);
    return Done(report);
  }

  /** The end of `send_post_task`: sent with `sent_at` when one channel took
      the post, failed otherwise, and the joined result lines as the error
      message. */
  method StoreOutcome(post: Post, results: seq<string>, successfulSends: nat, now: int) returns (report: string)
    modifies post
    ensures report == Join(results, "; ") && post.errorMessage == Some(report)
    ensures post.status == (if successfulSends > 0 then Sent else Failed)
    ensures post.sentAt == (if successfulSends > 0 then Some(now) else old(post.sentAt))
    ensures post.id == old(post.id) && post.owner == old(post.owner) && post.channels == old(post.channels)
    ensures post.content == old(post.content) && post.kind == old(post.kind)
    ensures post.attachments == old(post.attachments) && post.scheduledTime == old(post.scheduledTime)
    ensures post.createdAt == old(post.createdAt)
  {
    if successfulSends > 0 {
      post.status := Sent;
      post.sentAt := Some(now);
    } else {
      post.status := Failed;
    }
    report := Join(results, "; ");
    post.errorMessage := Some(report);
  }
}
