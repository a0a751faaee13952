/** The post endpoints (Back-end/posts/views.py): create and full update (both
    reset the post to `pending` and enqueue the dispatch task), listing and page
    size, protected media download, cancel and retry. Celery is a recorded
    queue of `(post id, eta)` events. */
module PostViews {
  import opened Wrappers
  import opened ChannelModel
  import opened PostModel
  import opened PostSerializer

  /** One call of `send_post_task.apply_async(eta=...)` (eta Some) or
      `send_post_task.delay(...)` (eta None). */
  datatype Enqueued = Enqueued(postId: nat, eta: Option<int>)

  class TaskQueue {
    var events: seq<Enqueued>

    constructor()
      ensures events == []
    {
      events := [];
    }

    method Enqueue(e: Enqueued)
      modifies this
      ensures events == old(events) + [e]
    {
      events := events + [e];
    }
  }

  /** The enqueue rule shared by create and update: wait for the schedule when
      it is strictly in the future, otherwise run at once. */
  function EtaFor(scheduledTime: Option<int>, now: int): (eta: Option<int>)
    ensures eta.Some? <==> IsScheduled(scheduledTime, now)
    ensures eta.Some? ==> eta == scheduledTime && eta.value > now
  {
    if IsScheduled(scheduledTime, now) then scheduledTime else None
  }

  datatype Reply = Reply(code: int, detail: string)

  /** `perform_create`, after the serializer has accepted `d`: the new post is
      pending and one dispatch is enqueued by the eta rule. */
  method PerformCreate(d: PostInput, id: nat, owner: UserId, ownerText: string, now: int, queue: TaskQueue)
    returns (post: Post)
    modifies queue
    ensures fresh(post)
    ensures post.status == Pending && post.owner == owner && post.id == id
    ensures post.scheduledTime == SuppliedSchedule(d)
    ensures queue.events == old(queue.events) + [Enqueued(id, EtaFor(SuppliedSchedule(d), now))]
  {
    post := Create(d, id, owner, ownerText, now);
    queue.Enqueue(Enqueued(post.id, EtaFor(post.scheduledTime, now)));
  }

  const NotFoundDetail := "Not found."

  /** `PostDetailView.put`: the post must be the requester's (404 otherwise),
      the submission must validate (400, nothing written), and then the post is
      rewritten, forced back to `pending` and enqueued again by the eta rule. */
  method Put(post: Post, requester: UserId, d: PostInput, ownerText: string, now: int, queue: TaskQueue)
    returns (r: Reply)
    modifies post, queue
    ensures post.owner != requester ==> r.code == 404 && unchanged(post) && unchanged(queue)
    ensures post.owner == requester && Validate(d, Some(requester), now).Failure? ==>
      r == Reply(400, Validate(d, Some(requester), now).error) && unchanged(post) && unchanged(queue)
    ensures old(post.owner) == requester && Validate(d, Some(requester), now).Success? ==>
      && r.code == 200
      && post.status == Pending
      && post.errorMessage == old(post.errorMessage)
      && post.content == (if d.content.Some? then d.content.value else old(post.content))
      && post.kind == (if d.kind.Some? then d.kind.value else old(post.kind))
      && post.sentAt == (if d.sentAt.Some? then d.sentAt.value else old(post.sentAt))
      && post.owner == old(post.owner) && post.id == old(post.id) && post.createdAt == old(post.createdAt)
      && post.scheduledTime == (if d.scheduledTime.Some? then d.scheduledTime.value else old(post.scheduledTime))
      && post.attachments == (if d.mediaFiles.Some? then AttachmentPaths(ownerText, d.mediaFiles.value) else old(post.attachments))
      && post.channels == (if d.channels.Some? then Distinct(d.channels.value) else old(post.channels))
      && queue.events == old(queue.events) + [Enqueued(post.id, EtaFor(post.scheduledTime, now))]
  {
    if post.owner != requester {
      return Reply(404, NotFoundDetail);
    }
    var v := Validate(d, Some(requester), now);
    if v.Failure? {
      return Reply(400, v.error);
    }
    Update(post, d, ownerText);
    post.status := Pending;
    queue.Enqueue(Enqueued(post.id, EtaFor(post.scheduledTime, now)));
    return Reply(200, "");
  }

  const CannotCancel := "امکان لغو این پست وجود ندارد. یا ارسال شده یا زمان‌بندی ندارد."
  const CancelTooLate := "زمان ارسال پست گذشته است. امکان لغو وجود ندارد."
  const Cancelled200 := "پست با موفقیت لغو شد."

  /** `CancelScheduledPostView.post`: only a pending post with a schedule that
      is still strictly ahead can be cancelled; nothing else is changed. */
  method Cancel(post: Post, requester: UserId, now: int) returns (r: Reply)
    modifies post
    ensures post.owner != requester ==> r.code == 404 && unchanged(post)
    ensures old(post.owner) == requester && (old(post.status) != Pending || old(post.scheduledTime).None?) ==>
      r == Reply(400, CannotCancel) && unchanged(post)
    ensures old(post.owner) == requester && old(post.status) == Pending && old(post.scheduledTime).Some?
            && old(post.scheduledTime).value <= now ==>
      r == Reply(400, CancelTooLate) && unchanged(post)
    ensures r.code == 200 <==> old(post.owner) == requester && old(post.status) == Pending && IsScheduled(old(post.scheduledTime), now)
    ensures r.code == 200 ==> r.detail == Cancelled200 && post.status == Cancelled
    ensures post.id == old(post.id) && post.errorMessage == old(post.errorMessage) && post.channels == old(post.channels)
    ensures post.scheduledTime == old(post.scheduledTime) && post.sentAt == old(post.sentAt)
    ensures post.content == old(post.content) && post.kind == old(post.kind) && post.attachments == old(post.attachments)
    ensures post.owner == old(post.owner) && post.createdAt == old(post.createdAt)
  {
    if post.owner != requester {
      return Reply(404, NotFoundDetail);
    }
    if post.status != Pending || post.scheduledTime.None? {
      return Reply(400, CannotCancel);
    }
    if post.scheduledTime.value <= now {
      return Reply(400, CancelTooLate);
    }
    post.status := Cancelled;
    return Reply(200, Cancelled200);
  }

  const OnlyFailed := "فقط پست‌های ناموفق قابل ارسال مجدد هستند."
  const Requeued := "پست با موفقیت به صف ارسال مجدد اضافه شد."

  /** `RetryPostView.post`: only a failed post is retried; it goes back to
      `pending` with its error cleared and is enqueued to run at once. */
  method Retry(post: Post, requester: UserId, queue: TaskQueue) returns (r: Reply)
    modifies post, queue
    ensures r.code == 200 <==> old(post.owner) == requester && old(post.status) == Failed
    ensures r.code != 200 ==> unchanged(post) && unchanged(queue)
    ensures old(post.owner) == requester && old(post.status) != Failed ==> r == Reply(400, OnlyFailed)
    ensures r.code == 200 ==> (r.detail == Requeued && post.status == Pending && post.errorMessage == None
                               && queue.events == old(queue.events) + [Enqueued(post.id, None)])
    ensures post.id == old(post.id) && post.channels == old(post.channels) && post.sentAt == old(post.sentAt)
    ensures post.content == old(post.content) && post.kind == old(post.kind) && post.attachments == old(post.attachments)
    ensures post.scheduledTime == old(post.scheduledTime) && post.owner == old(post.owner) && post.createdAt == old(post.createdAt)
  {
    if post.owner != requester {
      return Reply(404, NotFoundDetail);
    }
    if post.status != Failed {
      return Reply(400, OnlyFailed);
    }
    post.status := Pending;
    post.errorMessage := None;
    queue.Enqueue(Enqueued(post.id, None));
    return Reply(200, Requeued);
  }

  // ------------------------------------------------------------------
  // Listing
  // ------------------------------------------------------------------

  /** The listed columns of a post. */
  datatype PostRow = PostRow(id: nat, owner: UserId, status: Status, createdAt: int)

  predicate NewestFirst(rows: seq<PostRow>) {
    forall i, j :: 0 <= i < j < |rows| ==> rows[i].createdAt >= rows[j].createdAt
  }

  function InsertByDate(x: PostRow, rows: seq<PostRow>): (r: seq<PostRow>)
    ensures multiset(r) == multiset(rows) + multiset{x}
  {
    if rows == [] then [x]
    else if x.createdAt >= rows[0].createdAt then [x] + rows
    else
      assert rows == [rows[0]] + rows[1..];
      [rows[0]] + InsertByDate(x, rows[1..])
  }

  /** Inserting by date into a newest-first list keeps it newest first. */
  lemma {:induction false} InsertKeepsOrder(x: PostRow, rows: seq<PostRow>)
    requires NewestFirst(rows)
    ensures NewestFirst(InsertByDate(x, rows))
  {
    if rows != [] && x.createdAt < rows[0].createdAt {
      InsertKeepsOrder(x, rows[1..]);
      var tail := InsertByDate(x, rows[1..]);
      InsertedTailBounded(x, rows);
      assert InsertByDate(x, rows) == [rows[0]] + tail;
      ConsNewestFirst(rows[0], tail);
    }
  }

  /** Every row of the inserted tail is no newer than the head it goes under. */
  lemma InsertedTailBounded(x: PostRow, rows: seq<PostRow>)
    requires rows != [] && NewestFirst(rows) && x.createdAt < rows[0].createdAt
    ensures forall y :: y in InsertByDate(x, rows[1..]) ==> y.createdAt <= rows[0].createdAt
  {
    var tail := InsertByDate(x, rows[1..]);
    forall y | y in tail ensures y.createdAt <= rows[0].createdAt {
      assert y in multiset(tail);
      if y != x {
        assert y in multiset(rows[1..]);
        var k :| 0 <= k < |rows[1..]| && rows[1..][k] == y;
        assert rows[k + 1] == y;
      }
    }
  }

  /** A head no older than every row of a newest-first tail keeps the order. */
  lemma ConsNewestFirst(h: PostRow, tail: seq<PostRow>)
    requires NewestFirst(tail) && forall y :: y in tail ==> y.createdAt <= h.createdAt
    ensures NewestFirst([h] + tail)
  {
    var r := [h] + tail;
    forall i, j | 0 <= i < j < |r| ensures r[i].createdAt >= r[j].createdAt {
      if i == 0 {
        assert r[j] == tail[j - 1];
        assert r[j] in tail;
      } else {
        assert r[i] == tail[i - 1] && r[j] == tail[j - 1];
      }
    }
  }

  /** `order_by('-created_at')`. */
  function SortNewestFirst(rows: seq<PostRow>): (r: seq<PostRow>)
    ensures NewestFirst(r)
    ensures multiset(r) == multiset(rows)
  {
    if rows == [] then []
    else
      assert rows == [rows[0]] + rows[1..];
      var rest := SortNewestFirst(rows[1..]);
      InsertKeepsOrder(rows[0], rest);
      InsertByDate(rows[0], rest)
  }

  function Where(rows: seq<PostRow>, keep: PostRow -> bool): (r: seq<PostRow>)
    ensures forall x :: x in r <==> x in rows && keep(x)
    ensures |r| <= |rows|
  {
    if rows == [] then []
    else (if keep(rows[0]) then [rows[0]] else []) + Where(rows[1..], keep)
  }

  /** Filtering keeps the order of what remains. */
  lemma {:induction false} WhereKeepsOrder(rows: seq<PostRow>, keep: PostRow -> bool)
    requires NewestFirst(rows)
    ensures NewestFirst(Where(rows, keep))
  {
    if rows != [] {
      WhereKeepsOrder(rows[1..], keep);
      var rest := Where(rows[1..], keep);
      forall x | x in rest ensures rows[0].createdAt >= x.createdAt {
        var k :| 0 <= k < |rows[1..]| && rows[1..][k] == x;
        assert rows[k + 1] == x;
      }
    }
  }

  /** `PostListView.get_queryset`: the requester's posts, newest first, with
      an exact status filter when the `status` parameter is non-empty. */
  function ListPosts(rows: seq<PostRow>, requester: UserId, statusParam: Option<string>): seq<PostRow> {
    var mine := Where(SortNewestFirst(rows), (x: PostRow) => x.owner == requester);
    if statusParam.Some? && statusParam.value != "" then Where(mine, (x: PostRow) => StatusName(x.status) == statusParam.value)
    else mine
  }

  lemma ListPostsSpec(rows: seq<PostRow>, requester: UserId, statusParam: Option<string>)
    ensures var r := ListPosts(rows, requester, statusParam);
      && NewestFirst(r)
      && (forall x :: x in r <==> (x in rows && x.owner == requester
                                   && (statusParam.None? || statusParam.value == "" || StatusName(x.status) == statusParam.value)))
  {
    var sorted := SortNewestFirst(rows);
    assert forall x :: x in sorted <==> x in rows by {
      forall x ensures x in sorted <==> x in rows {
        assert x in sorted <==> x in multiset(sorted);
        assert x in rows <==> x in multiset(rows);
      }
    }
    var mine := Where(sorted, (x: PostRow) => x.owner == requester);
    WhereKeepsOrder(sorted, (x: PostRow) => x.owner == requester);
    if statusParam.Some? && statusParam.value != "" {
      WhereKeepsOrder(mine, (x: PostRow) => StatusName(x.status) == statusParam.value);
    }
  }

  const DefaultPageSize: nat := 10
  const MaxPageSize: nat := 100

  /** `PostPagination` page size: the `page_size` parameter when it is a
      positive integer, capped at 100; 10 when it is absent, not an integer
      (None) or not positive. */
  function PageSize(pageSizeParam: Option<int>): (n: nat)
    ensures 1 <= n <= MaxPageSize
    ensures pageSizeParam.None? || pageSizeParam.value <= 0 ==> n == DefaultPageSize
    ensures pageSizeParam.Some? && 0 < pageSizeParam.value <= MaxPageSize ==> n == pageSizeParam.value
    ensures pageSizeParam.Some? && pageSizeParam.value > MaxPageSize ==> n == MaxPageSize
  {
    match pageSizeParam
    case None => DefaultPageSize
    case Some(v) => if v <= 0 then DefaultPageSize else if v > MaxPageSize then MaxPageSize else v
  }

  // ------------------------------------------------------------------
  // Protected media
  // ------------------------------------------------------------------

  /** The attachment row looked up by id: its file name and the post owner. */
  datatype AttachmentRow = AttachmentRow(fileName: string, postOwner: UserId)

  datatype MediaReply = FileBody(disposition: string) | MediaError(code: int, message: string)

  /** `ProtectedMediaView.get`: 404 for an unknown id, 403 unless owner or
      staff, 500 when the file cannot be opened, otherwise the file as an
      attachment download. */
  function GetProtectedMedia(att: Option<AttachmentRow>, requester: UserId, isStaff: bool, canOpen: string -> bool): (r: MediaReply)
    ensures att.None? ==> r == MediaError(404, "فایل مورد نظر یافت نشد.")
    ensures r.FileBody? <==> att.Some? && (att.value.postOwner == requester || isStaff) && canOpen(att.value.fileName)
    ensures att.Some? && att.value.postOwner != requester && !isStaff ==> r == MediaError(403, "شما اجازه دسترسی به این فایل را ندارید.")
    ensures r.FileBody? ==> r.disposition == "attachment; filename=\"" + att.value.fileName + "\""
  {
    match att
    case None => MediaError(404, "فایل مورد نظر یافت نشد.")
    case Some(a) =>
      if a.postOwner != requester && !isStaff then MediaError(403, "شما اجازه دسترسی به این فایل را ندارید.")
      else if !canOpen(a.fileName) then MediaError(500, "خطا در خواندن فایل.")
      else FileBody("attachment; filename=\"" + a.fileName + "\"")
  }
}
