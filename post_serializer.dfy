/** `PostSerializer` (Back-end/posts/serializers.py): the cross-field checks on
    a submitted post and the way a validated submission is written to a post.
    The writable fields are the ones of `PostInput`; `status`, `error_message`,
    `created_at` and `user` are read-only and have no place in it. */
module PostSerializer {
  import opened Wrappers
  import opened ChannelModel
  import opened PostModel

  /** A submission after field-level parsing. The outer Option says whether the
      field was supplied; for nullable columns the inner Option is the value.
      Attachments are file names; `ownerText` in the writers below is the
      owner's string form used by the upload path. */
  datatype PostInput = PostInput(
    content: Option<Option<string>>,
    mediaFiles: Option<seq<string>>,
    kind: Option<PostKind>,
    scheduledTime: Option<Option<int>>,
    channels: Option<seq<Channel>>,
    sentAt: Option<Option<int>>)

  const NeedContentOrMedia := "باید حداقل یک متن یا یک رسانه ارسال کنید."
  const MediaNotFound := "مدیا یافت نشد"
  const ScheduleInPast := "زمان زمان‌بندی باید در آینده باشد."
  const NeedChannel := "حداقل یک کانال باید انتخاب کنید."

  function ForeignChannel(username: string): string {
    "کانال " + username + " متعلق به شما نیست."
  }

  /** Python truthiness of the supplied values. */
  predicate HasContent(d: PostInput) {
    d.content.Some? && d.content.value.Some? && d.content.value.value != ""
  }

  predicate HasMedia(d: PostInput) {
    d.mediaFiles.Some? && d.mediaFiles.value != []
  }

  function SuppliedSchedule(d: PostInput): Option<int> {
    if d.scheduledTime.Some? then d.scheduledTime.value else None
  }

  function SuppliedChannels(d: PostInput): seq<Channel> {
    d.channels.GetOr([])
  }

  /** Index of the first channel not owned by `user`, if any. */
  function FirstForeign(chs: seq<Channel>, user: UserId): (r: Option<nat>)
    ensures r.None? <==> forall i :: 0 <= i < |chs| ==> chs[i].owner == user
    ensures r.Some? ==> (r.value < |chs| && chs[r.value].owner != user
                         && forall i :: 0 <= i < r.value ==> chs[i].owner == user)
  {
    if chs == [] then None
    else if chs[0].owner != user then Some(0)
    else match FirstForeign(chs[1..], user)
      case None => None
      case Some(k) => Some(k + 1)
  }

  /** The first three checks of `validate`, each passed. */
  predicate ContentCheck(d: PostInput) { HasContent(d) || HasMedia(d) }
  predicate MediaCheck(d: PostInput) { HasMedia(d) || d.kind != Some(MediaPost) }
  predicate ScheduleCheck(d: PostInput, now: int) { SuppliedSchedule(d).None? || SuppliedSchedule(d).value > now }

  /** `validate`: the checks in source order; `requester` is the request's
      user (None when the serializer runs without a request). Each refusal
      carries its own message and applies only when the earlier checks pass. */
  function Validate(d: PostInput, requester: Option<UserId>, now: int): (r: Result<PostInput, string>)
    ensures r.Success? <==>
      && ContentCheck(d) && MediaCheck(d) && ScheduleCheck(d, now)
      && SuppliedChannels(d) != []
      && (requester.None? || forall i :: 0 <= i < |SuppliedChannels(d)| ==> SuppliedChannels(d)[i].owner == requester.value)
    ensures r.Success? ==> r.value == d
    ensures !ContentCheck(d) ==> r == Failure(NeedContentOrMedia)
    ensures ContentCheck(d) && !MediaCheck(d) ==> r == Failure(MediaNotFound)
    ensures ContentCheck(d) && MediaCheck(d) && !ScheduleCheck(d, now) ==> r == Failure(ScheduleInPast)
    ensures ContentCheck(d) && MediaCheck(d) && ScheduleCheck(d, now) && SuppliedChannels(d) == [] ==> r == Failure(NeedChannel)
    ensures ContentCheck(d) && MediaCheck(d) && ScheduleCheck(d, now) && requester.Some?
            && FirstForeign(SuppliedChannels(d), requester.value).Some? ==>
      r == Failure(ForeignChannel(SuppliedChannels(d)[FirstForeign(SuppliedChannels(d), requester.value).value].username))
  {
    if !HasContent(d) && !HasMedia(d) then Failure(NeedContentOrMedia)
    else if !HasMedia(d) && d.kind == Some(MediaPost) then Failure(MediaNotFound)
    else if SuppliedSchedule(d).Some? && SuppliedSchedule(d).value <= now then Failure(ScheduleInPast)
    else if SuppliedChannels(d) == [] then Failure(NeedChannel)
    else if requester.Some? && FirstForeign(SuppliedChannels(d), requester.value).Some? then
      Failure(ForeignChannel(SuppliedChannels(d)[FirstForeign(SuppliedChannels(d), requester.value).value].username))
    else Success(d)
  }

  /** The schedule check is strict: a time equal to `now` is refused. */
  lemma ScheduleBoundary(d: PostInput, now: int)
    requires HasContent(d) && SuppliedChannels(d) != [] && d.kind == Some(TextPost)
    requires SuppliedSchedule(d) == Some(now)
    ensures Validate(d, None, now) == Failure(ScheduleInPast)
  {
  }

  /** The channel relation is a set: `channels.set(...)` keeps each channel
      once, in first-occurrence order. */
  function Distinct(chs: seq<Channel>): (r: seq<Channel>)
    ensures forall c :: c in r <==> c in chs
    ensures forall i, j :: 0 <= i < j < |r| ==> r[i] != r[j]
    ensures |r| <= |chs|
  {
    if chs == [] then []
    else
      var rest := Distinct(chs[..|chs| - 1]);
      var last := chs[|chs| - 1];
      if last in rest then rest else rest + [last]
  }

  /** Stored names of new attachments, one per uploaded file, in order. */
  function AttachmentPaths(ownerText: string, files: seq<string>): (r: seq<string>)
    ensures |r| == |files|
    ensures forall i :: 0 <= i < |files| ==> r[i] == UserMediaPath(ownerText, files[i])
  {
    seq(|files|, i requires 0 <= i < |files| => UserMediaPath(ownerText, files[i]))
  }

  /** The attachment loop of `create`/`update`: one attachment per file. */
  method CreateAttachments(ownerText: string, files: seq<string>) returns (paths: seq<string>)
    ensures paths == AttachmentPaths(ownerText, files)
  {
    paths := [];
    for i := 0 to |files|
      invariant |paths| == i
      invariant forall k :: 0 <= k < i ==> paths[k] == UserMediaPath(ownerText, files[k])
    {
      paths := paths + [UserMediaPath(ownerText, files[i])];
    }
  }

  /** `create`, called by the create view with the owner and status `pending`:
      a new post with exactly the given channels and one attachment per file. */
  method Create(d: PostInput, id: nat, owner: UserId, ownerText: string, now: int) returns (post: Post)
    ensures fresh(post)
    ensures post.id == id && post.owner == owner && post.createdAt == now
    ensures post.status == Pending && post.errorMessage == None
    ensures post.channels == Distinct(SuppliedChannels(d))
    ensures post.attachments == AttachmentPaths(ownerText, d.mediaFiles.GetOr([]))
    ensures post.content == (if d.content.Some? then d.content.value else None)
    ensures post.scheduledTime == SuppliedSchedule(d)
    ensures post.sentAt == (if d.sentAt.Some? then d.sentAt.value else None)
    ensures d.kind.Some? ==> post.kind == d.kind.value
  {
    var paths := CreateAttachments(ownerText, d.mediaFiles.GetOr([]));
    var content := if d.content.Some? then d.content.value else None;
    var kind := d.kind.GetOr(OtherKind(""));
    post := new Post(id, owner, Distinct(SuppliedChannels(d)), content, kind, paths, SuppliedSchedule(d), now);
    if d.sentAt.Some? {
      post.sentAt := d.sentAt.value;
    }
  }

  /** `update`: writes every supplied plain field, replaces the channel set only
      when channels were supplied, and replaces all attachments only when files
      were supplied. Read-only columns are untouched. */
  method Update(post: Post, d: PostInput, ownerText: string)
    modifies post
    ensures post.content == (if d.content.Some? then d.content.value else old(post.content))
    ensures post.scheduledTime == (if d.scheduledTime.Some? then d.scheduledTime.value else old(post.scheduledTime))
    ensures post.kind == (if d.kind.Some? then d.kind.value else old(post.kind))
    ensures post.sentAt == (if d.sentAt.Some? then d.sentAt.value else old(post.sentAt))
    ensures post.channels == (if d.channels.Some? then Distinct(d.channels.value) else old(post.channels))
    ensures post.attachments == (if d.mediaFiles.Some? then AttachmentPaths(ownerText, d.mediaFiles.value) else old(post.attachments))
    ensures post.status == old(post.status) && post.errorMessage == old(post.errorMessage)
    ensures post.createdAt == old(post.createdAt) && post.owner == old(post.owner) && post.id == old(post.id)
  {
    SetAttributes(post, d);
    if d.channels.Some? { post.channels := Distinct(d.channels.value); }
    if d.mediaFiles.Some? {
      post.attachments := [];
      var paths := CreateAttachments(ownerText, d.mediaFiles.value);
      post.attachments := paths;
    }
  }

  /** The `setattr` loop over the plain columns that were supplied. */
  method SetAttributes(post: Post, d: PostInput)
    modifies post
    ensures post.content == (if d.content.Some? then d.content.value else old(post.content))
    ensures post.scheduledTime == (if d.scheduledTime.Some? then d.scheduledTime.value else old(post.scheduledTime))
    ensures post.kind == (if d.kind.Some? then d.kind.value else old(post.kind))
    ensures post.sentAt == (if d.sentAt.Some? then d.sentAt.value else old(post.sentAt))
    ensures post.channels == old(post.channels) && post.attachments == old(post.attachments)
    ensures post.status == old(post.status) && post.errorMessage == old(post.errorMessage)
    ensures post.createdAt == old(post.createdAt) && post.owner == old(post.owner) && post.id == old(post.id)
  {
    if d.content.Some? { post.content := d.content.value; }
    if d.scheduledTime.Some? { post.scheduledTime := d.scheduledTime.value; }
    if d.kind.Some? { post.kind := d.kind.value; }
    if d.sentAt.Some? { post.sentAt := d.sentAt.value; }
  }
}
