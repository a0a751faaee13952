/** The post row (Back-end/posts/models.py): its status and type enumerations,
    the scheduling test and the upload path of an attachment. */
module PostModel {
  import opened Wrappers
  import opened ChannelModel

  /** The five statuses; `pending` is the default of a new row. */
  datatype Status = Pending | Sending | Sent | Failed | Cancelled

  const DefaultStatus := Pending

  function StatusName(s: Status): (r: string)
    ensures r in StatusNames
  {
    match s
    case Pending => "pending"
    case Sending => "sending"
    case Sent => "sent"
    case Failed => "failed"
    case Cancelled => "cancelled"
  }

  const StatusNames: set<string> := {"pending", "sending", "sent", "failed", "cancelled"}

  /** Reads a stored status string; None for a value outside the choices. */
  function ParseStatus(s: string): (r: Option<Status>)
    ensures r.Some? <==> s in StatusNames
    ensures r.Some? ==> StatusName(r.value) == s
  {
    if s == "pending" then Some(Pending)
    else if s == "sending" then Some(Sending)
    else if s == "sent" then Some(Sent)
    else if s == "failed" then Some(Failed)
    else if s == "cancelled" then Some(Cancelled)
    else None
  }

  /** Status names are distinct, so parsing a name gives back its status. */
  lemma StatusRoundTrip(s: Status)
    ensures ParseStatus(StatusName(s)) == Some(s)
  {
  }

  /** The `types` column. The choices are `text` and `media`; the dispatch task
      still has a branch for any other stored value. */
  datatype PostKind = TextPost | MediaPost | OtherKind(raw: string)

  function KindName(k: PostKind): string {
    match k
    case TextPost => "text"
    case MediaPost => "media"
    case OtherKind(r) => r
  }

  function ParseKind(s: string): (k: PostKind)
    ensures KindName(k) == s
  {
    if s == "text" then TextPost else if s == "media" then MediaPost else OtherKind(s)
  }

  /** `Post.is_scheduled`: a schedule that lies strictly in the future. */
  predicate IsScheduled(scheduledTime: Option<int>, now: int) {
    scheduledTime.Some? && scheduledTime.value > now
  }

  /** The boundary instant is not "scheduled": a post due now is sent at once. */
  lemma IsScheduledBoundary(t: int)
    ensures !IsScheduled(Some(t), t) && IsScheduled(Some(t), t - 1) && !IsScheduled(None, t)
  {
  }

  /** `user_media_path`: attachments are stored under a per-owner directory
      named after the owner's string form. */
  function UserMediaPath(ownerText: string, filename: string): (r: string)
    ensures |r| == 5 + |ownerText| + 1 + |filename|
    ensures r[..5] == "user_" && r[5..5 + |ownerText|] == ownerText
    ensures r[5 + |ownerText|] == '/' && r[6 + |ownerText|..] == filename
  {
    "user_" + ownerText + "/" + filename
  }

  /** Two owners with different string forms that contain no '/' never share
      a directory. */
  lemma UserMediaPathSeparates(a: string, b: string, f: string, g: string)
    requires '/' !in a && '/' !in b && a != b
    ensures UserMediaPath(a, f) != UserMediaPath(b, g)
  {
    var p, q := UserMediaPath(a, f), UserMediaPath(b, g);
    if |a| < |b| {
      assert p[5 + |a|] == '/' && q[5 + |a|] == b[|a|];
    } else if |b| < |a| {
      assert q[5 + |b|] == '/' && p[5 + |b|] == a[|b|];
    } else {
      assert p[5..5 + |a|] == a && q[5..5 + |b|] == b;
    }
  }

  /** A post as stored, with its channel set (as the channel rows) and its
      attachments (as stored file paths, in creation order). */
  class Post {
    var id: nat
    var owner: UserId
    var channels: seq<Channel>
    var content: Option<string>
    var kind: PostKind
    var attachments: seq<string>
    var scheduledTime: Option<int>
    var status: Status
    var errorMessage: Option<string>
    var createdAt: int
    var sentAt: Option<int>

    /** A new row: status `pending`, no error, not sent. */
    constructor(id: nat, owner: UserId, channels: seq<Channel>, content: Option<string>, kind: PostKind,
                attachments: seq<string>, scheduledTime: Option<int>, createdAt: int)
      ensures this.id == id && this.owner == owner && this.channels == channels && this.content == content
      ensures this.kind == kind && this.attachments == attachments && this.scheduledTime == scheduledTime
      ensures this.createdAt == createdAt
      ensures status == DefaultStatus && errorMessage == None && sentAt == None
    {
      this.id := id;
      this.owner := owner;
      this.channels := channels;
      this.content := content;
      this.kind := kind;
      this.attachments := attachments;
      this.scheduledTime := scheduledTime;
      this.createdAt := createdAt;
      status := DefaultStatus;
      errorMessage := None;
      sentAt := None;
    }
  }
}
