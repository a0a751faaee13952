/** `ChannelSerializer` (Back-end/channels/serializers.py): the handle rule and
    the per-owner uniqueness check. The writable fields are those of
    `ChannelInput`; `is_verified`, `failed_reason`, `platform_channel_id` and
    `created_at` are read-only and have no place in it. */
module ChannelSerializer {
  import opened Wrappers
  import opened Strings
  import opened ChannelModel

  datatype ChannelInput = ChannelInput(name: string, username: string, platform: Platform)

  const MustStartWithAt := "شناسه کانال باید با @ شروع شود."
  const AlreadyRegistered := "این کانال قبلاً توسط شما ثبت شده است."

  /** Whether `user` already has a row with this handle, other than the row
      being edited (`instanceId`). */
  predicate DuplicateFor(rows: map<nat, Channel>, user: UserId, username: string, instanceId: Option<nat>) {
    exists id :: id in rows && rows[id].owner == user && rows[id].username == username
                 && (instanceId.None? || id != instanceId.value)
  }

  /** `validate_username`. */
  function ValidateUsername(rows: map<nat, Channel>, user: UserId, value: string, instanceId: Option<nat>): (r: Result<string, string>)
    ensures r.Success? <==> StartsWith(value, "@") && !DuplicateFor(rows, user, value, instanceId)
    ensures r.Success? ==> r.value == value
    ensures !StartsWith(value, "@") ==> r == Failure(MustStartWithAt)
  {
    if !StartsWith(value, "@") then Failure(MustStartWithAt)
    else if DuplicateFor(rows, user, value, instanceId) then Failure(AlreadyRegistered)
    else Success(value)
  }

  /** DRF's refusal of a value outside a choice field's choices, which
      quotes the submitted value. */
  function InvalidChoice(input: string): string {
    "\"" + input + "\" is not a valid choice."
  }

  /** The field checks of the serializer. `is_valid` runs every field, so an
      unknown platform and a refused handle are reported together, each under
      its field name. */
  function ValidateChannel(rows: map<nat, Channel>, user: UserId, d: ChannelInput, instanceId: Option<nat>)
    : (r: Result<ChannelInput, map<string, string>>)
    ensures r.Success? <==> !d.platform.OtherPlatform? && ValidateUsername(rows, user, d.username, instanceId).Success?
    ensures r.Success? ==> r.value == d
    ensures r.Failure? ==> r.error.Keys <= {"platform", "username"}
    ensures r.Failure? ==> ("platform" in r.error <==> d.platform.OtherPlatform?)
    ensures r.Failure? && d.platform.OtherPlatform? ==> r.error["platform"] == InvalidChoice(d.platform.name)
    ensures r.Failure? ==> ("username" in r.error <==> ValidateUsername(rows, user, d.username, instanceId).Failure?)
    ensures r.Failure? && ValidateUsername(rows, user, d.username, instanceId).Failure? ==>
      r.error["username"] == ValidateUsername(rows, user, d.username, instanceId).error
  {
    var handle := ValidateUsername(rows, user, d.username, instanceId);
    var platformErrors: map<string, string> :=
      if d.platform.OtherPlatform? then map["platform" := InvalidChoice(d.platform.name)] else map[];
    if handle.Success? && platformErrors == map[] then Success(d)
    else if handle.Success? then Failure(platformErrors)
    else Failure(platformErrors["username" := handle.error])
  }

  /** "twitter" is refused with a text quoting it, and a handle without "@"
      is reported beside it. */
  lemma BothFieldsReported(rows: map<nat, Channel>, user: UserId, name: string, handle: string)
    requires !StartsWith(handle, "@")
    ensures var r := ValidateChannel(rows, user, ChannelInput(name, handle, OtherPlatform("twitter")), None);
      && r.Failure? && r.error.Keys == {"platform", "username"}
      && r.error["platform"] == "\"twitter\" is not a valid choice."
      && r.error["username"] == MustStartWithAt
  {
    assert InvalidChoice("twitter") == "\"twitter\" is not a valid choice.";
    assert ValidateUsername(rows, user, handle, None) == Failure(MustStartWithAt);
  }

  /** Another user's row with the same handle never blocks a registration. */
  lemma OtherOwnersDoNotCollide(rows: map<nat, Channel>, user: UserId, value: string, c: Channel, id: nat)
    requires StartsWith(value, "@") && id !in rows && c.owner != user
    ensures ValidateUsername(rows[id := c], user, value, None) == ValidateUsername(rows, user, value, None)
  {
    var rows' := rows[id := c];
    if DuplicateFor(rows', user, value, None) {
      var k :| k in rows' && rows'[k].owner == user && rows'[k].username == value;
      assert k != id && k in rows;
    }
    if DuplicateFor(rows, user, value, None) {
      var k :| k in rows && rows[k].owner == user && rows[k].username == value;
      assert k in rows' && rows'[k] == rows[k];
    }
  }

  /** On update, the edited row's own handle is no obstacle: re-submitting
      an unchanged handle passes when no other row of the owner has it. */
  lemma EditKeepsOwnHandle(rows: map<nat, Channel>, id: nat)
    requires id in rows && StartsWith(rows[id].username, "@")
    requires forall k :: k in rows && k != id ==> rows[k].owner != rows[id].owner || rows[k].username != rows[id].username
    ensures ValidateUsername(rows, rows[id].owner, rows[id].username, Some(id)).Success?
    ensures ValidateUsername(rows, rows[id].owner, rows[id].username, None).Failure?
  {
    assert rows[id].owner == rows[id].owner && rows[id].username == rows[id].username;
  }
}
