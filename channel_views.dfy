/** The channel endpoints (Back-end/channels/views.py): registration after a
    successful probe, listing, and editing with re-verification when the
    handle or platform changes. The channel rows live in a `ChannelTable`;
    the probe's answer is an argument. */
module ChannelViews {
  import opened Wrappers
  import opened ChannelModel
  import opened ChannelServices
  import opened ChannelSerializer

  /** The channel rows, keyed by id, and the next id to hand out. */
  class ChannelTable {
    var rows: map<nat, Channel>
    var nextId: nat

    ghost predicate Valid()
      reads this
    {
      forall id :: id in rows ==> id < nextId && rows[id].id == id
    }

    constructor()
      ensures Valid() && rows == map[]
    {
      rows := map[];
      nextId := 1;
    }
  }

  /** No owner has two rows with the same handle. */
  ghost predicate UniqueHandles(rows: map<nat, Channel>) {
    forall a, b :: a in rows && b in rows && a != b && rows[a].owner == rows[b].owner ==> rows[a].username != rows[b].username
  }

  /** `IsOwner.has_object_permission`. */
  predicate IsOwner(c: Channel, requester: UserId) {
    c.owner == requester
  }

  datatype ViewReply =
    | Created(channel: Channel)
    | Updated(channel: Channel)
    | BadRequest(detail: string, reason: Option<string>)
    | Invalid(errors: map<string, string>)
    | Forbidden
    | NotFound
    | ServerError(exception: string)

  const InvalidPlatform := "پلتفرم نامعتبر است."
  const CannotVerify := "عدم توانایی در تأیید کانال"
  const CannotVerifyAfterEdit := "عدم توانایی در تأیید کانال پس از ویرایش"

  /** The row written by a successful registration. */
  function NewChannel(id: nat, owner: UserId, d: ChannelInput, chatId: string, now: int): Channel {
    Channel(id, owner, d.name, d.username, d.platform, true, None, Some(chatId), now)
  }

  /** `ChannelCreateView.post`: field checks, then Telegram only, then the
      probe; only a verified probe writes a row, verified and carrying the
      echoed chat id. */
  method CreateChannel(table: ChannelTable, requester: UserId, d: ChannelInput, probe: ProbeReply, now: int)
    returns (r: ViewReply)
    requires table.Valid()
    modifies table
    ensures table.Valid()
    ensures UniqueHandles(old(table.rows)) ==> UniqueHandles(table.rows)
    ensures !r.Created? ==> unchanged(table)
    ensures ValidateChannel(old(table.rows), requester, d, None).Failure? ==>
      r == Invalid(ValidateChannel(old(table.rows), requester, d, None).error)
    ensures ValidateChannel(old(table.rows), requester, d, None).Success? && d.platform != Telegram ==>
      r == BadRequest(InvalidPlatform, None)
    ensures ValidateChannel(old(table.rows), requester, d, None).Success? && d.platform == Telegram ==>
      match VerifyTelegram(d.username, probe)
      case Unverified(reason) => r == BadRequest(CannotVerify, Some(reason))
      case VerifyCrashed(e) => r == ServerError(e)
      case Verified(chatId, _) =>
        var c := NewChannel(old(table.nextId), requester, d, chatId, now);
        r == Created(c) && table.rows == old(table.rows)[c.id := c]
  {
    var v := ValidateChannel(table.rows, requester, d, None);
    if v.Failure? {
      return Invalid(v.error);
    }
    if d.platform != Telegram {
      return BadRequest(InvalidPlatform, None);
    }
    var result := VerifyTelegram(d.username, probe);
    match result {
      case Unverified(reason) =>
        return BadRequest(CannotVerify, Some(reason));
      case VerifyCrashed(e) =>
        return ServerError(e);
      case Verified(chatId, _) =>
        var c := NewChannel(table.nextId, requester, d, chatId, now);
        table.rows := table.rows[c.id := c];
        table.nextId := table.nextId + 1;
        return Created(c);
    }
  }

  /** `ChannelListView.get_queryset`: exactly the requester's channels. */
  function ListChannels(rows: map<nat, Channel>, requester: UserId): (r: set<Channel>)
    ensures forall c :: c in r <==> exists id :: id in rows && rows[id] == c && c.owner == requester
  {
    set id | id in rows && rows[id].owner == requester :: rows[id]
  }

  /** Whether an edit touches the handle or the platform. */
  predicate NeedsProbe(c: Channel, d: ChannelInput) {
    d.username != c.username || d.platform != c.platform
  }

  /** The row after a plain save: only the writable columns change. */
  function Edited(c: Channel, d: ChannelInput): Channel {
    c.(name := d.name, username := d.username, platform := d.platform)
  }

  /** The row after a save that follows a verified probe. */
  function Reverified(c: Channel, d: ChannelInput, chatId: string): Channel {
    Edited(c, d).(isVerified := true, failedReason := Some(""), platformChannelId := Some(chatId))
  }

  /** `ChannelDetailView.put` as written: `verify_channel` is not imported by
      the module, so every edit that changes the handle or platform stops with
      a NameError and saves nothing. */
  method PutAsWritten(table: ChannelTable, id: nat, requester: UserId, d: ChannelInput) returns (r: ViewReply)
    requires table.Valid()
    modifies table
    ensures table.Valid()
    ensures !r.Updated? ==> unchanged(table)
    ensures id in old(table.rows) && IsOwner(old(table.rows)[id], requester)
            && ValidateChannel(old(table.rows), requester, d, Some(id)).Failure? ==>
      r == Invalid(ValidateChannel(old(table.rows), requester, d, Some(id)).error)
    ensures id in old(table.rows) && IsOwner(old(table.rows)[id], requester)
            && ValidateChannel(old(table.rows), requester, d, Some(id)).Success? ==>
      if NeedsProbe(old(table.rows)[id], d) then r == ServerError("NameError")
      else r == Updated(Edited(old(table.rows)[id], d)) && table.rows == old(table.rows)[id := Edited(old(table.rows)[id], d)]
  {
    if id !in table.rows {
      return NotFound;
    }
    var c := table.rows[id];
    if !IsOwner(c, requester) {
      return Forbidden;
    }
    var v := ValidateChannel(table.rows, requester, d, Some(id));
    if v.Failure? {
      return Invalid(v.error);
    }
    if NeedsProbe(c, d) {
      return ServerError("NameError");
    }
    var e := Edited(c, d);
    table.rows := table.rows[id := e];
    return Updated(e);
  }

  /** `ChannelDetailView.put` with the dispatcher in scope: a changed handle or
      platform is probed, a refused probe saves nothing, and a verified probe
      marks the row verified with an empty failure reason and the echoed chat
      id. An unchanged edit is saved without a probe. */
  method Put(table: ChannelTable, id: nat, requester: UserId, d: ChannelInput, probe: ProbeReply) returns (r: ViewReply)
    requires table.Valid()
    modifies table
    ensures table.Valid()
    ensures UniqueHandles(old(table.rows)) ==> UniqueHandles(table.rows)
    ensures !r.Updated? ==> unchanged(table)
    ensures id in old(table.rows) && IsOwner(old(table.rows)[id], requester)
            && ValidateChannel(old(table.rows), requester, d, Some(id)).Failure? ==>
      r == Invalid(ValidateChannel(old(table.rows), requester, d, Some(id)).error)
    ensures id !in old(table.rows) ==> r == NotFound
    ensures id in old(table.rows) && !IsOwner(old(table.rows)[id], requester) ==> r == Forbidden
    ensures id in old(table.rows) && IsOwner(old(table.rows)[id], requester)
            && ValidateChannel(old(table.rows), requester, d, Some(id)).Success? ==>
      var c := old(table.rows)[id];
      if !NeedsProbe(c, d) then r == Updated(Edited(c, d)) && table.rows == old(table.rows)[id := Edited(c, d)]
      else match VerifyChannel(d.platform, d.username, probe)
        case Unverified(reason) => r == BadRequest(CannotVerifyAfterEdit, Some(reason))
        case VerifyCrashed(e) => r == ServerError(e)
        case Verified(chatId, _) =>
          r == Updated(Reverified(c, d, chatId)) && table.rows == old(table.rows)[id := Reverified(c, d, chatId)]
  {
    if id !in table.rows {
      return NotFound;
    }
    var c := table.rows[id];
    if !IsOwner(c, requester) {
      return Forbidden;
    }
    var v := ValidateChannel(table.rows, requester, d, Some(id));
    if v.Failure? {
      return Invalid(v.error);
    }
    var e: Channel;
    if NeedsProbe(c, d) {
      var result := VerifyChannel(d.platform, d.username, probe);
      match result {
        case Unverified(reason) =>
          return BadRequest(CannotVerifyAfterEdit, Some(reason));
        case VerifyCrashed(ex) =>
          return ServerError(ex);
        case Verified(chatId, _) =>
          e := Reverified(c, d, chatId);
      }
    } else {
      e := Edited(c, d);
    }
    assert e.username == d.username && e.owner == c.owner;
    table.rows := table.rows[id := e];
    return Updated(e);
  }
}
