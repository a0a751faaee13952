/** The logging filters and the per-thread logging context
    (Back-end/core/logging_filters.py, utils/loging_setup.py). A log record is
    an object the filters update in place; the context is a dictionary from
    thread identifier to that thread's fields. */
module LogFilters {
  import opened Wrappers
  import opened Strings
  import opened LogMasking

  /** `record.msg`: a string or any other object (kept by its repr). */
  datatype Message = Text(s: string) | NonText(repr: string)

  class LogRecord {
    var msg: Message
    var args: seq<string>
    var userId: Option<string>
    var requestId: Option<string>
    var clientIp: Option<string>

    constructor(msg: Message, args: seq<string>)
      ensures this.msg == msg && this.args == args
      ensures userId.None? && requestId.None? && clientIp.None?
    {
      this.msg := msg;
      this.args := args;
      userId := None;
      requestId := None;
      clientIp := None;
    }
  }

  const TelegramHost := "api.telegram.org"

  /** `TelegramRequestFilter.filter`. `rendered` is `record.getMessage()`,
      the message with its arguments substituted. Records mentioning the
      Telegram API get their tokens masked and their arguments dropped; the
      record is always kept. */
  method TelegramRequestFilter(record: LogRecord, rendered: string) returns (keep: bool)
    modifies record
    ensures keep
    ensures !Contains(rendered, TelegramHost) ==> record.msg == old(record.msg) && record.args == old(record.args)
    ensures Contains(rendered, TelegramHost) ==> record.msg == Text(Mask(rendered, TelegramStyle)) && record.args == []
    ensures record.userId == old(record.userId) && record.requestId == old(record.requestId)
            && record.clientIp == old(record.clientIp)
  {
    if Contains(rendered, TelegramHost) {
      record.msg := Text(Mask(rendered, TelegramStyle));
      record.args := [];
    }
    return true;
  }

  /** What the Telegram filter leaves in a record's text: once masked, a
      second pass through the filter changes nothing, whether or not the
      host survived the masking. */
  lemma TelegramFilterStable(rendered: string)
    ensures var once := Mask(rendered, TelegramStyle);
      !Contains(once, TelegramHost) || Mask(once, TelegramStyle) == once
  {
    MaskIdempotent(rendered, TelegramStyle);
  }

  /** `TokenMaskingFilter.filter`: string messages get every token redacted,
      other messages are left untouched; the record is always kept. */
  method TokenMaskingFilter(record: LogRecord) returns (keep: bool)
    modifies record
    ensures keep
    ensures old(record.msg).Text? ==> record.msg == Text(Mask(old(record.msg).s, RedactedStyle))
    ensures old(record.msg).NonText? ==> record.msg == old(record.msg)
    ensures record.args == old(record.args) && record.userId == old(record.userId)
            && record.requestId == old(record.requestId) && record.clientIp == old(record.clientIp)
  {
    if record.msg.Text? {
      record.msg := Text(Mask(record.msg.s, RedactedStyle));
    }
    return true;
  }

  /** The string the redacting filter leaves behind is a fixed point of it. */
  lemma RedactionIdempotent(s: string)
    ensures Mask(Mask(s, RedactedStyle), RedactedStyle) == Mask(s, RedactedStyle)
  {
    MaskIdempotent(s, RedactedStyle);
  }

  const UserKey := "user_id"
  const RequestKey := "request_id"
  const IpKey := "client_ip"

  /** `_local`: each thread's context fields. */
  class LogContext {
    var local: map<nat, map<string, string>>

    constructor()
      ensures local == map[]
    {
      local := map[];
    }

    /** The thread's fields, empty when it has none. */
    function Fields(thread: nat): (r: map<string, string>)
      reads this
      ensures thread !in local ==> r == map[]
      ensures thread in local ==> r == local[thread]
    {
      if thread in local then local[thread] else map[]
    }

    /** The common shape of `set_user_id`, `set_request_id`, `set_client_ip`:
        the thread's dictionary is rebuilt with one key replaced. */
    method Set(thread: nat, key: string, value: string)
      modifies this
      ensures local == old(local)[thread := old(Fields(thread))[key := value]]
      ensures forall t :: t in old(local) && t != thread ==> t in local && local[t] == old(local)[t]
      ensures forall k :: k in old(Fields(thread)) && k != key ==> k in Fields(thread) && Fields(thread)[k] == old(Fields(thread))[k]
    {
      local := local[thread := Fields(thread)[key := value]];
    }

    method SetUserId(thread: nat, userId: string)
      modifies this
      ensures local == old(local)[thread := old(Fields(thread))[UserKey := userId]]
    {
      Set(thread, UserKey, userId);
    }

    method SetRequestId(thread: nat, requestId: string)
      modifies this
      ensures local == old(local)[thread := old(Fields(thread))[RequestKey := requestId]]
    {
      Set(thread, RequestKey, requestId);
    }

    method SetClientIp(thread: nat, ip: string)
      modifies this
      ensures local == old(local)[thread := old(Fields(thread))[IpKey := ip]]
    {
      Set(thread, IpKey, ip);
    }

    /** `clear_context`: drops the thread's entry; nothing else changes. */
    method ClearContext(thread: nat)
      modifies this
      ensures local == old(local) - {thread}
      ensures thread !in old(local) ==> local == old(local)
    {
      local := local - {thread};
    }

    /** `ContextFilter.filter`: the record receives the thread's three fields,
        with `Anonymous`, `Unknown` and `Unknown` for those not set; the
        record is always kept. */
    method ContextFilter(record: LogRecord, thread: nat) returns (keep: bool)
      modifies record
      ensures keep
      ensures record.userId == Some(Lookup(Fields(thread), UserKey, "Anonymous"))
      ensures record.requestId == Some(Lookup(Fields(thread), RequestKey, "Unknown"))
      ensures record.clientIp == Some(Lookup(Fields(thread), IpKey, "Unknown"))
      ensures record.msg == old(record.msg) && record.args == old(record.args)
    {
      var ctx := Fields(thread);
      record.userId := Some(Lookup(ctx, UserKey, "Anonymous"));
      record.requestId := Some(Lookup(ctx, RequestKey, "Unknown"));
      record.clientIp := Some(Lookup(ctx, IpKey, "Unknown"));
      return true;
    }
  }

  /** `dict.get(key, default)`. */
  function Lookup(m: map<string, string>, key: string, default: string): (r: string)
    ensures key in m ==> r == m[key]
    ensures key !in m ==> r == default
  {
    if key in m then m[key] else default
  }

  /** The fields a view sets at the start of a request are exactly what the
      filter reports for that thread afterwards. */
  method ContextRoundTrip(ctx: LogContext, record: LogRecord, thread: nat, user: string, request: string, ip: string)
    modifies ctx, record
    ensures record.userId == Some(user) && record.requestId == Some(request) && record.clientIp == Some(ip)
  {
    ctx.SetRequestId(thread, request);
    ctx.SetClientIp(thread, ip);
    ctx.SetUserId(thread, user);
    var _ := ctx.ContextFilter(record, thread);
  }
}
