/** The stored channel row (Back-end/channels/models.py): a binding between a
    user and a destination on Telegram or Bale. */
module ChannelModel {
  import opened Wrappers

  /** The platform column. It is a choice field, but a stored value outside the
      two choices is still representable, and the adapters branch on it. */
  datatype Platform = Telegram | Bale | OtherPlatform(name: string)

  function PlatformName(p: Platform): string {
    match p
    case Telegram => "telegram"
    case Bale => "bale"
    case OtherPlatform(n) => n
  }

  /** Reads a submitted platform string. */
  function ParsePlatform(s: string): (p: Platform)
    ensures PlatformName(p) == s
  {
    if s == "telegram" then Telegram else if s == "bale" then Bale else OtherPlatform(s)
  }

  type UserId = nat

  datatype Channel = Channel(
    id: nat,
    owner: UserId,
    name: string,
    username: string,
    platform: Platform,
    isVerified: bool,
    failedReason: Option<string>,
    platformChannelId: Option<string>,
    createdAt: int)
}
