// The enumerations of app/core/enums.py and the limits of app/core/settings.py.

module Enums {

  import opened Wrappers

  datatype TokenType = Access | Refresh

  function TokenTypeValue(t: TokenType): string
  {
    match t
    case Access => "access"
    case Refresh => "refresh"
  }

  datatype UserRole = RoleUser | RoleAdmin | RoleGod

  function UserRoleValue(r: UserRole): string
  {
    match r
    case RoleUser => "user"
    case RoleAdmin => "admin"
    case RoleGod => "god"
  }

  /** `value in UserRole`: the role whose value is `s`, if any. */
  function ParseUserRole(s: string): (r: Option<UserRole>)
    ensures r.Some? ==> UserRoleValue(r.value) == s
    ensures r.None? ==> forall role: UserRole :: UserRoleValue(role) != s
  {
    if s == "user" then Some(RoleUser)
    else if s == "admin" then Some(RoleAdmin)
    else if s == "god" then Some(RoleGod)
    else None
  }

  /** ADMIN or GOD: the roles the routes treat as administrators. */
  predicate IsAdminRole(r: UserRole)
  {
    r == RoleAdmin || r == RoleGod
  }

  datatype UserBotRole = Owner | Viewer

  datatype OtpCodeType = VerifyEmail | PasswordReset

  datatype ChatType = Private | Group | Supergroup | Channel

  function ChatTypeValue(t: ChatType): string
  {
    match t
    case Private => "private"
    case Group => "group"
    case Supergroup => "supergroup"
    case Channel => "channel"
  }

  /** `ChatType(s)`: the chat type whose value is `s`; any other string raises ValueError. */
  function ParseChatType(s: string): (r: Option<ChatType>)
    ensures r.Some? ==> ChatTypeValue(r.value) == s
    ensures r.None? ==> forall t: ChatType :: ChatTypeValue(t) != s
  {
    if s == "private" then Some(Private)
    else if s == "group" then Some(Group)
    else if s == "supergroup" then Some(Supergroup)
    else if s == "channel" then Some(Channel)
    else None
  }

  datatype MessageType =
    | MText | MPhoto | MAudio | MDocument | MVideo | MAnimation | MVoice | MVideoNote
    | MPaidMedia | MLocation | MVenue | MContact | MPoll | MChecklist | MDice | MSticker
    | MStory | MInvoice | MGame | MGiveaway | MPassport | MService

  function MessageTypeValue(t: MessageType): string
  {
    match t
    case MText => "text"
    case MPhoto => "photo"
    case MAudio => "audio"
    case MDocument => "document"
    case MVideo => "video"
    case MAnimation => "animation"
    case MVoice => "voice"
    case MVideoNote => "video_note"
    case MPaidMedia => "paid_media"
    case MLocation => "location"
    case MVenue => "venue"
    case MContact => "contact"
    case MPoll => "poll"
    case MChecklist => "checklist"
    case MDice => "dice"
    case MSticker => "sticker"
    case MStory => "story"
    case MInvoice => "invoice"
    case MGame => "game"
    case MGiveaway => "giveaway"
    case MPassport => "passport"
    case MService => "service"
  }

  datatype FileType =
    | FChatPhoto | FPhoto | FAnimation | FAudio | FDocument | FVideo | FVideoNote
    | FVoice | FSticker | FPassport

  function FileTypeValue(t: FileType): string
  {
    match t
    case FChatPhoto => "chat_photo"
    case FPhoto => "photo"
    case FAnimation => "animation"
    case FAudio => "audio"
    case FDocument => "document"
    case FVideo => "video"
    case FVideoNote => "video_note"
    case FVoice => "voice"
    case FSticker => "sticker"
    case FPassport => "passport"
  }

  /** The `type` column of a row returned by the existence check. */
  datatype EntityCheckResultType = CheckChat | CheckUser | CheckMessage | CheckFile

  // Limits from the settings object (their default values).
  const MAX_USER_SESSIONS: nat := 30
  const MAX_USER_BOTS: nat := 10
  const MAX_USER_BOT_LINKS: nat := 30
  const OTP_LENGTH: nat := 6
  /** Minutes an OTP stays valid. */
  const OTP_TTL: nat := 60
  const ACCESS_TOKEN_EXPIRES_MINUTES: nat := 15
  const REFRESH_TOKEN_EXPIRES_DAYS: nat := 30
}
