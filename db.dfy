// The relational store of app/db/models as in-memory tables: one map per table, keyed by
// the table's primary key. Server-side defaults read the clock `now`.

module Db {

  import opened Wrappers
  import opened Json
  import opened Enums
  import opened MessageModel
  import opened FileModel

  /**
   * A value sealed by `crypto.encrypt_data` (AES-GCM under a key derived from the
   * deployment secret). Only its round trip matters here: decryption returns the plaintext.
   */
  datatype Sealed = Sealed(plain: string)

  function Encrypt(s: string): (r: Sealed)
    ensures Decrypt(r) == s
  {
    Sealed(s)
  }

  function Decrypt(b: Sealed): string
  {
    b.plain
  }

  /** A bcrypt hash: `verify_password(p, hash_password(q))` holds exactly when p == q. */
  datatype PasswordHash = PasswordHash(secret: string)

  function HashPassword(p: string): (r: PasswordHash)
    ensures VerifyPassword(p, r)
  {
    PasswordHash(p)
  }

  predicate VerifyPassword(p: string, h: PasswordHash)
  {
    h.secret == p
  }

  // --- Telegram entities -------------------------------------------------------------

  /** `telegram_users` (keyed by the Telegram user id). */
  datatype TgUserRow = TgUserRow(
    firstName: Json, lastName: Json, username: Json, languageCode: Json,
    isPremium: bool, isBot: Json)

  /** `telegram_chats` (keyed by the chat id). */
  datatype ChatRow = ChatRow(
    chatType: ChatType, title: Json, username: Json, firstName: Json, lastName: Json,
    isForum: bool, isDirectMessages: bool,
    personalChatId: Option<int>, parentChatId: Option<int>, pinnedMessageId: Option<int>,
    photoSmallId: Option<string>, photoBigId: Option<string>,
    otherData: Option<Dict>)

  /** `bot_messages`: the pair (bot, message); the row holds its creation time. */
  datatype BotMessageKey = BotMessageKey(botId: int, msg: MsgKey)

  /** `bot_files`: the pair (bot, file_unique_id); the row holds the bot's own file id. */
  datatype BotFileKey = BotFileKey(botId: int, fileUniqueId: string)

  datatype BotFileRow = BotFileRow(fileId: Json, timestamp: int)

  /** The six tables the entity logger writes, as one value. */
  datatype EntityTables = EntityTables(
    users: map<int, TgUserRow>,
    chats: map<int, ChatRow>,
    messages: map<MsgKey, MessageRow>,
    files: map<string, FileRow>,
    botMessages: map<BotMessageKey, int>,
    botFiles: map<BotFileKey, BotFileRow>)

  // --- Bots ---------------------------------------------------------------------------

  /** `bots` (keyed by the bot id): the sealed secret half of the token and five capability flags. */
  datatype BotRow = BotRow(
    token: Sealed, canJoinGroups: bool, canReadAllGroupMessages: bool,
    supportsInlineQueries: bool, canConnectToBusiness: bool, hasMainWebApp: bool)

  /** `bot_webhooks` (keyed by the bot id). */
  datatype WebhookRow = WebhookRow(secretToken: Sealed, redirectUrl: Option<Sealed>, redirectToken: Option<Sealed>)

  /** `user_bots`: the pair (account, bot). */
  datatype UserBotKey = UserBotKey(userId: int, botId: int)

  datatype UserBotRow = UserBotRow(role: UserBotRole, updatedAt: int)

  // --- Accounts -----------------------------------------------------------------------

  /** `users` (keyed by the account id); the password hash column is not nullable. */
  datatype Account = Account(
    email: string, username: string, isBanned: bool, passwordHash: PasswordHash,
    emailVerified: bool, role: UserRole)

  /** An account named in a request: by e-mail, or by username. */
  datatype AccountRef = ByEmail(email: string) | ByUsername(username: string)

  /** `select(User).where(field == value)`: the accounts whose looked-up column holds the value. */
  function Matching(accounts: map<int, Account>, who: AccountRef): (r: set<int>)
    ensures forall i :: i in r <==> (i in accounts &&
      (if who.ByEmail? then accounts[i].email == who.email else accounts[i].username == who.username))
  {
    set i | i in accounts && (if who.ByEmail? then accounts[i].email == who.email else accounts[i].username == who.username)
  }

  /** `sessions` (keyed by the session id). */
  datatype SessionRow = SessionRow(userId: int, refreshJti: string, accessJti: string, name: Option<string>,
                                   createdAt: int, updatedAt: int)

  /** `otp_codes` (keyed by the code's id). */
  datatype OtpRow = OtpRow(userId: int, code: string, otpType: OtpCodeType, createdAt: int)

  /** `read_messages`, keyed by (account, chat, thread); the row holds the last read message id. */
  datatype ReadKey = ReadKey(userId: int, chatId: int, threadId: int)

  /** The claims of an authorized request: the account, its role, its verification flag and the token id. */
  datatype AuthorizedUser = AuthorizedUser(id: int, role: UserRole, emailVerified: bool, jti: string)

  class Database {
    var tgUsers: map<int, TgUserRow>
    var tgChats: map<int, ChatRow>
    var messages: map<MsgKey, MessageRow>
    var files: map<string, FileRow>
    var botMessages: map<BotMessageKey, int>
    var botFiles: map<BotFileKey, BotFileRow>
    var bots: map<int, BotRow>
    var webhooks: map<int, WebhookRow>
    var userBots: map<UserBotKey, UserBotRow>
    var accounts: map<int, Account>
    var sessions: map<int, SessionRow>
    var otps: map<int, OtpRow>
    /** The revoked access-token ids (the Bloom filter, taken as exact). */
    var revoked: set<string>
    var readMarks: map<ReadKey, int>
    /** The database clock that server defaults read. */
    var now: int

    /** The entity tables as one value. */
    function Entities(): (r: EntityTables)
      reads this
      ensures r.users == tgUsers && r.chats == tgChats && r.messages == messages
      ensures r.files == files && r.botMessages == botMessages && r.botFiles == botFiles
    {
      EntityTables(tgUsers, tgChats, messages, files, botMessages, botFiles)
    }

    /** Replaces the entity tables with `t`. */
    method SetEntities(t: EntityTables)
      modifies this`tgUsers, this`tgChats, this`messages, this`files, this`botMessages, this`botFiles
      ensures Entities() == t
    {
      tgUsers, tgChats, messages, files, botMessages, botFiles :=
        t.users, t.chats, t.messages, t.files, t.botMessages, t.botFiles;
    }
  }
}
