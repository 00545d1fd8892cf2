// app/services/telegram/bots.py: the access decisions around a stored bot, the rebuilt
// Bot API token, the link counts and the trimming of a bot's links.

module BotsService {

  import opened Wrappers
  import opened Text
  import opened Enums
  import opened MessageModel
  import opened Db

  const BOT_NOT_FOUND: Error := HttpError(404, "Bot not found")
  const FORBIDDEN: Error := HttpError(403, "Forbidden")
  const NO_CHAT_ACCESS: Error := HttpError(404, "Chat not found or no accessible messages")
  const NO_FILE_ACCESS: Error := HttpError(404, "File not found or bot does not have access to it")

  // --- the rebuilt token ---------------------------------------------------------------------

  /** `f"{bot_id}:{decrypt(token)}"`: the token the Bot API client is built with. */
  function BotToken(botId: int, sealed: Sealed): (r: string)
    ensures BeforeFirst(r, ':') == IntToString(botId)
    ensures AfterFirst(r, ':') == Some(Decrypt(sealed))
  {
    IntToStringChars(botId, ':');
    PartitionAt(IntToString(botId), ':', Decrypt(sealed));
    IntToString(botId) + ":" + Decrypt(sealed)
  }

  /**
   * Storing the part of a token after its first ':' and rebuilding it from the bot id gives
   * the token back, whenever the part before the ':' is the bot id as `str` writes it.
   */
  lemma StoredTokenRebuilds(token: string, botId: int)
    requires ':' in token && BeforeFirst(token, ':') == IntToString(botId)
    ensures BotToken(botId, Encrypt(AfterFirst(token, ':').value)) == token
  {
  }

  // --- link counts ------------------------------------------------------------------------------

  /** The links of one account (`get_user_bots_count` counts them). */
  function UserLinks(userBots: map<UserBotKey, UserBotRow>, userId: int): (r: set<UserBotKey>)
    ensures forall k :: k in r <==> k in userBots && k.userId == userId
  {
    set k | k in userBots && k.userId == userId
  }

  /** The links of one bot (`get_bot_users_count` counts them). */
  function BotLinks(userBots: map<UserBotKey, UserBotRow>, botId: int): (r: set<UserBotKey>)
    ensures forall k :: k in r <==> k in userBots && k.botId == botId
  {
    set k | k in userBots && k.botId == botId
  }

  // --- access decisions -------------------------------------------------------------------------

  /**
   * `get_user_bot`: the caller's role on an existing bot (none for an admin without a link);
   * a missing bot is a 404 for admins and a 403 for everyone else, as is a missing link.
   */
  function GetUserBot(bots: map<int, BotRow>, userBots: map<UserBotKey, UserBotRow>, botId: int, user: AuthorizedUser)
    : (r: Result<Option<UserBotRole>>)
    ensures r.Ok? <==> botId in bots && (IsAdminRole(user.role) || UserBotKey(user.id, botId) in userBots)
    ensures r.Ok? && UserBotKey(user.id, botId) in userBots ==> r.value == Some(userBots[UserBotKey(user.id, botId)].role)
    ensures r.Ok? && UserBotKey(user.id, botId) !in userBots ==> r.value.None?
    ensures r.Err? ==> r.error == (if botId !in bots && IsAdminRole(user.role) then BOT_NOT_FOUND else FORBIDDEN)
  {
    if botId !in bots then
      if IsAdminRole(user.role) then Err(BOT_NOT_FOUND) else Err(FORBIDDEN)
    else
      var key := UserBotKey(user.id, botId);
      var role := if key in userBots then Some(userBots[key].role) else None;
      if role.None? && !IsAdminRole(user.role) then Err(FORBIDDEN) else Ok(role)
  }

  /**
   * The owner check of `delete_bot` and the three webhook routes: `get_user_bot`, then a
   * 403 unless the caller owns the bot or is an admin.
   */
  function RequireOwner(bots: map<int, BotRow>, userBots: map<UserBotKey, UserBotRow>, botId: int, user: AuthorizedUser)
    : (r: Result<()>)
  {
    var role :- GetUserBot(bots, userBots, botId, user);
    if role != Some(Owner) && !IsAdminRole(user.role) then Err(FORBIDDEN) else Ok(())
  }

  /** The owner check passes exactly for admins on an existing bot and for the bot's owner. */
  lemma RequireOwnerMeans(bots: map<int, BotRow>, userBots: map<UserBotKey, UserBotRow>, botId: int, user: AuthorizedUser)
    ensures var key := UserBotKey(user.id, botId);
      RequireOwner(bots, userBots, botId, user).Ok? <==>
        botId in bots && (IsAdminRole(user.role) || (key in userBots && userBots[key].role == Owner))
    ensures RequireOwner(bots, userBots, botId, user).Err? ==>
      RequireOwner(bots, userBots, botId, user).error == (if botId !in bots && IsAdminRole(user.role) then BOT_NOT_FOUND else FORBIDDEN)
  {
  }

  /** `get_bot_by_id`: an admin needs only the bot (else 404), anyone else a link to it (else 403). */
  function GetBotById(bots: map<int, BotRow>, userBots: map<UserBotKey, UserBotRow>, botId: int, user: AuthorizedUser)
    : (r: Result<string>)
    ensures r.Ok? ==> botId in bots && r.value == BotToken(botId, bots[botId].token)
  {
    if IsAdminRole(user.role) then
      if botId in bots then Ok(BotToken(botId, bots[botId].token)) else Err(BOT_NOT_FOUND)
    else if botId in bots && UserBotKey(user.id, botId) in userBots then Ok(BotToken(botId, bots[botId].token))
    else Err(FORBIDDEN)
  }

  /** `get_bot_by_id` and `get_user_bot` take the same access decision with the same errors. */
  lemma GetBotByIdAgrees(bots: map<int, BotRow>, userBots: map<UserBotKey, UserBotRow>, botId: int, user: AuthorizedUser)
    ensures GetBotById(bots, userBots, botId, user).Ok? <==> GetUserBot(bots, userBots, botId, user).Ok?
    ensures GetBotById(bots, userBots, botId, user).Err? ==>
      GetBotById(bots, userBots, botId, user).error == GetUserBot(bots, userBots, botId, user).error
  {
  }

  /** The rebuilt token of a bot by id carries the stored secret after the bot id. */
  lemma GetBotByIdToken(bots: map<int, BotRow>, userBots: map<UserBotKey, UserBotRow>, botId: int, user: AuthorizedUser)
    requires GetBotById(bots, userBots, botId, user).Ok?
    ensures var token := GetBotById(bots, userBots, botId, user).value;
      ParseInt(BeforeFirst(token, ':')) == Some(botId) && AfterFirst(token, ':') == Some(Decrypt(bots[botId].token))
  {
    ParseIntToString(botId);
  }

  // --- the newest row ------------------------------------------------------------------------------

  /** `k` has the largest stamp among `among` (`ORDER BY ... DESC LIMIT 1`; ties are open). */
  ghost predicate NewestIn<K>(stamp: map<K, int>, among: set<K>, k: K)
    requires among <= stamp.Keys
  {
    k in among && forall x :: x in among ==> stamp[x] <= stamp[k]
  }

  /** The row with the largest stamp, found by visiting the set once. */
  method Latest<K>(stamp: map<K, int>, among: set<K>) returns (k: K)
    requires among != {} && among <= stamp.Keys
    ensures NewestIn(stamp, among, k)
  {
    k :| k in among;
    var rest := among - {k};
    while rest != {}
      decreases |rest|
      invariant rest <= among && k in among
      invariant forall x :: x in among && x !in rest ==> stamp[x] <= stamp[k]
    {
      var x :| x in rest;
      if stamp[x] > stamp[k] {
        k := x;
      }
      rest := rest - {x};
    }
  }

  /** The row with the smallest stamp, found by visiting the set once. */
  method Earliest<K>(stamp: map<K, int>, among: set<K>) returns (k: K)
    requires among != {} && among <= stamp.Keys
    ensures k in among && forall x :: x in among ==> stamp[k] <= stamp[x]
  {
    k :| k in among;
    var rest := among - {k};
    while rest != {}
      decreases |rest|
      invariant rest <= among && k in among
      invariant forall x :: x in among && x !in rest ==> stamp[k] <= stamp[x]
    {
      var x :| x in rest;
      if stamp[x] < stamp[k] {
        k := x;
      }
      rest := rest - {x};
    }
  }

  /** The bot links the caller may use: all for an admin, else those of linked bots. */
  predicate MayUse(userBots: map<UserBotKey, UserBotRow>, user: AuthorizedUser, botId: int)
  {
    IsAdminRole(user.role) || UserBotKey(user.id, botId) in userBots
  }

  /** The bot-message rows `get_bot_by_chat` chooses from. */
  function ChatSenders(db: Database, chat: int, user: AuthorizedUser): (r: set<BotMessageKey>)
    reads db
    ensures r <= db.botMessages.Keys
    ensures forall k :: k in r ==> k.botId in db.bots
  {
    set k | k in db.botMessages && k.msg.chatId == chat && k.botId in db.bots && MayUse(db.userBots, user, k.botId)
  }

  /**
   * `get_bot_by_chat`: the bot that recorded a message of the chat most recently, among the
   * caller's bots unless admin, and its token; 404 when there is none.
   */
  method GetBotByChat(db: Database, chat: int, user: AuthorizedUser) returns (r: Result<(int, string)>)
    ensures r.Err? <==> ChatSenders(db, chat, user) == {}
    ensures r.Err? ==> r.error == NO_CHAT_ACCESS
    ensures r.Ok? ==> r.value.0 in db.bots && r.value.1 == BotToken(r.value.0, db.bots[r.value.0].token)
    ensures r.Ok? ==> exists k :: NewestIn(db.botMessages, ChatSenders(db, chat, user), k) && k.botId == r.value.0
  {
    var senders := ChatSenders(db, chat, user);
    if senders == {} {
      return Err(NO_CHAT_ACCESS);
    }
    var k := Latest(db.botMessages, senders);
    r := Ok((k.botId, BotToken(k.botId, db.bots[k.botId].token)));
  }

  /** The bot-file rows `get_file_and_bot_token` chooses from (a falsy bot id filters nothing). */
  function FileHolders(db: Database, fileUniqueId: string, user: AuthorizedUser, botId: Option<int>): (r: set<BotFileKey>)
    reads db
    ensures r <= db.botFiles.Keys
    ensures forall k :: k in r ==> k.botId in db.bots && k.fileUniqueId == fileUniqueId
    ensures forall k :: k in r && botId.Some? && botId.value != 0 ==> k.botId == botId.value
  {
    set k | k in db.botFiles && k.fileUniqueId == fileUniqueId && k.botId in db.bots && MayUse(db.userBots, user, k.botId)
      && (botId.None? || botId.value == 0 || k.botId == botId.value)
  }

  /** The file rows' stamps. */
  function FileStamps(botFiles: map<BotFileKey, BotFileRow>): (r: map<BotFileKey, int>)
    ensures r.Keys == botFiles.Keys && forall k :: k in r ==> r[k] == botFiles[k].timestamp
  {
    map k | k in botFiles :: botFiles[k].timestamp
  }

  /**
   * `get_file_and_bot_token`: the newest record of the file by a bot the caller may use (the
   * given one when a bot id is given), with that bot's sealed token; 404 when there is none.
   */
  method GetFileAndBotToken(db: Database, fileUniqueId: string, user: AuthorizedUser, botId: Option<int>)
    returns (r: Result<(BotFileKey, BotFileRow, Sealed)>)
    ensures r.Err? <==> FileHolders(db, fileUniqueId, user, botId) == {}
    ensures r.Err? ==> r.error == NO_FILE_ACCESS
    ensures r.Ok? ==> NewestIn(FileStamps(db.botFiles), FileHolders(db, fileUniqueId, user, botId), r.value.0)
    ensures r.Ok? ==> (r.value.0 in db.botFiles && r.value.1 == db.botFiles[r.value.0]
      && r.value.0.botId in db.bots && r.value.2 == db.bots[r.value.0.botId].token)
  {
    var holders := FileHolders(db, fileUniqueId, user, botId);
    if holders == {} {
      return Err(NO_FILE_ACCESS);
    }
    var k := Latest(FileStamps(db.botFiles), holders);
    r := Ok((k, db.botFiles[k], db.bots[k.botId].token));
  }

  // --- remove_extra_bot_links ----------------------------------------------------------------------

  /** The links' update times. */
  function LinkStamps(userBots: map<UserBotKey, UserBotRow>): (r: map<UserBotKey, int>)
    ensures r.Keys == userBots.Keys && forall k :: k in r ==> r[k] == userBots[k].updatedAt
  {
    map k | k in userBots :: userBots[k].updatedAt
  }

  /**
   * What trimming a bot's links to `limit` leaves: a sub-map of the links that keeps every
   * link of other bots, keeps `limit` links of the bot (all when it has fewer), and never
   * keeps a link older than one it removes.
   */
  ghost predicate Trimmed(before: map<UserBotKey, UserBotRow>, after: map<UserBotKey, UserBotRow>, botId: int, limit: nat)
  {
    after.Keys <= before.Keys && (forall k :: k in after ==> after[k] == before[k])
    && (forall k :: k in before && k.botId != botId ==> k in after)
    && |BotLinks(after, botId)| == (if |BotLinks(before, botId)| < limit then |BotLinks(before, botId)| else limit)
    && (forall k, d :: k in BotLinks(after, botId) && d in BotLinks(before, botId) && d !in after ==>
          before[d].updatedAt <= before[k].updatedAt)
  }

  /** `remove_extra_bot_links`: delete the bot's links past the `limit` most recently updated. */
  method RemoveExtraBotLinks(db: Database, botId: int, limit: nat)
    modifies db`userBots
    ensures Trimmed(old(db.userBots), db.userBots, botId, limit)
  {
    ghost var before := db.userBots;
    var links := BotLinks(db.userBots, botId);
    while |links| > limit
      decreases |links|
      invariant links == BotLinks(db.userBots, botId)
      invariant db.userBots.Keys <= before.Keys && forall k :: k in db.userBots ==> db.userBots[k] == before[k]
      invariant forall k :: k in before && k.botId != botId ==> k in db.userBots
      invariant links == BotLinks(before, botId) || |links| >= limit
      invariant forall k, d :: k in links && d in BotLinks(before, botId) && d !in db.userBots ==>
        before[d].updatedAt <= before[k].updatedAt
    {
      var oldest := Earliest(LinkStamps(db.userBots), links);
      assert BotLinks(db.userBots - {oldest}, botId) == links - {oldest};
      db.userBots := db.userBots - {oldest};
      links := links - {oldest};
    }
  }

  /** After trimming to `limit` the bot has at most `limit` links. */
  lemma TrimmedBound(before: map<UserBotKey, UserBotRow>, after: map<UserBotKey, UserBotRow>, botId: int, limit: nat)
    requires Trimmed(before, after, botId, limit)
    ensures |BotLinks(after, botId)| <= limit
    ensures forall u :: UserLinks(after, u) <= UserLinks(before, u)
  {
  }
}
