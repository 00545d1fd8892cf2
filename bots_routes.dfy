// app/routes/telegram/bots.py: registering or taking over a bot, deleting it, the
// membership routes, the owner-only webhook routes and the webhook receiver.

module BotsRoutes {

  import opened Wrappers
  import opened Json
  import opened Text
  import opened Enums
  import opened Db
  import opened Utils
  import opened BotsService
  import opened TgLogger

  const TG_API_ERROR: Error := HttpError(400, "Telegram API error")
  const USER_NOT_FOUND: Error := HttpError(404, "User not found")
  const SELF_MEMBERSHIP: Error := HttpError(400, "You cannot modify your own bot membership/role")
  const TARGET_BANNED: Error := HttpError(400, "Target user is banned")
  const SAME_ROLE: Error := HttpError(409, "User already has that role")
  const TARGET_FULL: Error := HttpError(403, "Forbidden. Already have max amount of bots.")
  const BOT_FULL: Error := HttpError(403, "Forbidden. Bot already have max amount of users.")
  const NO_LINK: Error := HttpError(404, "User to bot relationship not found")
  const OWNER_STAYS: Error := HttpError(409, "Owner can not be removed. Transfer ownership or delete bot.")
  const NO_WEBHOOK: Error := HttpError(404, "Webhook not found")
  const INVALID_TOKEN: Error := HttpError(401, "Invalid token")

  /** The 403 of a caller who already has `MAX_USER_BOTS` bots. */
  function TooManyBots(): Error
  {
    HttpError(403, "Forbidden. You already have max amount of bots: " + IntToString(MAX_USER_BOTS))
  }

  // --- owners -------------------------------------------------------------------------------------

  /** The OWNER links of a bot. */
  function Owners(userBots: map<UserBotKey, UserBotRow>, botId: int): (r: set<UserBotKey>)
    ensures forall k :: k in r <==> k in userBots && k.botId == botId && userBots[k].role == Owner
  {
    set k | k in userBots && k.botId == botId && userBots[k].role == Owner
  }

  /** The membership invariant: a bot has at most one owner. */
  predicate AtMostOneOwner(userBots: map<UserBotKey, UserBotRow>, botId: int)
  {
    forall a, b :: a in Owners(userBots, botId) && b in Owners(userBots, botId) ==> a == b
  }

  /** A link whose role is set: rewritten (and its update time refreshed) only when the role changes. */
  function Touch(row: UserBotRow, role: UserBotRole, now: int): (r: UserBotRow)
    ensures r.role == role
    ensures row.role == role ==> r == row
    ensures row.role != role ==> r.updatedAt == now
  {
    if row.role == role then row else UserBotRow(role, now)
  }

  /** The role a link of the bot gets in the takeover loop: the caller's becomes OWNER, other owners VIEWER. */
  function TakenOver(row: UserBotRow, k: UserBotKey, userId: int, now: int): (r: UserBotRow)
  {
    if k.userId == userId then Touch(row, Owner, now)
    else if row.role == Owner then Touch(row, Viewer, now)
    else row
  }

  /** The links after the takeover loop of `create_or_transfer_bot`. */
  function Transferred(userBots: map<UserBotKey, UserBotRow>, botId: int, userId: int, now: int): (r: map<UserBotKey, UserBotRow>)
    ensures r.Keys == userBots.Keys
    ensures forall k :: k in userBots && k.botId != botId ==> r[k] == userBots[k]
  {
    map k | k in userBots :: if k.botId == botId then TakenOver(userBots[k], k, userId, now) else userBots[k]
  }

  /** After the takeover the caller's link is the bot's only owner, and there is none without it. */
  lemma TransferredOwners(userBots: map<UserBotKey, UserBotRow>, botId: int, userId: int, now: int)
    ensures Owners(Transferred(userBots, botId, userId, now), botId)
      == (if UserBotKey(userId, botId) in userBots then {UserBotKey(userId, botId)} else {})
    ensures forall k :: k in userBots && k.botId == botId && k.userId != userId ==>
      (Transferred(userBots, botId, userId, now)[k].role == Viewer || userBots[k].role == Viewer)
  {
    var t := Transferred(userBots, botId, userId, now);
    var key := UserBotKey(userId, botId);
    forall k | k in Owners(t, botId) ensures k == key {
      assert t[k] == TakenOver(userBots[k], k, userId, now);
    }
    if key in userBots {
      assert t[key] == TakenOver(userBots[key], key, userId, now);
    }
  }

  /** Joining a trimmed owner-less bot as its owner leaves the joiner its only owner. */
  lemma JoinedOwners(before: map<UserBotKey, UserBotRow>, mid: map<UserBotKey, UserBotRow>, botId: int, userId: int,
                     limit: nat, now: int)
    requires Trimmed(before, mid, botId, limit) && Owners(before, botId) == {}
    ensures Owners(mid[UserBotKey(userId, botId) := UserBotRow(Owner, now)], botId) == {UserBotKey(userId, botId)}
  {
    var key := UserBotKey(userId, botId);
    var after := mid[key := UserBotRow(Owner, now)];
    forall k | k in Owners(after, botId) ensures k == key {
      if k != key {
        assert false;
      }
    }
  }

  /** Joining a trimmed bot adds at most one link to it and leaves the other bots' links alone. */
  lemma JoinedLinks(before: map<UserBotKey, UserBotRow>, mid: map<UserBotKey, UserBotRow>, botId: int, userId: int,
                    limit: nat, now: int)
    requires Trimmed(before, mid, botId, limit)
    ensures var after := mid[UserBotKey(userId, botId) := UserBotRow(Owner, now)];
      |BotLinks(after, botId)| <= limit + 1
      && forall k: UserBotKey :: k.botId != botId ==> ((k in after <==> k in before) && (k in after ==> after[k] == before[k]))
  {
    var key := UserBotKey(userId, botId);
    var after := mid[key := UserBotRow(Owner, now)];
    assert BotLinks(after, botId) <= BotLinks(mid, botId) + {key};
    SubsetSize(BotLinks(after, botId), BotLinks(mid, botId) + {key});
  }

  // --- create_or_transfer_bot ------------------------------------------------------------------

  /** What `get_me` answers for the token (the booleans already coerced with `bool`). */
  datatype Me = Me(
    id: int, firstName: Json, lastName: Json, username: string, isPremium: bool, isBot: Json,
    canJoinGroups: bool, canReadAllGroupMessages: bool, supportsInlineQueries: bool,
    canConnectToBusiness: bool, hasMainWebApp: bool)

  /** The bot row written from `get_me` and the sealed secret half of the token. */
  function BotRowOf(me: Me, token: string): (r: BotRow)
    requires ':' in token
    ensures Decrypt(r.token) == AfterFirst(token, ':').value
  {
    BotRow(Encrypt(AfterFirst(token, ':').value), me.canJoinGroups, me.canReadAllGroupMessages,
      me.supportsInlineQueries, me.canConnectToBusiness, me.hasMainWebApp)
  }

  /** The Telegram user row of a bot seen for the first time. */
  function NewBotUser(me: Me): TgUserRow
  {
    TgUserRow(me.firstName, me.lastName, JStr(me.username), JNull, me.isPremium, me.isBot)
  }

  /** A known Telegram user renamed from `get_me`: only the three name fields change. */
  function RenamedBot(row: TgUserRow, me: Me): (r: TgUserRow)
    ensures r.firstName == me.firstName && r.lastName == me.lastName && r.username == JStr(me.username)
    ensures r.languageCode == row.languageCode && r.isPremium == row.isPremium && r.isBot == row.isBot
  {
    row.(firstName := me.firstName, lastName := me.lastName, username := JStr(me.username))
  }

  /** The takeover loop over the bot's links; says whether the caller already had one. */
  method TakeOverLinks(db: Database, botId: int, userId: int) returns (mine: bool)
    modifies db`userBots
    ensures mine <==> UserBotKey(userId, botId) in old(db.userBots)
    ensures db.userBots == Transferred(old(db.userBots), botId, userId, db.now)
  {
    ghost var start := db.userBots;
    var links := BotLinks(db.userBots, botId);
    mine := false;
    while links != {}
      decreases |links|
      invariant links <= BotLinks(start, botId)
      invariant db.userBots.Keys == start.Keys
      invariant forall k :: k in start ==> (db.userBots[k] ==
        (if k.botId == botId && k !in links then TakenOver(start[k], k, userId, db.now) else start[k]))
      invariant mine <==> UserBotKey(userId, botId) in start && UserBotKey(userId, botId) !in links
    {
      var k :| k in links;
      var row := db.userBots[k];
      if k.userId == userId {
        db.userBots := db.userBots[k := Touch(row, Owner, db.now)];
        mine := true;
      } else if row.role == Owner {
        db.userBots := db.userBots[k := Touch(row, Viewer, db.now)];
      }
      links := links - {k};
    }
    assert db.userBots == Transferred(start, botId, userId, db.now);
  }

  /** Trim the bot's links to leave room for one more, then link the caller as OWNER. */
  method JoinAsNewOwner(db: Database, botId: int, userId: int) returns (ghost mid: map<UserBotKey, UserBotRow>)
    modifies db`userBots
    ensures Trimmed(old(db.userBots), mid, botId, MAX_USER_BOT_LINKS - 1)
    ensures db.userBots == mid[UserBotKey(userId, botId) := UserBotRow(Owner, db.now)]
  {
    RemoveExtraBotLinks(db, botId, MAX_USER_BOT_LINKS - 1);
    mid := db.userBots;
    db.userBots := db.userBots[UserBotKey(userId, botId) := UserBotRow(Owner, db.now)];
  }

  /**
   * `create_or_transfer_bot`, given what `get_me` answers (None when it raises): a bot seen
   * for the first time is stored with its Telegram user and the caller as its owner; a known
   * one is taken over: the caller's link becomes OWNER, every other owner a VIEWER, the
   * caller is linked when not yet (within the bot cap), and the flags, the token and the
   * names are overwritten. A refused request changes nothing.
   */
  method CreateOrTransferBot(db: Database, user: AuthorizedUser, token: string, me: Option<Me>) returns (r: Result<()>)
    requires ':' in token
    modifies db`tgUsers, db`bots, db`userBots
    ensures me.None? ==> r == Err(TG_API_ERROR)
    ensures me.Some? ==> (r.Err? <==> (|UserLinks(old(db.userBots), user.id)| >= MAX_USER_BOTS
      && (me.value.id !in old(db.tgUsers) || UserBotKey(user.id, me.value.id) !in old(db.userBots))))
    ensures me.Some? && r.Err? ==> r.error == TooManyBots()
    ensures r.Err? ==> db.tgUsers == old(db.tgUsers) && db.bots == old(db.bots) && db.userBots == old(db.userBots)
    ensures r.Ok? ==> me.Some? && db.bots == old(db.bots)[me.value.id := BotRowOf(me.value, token)]
    ensures r.Ok? ==> db.tgUsers == old(db.tgUsers)[me.value.id :=
      if me.value.id in old(db.tgUsers) then RenamedBot(old(db.tgUsers)[me.value.id], me.value) else NewBotUser(me.value)]
    ensures r.Ok? ==> forall k: UserBotKey :: k.botId != me.value.id ==>
      ((k in db.userBots <==> k in old(db.userBots)) && (k in db.userBots ==> db.userBots[k] == old(db.userBots)[k]))
    ensures r.Ok? && (me.value.id in old(db.tgUsers) || Owners(old(db.userBots), me.value.id) == {}) ==>
      Owners(db.userBots, me.value.id) == {UserBotKey(user.id, me.value.id)}
    ensures r.Ok? && UserBotKey(user.id, me.value.id) !in old(db.userBots) ==>
      |BotLinks(db.userBots, me.value.id)| <= MAX_USER_BOT_LINKS
  {
    if me.None? {
      return Err(TG_API_ERROR);
    }
    var m := me.value;
    var row := BotRowOf(m, token);
    if m.id !in db.tgUsers {
      if |UserLinks(db.userBots, user.id)| >= MAX_USER_BOTS {
        return Err(TooManyBots());
      }
      db.tgUsers := db.tgUsers[m.id := NewBotUser(m)];
      db.bots := db.bots[m.id := row];
      ghost var before := db.userBots;
      ghost var mid := JoinAsNewOwner(db, m.id, user.id);
      JoinedLinks(before, mid, m.id, user.id, MAX_USER_BOT_LINKS - 1, db.now);
      if Owners(before, m.id) == {} {
        JoinedOwners(before, mid, m.id, user.id, MAX_USER_BOT_LINKS - 1, db.now);
      }
      return Ok(());
    }
    ghost var before := db.userBots;
    var saved := db.userBots;
    var mine := TakeOverLinks(db, m.id, user.id);
    TransferredOwners(before, m.id, user.id, db.now);
    if !mine {
      if |UserLinks(db.userBots, user.id)| >= MAX_USER_BOTS {
        assert UserLinks(db.userBots, user.id) == UserLinks(before, user.id);
        db.userBots := saved;
        return Err(TooManyBots());
      }
      ghost var taken := db.userBots;
      ghost var mid := JoinAsNewOwner(db, m.id, user.id);
      JoinedLinks(taken, mid, m.id, user.id, MAX_USER_BOT_LINKS - 1, db.now);
      JoinedOwners(taken, mid, m.id, user.id, MAX_USER_BOT_LINKS - 1, db.now);
    } else {
      assert UserLinks(db.userBots, user.id) == UserLinks(before, user.id);
    }
    db.bots := db.bots[m.id := row];
    db.tgUsers := db.tgUsers[m.id := RenamedBot(db.tgUsers[m.id], m)];
    r := Ok(());
  }

  // --- delete_bot -------------------------------------------------------------------------------------

  /**
   * `delete_bot`: the owner check, then the bot row goes, and with it (by the cascading
   * foreign keys) its links, its webhook and its message and file records.
   */
  method DeleteBot(db: Database, user: AuthorizedUser, botId: int) returns (r: Result<()>)
    modifies db`bots, db`userBots, db`webhooks, db`botMessages, db`botFiles
    ensures r == RequireOwner(old(db.bots), old(db.userBots), botId, user)
    ensures r.Err? ==> (db.bots == old(db.bots) && db.userBots == old(db.userBots) && db.webhooks == old(db.webhooks)
      && db.botMessages == old(db.botMessages) && db.botFiles == old(db.botFiles))
    ensures r.Ok? ==> (db.bots == old(db.bots) - {botId} && db.webhooks == old(db.webhooks) - {botId}
      && db.userBots == (map k | k in old(db.userBots) && k.botId != botId :: old(db.userBots)[k])
      && db.botMessages == (map k | k in old(db.botMessages) && k.botId != botId :: old(db.botMessages)[k])
      && db.botFiles == (map k | k in old(db.botFiles) && k.botId != botId :: old(db.botFiles)[k]))
  {
    r := RequireOwner(db.bots, db.userBots, botId, user);
    if r.Err? {
      return;
    }
    db.bots := db.bots - {botId};
    db.webhooks := db.webhooks - {botId};
    db.userBots := map k | k in db.userBots && k.botId != botId :: db.userBots[k];
    db.botMessages := map k | k in db.botMessages && k.botId != botId :: db.botMessages[k];
    db.botFiles := map k | k in db.botFiles && k.botId != botId :: db.botFiles[k];
  }

  // --- add_bot_user -------------------------------------------------------------------------------------

  /**
   * The checks of `add_bot_user` up to the new or changed link, in the source's order:
   * the bot (404 for admins, else 403), owner or admin (403), the target (404), no change of
   * one's own membership unless admin (400), a banned target (400); then a role change of an
   * existing member (409 when it is the same role) or a new link within both caps (403).
   */
  function AddedLink(bots: map<int, BotRow>, userBots: map<UserBotKey, UserBotRow>, accounts: map<int, Account>,
                     user: AuthorizedUser, botId: int, target: Option<int>, role: UserBotRole, now: int)
    : (r: Result<map<UserBotKey, UserBotRow>>)
    ensures r.Ok? ==> target.Some? && target.value in accounts && !accounts[target.value].isBanned
    ensures r.Ok? ==> botId in bots && (IsAdminRole(user.role) || UserBotKey(user.id, botId) in Owners(userBots, botId))
    ensures r.Ok? ==> (user.id != target.value || IsAdminRole(user.role))
    ensures r.Ok? ==> var key := UserBotKey(target.value, botId);
      r.value.Keys == userBots.Keys + {key} && r.value[key].role == role
      && (forall k :: k in userBots && k != key ==> r.value[k] == userBots[k])
      && (key in userBots ==> userBots[key].role != role)
      && (key !in userBots ==> |UserLinks(userBots, target.value)| < MAX_USER_BOTS && |BotLinks(userBots, botId)| < MAX_USER_BOT_LINKS)
  {
    if botId !in bots then
      if IsAdminRole(user.role) then Err(BOT_NOT_FOUND) else Err(FORBIDDEN)
    else if !IsAdminRole(user.role) && UserBotKey(user.id, botId) !in Owners(userBots, botId) then Err(FORBIDDEN)
    else if target.None? || target.value !in accounts then Err(USER_NOT_FOUND)
    else if user.id == target.value && !IsAdminRole(user.role) then Err(SELF_MEMBERSHIP)
    else if accounts[target.value].isBanned then Err(TARGET_BANNED)
    else
      var key := UserBotKey(target.value, botId);
      if key in userBots then
        if userBots[key].role == role then Err(SAME_ROLE)
        else Ok(userBots[key := Touch(userBots[key], role, now)])
      else if |UserLinks(userBots, target.value)| >= MAX_USER_BOTS then Err(TARGET_FULL)
      else if |BotLinks(userBots, botId)| >= MAX_USER_BOT_LINKS then Err(BOT_FULL)
      else Ok(userBots[key := UserBotRow(role, now)])
  }

  /** Every owner of the bot other than `userId` demoted to VIEWER. */
  function DemoteOthers(userBots: map<UserBotKey, UserBotRow>, botId: int, userId: int, now: int): (r: map<UserBotKey, UserBotRow>)
    ensures r.Keys == userBots.Keys
    ensures forall k :: k in userBots && !(k in Owners(userBots, botId) && k.userId != userId) ==> r[k] == userBots[k]
    ensures forall k :: k in Owners(userBots, botId) && k.userId != userId ==> r[k] == Touch(userBots[k], Viewer, now)
  {
    map k | k in userBots :: if k in Owners(userBots, botId) && k.userId != userId then Touch(userBots[k], Viewer, now) else userBots[k]
  }

  /**
   * `add_bot_user` as written: only the promotion of an existing member to OWNER demotes the
   * other owner (`scalar_one_or_none` raises when there are several); a new member added as
   * OWNER demotes nobody.
   */
  function AddBotUserAsWritten(bots: map<int, BotRow>, userBots: map<UserBotKey, UserBotRow>, accounts: map<int, Account>,
                               user: AuthorizedUser, botId: int, target: Option<int>, role: UserBotRole, now: int)
    : (r: Result<map<UserBotKey, UserBotRow>>)
  {
    var linked :- AddedLink(bots, userBots, accounts, user, botId, target, role, now);
    var t := target.value;
    if role == Owner && UserBotKey(t, botId) in userBots then
      var others := Owners(linked, botId) - {UserBotKey(t, botId)};
      if |others| > 1 then Err(Raised("MultipleResultsFound"))
      else Ok(DemoteOthers(linked, botId, t, now))
    else Ok(linked)
  }

  /** `add_bot_user` as intended: whoever becomes OWNER, every other owner is demoted. */
  function AddBotUserSpec(bots: map<int, BotRow>, userBots: map<UserBotKey, UserBotRow>, accounts: map<int, Account>,
                          user: AuthorizedUser, botId: int, target: Option<int>, role: UserBotRole, now: int)
    : (r: Result<map<UserBotKey, UserBotRow>>)
  {
    var linked :- AddedLink(bots, userBots, accounts, user, botId, target, role, now);
    if role == Owner then Ok(DemoteOthers(linked, botId, target.value, now)) else Ok(linked)
  }

  /** Demoting the others of an owner leaves that owner alone. */
  lemma DemoteOthersOwners(userBots: map<UserBotKey, UserBotRow>, botId: int, userId: int, now: int)
    requires UserBotKey(userId, botId) in userBots && userBots[UserBotKey(userId, botId)].role == Owner
    ensures Owners(DemoteOthers(userBots, botId, userId, now), botId) == {UserBotKey(userId, botId)}
  {
    var d := DemoteOthers(userBots, botId, userId, now);
    assert UserBotKey(userId, botId) in Owners(d, botId);
  }

  /** The intended `add_bot_user` keeps at most one owner per bot; a new OWNER is the only one. */
  lemma AddBotUserKeepsOneOwner(bots: map<int, BotRow>, userBots: map<UserBotKey, UserBotRow>, accounts: map<int, Account>,
                                user: AuthorizedUser, botId: int, target: Option<int>, role: UserBotRole, now: int)
    requires AtMostOneOwner(userBots, botId)
    requires AddBotUserSpec(bots, userBots, accounts, user, botId, target, role, now).Ok?
    ensures var after := AddBotUserSpec(bots, userBots, accounts, user, botId, target, role, now).value;
      AtMostOneOwner(after, botId)
      && (role == Owner ==> Owners(after, botId) == {UserBotKey(target.value, botId)})
      && (forall k :: k in after && k.botId != botId ==> k in userBots && after[k] == userBots[k])
  {
    var linked := AddedLink(bots, userBots, accounts, user, botId, target, role, now).value;
    var key := UserBotKey(target.value, botId);
    if role == Owner {
      DemoteOthersOwners(linked, botId, target.value, now);
    } else {
      forall a, b | a in Owners(linked, botId) && b in Owners(linked, botId) ensures a == b {
        assert a != key && b != key;
        assert a in Owners(userBots, botId) && b in Owners(userBots, botId);
      }
    }
  }

  /** Where the bot has at most one owner and the target is already a member, both versions agree. */
  lemma AddBotUserAgreesOnMembers(bots: map<int, BotRow>, userBots: map<UserBotKey, UserBotRow>, accounts: map<int, Account>,
                                  user: AuthorizedUser, botId: int, target: Option<int>, role: UserBotRole, now: int)
    requires AtMostOneOwner(userBots, botId)
    requires target.Some? && UserBotKey(target.value, botId) in userBots
    ensures AddBotUserAsWritten(bots, userBots, accounts, user, botId, target, role, now)
      == AddBotUserSpec(bots, userBots, accounts, user, botId, target, role, now)
  {
    var linked := AddedLink(bots, userBots, accounts, user, botId, target, role, now);
    if linked.Ok? && role == Owner {
      var key := UserBotKey(target.value, botId);
      var others := Owners(linked.value, botId) - {key};
      assert others <= Owners(userBots, botId);
      AtMostOneSize(others);
    }
  }

  lemma AtMostOneSize<T>(s: set<T>)
    requires forall x, y :: x in s && y in s ==> x == y
    ensures |s| <= 1
  {
    if s != {} {
      var x :| x in s;
      assert s == {x};
    }
  }

  /** As written, adding a new member as OWNER of a bot that has an owner leaves two owners. */
  lemma AddBotUserAsWrittenTwoOwners()
    ensures var bots := map[7 := BotRow(Encrypt("s"), false, false, false, false, false)];
      var userBots := map[UserBotKey(1, 7) := UserBotRow(Owner, 0)];
      var accounts := map[2 := Account("b@x", "bbbb", false, HashPassword("Secret123"), true, RoleUser)];
      var r := AddBotUserAsWritten(bots, userBots, accounts, AuthorizedUser(1, RoleUser, true, "j"), 7, Some(2), Owner, 5);
      r.Ok? && Owners(r.value, 7) == {UserBotKey(1, 7), UserBotKey(2, 7)} && !AtMostOneOwner(r.value, 7)
  {
    var userBots := map[UserBotKey(1, 7) := UserBotRow(Owner, 0)];
    assert UserLinks(userBots, 2) == {};
    assert BotLinks(userBots, 7) == {UserBotKey(1, 7)};
    var after := userBots[UserBotKey(2, 7) := UserBotRow(Owner, 5)];
    assert UserBotKey(1, 7) in Owners(after, 7) && UserBotKey(2, 7) in Owners(after, 7);
  }

  /** `add_bot_user` on the database: the lookup of the target, then the intended update of the links. */
  method AddBotUser(db: Database, user: AuthorizedUser, botId: int, who: AccountRef, role: UserBotRole) returns (r: Result<int>)
    modifies db`userBots
    ensures var found := OneOrNone(Matching(old(db.accounts), who));
      found.Err? ==> r == Err(found.error) && db.userBots == old(db.userBots)
    ensures var found := OneOrNone(Matching(old(db.accounts), who));
      found.Ok? ==>
        var spec := AddBotUserSpec(old(db.bots), old(db.userBots), old(db.accounts), user, botId, found.value, role, db.now);
        (spec.Ok? ==> r == Ok(found.value.value) && db.userBots == spec.value)
        && (spec.Err? ==> r == Err(spec.error) && db.userBots == old(db.userBots))
  {
    var found := ScalarOneOrNone(Matching(db.accounts, who));
    if found.Err? {
      return Err(found.error);
    }
    var spec := AddBotUserSpec(db.bots, db.userBots, db.accounts, user, botId, found.value, role, db.now);
    if spec.Err? {
      return Err(spec.error);
    }
    db.userBots := spec.value;
    r := Ok(found.value.value);
  }

  // --- delete_bot_user --------------------------------------------------------------------------------

  /**
   * `delete_bot_user`: no link is a 404 for admins and a 403 otherwise; an OWNER link is never
   * removed (403 for someone else's unless admin, else 409); removing someone else's link
   * needs the caller to own the bot or be an admin (403).
   */
  function DeleteBotUserSpec(userBots: map<UserBotKey, UserBotRow>, user: AuthorizedUser, botId: int, userId: int)
    : (r: Result<map<UserBotKey, UserBotRow>>)
    ensures r.Ok? ==> r.value == userBots - {UserBotKey(userId, botId)}
  {
    var key := UserBotKey(userId, botId);
    var admin := IsAdminRole(user.role);
    if key !in userBots then
      if admin then Err(NO_LINK) else Err(FORBIDDEN)
    else if userBots[key].role == Owner then
      if user.id != userId && !admin then Err(FORBIDDEN) else Err(OWNER_STAYS)
    else if userId != user.id && !admin && UserBotKey(user.id, botId) !in Owners(userBots, botId) then Err(FORBIDDEN)
    else Ok(userBots - {key})
  }

  /**
   * A link is removed exactly when it exists, is not an OWNER link, and is the caller's own
   * or the caller owns the bot or is an admin; the owners are never touched.
   */
  lemma DeleteBotUserMeans(userBots: map<UserBotKey, UserBotRow>, user: AuthorizedUser, botId: int, userId: int)
    ensures var key := UserBotKey(userId, botId);
      DeleteBotUserSpec(userBots, user, botId, userId).Ok? <==>
        key in userBots && userBots[key].role != Owner
        && (userId == user.id || IsAdminRole(user.role) || UserBotKey(user.id, botId) in Owners(userBots, botId))
    ensures DeleteBotUserSpec(userBots, user, botId, userId).Ok? ==>
      Owners(DeleteBotUserSpec(userBots, user, botId, userId).value, botId) == Owners(userBots, botId)
  {
    var key := UserBotKey(userId, botId);
    if DeleteBotUserSpec(userBots, user, botId, userId).Ok? {
      var after := userBots - {key};
      assert forall k :: k in Owners(userBots, botId) ==> k != key;
      assert Owners(after, botId) == Owners(userBots, botId);
    }
  }

  method DeleteBotUser(db: Database, user: AuthorizedUser, botId: int, userId: int) returns (r: Result<()>)
    modifies db`userBots
    ensures var spec := DeleteBotUserSpec(old(db.userBots), user, botId, userId);
      (spec.Ok? ==> r == Ok(()) && db.userBots == spec.value)
      && (spec.Err? ==> r == Err(spec.error) && db.userBots == old(db.userBots))
  {
    var spec := DeleteBotUserSpec(db.userBots, user, botId, userId);
    if spec.Err? {
      return Err(spec.error);
    }
    db.userBots := db.userBots - {UserBotKey(userId, botId)};
    r := Ok(());
  }

  // --- webhook routes ----------------------------------------------------------------------------------

  /** A sealed optional value, kept only when it is truthy. */
  function SealIf(s: Option<string>): (r: Option<Sealed>)
    ensures r.Some? <==> s.Some? && s.value != ""
    ensures r.Some? ==> Decrypt(r.value) == s.value
  {
    if s.Some? && s.value != "" then Some(Encrypt(s.value)) else None
  }

  /**
   * `set_webhook`, given whether Telegram accepted it and the fresh secret: the owner check,
   * 400 when Telegram refuses, else the webhook row is written (inserted or overwritten).
   */
  method SetWebhook(db: Database, user: AuthorizedUser, botId: int, accepted: bool, secret: string,
                    url: Option<string>, redirectToken: Option<string>) returns (r: Result<string>)
    modifies db`webhooks
    ensures var check := RequireOwner(old(db.bots), old(db.userBots), botId, user);
      (check.Err? ==> r == Err(check.error))
      && (check.Ok? && !accepted ==> r == Err(TG_API_ERROR))
    ensures r.Err? ==> db.webhooks == old(db.webhooks)
    ensures r.Ok? ==> (r.value == "Webhook set successfully"
      && db.webhooks == old(db.webhooks)[botId := WebhookRow(Encrypt(secret), SealIf(url), SealIf(redirectToken))])
    ensures r.Ok? <==> RequireOwner(old(db.bots), old(db.userBots), botId, user).Ok? && accepted
  {
    var check := RequireOwner(db.bots, db.userBots, botId, user);
    if check.Err? {
      return Err(check.error);
    }
    if !accepted {
      return Err(TG_API_ERROR);
    }
    db.webhooks := db.webhooks[botId := WebhookRow(Encrypt(secret), SealIf(url), SealIf(redirectToken))];
    r := Ok("Webhook set successfully");
  }

  /** The dictionary of `get_webhook_info`: Telegram's answer with our redirect url and no ip address. */
  function WebhookInfoDict(info: Dict, redirect: Option<Sealed>): (r: Dict)
    ensures "ip_address" !in r
    ensures "url" in r && r["url"] == (if redirect.Some? then JStr(Decrypt(redirect.value)) else JNull)
    ensures forall k :: k in info && k != "ip_address" && k != "url" ==> k in r && r[k] == info[k]
    ensures r.Keys == (info.Keys + {"url"}) - {"ip_address"}
  {
    info["url" := if redirect.Some? then JStr(Decrypt(redirect.value)) else JNull] - {"ip_address"}
  }

  /** `get_webhook_info`, given Telegram's answer: the owner check, 404 without a webhook. */
  function GetWebhookInfo(bots: map<int, BotRow>, userBots: map<UserBotKey, UserBotRow>, webhooks: map<int, WebhookRow>,
                          user: AuthorizedUser, botId: int, info: Dict): (r: Result<Dict>)
    ensures RequireOwner(bots, userBots, botId, user).Err? ==> r == Err(RequireOwner(bots, userBots, botId, user).error)
    ensures r.Ok? <==> RequireOwner(bots, userBots, botId, user).Ok? && botId in webhooks
    ensures r.Err? && RequireOwner(bots, userBots, botId, user).Ok? ==> r.error == NO_WEBHOOK
    ensures r.Ok? ==> r.value == WebhookInfoDict(info, webhooks[botId].redirectUrl)
  {
    var _ :- RequireOwner(bots, userBots, botId, user);
    if botId !in webhooks then Err(NO_WEBHOOK) else Ok(WebhookInfoDict(info, webhooks[botId].redirectUrl))
  }

  /** `delete_webhook`, given whether Telegram accepted it: the owner check, 404 without a webhook, 400 on refusal. */
  method DeleteWebhook(db: Database, user: AuthorizedUser, botId: int, accepted: bool) returns (r: Result<()>)
    modifies db`webhooks
    ensures var check := RequireOwner(old(db.bots), old(db.userBots), botId, user);
      (check.Err? ==> r == Err(check.error))
      && (check.Ok? && botId !in old(db.webhooks) ==> r == Err(NO_WEBHOOK))
      && (check.Ok? && botId in old(db.webhooks) && !accepted ==> r == Err(TG_API_ERROR))
      && (r.Ok? <==> check.Ok? && botId in old(db.webhooks) && accepted)
    ensures r.Err? ==> db.webhooks == old(db.webhooks)
    ensures r.Ok? ==> db.webhooks == old(db.webhooks) - {botId}
  {
    var check := RequireOwner(db.bots, db.userBots, botId, user);
    if check.Err? {
      return Err(check.error);
    }
    if botId !in db.webhooks {
      return Err(NO_WEBHOOK);
    }
    if !accepted {
      return Err(TG_API_ERROR);
    }
    db.webhooks := db.webhooks - {botId};
    r := Ok(());
  }

  // --- handle_update -----------------------------------------------------------------------------------

  /** Where the update is posted next, with the secret header to send, if any. */
  datatype Redirect = Redirect(url: string, secretToken: Option<string>)

  function RedirectOf(w: WebhookRow): (r: Option<Redirect>)
    ensures r.Some? <==> w.redirectUrl.Some?
    ensures r.Some? ==> (r.value.url == Decrypt(w.redirectUrl.value)
      && r.value.secretToken == (if w.redirectToken.Some? then Some(Decrypt(w.redirectToken.value)) else None))
  {
    if w.redirectUrl.None? then None
    else Some(Redirect(Decrypt(w.redirectUrl.value), if w.redirectToken.Some? then Some(Decrypt(w.redirectToken.value)) else None))
  }

  /** The tables after the sync of one update: logged, then its edit applied; a failure keeps them. */
  function SyncSpec(t: EntityTables, update: Json, decode: Json -> Decoded, botId: int, now: int): (r: EntityTables)
    requires DecoderOk(decode)
  {
    var logged := LogDecoded(t, decode, update, botId, now);
    if logged.Err? then t else EditAll(logged.value, decode, Kept(EditOf(update)))
  }

  /** A failed sync leaves the tables as they were; a successful one adds the edit to what `log_object` stored. */
  lemma SyncSpecCases(t: EntityTables, update: Json, decode: Json -> Decoded, botId: int, now: int)
    requires DecoderOk(decode)
    ensures var logged := LogDecoded(t, decode, update, botId, now);
      (logged.Err? ==> SyncSpec(t, update, decode, botId, now) == t)
      && (logged.Ok? ==> (SyncSpec(t, update, decode, botId, now).messages.Keys == logged.value.messages.Keys
            && SyncSpec(t, update, decode, botId, now) == logged.value.(messages := SyncSpec(t, update, decode, botId, now).messages)))
  {
    var logged := LogDecoded(t, decode, update, botId, now);
    if logged.Ok? {
      EditAllKeeps(logged.value, decode, Kept(EditOf(update)));
    }
  }

  /** The sync of one update on the database: `log_object`, then the edit it carries; a failure is rolled back. */
  method SyncUpdate(db: Database, update: Json, decode: Json -> Decoded, botId: int)
    requires DecoderOk(decode)
    modifies db`tgUsers, db`tgChats, db`messages, db`files, db`botMessages, db`botFiles
    ensures db.Entities() == SyncSpec(old(db.Entities()), update, decode, botId, db.now)
  {
    ghost var t := db.Entities();
    ghost var spec := LogDecoded(t, decode, update, botId, db.now);
    var logged := LogDecodedObject(db, decode, update, botId);
    if logged.Ok? {
      ghost var mid := db.Entities();
      assert mid == spec.value;
      ApplyEdits(db, decode, Kept(EditOf(update)), botId);
      assert db.Entities() == EditAll(mid, decode, Kept(EditOf(update)));
    }
  }

  /**
   * The answer of `handle_update` before the sync: 401 without a webhook or with a wrong
   * secret header, a raise for a body that is not JSON, else 200 with where the update is
   * forwarded (the decrypted redirect url and token, when a redirect is set).
   */
  function UpdateAnswer(webhooks: map<int, WebhookRow>, botId: int, header: string, body: Option<Json>)
    : (r: Result<Option<Redirect>>)
    ensures r.Ok? <==> botId in webhooks && header == Decrypt(webhooks[botId].secretToken) && body.Some?
    ensures botId !in webhooks || header != Decrypt(webhooks[botId].secretToken) ==> r == Err(INVALID_TOKEN)
    ensures r.Err? && r != Err(INVALID_TOKEN) ==> r == Err(Raised("JSONDecodeError"))
    ensures r.Ok? ==> r.value == RedirectOf(webhooks[botId])
  {
    if botId !in webhooks || header != Decrypt(webhooks[botId].secretToken) then Err(INVALID_TOKEN)
    else if body.None? then Err(Raised("JSONDecodeError"))
    else Ok(RedirectOf(webhooks[botId]))
  }

  /**
   * `handle_update`: the answer above; when it is 200 the update is synced first
   * (`log_object`, then its edit without logging again), a failure of the sync being
   * swallowed and rolled back.
   */
  method HandleUpdate(db: Database, botId: int, header: string, body: Option<Json>, decode: Json -> Decoded)
    returns (r: Result<Option<Redirect>>)
    requires DecoderOk(decode)
    modifies db`tgUsers, db`tgChats, db`messages, db`files, db`botMessages, db`botFiles
    ensures r == UpdateAnswer(db.webhooks, botId, header, body)
    ensures r.Err? ==> db.Entities() == old(db.Entities())
    ensures r.Ok? ==> body.Some? && db.Entities() == SyncSpec(old(db.Entities()), body.value, decode, botId, db.now)
  {
    r := UpdateAnswer(db.webhooks, botId, header, body);
    if r.Ok? {
      SyncUpdate(db, body.value, decode, botId);
    }
  }
}
