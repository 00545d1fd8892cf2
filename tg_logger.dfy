// app/services/telegram/logger.py: what the proxy records about a Bot API call. The
// profile upserts, the full chat info, the dispatch on the method name, the synthesis of
// copied and forwarded messages, the token check and the request-merge rule.

module TgLogger {

  import opened Wrappers
  import opened Json
  import opened Enums
  import opened Text
  import opened Constants
  import opened Utils
  import opened Payload
  import opened MessageModel
  import opened FileModel
  import opened Db
  import opened EntityLogger

  // --- profiles -----------------------------------------------------------------------

  /** `User.de_json` / `Chat.de_json` need an integer `id`; anything else raises. */
  function ProfileId(d: Dict): (r: Result<int>)
    ensures r.Ok? <==> GetInt(d, "id").Some?
    ensures r.Ok? ==> d["id"] == JInt(r.value)
    ensures r.Err? ==> r.error == Raised("TypeError")
  {
    match GetInt(d, "id")
    case Some(id) => Ok(id)
    case None => Err(Raised("TypeError"))
  }

  /** The four name columns of a user row, the ones `log_me` writes. */
  function Names(row: TgUserRow): (Json, Json, Json, Json)
  {
    (row.firstName, row.lastName, row.username, row.languageCode)
  }

  /** `log_me` on a stored row: the profile's names, `is_premium` and `is_bot` kept. */
  function Renamed(row: TgUserRow, user: Dict): (r: TgUserRow)
    ensures Names(r) == Names(UserRowOf(user))
    ensures r.isPremium == row.isPremium && r.isBot == row.isBot
  {
    row.(firstName := Get(user, "first_name"), lastName := Get(user, "last_name"),
      username := Get(user, "username"), languageCode := Get(user, "language_code"))
  }

  /** `log_me`: an UPDATE by id; an unknown user stays unknown. */
  function MeUpdated(users: map<int, TgUserRow>, id: int, user: Dict): (r: map<int, TgUserRow>)
    ensures r.Keys == users.Keys
    ensures forall k :: k in users && k != id ==> r[k] == users[k]
    ensures id in users ==> r[id] == Renamed(users[id], user)
  {
    if id in users then users[id := Renamed(users[id], user)] else users
  }

  method LogMe(db: Database, id: int, user: Dict)
    modifies db`tgUsers
    ensures db.tgUsers == MeUpdated(old(db.tgUsers), id, user)
  {
    if id in db.tgUsers {
      var u := db.tgUsers[id];
      u := u.(firstName := Get(user, "first_name"), lastName := Get(user, "last_name"));
      u := u.(username := Get(user, "username"), languageCode := Get(user, "language_code"));
      db.tgUsers := db.tgUsers[id := u];
    }
  }

  /** Logging the same `getMe` answer twice is the same as logging it once. */
  lemma MeUpdatedIdempotent(users: map<int, TgUserRow>, id: int, user: Dict)
    ensures MeUpdated(MeUpdated(users, id, user), id, user) == MeUpdated(users, id, user)
  {
    if id in users {
      assert Renamed(Renamed(users[id], user), user) == Renamed(users[id], user);
    }
  }

  /** `log_me` after `log_user` of the same profile changes nothing: the names agree. */
  lemma MeAfterUser(users: map<int, TgUserRow>, id: int, user: Dict)
    ensures MeUpdated(users[id := UserRowOf(user)], id, user) == users[id := UserRowOf(user)]
  {
    assert Renamed(UserRowOf(user), user) == UserRowOf(user);
  }

  /**
   * `log_user`: an unknown user is inserted; a known one has every column overwritten with
   * the same values a fresh insert would write.
   */
  method LogUser(db: Database, id: int, user: Dict)
    modifies db`tgUsers
    ensures db.tgUsers == old(db.tgUsers)[id := UserRowOf(user)]
  {
    if id !in db.tgUsers {
      db.tgUsers := db.tgUsers[id := UserRowOf(user)];
      return;
    }
    var u := db.tgUsers[id];
    u := u.(firstName := Get(user, "first_name"), lastName := Get(user, "last_name"), username := Get(user, "username"));
    u := u.(languageCode := Get(user, "language_code"), isBot := Get(user, "is_bot"));
    u := u.(isPremium := Truthy(Get(user, "is_premium")));
    db.tgUsers := db.tgUsers[id := u];
  }

  /**
   * `log_users` over the dictionary's entries, each an id and its profile: every listed
   * user ends up with the columns of its profile, and no other user changes.
   */
  method LogUsers(db: Database, users: seq<(int, Dict)>)
    requires NoDup(Firsts(users))
    modifies db`tgUsers
    ensures db.tgUsers.Keys == old(db.tgUsers).Keys + (set i | 0 <= i < |users| :: users[i].0)
    ensures forall i :: 0 <= i < |users| ==> db.tgUsers[users[i].0] == UserRowOf(users[i].1)
    ensures forall k :: k in old(db.tgUsers) && k !in Firsts(users) ==> db.tgUsers[k] == old(db.tgUsers)[k]
  {
    var existing := db.tgUsers;
    for i := 0 to |users|
      invariant db.tgUsers.Keys == existing.Keys + (set j | 0 <= j < i :: users[j].0)
      invariant forall j :: 0 <= j < i ==> db.tgUsers[users[j].0] == UserRowOf(users[j].1)
      invariant forall k :: k in existing && k !in Firsts(users)[..i] ==> db.tgUsers[k] == existing[k]
      invariant forall j :: i <= j < |users| && users[j].0 in db.tgUsers ==> users[j].0 in existing
    {
      var (id, user) := users[i];
      assert Firsts(users)[..i + 1] == Firsts(users)[..i] + [id];
      assert forall j :: i < j < |users| ==> users[j].0 != id;
      if id !in existing {
        db.tgUsers := db.tgUsers[id := UserRowOf(user)];
      } else {
        var u := db.tgUsers[id];
        u := u.(firstName := Get(user, "first_name"), lastName := Get(user, "last_name"), username := Get(user, "username"));
        u := u.(languageCode := Get(user, "language_code"), isBot := Get(user, "is_bot"));
        u := u.(isPremium := Truthy(Get(user, "is_premium")));
        db.tgUsers := db.tgUsers[id := u];
      }
    }
    assert Firsts(users)[..|users|] == Firsts(users);
  }

  // --- chats --------------------------------------------------------------------------

  /** The seven columns `log_chats` writes. */
  function ProfileColumns(row: ChatRow): (ChatType, Json, Json, Json, Json, bool, bool)
  {
    (row.chatType, row.title, row.username, row.firstName, row.lastName, row.isForum, row.isDirectMessages)
  }

  /** The six columns only the full chat info fills. */
  function InfoColumns(row: ChatRow): (Option<int>, Option<int>, Option<int>, Option<string>, Option<string>, Option<Dict>)
  {
    (row.personalChatId, row.parentChatId, row.pinnedMessageId, row.photoSmallId, row.photoBigId, row.otherData)
  }

  /** `log_chats` on a stored row: the profile columns a fresh insert would write, the full-info columns kept. */
  function Retyped(row: ChatRow, chatType: ChatType, d: Dict): (r: ChatRow)
    requires ChatTypeOf(d) == Some(chatType)
    ensures ProfileColumns(r) == ProfileColumns(ChatRowOf(d).value)
    ensures InfoColumns(r) == InfoColumns(row)
  {
    row.(chatType := chatType, title := Get(d, "title"), username := Get(d, "username"),
      firstName := Get(d, "first_name"), lastName := Get(d, "last_name"),
      isForum := Truthy(Get(d, "is_forum")), isDirectMessages := Truthy(Get(d, "is_direct_messages")))
  }

  /** One chat of `log_chats`: `ChatType(chat.type)` raises first, then insert or overwrite. */
  function ChatUpserted(chats: map<int, ChatRow>, id: int, d: Dict): (r: Result<map<int, ChatRow>>)
    ensures r.Err? <==> ChatTypeOf(d).None?
    ensures r.Err? ==> r.error == Raised("ValueError")
    ensures r.Ok? ==> r.value.Keys == chats.Keys + {id}
    ensures r.Ok? ==> forall k :: k in chats && k != id ==> r.value[k] == chats[k]
    ensures r.Ok? ==> ProfileColumns(r.value[id]) == ProfileColumns(ChatRowOf(d).value)
    ensures r.Ok? && id in chats ==> InfoColumns(r.value[id]) == InfoColumns(chats[id])
    ensures r.Ok? && id !in chats ==> r.value[id] == ChatRowOf(d).value
  {
    match ChatTypeOf(d)
    case None => Err(Raised("ValueError"))
    case Some(ct) =>
      if id in chats then Ok(chats[id := Retyped(chats[id], ct, d)]) else Ok(chats[id := ChatRowOf(d).value])
  }

  /** `log_chats` over the dictionary's entries, in order. */
  function ChatsUpserted(chats: map<int, ChatRow>, batch: seq<(int, Dict)>): Result<map<int, ChatRow>>
  {
    if batch == [] then Ok(chats)
    else
      var m :- ChatsUpserted(chats, batch[..|batch| - 1]);
      ChatUpserted(m, batch[|batch| - 1].0, batch[|batch| - 1].1)
  }

  /** After `log_chats`: the listed chats are added, unlisted ones kept as they were. */
  ghost predicate ChatsKeyed(chats: map<int, ChatRow>, batch: seq<(int, Dict)>, m: map<int, ChatRow>)
  {
    (forall i :: 0 <= i < |batch| ==> ChatTypeOf(batch[i].1).Some?)
    && (forall k :: k in m <==> k in chats || k in Firsts(batch))
    && (forall k :: k in chats && k !in Firsts(batch) ==> m[k] == chats[k])
  }

  /** After `log_chats`: each listed chat carries the profile columns of its entry. */
  ghost predicate ChatsProfiles(batch: seq<(int, Dict)>, m: map<int, ChatRow>)
    requires forall i :: 0 <= i < |batch| ==> ChatTypeOf(batch[i].1).Some?
  {
    forall i :: 0 <= i < |batch| ==>
      (batch[i].0 in m && ProfileColumns(m[batch[i].0]) == ProfileColumns(ChatRowOf(batch[i].1).value))
  }

  /** After `log_chats`: the full-info columns are kept, and NULL for new chats. */
  ghost predicate ChatsInfo(chats: map<int, ChatRow>, m: map<int, ChatRow>)
  {
    (forall k :: k in chats ==> k in m && InfoColumns(m[k]) == InfoColumns(chats[k]))
    && (forall k :: k in m && k !in chats ==> InfoColumns(m[k]) == (None, None, None, None, None, None))
  }

  ghost predicate ChatsColumns(chats: map<int, ChatRow>, batch: seq<(int, Dict)>, m: map<int, ChatRow>)
    requires ChatsKeyed(chats, batch, m)
  {
    ChatsProfiles(batch, m) && ChatsInfo(chats, m)
  }

  ghost predicate ChatsLogged(chats: map<int, ChatRow>, batch: seq<(int, Dict)>, m: map<int, ChatRow>)
  {
    ChatsKeyed(chats, batch, m) && ChatsColumns(chats, batch, m)
  }

  /** `log_chats` fails exactly when some chat has an unknown type, and then with `ValueError`. */
  lemma {:induction false} ChatsUpsertedFails(chats: map<int, ChatRow>, batch: seq<(int, Dict)>)
    ensures var r := ChatsUpserted(chats, batch);
      (r.Err? <==> exists i :: 0 <= i < |batch| && ChatTypeOf(batch[i].1).None?)
      && (r.Err? ==> r.error == Raised("ValueError"))
  {
    if batch != [] {
      var init := batch[..|batch| - 1];
      assert forall i :: 0 <= i < |init| ==> init[i] == batch[i];
      ChatsUpsertedFails(chats, init);
    }
  }

  /** One more chat, new to the batch, keeps the logged state logged. */
  lemma ChatUpsertedStep(chats: map<int, ChatRow>, init: seq<(int, Dict)>, last: (int, Dict), m: map<int, ChatRow>)
    requires ChatsLogged(chats, init, m) && last.0 !in Firsts(init) && ChatUpserted(m, last.0, last.1).Ok?
    ensures ChatsLogged(chats, init + [last], ChatUpserted(m, last.0, last.1).value)
  {
    var batch := init + [last];
    var r := ChatUpserted(m, last.0, last.1).value;
    assert Firsts(batch) == Firsts(init) + [last.0];
    assert forall k :: k in Firsts(batch) <==> k in Firsts(init) || k == last.0;
    assert forall i :: 0 <= i < |init| ==> batch[i] == init[i];
    assert batch[|init|] == last;
    assert ChatsKeyed(chats, batch, r);
    ChatColumnsStep(chats, init, last, m, r);
  }

  lemma ChatColumnsStep(chats: map<int, ChatRow>, init: seq<(int, Dict)>, last: (int, Dict), m: map<int, ChatRow>, r: map<int, ChatRow>)
    requires ChatsLogged(chats, init, m) && last.0 !in Firsts(init) && ChatUpserted(m, last.0, last.1) == Ok(r)
    requires ChatsKeyed(chats, init + [last], r)
    ensures ChatsColumns(chats, init + [last], r)
  {
    ChatProfilesStep(chats, init, last, m, r);
    assert ChatsInfo(chats, r);
  }

  lemma ChatProfilesStep(chats: map<int, ChatRow>, init: seq<(int, Dict)>, last: (int, Dict), m: map<int, ChatRow>, r: map<int, ChatRow>)
    requires ChatsKeyed(chats, init, m) && ChatsProfiles(init, m)
    requires last.0 !in Firsts(init) && ChatUpserted(m, last.0, last.1) == Ok(r)
    requires ChatsKeyed(chats, init + [last], r)
    ensures ChatsProfiles(init + [last], r)
  {
    var batch := init + [last];
    forall i | 0 <= i < |batch|
      ensures batch[i].0 in r && ProfileColumns(r[batch[i].0]) == ProfileColumns(ChatRowOf(batch[i].1).value)
    {
      if i < |init| {
        assert batch[i] == init[i] && init[i].0 == Firsts(init)[i];
        assert init[i].0 != last.0;
      } else {
        assert batch[i] == last;
      }
    }
  }

  /**
   * When `log_chats` succeeds, every listed chat gets its profile columns, whether it was
   * new or stored; stored chats keep their full-info columns, new ones have them NULL, and
   * unlisted chats are untouched.
   */
  lemma {:induction false} ChatsUpsertedLogs(chats: map<int, ChatRow>, batch: seq<(int, Dict)>)
    requires NoDup(Firsts(batch)) && ChatsUpserted(chats, batch).Ok?
    ensures ChatsLogged(chats, batch, ChatsUpserted(chats, batch).value)
  {
    if batch == [] {
    } else {
      var init, last := batch[..|batch| - 1], batch[|batch| - 1];
      assert batch == init + [last];
      assert Firsts(init) == Firsts(batch)[..|batch| - 1];
      assert last.0 !in Firsts(init) by {
        assert Firsts(batch)[|batch| - 1] == last.0;
      }
      ChatsUpsertedLogs(chats, init);
      ChatUpsertedStep(chats, init, last, ChatsUpserted(chats, init).value);
    }
  }

  /** `log_chats` with a loop over the entries; a failure rolls the request back. */
  method LogChats(db: Database, batch: seq<(int, Dict)>) returns (r: Result<()>)
    modifies db`tgChats
    ensures var spec := ChatsUpserted(old(db.tgChats), batch);
      (spec.Ok? ==> r == Ok(()) && db.tgChats == spec.value)
      && (spec.Err? ==> r == Err(spec.error) && db.tgChats == old(db.tgChats))
  {
    var m := db.tgChats;
    for i := 0 to |batch|
      invariant ChatsUpserted(db.tgChats, batch[..i]) == Ok(m)
    {
      assert batch[..i + 1][..i] == batch[..i];
      var (id, d) := batch[i];
      var chatType := ChatTypeOf(d);
      if chatType.None? {
        assert ChatsUpserted(db.tgChats, batch[..i + 1]).Err?;
        ChatsErrStays(db.tgChats, batch, i + 1);
        return Err(Raised("ValueError"));
      }
      if id !in m {
        m := m[id := ChatRowOf(d).value];
      } else {
        m := m[id := Retyped(m[id], chatType.value, d)];
      }
    }
    assert batch[..|batch|] == batch;
    db.tgChats := m;
    r := Ok(());
  }

  /** A failure on a prefix of the batch is the failure of the whole batch. */
  lemma {:induction false} ChatsErrStays(chats: map<int, ChatRow>, batch: seq<(int, Dict)>, n: nat)
    requires n <= |batch| && ChatsUpserted(chats, batch[..n]).Err?
    ensures ChatsUpserted(chats, batch) == ChatsUpserted(chats, batch[..n])
    decreases |batch| - n
  {
    if n < |batch| {
      assert batch[..n + 1][..n] == batch[..n];
      ChatsErrStays(chats, batch, n + 1);
    } else {
      assert batch[..n] == batch;
    }
  }

  // --- full chat info ------------------------------------------------------------------

  /** A `ChatFullInfo` as the loggers read it: its id, its dictionary and its related objects. */
  datatype FullInfo = FullInfo(
    id: int, data: Dict, personal: Option<(int, Dict)>, parent: Option<(int, Dict)>,
    pinnedId: Option<int>, photo: Option<ChatPhoto>)

  /** A nested chat (`personal_chat`, `parent_chat`): absent, or an object with an integer id. */
  function NestedChat(j: Json): (r: Result<Option<(int, Dict)>>)
    ensures j == JNull ==> r == Ok(None)
    ensures r.Ok? && r.value.Some? ==> j == JObj(r.value.value.1) && GetInt(r.value.value.1, "id") == Some(r.value.value.0)
    ensures r.Err? ==> r.error == Raised("TypeError")
  {
    if j == JNull then Ok(None)
    else if j.JObj? && GetInt(j.fields, "id").Some? then Ok(Some((j.fields["id"].i, j.fields)))
    else Err(Raised("TypeError"))
  }

  /** The pinned message's id (`Message.id` is its `message_id`). */
  function PinnedId(j: Json): (r: Result<Option<int>>)
    ensures j == JNull ==> r == Ok(None)
    ensures r.Ok? && r.value.Some? ==> j.JObj? && GetInt(j.fields, "message_id") == r.value
    ensures r.Err? ==> r.error == Raised("TypeError")
  {
    if j == JNull then Ok(None)
    else if j.JObj? && GetInt(j.fields, "message_id").Some? then Ok(GetInt(j.fields, "message_id"))
    else Err(Raised("TypeError"))
  }

  /** The string under `k`, when the key holds one. */
  function StrAt(d: Dict, k: string): (r: Option<string>)
    ensures r.Some? <==> k in d && d[k].JStr?
    ensures r.Some? ==> d[k] == JStr(r.value)
  {
    if k in d && d[k].JStr? then Some(d[k].s) else None
  }

  /** The avatar: absent, or an object with the four file ids as strings. */
  function PhotoOf(j: Json): (r: Result<Option<ChatPhoto>>)
    ensures j == JNull ==> r == Ok(None)
    ensures r.Ok? && r.value.Some? ==> (j.JObj?
      && StrAt(j.fields, "small_file_unique_id") == Some(r.value.value.smallFileUniqueId)
      && StrAt(j.fields, "big_file_unique_id") == Some(r.value.value.bigFileUniqueId))
    ensures r.Err? ==> r.error == Raised("TypeError")
  {
    if j == JNull then Ok(None)
    else if !j.JObj? then Err(Raised("TypeError"))
    else
      var d := j.fields;
      if StrAt(d, "small_file_id").Some? && StrAt(d, "small_file_unique_id").Some?
        && StrAt(d, "big_file_id").Some? && StrAt(d, "big_file_unique_id").Some?
      then Ok(Some(ChatPhoto(d["small_file_id"].s, d["small_file_unique_id"].s, d["big_file_id"].s, d["big_file_unique_id"].s)))
      else Err(Raised("TypeError"))
  }

  /** `ChatFullInfo.de_json`: raises when the id or a related object is malformed. */
  function FullInfoOf(d: Dict): (r: Result<FullInfo>)
    ensures GetInt(d, "id").None? ==> r == Err(Raised("TypeError"))
    ensures r.Err? ==> r.error == Raised("TypeError")
    ensures r.Ok? ==> r.value.data == d && GetInt(d, "id") == Some(r.value.id)
    ensures r.Ok? ==> ((Get(d, "personal_chat") == JNull <==> r.value.personal.None?)
      && (Get(d, "parent_chat") == JNull <==> r.value.parent.None?)
      && (Get(d, "pinned_message") == JNull <==> r.value.pinnedId.None?)
      && (Get(d, "photo") == JNull <==> r.value.photo.None?))
  {
    var id :- ProfileId(d);
    var personal :- NestedChat(Get(d, "personal_chat"));
    var parent :- NestedChat(Get(d, "parent_chat"));
    var pinned :- PinnedId(Get(d, "pinned_message"));
    var photo :- PhotoOf(Get(d, "photo"));
    Ok(FullInfo(id, d, personal, parent, pinned, photo))
  }

  function IdOf(o: Option<(int, Dict)>): (r: Option<int>)
    ensures r.None? <==> o.None?
    ensures o.Some? ==> r.value == o.value.0
  {
    if o.Some? then Some(o.value.0) else None
  }

  /**
   * The row of `log_new_chat_full_info` and `log_chat_full_info`: the profile columns
   * `log_chats` would write, the related ids or NULL when absent, and the rest of the
   * dictionary, without the excluded fields, as overflow (an empty record, not NULL).
   */
  function FullInfoRow(info: FullInfo): (r: Result<ChatRow>)
    ensures r.Err? <==> ChatTypeOf(info.data).None?
    ensures r.Err? ==> r.error == Raised("ValueError")
    ensures r.Ok? ==> ProfileColumns(r.value) == ProfileColumns(ChatRowOf(info.data).value)
    ensures r.Ok? ==> (r.value.personalChatId == IdOf(info.personal) && r.value.parentChatId == IdOf(info.parent)
      && r.value.pinnedMessageId == info.pinnedId)
    ensures r.Ok? ==> (r.value.photoSmallId.Some? <==> info.photo.Some?) && (r.value.photoBigId.Some? <==> info.photo.Some?)
    ensures r.Ok? && info.photo.Some? ==>
      r.value.photoSmallId == Some(info.photo.value.smallFileUniqueId) && r.value.photoBigId == Some(info.photo.value.bigFileUniqueId)
    ensures r.Ok? ==> (r.value.otherData.Some?
      && r.value.otherData.value.Keys == info.data.Keys - CHAT_EXCLUDED_FIELDS
      && forall k :: k in r.value.otherData.value ==> r.value.otherData.value[k] == info.data[k])
  {
    match ChatTypeOf(info.data)
    case None => Err(Raised("ValueError"))
    case Some(ct) =>
      var d := info.data;
      Ok(ChatRow(ct, Get(d, "title"), Get(d, "username"), Get(d, "first_name"), Get(d, "last_name"),
        Truthy(Get(d, "is_forum")), Truthy(Get(d, "is_direct_messages")),
        IdOf(info.personal), IdOf(info.parent), info.pinnedId,
        if info.photo.Some? then Some(info.photo.value.smallFileUniqueId) else None,
        if info.photo.Some? then Some(info.photo.value.bigFileUniqueId) else None,
        Some(RemovedFields(d, CHAT_EXCLUDED_FIELDS, {}))))
  }

  /** `if chat.photo: insert_chat_photo_if_not_exist(...)`. */
  function PhotoStep(t: EntityTables, photo: Option<ChatPhoto>, botId: int, now: int): (r: Result<EntityTables>)
    ensures r.Ok? ==> r.value == t.(files := r.value.files, botFiles := r.value.botFiles)
    ensures photo.None? ==> r == Ok(t)
  {
    if photo.Some? then ChatPhotoSpec(t, photo.value, botId, now) else Ok(t)
  }

  /** `log_new_chat_full_info`: the avatar, then the new row, whose insert fails when the chat is stored. */
  function NewFullInfoSpec(t: EntityTables, info: FullInfo, botId: int, now: int): Result<EntityTables>
  {
    var t1 :- PhotoStep(t, info.photo, botId, now);
    var row :- FullInfoRow(info);
    if info.id in t1.chats then Err(Raised("IntegrityError")) else Ok(t1.(chats := t1.chats[info.id := row]))
  }

  /** `log_chat_full_info`: a new chat goes through `log_new_chat_full_info`; a stored one is overwritten. */
  function FullInfoSpec(t: EntityTables, info: FullInfo, botId: int, now: int): Result<EntityTables>
  {
    if info.id !in t.chats then NewFullInfoSpec(t, info, botId, now)
    else
      var t1 :- PhotoStep(t, info.photo, botId, now);
      var row :- FullInfoRow(info);
      Ok(t1.(chats := t1.chats[info.id := row]))
  }

  /**
   * Whether or not the chat was stored, `log_chat_full_info` ends with the same row: it
   * succeeds exactly when the avatar and the row can be written, and then the chat holds
   * the full-info row and nothing but the avatar's files and links changes beside it.
   */
  lemma FullInfoUpserts(t: EntityTables, info: FullInfo, botId: int, now: int)
    ensures var r := FullInfoSpec(t, info, botId, now);
      var p := PhotoStep(t, info.photo, botId, now);
      (r.Ok? <==> p.Ok? && FullInfoRow(info).Ok?)
      && (r.Ok? ==> r.value == p.value.(chats := t.chats[info.id := FullInfoRow(info).value]))
      && (r.Err? && p.Ok? ==> r.error == Raised("ValueError"))
  {
  }

  /** A stored chat's avatar ids point at stored files once its full info is logged. */
  lemma FullInfoPhotoStored(t: EntityTables, info: FullInfo, botId: int, now: int)
    requires info.photo.Some? && info.photo.value.smallFileUniqueId != info.photo.value.bigFileUniqueId
    requires FullInfoSpec(t, info, botId, now).Ok?
    ensures var r := FullInfoSpec(t, info, botId, now).value;
      info.id in r.chats && r.chats[info.id].photoSmallId.Some? && r.chats[info.id].photoBigId.Some?
      && r.chats[info.id].photoSmallId.value in r.files && r.chats[info.id].photoBigId.value in r.files
      && (BotFileKey(botId, info.photo.value.bigFileUniqueId) in r.botFiles
        <==> BotFileKey(botId, info.photo.value.bigFileUniqueId) in t.botFiles || info.photo.value.bigFileId != "")
  {
    var p := info.photo.value;
    ChatPhotoStores(t, p, botId, now);
    FullInfoUpserts(t, info, botId, now);
    var f := ChatPhotoSpec(t, p, botId, now).value;
    assert p.smallFileUniqueId in t.files || NewPhotoFile(t, p, p.smallFileUniqueId);
    assert p.bigFileUniqueId in t.files || NewPhotoFile(t, p, p.bigFileUniqueId);
    assert PhotoFileIds(p)[p.bigFileUniqueId] == p.bigFileId;
    var k := BotFileKey(botId, p.bigFileUniqueId);
    assert k in f.botFiles <==> k in t.botFiles || (k.botId == botId && NewPhotoLink(t, p, botId, k.fileUniqueId));
  }

  /** A new chat whose id is already stored cannot be added: `log_new_chat_full_info` raises. */
  lemma NewFullInfoClash(t: EntityTables, info: FullInfo, botId: int, now: int)
    requires info.id in t.chats && PhotoStep(t, info.photo, botId, now).Ok? && FullInfoRow(info).Ok?
    ensures NewFullInfoSpec(t, info, botId, now) == Err(Raised("IntegrityError"))
  {
  }

  method InsertPhotoIfAny(db: Database, photo: Option<ChatPhoto>, botId: int) returns (r: Result<()>)
    modifies db`files, db`botFiles
    ensures var spec := PhotoStep(old(db.Entities()), photo, botId, db.now);
      (spec.Ok? ==> r == Ok(()) && db.Entities() == spec.value)
      && (spec.Err? ==> r == Err(spec.error) && db.Entities() == old(db.Entities()))
  {
    r := Ok(());
    if photo.Some? {
      r := InsertChatPhotoIfNotExist(db, photo.value, botId);
    }
  }

  /** The row built column by column, as the handlers assign it. */
  method BuildFullInfoRow(info: FullInfo, ct: ChatType) returns (row: ChatRow)
    requires ChatTypeOf(info.data) == Some(ct)
    ensures FullInfoRow(info) == Ok(row)
  {
    var d := info.data;
    var other := RemoveFields(d, CHAT_EXCLUDED_FIELDS, {});
    row := ChatRow(ct, Get(d, "title"), Get(d, "username"), Get(d, "first_name"), Get(d, "last_name"),
      Truthy(Get(d, "is_forum")), Truthy(Get(d, "is_direct_messages")), None, None, None, None, None, Some(other));
    row := row.(personalChatId := IdOf(info.personal), parentChatId := IdOf(info.parent), pinnedMessageId := info.pinnedId);
    if info.photo.Some? {
      row := row.(photoSmallId := Some(info.photo.value.smallFileUniqueId), photoBigId := Some(info.photo.value.bigFileUniqueId));
    }
  }

  method LogNewChatFullInfo(db: Database, info: FullInfo, botId: int) returns (r: Result<()>)
    modifies db`tgChats, db`files, db`botFiles
    ensures var spec := NewFullInfoSpec(old(db.Entities()), info, botId, db.now);
      (spec.Ok? ==> r == Ok(()) && db.Entities() == spec.value)
      && (spec.Err? ==> r == Err(spec.error) && db.Entities() == old(db.Entities()))
  {
    var files, botFiles := db.files, db.botFiles;
    r := InsertPhotoIfAny(db, info.photo, botId);
    if r.Err? {
      return;
    }
    var ct := ChatTypeOf(info.data);
    if ct.None? {
      db.files, db.botFiles := files, botFiles;
      return Err(Raised("ValueError"));
    }
    var row := BuildFullInfoRow(info, ct.value);
    if info.id in db.tgChats {
      db.files, db.botFiles := files, botFiles;
      return Err(Raised("IntegrityError"));
    }
    db.tgChats := db.tgChats[info.id := row];
  }

  method LogChatFullInfo(db: Database, info: FullInfo, botId: int) returns (r: Result<()>)
    modifies db`tgChats, db`files, db`botFiles
    ensures var spec := FullInfoSpec(old(db.Entities()), info, botId, db.now);
      (spec.Ok? ==> r == Ok(()) && db.Entities() == spec.value)
      && (spec.Err? ==> r == Err(spec.error) && db.Entities() == old(db.Entities()))
  {
    if info.id !in db.tgChats {
      r := LogNewChatFullInfo(db, info, botId);
      return;
    }
    var files, botFiles := db.files, db.botFiles;
    r := InsertPhotoIfAny(db, info.photo, botId);
    if r.Err? {
      return;
    }
    var ct := ChatTypeOf(info.data);
    if ct.None? {
      db.files, db.botFiles := files, botFiles;
      return Err(Raised("ValueError"));
    }
    var row := BuildFullInfoRow(info, ct.value);
    db.tgChats := db.tgChats[info.id := row];
  }

  /** `fetch_new_chat_info`, given what `getChat` answers: logged as a new chat, its id returned. */
  function FetchSpec(t: EntityTables, fetched: Dict, botId: int, now: int): Result<(EntityTables, int)>
  {
    var info :- FullInfoOf(fetched);
    var t' :- NewFullInfoSpec(t, info, botId, now);
    Ok((t', info.id))
  }

  method FetchNewChatInfo(db: Database, fetched: Dict, botId: int) returns (r: Result<int>)
    modifies db`tgChats, db`files, db`botFiles
    ensures var spec := FetchSpec(old(db.Entities()), fetched, botId, db.now);
      (spec.Ok? ==> r == Ok(spec.value.1) && db.Entities() == spec.value.0)
      && (spec.Err? ==> r == Err(spec.error) && db.Entities() == old(db.Entities()))
  {
    var info := FullInfoOf(fetched);
    if info.Err? {
      return Err(info.error);
    }
    var logged := LogNewChatFullInfo(db, info.value, botId);
    if logged.Err? {
      return Err(logged.error);
    }
    r := Ok(info.value.id);
  }

  /** The `chats_to_log` dictionary: the personal chat, then the parent chat, which wins a shared id. */
  function ChatsToLog(info: FullInfo): (r: seq<(int, Dict)>)
    ensures NoDup(Firsts(r))
    ensures forall i :: 0 <= i < |r| ==> Some(r[i]) == info.personal || Some(r[i]) == info.parent
    ensures info.parent.Some? ==> info.parent.value in r
    ensures info.personal.Some? && (info.parent.None? || info.parent.value.0 != info.personal.value.0) ==> info.personal.value in r
  {
    match (info.personal, info.parent)
    case (Some(a), Some(b)) => if a.0 == b.0 then [b] else [a, b]
    case (Some(a), None) => [a]
    case (None, Some(b)) => [b]
    case (None, None) => []
  }

  /** `getChatFullInfo`: the personal and parent chats through `log_chats`, then the full info. */
  function GetChatFullInfoSpec(t: EntityTables, d: Dict, botId: int, now: int): Result<EntityTables>
  {
    var info :- FullInfoOf(d);
    var batch := ChatsToLog(info);
    var chats :- if batch == [] then Ok(t.chats) else ChatsUpserted(t.chats, batch);
    FullInfoSpec(t.(chats := chats), info, botId, now)
  }

  method LogGetChatFullInfo(db: Database, d: Dict, botId: int) returns (r: Result<()>)
    modifies db`tgChats, db`files, db`botFiles
    ensures var spec := GetChatFullInfoSpec(old(db.Entities()), d, botId, db.now);
      (spec.Ok? ==> r == Ok(()) && db.Entities() == spec.value)
      && (spec.Err? ==> r == Err(spec.error) && db.Entities() == old(db.Entities()))
  {
    var info := FullInfoOf(d);
    if info.Err? {
      return Err(info.error);
    }
    var chats := db.tgChats;
    var batch := ChatsToLog(info.value);
    if batch != [] {
      r := LogChats(db, batch);
      if r.Err? {
        return;
      }
    }
    r := LogChatFullInfo(db, info.value, botId);
    if r.Err? {
      db.tgChats := chats;
    }
  }

  // --- the Bot API objects ---------------------------------------------------------------

  /** The object graph `de_json` builds from an answer, and the handle of its top object. */
  datatype Decoded = Decoded(g: Graph, root: Handle)

  /** `de_json` as a parameter: every answer decodes to a closed graph that holds its root. */
  ghost predicate DecoderOk(decode: Json -> Decoded)
  {
    forall j :: Closed(decode(j).g) && decode(j).root in decode(j).g
  }

  /** The dictionary of a decoded message, as `update_message` reads it. */
  function DecodedData(decode: Json -> Decoded, j: Json): Dict
  {
    NodeData(decode(j).g, decode(j).root)
  }

  /** `log_object` on a decoded answer, keeping only the tables. */
  function LogDecoded(t: EntityTables, decode: Json -> Decoded, j: Json, botId: int, now: int): (r: Result<EntityTables>)
    requires DecoderOk(decode)
  {
    var logged :- LogObjectSpec(t, decode(j).g, decode(j).root, botId, now);
    Ok(logged.0)
  }

  method LogDecodedObject(db: Database, decode: Json -> Decoded, j: Json, botId: int) returns (r: Result<()>)
    requires DecoderOk(decode)
    modifies db`tgUsers, db`tgChats, db`messages, db`files, db`botMessages, db`botFiles
    ensures var spec := LogDecoded(old(db.Entities()), decode, j, botId, db.now);
      (spec.Ok? ==> r == Ok(()) && db.Entities() == spec.value)
      && (spec.Err? ==> r == Err(spec.error) && db.Entities() == old(db.Entities()))
  {
    var p := decode(j);
    var flags := LogObject(db, p.g, p.root, botId);
    if flags.Err? {
      return Err(flags.error);
    }
    r := Ok(());
  }

  // --- getUpdates ----------------------------------------------------------------------

  /** The edited message of an update: `edited_message`, else `edited_channel_post`, else `edited_business_message`. */
  function EditOf(u: Json): (r: Option<Json>)
    ensures r.Some? ==> u.JObj? && r.value != JNull
    ensures u.JObj? && Get(u.fields, "edited_message") != JNull ==> r == Some(u.fields["edited_message"])
    ensures u.JObj? && Get(u.fields, "edited_message") == JNull && Get(u.fields, "edited_channel_post") != JNull ==>
      r == Some(u.fields["edited_channel_post"])
    ensures u.JObj? && Get(u.fields, "edited_message") == JNull && Get(u.fields, "edited_channel_post") == JNull ==>
      r == (if Get(u.fields, "edited_business_message") != JNull then Some(u.fields["edited_business_message"]) else None)
  {
    if !u.JObj? then None
    else if Get(u.fields, "edited_message") != JNull then Some(u.fields["edited_message"])
    else if Get(u.fields, "edited_channel_post") != JNull then Some(u.fields["edited_channel_post"])
    else if Get(u.fields, "edited_business_message") != JNull then Some(u.fields["edited_business_message"])
    else None
  }

  /** The `updated_messages` list: at most one edit per update, in update order. */
  function Edits(items: seq<Json>): (r: seq<Json>)
    ensures |r| <= |items|
  {
    if items == [] then [] else Edits(items[..|items| - 1]) + Kept(EditOf(items[|items| - 1]))
  }

  /** The edits applied one after another with `update_message(..., skip_log=True)`. */
  function EditAll(t: EntityTables, decode: Json -> Decoded, edits: seq<Json>): (r: EntityTables)
  {
    if edits == [] then t else EditMessage(EditAll(t, decode, edits[..|edits| - 1]), DecodedData(decode, edits[|edits| - 1]))
  }

  /** `getUpdates`: the whole batch through `log_object` first, then every edit. */
  function GetUpdatesSpec(t: EntityTables, items: seq<Json>, decode: Json -> Decoded, botId: int, now: int): Result<EntityTables>
    requires DecoderOk(decode)
  {
    var logged :- LogDecoded(t, decode, JList(items), botId, now);
    Ok(EditAll(logged, decode, Edits(items)))
  }

  /** The edits never add or remove a row, and touch only the messages table. */
  lemma {:induction false} EditAllKeeps(t: EntityTables, decode: Json -> Decoded, edits: seq<Json>)
    ensures var r := EditAll(t, decode, edits);
      r.messages.Keys == t.messages.Keys && r == t.(messages := r.messages)
  {
    if edits != [] {
      EditAllKeeps(t, decode, edits[..|edits| - 1]);
    }
  }

  /** A message no edit names keeps the row `log_object` left. */
  lemma {:induction false} EditAllOthers(t: EntityTables, decode: Json -> Decoded, edits: seq<Json>, k: MsgKey)
    requires k in t.messages
    requires forall i :: 0 <= i < |edits| ==> EditKey(DecodedData(decode, edits[i])) != Some(k)
    ensures k in EditAll(t, decode, edits).messages && EditAll(t, decode, edits).messages[k] == t.messages[k]
  {
    if edits != [] {
      EditAllKeeps(t, decode, edits[..|edits| - 1]);
      EditAllOthers(t, decode, edits[..|edits| - 1], k);
    }
  }

  /** The last edit of a stored message wins. */
  lemma EditAllLast(t: EntityTables, decode: Json -> Decoded, edits: seq<Json>, k: MsgKey)
    requires edits != [] && k in t.messages && EditKey(DecodedData(decode, edits[|edits| - 1])) == Some(k)
    ensures k in EditAll(t, decode, edits).messages
    ensures EditAll(t, decode, edits).messages[k] == PrepareMessage(DecodedData(decode, edits[|edits| - 1]))
  {
    EditAllKeeps(t, decode, edits[..|edits| - 1]);
  }

  /** The batch is logged before any edit: a failure of `log_object` applies no edit at all. */
  lemma GetUpdatesOrder(t: EntityTables, items: seq<Json>, decode: Json -> Decoded, botId: int, now: int)
    requires DecoderOk(decode)
    ensures var r := GetUpdatesSpec(t, items, decode, botId, now);
      var logged := LogDecoded(t, decode, JList(items), botId, now);
      (r.Ok? <==> logged.Ok?)
      && (r.Ok? ==> r.value.messages.Keys == logged.value.messages.Keys && r.value == logged.value.(messages := r.value.messages))
  {
    var logged := LogDecoded(t, decode, JList(items), botId, now);
    if logged.Ok? {
      EditAllKeeps(logged.value, decode, Edits(items));
    }
  }

  /** The loop of `getUpdates` that gathers the edited messages. */
  method CollectEdits(items: seq<Json>) returns (edits: seq<Json>)
    ensures edits == Edits(items)
  {
    edits := [];
    for i := 0 to |items|
      invariant edits == Edits(items[..i])
    {
      assert items[..i + 1][..i] == items[..i];
      var u := items[i];
      if u.JObj? {
        if Get(u.fields, "edited_message") != JNull {
          edits := edits + [u.fields["edited_message"]];
        } else if Get(u.fields, "edited_channel_post") != JNull {
          edits := edits + [u.fields["edited_channel_post"]];
        } else if Get(u.fields, "edited_business_message") != JNull {
          edits := edits + [u.fields["edited_business_message"]];
        }
      }
    }
    assert items[..|items|] == items;
  }

  /** The loop of `getUpdates` that applies the edits without logging them again. */
  method ApplyEdits(db: Database, decode: Json -> Decoded, edits: seq<Json>, botId: int)
    requires DecoderOk(decode)
    modifies db`tgUsers, db`tgChats, db`messages, db`files, db`botMessages, db`botFiles
    ensures db.Entities() == EditAll(old(db.Entities()), decode, edits)
  {
    ghost var start := db.Entities();
    for i := 0 to |edits|
      invariant db.Entities() == EditAll(start, decode, edits[..i])
    {
      assert edits[..i + 1][..i] == edits[..i];
      var p := decode(edits[i]);
      var edited := UpdateMessage(db, p.g, p.root, botId, true);
    }
    assert edits[..|edits|] == edits;
  }

  method LogGetUpdates(db: Database, items: seq<Json>, decode: Json -> Decoded, botId: int) returns (r: Result<()>)
    requires DecoderOk(decode)
    modifies db`tgUsers, db`tgChats, db`messages, db`files, db`botMessages, db`botFiles
    ensures var logged := LogDecoded(old(db.Entities()), decode, JList(items), botId, db.now);
      (logged.Ok? ==> r == Ok(()) && db.Entities() == EditAll(logged.value, decode, Edits(items)))
      && (logged.Err? ==> r == Err(logged.error) && db.Entities() == old(db.Entities()))
  {
    var edits := CollectEdits(items);
    r := LogDecodedObject(db, decode, JList(items), botId);
    if r.Err? {
      return;
    }
    ApplyEdits(db, decode, edits, botId);
  }

  // --- copyMessages / forwardMessages ------------------------------------------------------

  /** `[obj["message_id"] for obj in data]`: a non-object raises TypeError, a missing key KeyError. */
  function CopiedIds(items: seq<Json>): (r: Result<seq<Json>>)
    ensures r.Ok? <==> forall i :: 0 <= i < |items| ==> items[i].JObj? && "message_id" in items[i].fields
    ensures r.Ok? ==> |r.value| == |items| && forall i :: 0 <= i < |items| ==> r.value[i] == items[i].fields["message_id"]
    ensures r.Err? ==> r.error == Raised("TypeError") || r.error == Raised("KeyError")
  {
    if items == [] then Ok([])
    else
      var init :- CopiedIds(items[..|items| - 1]);
      var last := items[|items| - 1];
      if !last.JObj? then Err(Raised("TypeError"))
      else if "message_id" !in last.fields then Err(Raised("KeyError"))
      else Ok(init + [last.fields["message_id"]])
  }

  method CollectCopiedIds(items: seq<Json>) returns (r: Result<seq<Json>>)
    ensures r == CopiedIds(items)
  {
    var ids: seq<Json> := [];
    for i := 0 to |items|
      invariant CopiedIds(items[..i]) == Ok(ids)
    {
      assert items[..i + 1][..i] == items[..i];
      if !items[i].JObj? {
        ErrorStays(items, i + 1, Raised("TypeError"));
        return Err(Raised("TypeError"));
      }
      if "message_id" !in items[i].fields {
        ErrorStays(items, i + 1, Raised("KeyError"));
        return Err(Raised("KeyError"));
      }
      ids := ids + [items[i].fields["message_id"]];
    }
    assert items[..|items|] == items;
    r := Ok(ids);
  }

  /** Once a prefix of the answer fails, the whole comprehension fails the same way. */
  lemma ErrorStays(items: seq<Json>, n: nat, e: Error)
    requires n <= |items| && CopiedIds(items[..n]) == Err(e)
    ensures CopiedIds(items) == Err(e)
    decreases |items|
  {
    if n < |items| {
      var init := items[..|items| - 1];
      assert init[..n] == items[..n];
      ErrorStays(init, n, e);
    } else {
      assert items[..n] == items;
    }
  }

  /** `len(value)`: defined on lists, strings and objects; any other value raises TypeError. */
  function Len(j: Json): (r: Result<nat>)
    ensures r.Ok? <==> j.JList? || j.JStr? || j.JObj?
    ensures j.JList? ==> r == Ok(|j.items|)
    ensures r.Err? ==> r.error == Raised("TypeError")
  {
    match j
    case JList(xs) => Ok(|xs|)
    case JStr(s) => Ok(|s|)
    case JObj(m) => Ok(|m|)
    case _ => Err(Raised("TypeError"))
  }

  /** The early return of both copy routes: every parameter truthy and the two id lists equally long. */
  function ShouldCopy(req: Dict, copied: seq<Json>): Result<bool>
  {
    if !Truthy(Get(req, "chat_id")) || !Truthy(Get(req, "from_chat_id")) || !Truthy(Get(req, "message_ids")) || copied == [] then Ok(false)
    else
      var n :- Len(Get(req, "message_ids"));
      Ok(n == |copied|)
  }

  /** An integer bound into a query: any other value is refused by the driver. */
  function IntParam(j: Json): (r: Result<int>)
    ensures r.Ok? <==> j.JInt?
    ensures r.Ok? ==> j == JInt(r.value)
    ensures r.Err? ==> r.error == Raised("DataError")
  {
    if j.JInt? then Ok(j.i) else Err(Raised("DataError"))
  }

  /** The id list of an `IN (...)` clause: a list of integers. */
  function IntList(j: Json): (r: Result<seq<int>>)
    ensures r.Ok? <==> j.JList? && forall i :: 0 <= i < |j.items| ==> j.items[i].JInt?
    ensures r.Ok? ==> |r.value| == |j.items| && forall i :: 0 <= i < |j.items| ==> j.items[i] == JInt(r.value[i])
    ensures r.Err? ==> r.error == Raised("DataError")
  {
    if j.JList? && forall i :: 0 <= i < |j.items| ==> j.items[i].JInt?
    then Ok(seq(|j.items|, i requires 0 <= i < |j.items| => j.items[i].i))
    else Err(Raised("DataError"))
  }

  /**
   * What the outer join on the username returns next to the first message row: `named` is
   * one chat whose username is the destination without its leading "@", or None when no
   * chat has that username.
   */
  ghost predicate NamedOk(t: EntityTables, dest: Json, named: Option<int>)
  {
    dest.JStr? ==>
      (named.Some? ==> named.value in t.chats && t.chats[named.value].username == JStr(LStripChar(dest.s, '@')))
      && (named.None? ==> forall c :: c in t.chats ==> t.chats[c].username != JStr(LStripChar(dest.s, '@')))
  }

  /**
   * Whether the destination is a known chat, and its id: a string is looked up by username
   * (a zero id counts as unknown), an integer by id; any other value cannot be bound.
   */
  function KnownDest(t: EntityTables, dest: Json, named: Option<int>): (r: Result<Option<int>>)
    requires NamedOk(t, dest, named)
    ensures r.Err? <==> !dest.JStr? && !dest.JInt?
    ensures r.Err? ==> r.error == Raised("DataError")
    ensures r.Ok? && r.value.Some? ==> r.value.value in t.chats
    ensures dest.JInt? ==> r == Ok(if dest.i in t.chats then Some(dest.i) else None)
    ensures dest.JStr? && r.Ok? && r.value.Some? ==> t.chats[r.value.value].username == JStr(LStripChar(dest.s, '@'))
    ensures dest.JStr? ==> (r == Ok(None) <==> named.None? || named.value == 0)
  {
    match dest
    case JStr(_) => Ok(if named.Some? && named.value != 0 then named else None)
    case JInt(i) => Ok(if i in t.chats then Some(i) else None)
    case _ => Err(Raised("DataError"))
  }

  /** A known destination is used as is; an unknown one is fetched once and stored as a new chat. */
  function Resolve(t: EntityTables, known: Option<int>, fetched: Dict, botId: int, now: int): (r: Result<(EntityTables, int)>)
    ensures known.Some? ==> r == Ok((t, known.value))
    ensures known.None? ==> r == FetchSpec(t, fetched, botId, now)
  {
    if known.Some? then Ok((t, known.value)) else FetchSpec(t, fetched, botId, now)
  }

  /** After resolution the destination is a stored chat, and only chats, files and file links changed. */
  lemma ResolveStores(t: EntityTables, dest: Json, named: Option<int>, fetched: Dict, botId: int, now: int)
    requires NamedOk(t, dest, named) && KnownDest(t, dest, named).Ok?
    ensures var r := Resolve(t, KnownDest(t, dest, named).value, fetched, botId, now);
      r.Ok? ==> (r.value.1 in r.value.0.chats && t.chats.Keys <= r.value.0.chats.Keys
        && r.value.0 == t.(chats := r.value.0.chats, files := r.value.0.files, botFiles := r.value.0.botFiles))
  {
    var known := KnownDest(t, dest, named).value;
    if known.None? {
      var info := FullInfoOf(fetched);
      if info.Ok? {
        var t1 := PhotoStep(t, info.value.photo, botId, now);
        var row := FullInfoRow(info.value);
        if t1.Ok? && row.Ok? && info.value.id !in t1.value.chats {
          assert FetchSpec(t, fetched, botId, now) == Ok((t1.value.(chats := t1.value.chats[info.value.id := row.value]), info.value.id));
        }
      }
    }
  }

  /** The stored originals named by the ids, in the chat `from`. */
  predicate AnyStored(msgs: map<MsgKey, MessageRow>, from: int, ids: seq<int>)
  {
    exists i :: 0 <= i < |ids| && MsgKey(from, ids[i]) in msgs
  }

  /** `zip(original_message_ids, copied_ids)`, keeping the pairs whose original is stored. */
  function Pairs(msgs: map<MsgKey, MessageRow>, from: int, ids: seq<int>, copied: seq<Json>): (r: seq<(MsgKey, Json)>)
    requires |ids| == |copied|
    ensures |r| <= |ids|
    ensures forall i :: 0 <= i < |r| ==> r[i].0 in msgs && r[i].0.chatId == from
  {
    if ids == [] then []
    else
      var n := |ids| - 1;
      Pairs(msgs, from, ids[..n], copied[..n]) + (if MsgKey(from, ids[n]) in msgs then [(MsgKey(from, ids[n]), copied[n])] else [])
  }

  /** Pairing is positional: every stored original goes with the copied id at its own position, and only those. */
  lemma {:induction false} PairsPositional(msgs: map<MsgKey, MessageRow>, from: int, ids: seq<int>, copied: seq<Json>)
    requires |ids| == |copied|
    ensures var r := Pairs(msgs, from, ids, copied);
      (forall i :: 0 <= i < |ids| && MsgKey(from, ids[i]) in msgs ==> (MsgKey(from, ids[i]), copied[i]) in r)
      && (forall p :: p in r ==> exists i :: 0 <= i < |ids| && p == (MsgKey(from, ids[i]), copied[i]))
  {
    if ids != [] {
      var n := |ids| - 1;
      PairsPositional(msgs, from, ids[..n], copied[..n]);
      var init := Pairs(msgs, from, ids[..n], copied[..n]);
      forall i | 0 <= i < |ids| && MsgKey(from, ids[i]) in msgs
        ensures (MsgKey(from, ids[i]), copied[i]) in Pairs(msgs, from, ids, copied)
      {
        if i < n {
          assert ids[..n][i] == ids[i] && copied[..n][i] == copied[i];
        }
      }
      forall p | p in Pairs(msgs, from, ids, copied)
        ensures exists i :: 0 <= i < |ids| && p == (MsgKey(from, ids[i]), copied[i])
      {
        if p in init {
          var i :| 0 <= i < n && p == (MsgKey(from, ids[..n][i]), copied[..n][i]);
          assert p == (MsgKey(from, ids[i]), copied[i]);
        } else {
          assert p == (MsgKey(from, ids[n]), copied[n]);
        }
      }
    }
  }

  /** Since the lists are equally long, a stored original always yields a pair: the empty-pairs return is dead. */
  lemma PairsNonEmpty(msgs: map<MsgKey, MessageRow>, from: int, ids: seq<int>, copied: seq<Json>)
    requires |ids| == |copied| && AnyStored(msgs, from, ids)
    ensures Pairs(msgs, from, ids, copied) != []
  {
    PairsPositional(msgs, from, ids, copied);
    var i :| 0 <= i < |ids| && MsgKey(from, ids[i]) in msgs;
    assert (MsgKey(from, ids[i]), copied[i]) in Pairs(msgs, from, ids, copied);
  }

  method PairCopies(msgs: map<MsgKey, MessageRow>, from: int, ids: seq<int>, copied: seq<Json>) returns (pairs: seq<(MsgKey, Json)>)
    requires |ids| == |copied|
    ensures pairs == Pairs(msgs, from, ids, copied)
  {
    pairs := [];
    for i := 0 to |ids|
      invariant pairs == Pairs(msgs, from, ids[..i], copied[..i])
    {
      assert ids[..i + 1][..i] == ids[..i] && copied[..i + 1][..i] == copied[..i];
      var k := MsgKey(from, ids[i]);
      if k in msgs {
        pairs := pairs + [(k, copied[i])];
      }
    }
    assert ids[..|ids|] == ids && copied[..|copied|] == copied;
  }

  /** `d[k] = v` when `cond` holds. */
  function SetIf(d: Dict, cond: bool, k: string, v: Json): (r: Dict)
    ensures r.Keys == if cond then d.Keys + {k} else d.Keys
    ensures cond ==> r[k] == v
    ensures forall k' :: k' in d && (k' != k || !cond) ==> r[k'] == d[k']
  {
    if cond then d[k := v] else d
  }

  /** The nested chat of a message dict, when it is present and an object. */
  predicate HasChatObject(d: Dict)
  {
    "chat" in d && d["chat"].JObj?
  }

  /**
   * The common start of every clone: `edit_date` is deleted (KeyError when missing), the
   * message id is replaced by the copy's and the nested `chat.id` by the destination (a
   * missing `chat` raises KeyError, one that is no object TypeError).
   */
  function ClonedBase(d: Dict, newId: Json, dest: int): (r: Result<Dict>)
    ensures r.Ok? <==> "edit_date" in d && HasChatObject(d)
    ensures ("edit_date" !in d || "chat" !in d) ==> r == Err(Raised("KeyError"))
    ensures "edit_date" in d && "chat" in d && !d["chat"].JObj? ==> r == Err(Raised("TypeError"))
    ensures r.Ok? ==> (r.value.Keys == d.Keys - {"edit_date"} + {"message_id"}
      && r.value["message_id"] == newId && r.value["chat"] == JObj(d["chat"].fields["id" := JInt(dest)])
      && forall k :: k in d && k !in {"edit_date", "message_id", "chat"} ==> r.value[k] == d[k])
  {
    if "edit_date" !in d then Err(Raised("KeyError"))
    else
      var e := (d - {"edit_date"})["message_id" := newId];
      if "chat" !in e then Err(Raised("KeyError"))
      else if !e["chat"].JObj? then Err(Raised("TypeError"))
      else Ok(e["chat" := JObj(e["chat"].fields["id" := JInt(dest)])])
  }

  /** The keys a clone of copyMessages/forwardMessages may write. */
  const CLONE_PATCHED_KEYS: set<string> := {"edit_date", "message_id", "chat", "message_thread_id", "caption", "has_protected_content"}

  /** One clone of copyMessages/forwardMessages: the base patch, then the thread, caption and protection flags of the request. */
  function PatchClone(d: Dict, newId: Json, dest: int, req: Dict, clearCaption: bool): (r: Result<Dict>)
    ensures r.Ok? <==> "edit_date" in d && HasChatObject(d)
    ensures r.Err? ==> r == Err(ClonedBase(d, newId, dest).error)
    ensures r.Ok? ==> ("edit_date" !in r.value && "message_id" in r.value && r.value["message_id"] == newId
      && "chat" in r.value && r.value["chat"] == JObj(d["chat"].fields["id" := JInt(dest)]))
    ensures r.Ok? ==> ((Truthy(Get(req, "message_thread_id")) ==> Get(r.value, "message_thread_id") == req["message_thread_id"])
      && (!Truthy(Get(req, "message_thread_id")) ==> Get(r.value, "message_thread_id") == Get(d, "message_thread_id")))
    ensures r.Ok? ==> ((clearCaption ==> "caption" in r.value && r.value["caption"] == JNull)
      && (!clearCaption ==> Get(r.value, "caption") == Get(d, "caption")))
    ensures r.Ok? ==> ((Truthy(Get(req, "protect_content")) ==> Get(r.value, "has_protected_content") == JBool(true))
      && (!Truthy(Get(req, "protect_content")) ==> Get(r.value, "has_protected_content") == Get(d, "has_protected_content")))
    ensures r.Ok? ==> forall k :: k in d && k !in CLONE_PATCHED_KEYS ==> k in r.value && r.value[k] == d[k]
    ensures r.Ok? ==> forall k :: k in r.value ==> k in d || k in CLONE_PATCHED_KEYS
  {
    var base :- ClonedBase(d, newId, dest);
    var thread := Get(req, "message_thread_id");
    var withThread := SetIf(base, Truthy(thread), "message_thread_id", thread);
    var withCaption := SetIf(withThread, clearCaption, "caption", JNull);
    Ok(SetIf(withCaption, Truthy(Get(req, "protect_content")), "has_protected_content", JBool(true)))
  }

  /** `PatchClone` as the loop body writes it: the dict is changed in place, key by key. */
  method PatchCloneInPlace(d0: Dict, newId: Json, dest: int, req: Dict, clearCaption: bool) returns (r: Result<Dict>)
    ensures r == PatchClone(d0, newId, dest, req, clearCaption)
  {
    var d := d0;
    if "edit_date" !in d {
      return Err(Raised("KeyError"));
    }
    d := d - {"edit_date"};
    d := d["message_id" := newId];
    if "chat" !in d {
      return Err(Raised("KeyError"));
    }
    if !d["chat"].JObj? {
      return Err(Raised("TypeError"));
    }
    d := d["chat" := JObj(d["chat"].fields["id" := JInt(dest)])];
    if Truthy(Get(req, "message_thread_id")) {
      d := d["message_thread_id" := req["message_thread_id"]];
    }
    if clearCaption {
      d := d["caption" := JNull];
    }
    if Truthy(Get(req, "protect_content")) {
      d := d["has_protected_content" := JBool(true)];
    }
    r := Ok(d);
  }

  /** The originals' dicts (`to_dict` of each stored row), each with the id of its copy. */
  function Sources(msgs: map<MsgKey, MessageRow>, pairs: seq<(MsgKey, Json)>): (r: seq<(Dict, Json)>)
    requires forall i :: 0 <= i < |pairs| ==> pairs[i].0 in msgs
    ensures |r| == |pairs|
    ensures forall i :: 0 <= i < |pairs| ==> r[i] == (MessageModel.ToDict(pairs[i].0, msgs[pairs[i].0]), pairs[i].1)
  {
    seq(|pairs|, i requires 0 <= i < |pairs| => (MessageModel.ToDict(pairs[i].0, msgs[pairs[i].0]), pairs[i].1))
  }

  /** The patch applied to each clone of one request. */
  function CloneOf(dest: int, req: Dict, clearCaption: bool): (Dict, Json) -> Result<Dict>
  {
    (d: Dict, newId: Json) => PatchClone(d, newId, dest, req, clearCaption)
  }

  /** The clones, in pairing order, each as the dict `Message.de_json` reads; the first failing patch fails the list. */
  function Clones(sources: seq<(Dict, Json)>, patch: (Dict, Json) -> Result<Dict>): Result<seq<Json>>
  {
    if sources == [] then Ok([])
    else
      var n := |sources| - 1;
      var init :- Clones(sources[..n], patch);
      var last :- patch(sources[n].0, sources[n].1);
      Ok(init + [JObj(last)])
  }

  /** The clones succeed exactly when every patch does, and then hold one patched dict per source, in order. */
  lemma {:induction false} ClonesShape(sources: seq<(Dict, Json)>, patch: (Dict, Json) -> Result<Dict>)
    ensures var r := Clones(sources, patch);
      (r.Ok? <==> forall i :: 0 <= i < |sources| ==> patch(sources[i].0, sources[i].1).Ok?)
      && (r.Ok? ==> |r.value| == |sources| && forall i :: 0 <= i < |sources| ==>
        r.value[i] == JObj(patch(sources[i].0, sources[i].1).value))
  {
    if sources != [] {
      var n := |sources| - 1;
      ClonesShape(sources[..n], patch);
      assert forall i :: 0 <= i < n ==> sources[..n][i] == sources[i];
    }
  }

  lemma ClonesErrStays(sources: seq<(Dict, Json)>, patch: (Dict, Json) -> Result<Dict>, n: nat, e: Error)
    requires n <= |sources| && Clones(sources[..n], patch) == Err(e)
    ensures Clones(sources, patch) == Err(e)
    decreases |sources| - n
  {
    if n < |sources| {
      assert sources[..n + 1][..n] == sources[..n];
      ClonesErrStays(sources, patch, n + 1, e);
    } else {
      assert sources[..n] == sources;
    }
  }

  /** The loop of copyMessages/forwardMessages that builds the clones. */
  method BuildClones(sources: seq<(Dict, Json)>, dest: int, req: Dict, clearCaption: bool) returns (r: Result<seq<Json>>)
    ensures r == Clones(sources, CloneOf(dest, req, clearCaption))
  {
    ghost var patch := CloneOf(dest, req, clearCaption);
    var clones: seq<Json> := [];
    for i := 0 to |sources|
      invariant Clones(sources[..i], patch) == Ok(clones)
    {
      assert sources[..i + 1][..i] == sources[..i];
      var d := PatchCloneInPlace(sources[i].0, sources[i].1, dest, req, clearCaption);
      assert d == patch(sources[i].0, sources[i].1);
      if d.Err? {
        ClonesErrStays(sources, patch, i + 1, d.error);
        return Err(d.error);
      }
      clones := clones + [JObj(d.value)];
    }
    assert sources[..|sources|] == sources;
    r := Ok(clones);
  }

  /** What the reads of copyMessages/forwardMessages decide: the destination, if known, and the pairs to clone. */
  datatype CopyPlan = CopyPlan(known: Option<int>, pairs: seq<(MsgKey, Json)>)

  /**
   * The reading half of copyMessages/forwardMessages: the copied ids, the early return, the
   * query binds, and the lookup of the originals and of the destination. None: nothing to log.
   */
  function CopyManyPlan(t: EntityTables, req: Dict, items: seq<Json>, named: Option<int>): (r: Result<Option<CopyPlan>>)
    requires NamedOk(t, Get(req, "chat_id"), named)
    ensures r.Ok? && r.value.Some? ==> forall i :: 0 <= i < |r.value.value.pairs| ==> r.value.value.pairs[i].0 in t.messages
  {
    var copied :- CopiedIds(items);
    var go :- ShouldCopy(req, copied);
    if !go then Ok(None)
    else
      var from :- IntParam(Get(req, "from_chat_id"));
      var ids :- IntList(Get(req, "message_ids"));
      var known :- KnownDest(t, Get(req, "chat_id"), named);
      if !AnyStored(t.messages, from, ids) then Ok(None)
      else Ok(Some(CopyPlan(known, Pairs(t.messages, from, ids, copied))))
  }

  /** Where copyMessages/forwardMessages stops: with the tables as they are, or with clones to log. */
  datatype CopyOutcome = Done(t: EntityTables) | LogClones(t: EntityTables, clones: seq<Json>)

  /**
   * copyMessages/forwardMessages up to `log_object`: resolve the destination (fetching it
   * when unknown) and clone every paired original.
   */
  function CopyManySteps(t: EntityTables, req: Dict, items: seq<Json>, clearCaption: bool, named: Option<int>,
                         fetched: Dict, botId: int, now: int): Result<CopyOutcome>
    requires NamedOk(t, Get(req, "chat_id"), named)
  {
    var plan :- CopyManyPlan(t, req, items, named);
    if plan.None? then Ok(Done(t))
    else
      var resolved :- Resolve(t, plan.value.known, fetched, botId, now);
      if plan.value.pairs == [] then Ok(Done(resolved.0))
      else
        var clones :- Clones(Sources(t.messages, plan.value.pairs), CloneOf(resolved.1, req, clearCaption));
        Ok(LogClones(resolved.0, clones))
  }

  /** copyMessages/forwardMessages: the steps, then the clones through `log_object`. */
  function CopyManySpec(t: EntityTables, req: Dict, items: seq<Json>, clearCaption: bool, named: Option<int>,
                        fetched: Dict, decode: Json -> Decoded, botId: int, now: int): Result<EntityTables>
    requires DecoderOk(decode) && NamedOk(t, Get(req, "chat_id"), named)
  {
    AfterCopy(CopyManySteps(t, req, items, clearCaption, named, fetched, botId, now), decode, botId, now)
  }

  /** The end of copyMessages/forwardMessages: nothing more, or the clones through `log_object`. */
  function AfterCopy(outcome: Result<CopyOutcome>, decode: Json -> Decoded, botId: int, now: int): Result<EntityTables>
    requires DecoderOk(decode)
  {
    var o :- outcome;
    if o.Done? then Ok(o.t) else LogDecoded(o.t, decode, JList(o.clones), botId, now)
  }

  /**
   * Nothing is logged when a destination, a source chat, the ids or the copied ids are missing
   * or empty, or when the two id lists differ in length.
   */
  lemma CopyManySkips(t: EntityTables, req: Dict, items: seq<Json>, named: Option<int>)
    requires NamedOk(t, Get(req, "chat_id"), named)
    requires CopiedIds(items).Ok?
    requires !Truthy(Get(req, "chat_id")) || !Truthy(Get(req, "from_chat_id")) || !Truthy(Get(req, "message_ids")) || items == []
      || (Get(req, "message_ids").JList? && |Get(req, "message_ids").items| != |items|)
    ensures CopyManyPlan(t, req, items, named) == Ok(None)
  {
  }

  /** Nothing is logged, and nothing fetched, when no original is stored in the source chat. */
  lemma CopyManyNeedsOriginals(t: EntityTables, req: Dict, items: seq<Json>, named: Option<int>)
    requires NamedOk(t, Get(req, "chat_id"), named)
    requires Get(req, "from_chat_id").JInt? && IntList(Get(req, "message_ids")).Ok?
    requires !AnyStored(t.messages, Get(req, "from_chat_id").i, IntList(Get(req, "message_ids")).value)
    ensures CopyManyPlan(t, req, items, named).Ok? ==> CopyManyPlan(t, req, items, named) == Ok(None)
  {
  }

  /** A plan that goes ahead always has a pair to clone: the return on an empty pair list is never taken. */
  lemma CopyManyPairsNonEmpty(t: EntityTables, req: Dict, items: seq<Json>, named: Option<int>)
    requires NamedOk(t, Get(req, "chat_id"), named)
    requires CopyManyPlan(t, req, items, named).Ok? && CopyManyPlan(t, req, items, named).value.Some?
    ensures CopyManyPlan(t, req, items, named).value.value.pairs != []
  {
    var copied := CopiedIds(items).value;
    var ids := IntList(Get(req, "message_ids")).value;
    PairsNonEmpty(t.messages, Get(req, "from_chat_id").i, ids, copied);
  }

  /** Either nothing is logged, or the tables are those of the destination's resolution. */
  lemma CopyManyStepsResolve(t: EntityTables, req: Dict, items: seq<Json>, clearCaption: bool, named: Option<int>, fetched: Dict, botId: int, now: int)
    requires NamedOk(t, Get(req, "chat_id"), named)
    requires CopyManyPlan(t, req, items, named).Ok? && CopyManyPlan(t, req, items, named).value.Some?
    ensures var resolved := Resolve(t, CopyManyPlan(t, req, items, named).value.value.known, fetched, botId, now);
      var r := CopyManySteps(t, req, items, clearCaption, named, fetched, botId, now);
      (resolved.Err? ==> r == Err(resolved.error))
      && (r.Ok? ==> resolved.Ok? && r.value.LogClones? && r.value.t == resolved.value.0)
  {
    CopyManyPairsNonEmpty(t, req, items, named);
  }

  /** The clones `log_object` receives: one per pair, in order, each the patched `to_dict` of its original. */
  lemma CopyManyClones(t: EntityTables, req: Dict, items: seq<Json>, clearCaption: bool, named: Option<int>, fetched: Dict, botId: int, now: int)
    requires NamedOk(t, Get(req, "chat_id"), named)
    requires CopyManyPlan(t, req, items, named).Ok? && CopyManyPlan(t, req, items, named).value.Some?
    requires Resolve(t, CopyManyPlan(t, req, items, named).value.value.known, fetched, botId, now).Ok?
    ensures var plan := CopyManyPlan(t, req, items, named).value.value;
      var dest := Resolve(t, plan.known, fetched, botId, now).value.1;
      var sources := Sources(t.messages, plan.pairs);
      var r := CopyManySteps(t, req, items, clearCaption, named, fetched, botId, now);
      r.Ok? ==> (r.value.LogClones? && |r.value.clones| == |plan.pairs|
        && forall i :: 0 <= i < |plan.pairs| ==>
          r.value.clones[i].JObj? && PatchClone(sources[i].0, plan.pairs[i].1, dest, req, clearCaption) == Ok(r.value.clones[i].fields))
  {
    var plan := CopyManyPlan(t, req, items, named).value.value;
    var dest := Resolve(t, plan.known, fetched, botId, now).value.1;
    CopyManyStepsResolve(t, req, items, clearCaption, named, fetched, botId, now);
    ClonesShape(Sources(t.messages, plan.pairs), CloneOf(dest, req, clearCaption));
  }

  method PlanCopyMany(db: Database, req: Dict, items: seq<Json>, named: Option<int>) returns (r: Result<Option<CopyPlan>>)
    requires NamedOk(db.Entities(), Get(req, "chat_id"), named)
    ensures r == CopyManyPlan(db.Entities(), req, items, named)
  {
    var copied := CollectCopiedIds(items);
    if copied.Err? {
      return Err(copied.error);
    }
    var chatId, fromChatId, ids := Get(req, "chat_id"), Get(req, "from_chat_id"), Get(req, "message_ids");
    if !Truthy(chatId) || !Truthy(fromChatId) || !Truthy(ids) || copied.value == [] {
      return Ok(None);
    }
    var n := Len(ids);
    if n.Err? {
      return Err(n.error);
    }
    if n.value != |copied.value| {
      return Ok(None);
    }
    var from := IntParam(fromChatId);
    if from.Err? {
      return Err(from.error);
    }
    var idList := IntList(ids);
    if idList.Err? {
      return Err(idList.error);
    }
    var known := KnownDest(db.Entities(), chatId, named);
    if known.Err? {
      return Err(known.error);
    }
    if !AnyStored(db.messages, from.value, idList.value) {
      return Ok(None);
    }
    var pairs := PairCopies(db.messages, from.value, idList.value, copied.value);
    r := Ok(Some(CopyPlan(known.value, pairs)));
  }

  /** `if not chat_exists: chat_id = fetch_new_chat_info(...).id`. */
  method ResolveDest(db: Database, known: Option<int>, fetched: Dict, botId: int) returns (r: Result<int>)
    modifies db`tgChats, db`files, db`botFiles
    ensures var spec := Resolve(old(db.Entities()), known, fetched, botId, db.now);
      (spec.Ok? ==> r == Ok(spec.value.1) && db.Entities() == spec.value.0)
      && (spec.Err? ==> r == Err(spec.error) && db.Entities() == old(db.Entities()))
  {
    if known.Some? {
      return Ok(known.value);
    }
    r := FetchNewChatInfo(db, fetched, botId);
  }

  /**
   * copyMessages/forwardMessages up to `log_object`. On an error the request's transaction is
   * rolled back by the caller, so only the error itself is promised here.
   */
  method RunCopySteps(db: Database, req: Dict, items: seq<Json>, clearCaption: bool, named: Option<int>, fetched: Dict, botId: int)
    returns (r: Result<CopyOutcome>)
    requires NamedOk(db.Entities(), Get(req, "chat_id"), named)
    modifies db`tgChats, db`files, db`botFiles
    ensures var spec := CopyManySteps(old(db.Entities()), req, items, clearCaption, named, fetched, botId, db.now);
      (spec.Ok? ==> r == spec && db.Entities() == spec.value.t)
      && (spec.Err? ==> r == Err(spec.error))
  {
    var plan := PlanCopyMany(db, req, items, named);
    if plan.Err? {
      return Err(plan.error);
    }
    if plan.value.None? {
      return Ok(Done(db.Entities()));
    }
    var msgs := db.messages;
    var dest := ResolveDest(db, plan.value.value.known, fetched, botId);
    if dest.Err? {
      return Err(dest.error);
    }
    if plan.value.value.pairs == [] {
      return Ok(Done(db.Entities()));
    }
    var clones := BuildClones(Sources(msgs, plan.value.value.pairs), dest.value, req, clearCaption);
    if clones.Err? {
      return Err(clones.error);
    }
    r := Ok(LogClones(db.Entities(), clones.value));
  }

  /** copyMessages/forwardMessages. On an error the caller rolls the request back. */
  method LogCopies(db: Database, req: Dict, items: seq<Json>, clearCaption: bool, named: Option<int>, fetched: Dict,
                   decode: Json -> Decoded, botId: int) returns (r: Result<()>)
    requires DecoderOk(decode) && NamedOk(db.Entities(), Get(req, "chat_id"), named)
    modifies db`tgUsers, db`tgChats, db`messages, db`files, db`botMessages, db`botFiles
    ensures var spec := AfterCopy(CopyManySteps(old(db.Entities()), req, items, clearCaption, named, fetched, botId, db.now), decode, botId, db.now);
      (spec.Ok? ==> r == Ok(()) && db.Entities() == spec.value)
      && (spec.Err? ==> r == Err(spec.error))
  {
    ghost var steps := CopyManySteps(db.Entities(), req, items, clearCaption, named, fetched, botId, db.now);
    var outcome := RunCopySteps(db, req, items, clearCaption, named, fetched, botId);
    if outcome.Err? {
      return Err(outcome.error);
    }
    assert steps == outcome;
    r := FinishCopy(db, outcome.value, decode, botId);
  }

  /** Logs the clones, if there are any. */
  method FinishCopy(db: Database, outcome: CopyOutcome, decode: Json -> Decoded, botId: int) returns (r: Result<()>)
    requires DecoderOk(decode) && db.Entities() == outcome.t
    modifies db`tgUsers, db`tgChats, db`messages, db`files, db`botMessages, db`botFiles
    ensures var spec := AfterCopy(Ok(outcome), decode, botId, db.now);
      (spec.Ok? ==> r == Ok(()) && db.Entities() == spec.value)
      && (spec.Err? ==> r == Err(spec.error))
  {
    if outcome.Done? {
      return Ok(());
    }
    r := LogDecodedObject(db, decode, JList(outcome.clones), botId);
  }

  // --- copyMessage ------------------------------------------------------------------------

  /** What the reads of copyMessage decide: the stored original and the destination, if known. */
  datatype CopyOnePlan = CopyOnePlan(orig: MsgKey, known: Option<int>)

  /** The reading half of copyMessage: the early return, the query binds and the lookup. None: nothing to log. */
  function CopyOnePlanOf(t: EntityTables, req: Dict, data: Dict, named: Option<int>): (r: Result<Option<CopyOnePlan>>)
    requires NamedOk(t, Get(req, "chat_id"), named)
    ensures r.Ok? && r.value.Some? ==> (r.value.value.orig in t.messages
      && Get(req, "from_chat_id") == JInt(r.value.value.orig.chatId) && Get(req, "message_id") == JInt(r.value.value.orig.id))
  {
    if !Truthy(Get(req, "chat_id")) || !Truthy(Get(req, "from_chat_id")) || !Truthy(Get(req, "message_id"))
      || !Truthy(Get(data, "message_id"))
    then Ok(None)
    else
      var from :- IntParam(req["from_chat_id"]);
      var orig :- IntParam(req["message_id"]);
      var known :- KnownDest(t, req["chat_id"], named);
      if MsgKey(from, orig) !in t.messages then Ok(None)
      else Ok(Some(CopyOnePlan(MsgKey(from, orig), known)))
  }

  /** The thread and protection overrides of copyMessage, each when the request gives it. */
  function PlacementOverrides(d: Dict, req: Dict): (r: Dict)
    ensures Truthy(Get(req, "message_thread_id")) ==> Get(r, "message_thread_id") == req["message_thread_id"]
    ensures Truthy(Get(req, "protect_content")) ==> Get(r, "has_protected_content") == JBool(true)
    ensures !Truthy(Get(req, "message_thread_id")) ==> Get(r, "message_thread_id") == Get(d, "message_thread_id")
    ensures !Truthy(Get(req, "protect_content")) ==> Get(r, "has_protected_content") == Get(d, "has_protected_content")
    ensures forall k :: k in d && k != "message_thread_id" && k != "has_protected_content" ==> k in r && r[k] == d[k]
    ensures forall k :: k in r ==> k in d || k == "message_thread_id" || k == "has_protected_content"
  {
    var thread := Get(req, "message_thread_id");
    SetIf(SetIf(d, Truthy(thread), "message_thread_id", thread),
      Truthy(Get(req, "protect_content")), "has_protected_content", JBool(true))
  }

  /** The caption and caption-entity overrides of copyMessage, each when the request gives it. */
  function CaptionOverrides(d: Dict, req: Dict): (r: Dict)
    ensures Truthy(Get(req, "caption")) ==> Get(r, "caption") == req["caption"]
    ensures Truthy(Get(req, "caption_entities")) ==> Get(r, "caption_entities") == req["caption_entities"]
    ensures !Truthy(Get(req, "caption")) ==> Get(r, "caption") == Get(d, "caption")
    ensures !Truthy(Get(req, "caption_entities")) ==> Get(r, "caption_entities") == Get(d, "caption_entities")
    ensures forall k :: k in d && k != "caption" && k != "caption_entities" ==> k in r && r[k] == d[k]
    ensures forall k :: k in r ==> k in d || k == "caption" || k == "caption_entities"
  {
    var caption := Get(req, "caption");
    var entities := Get(req, "caption_entities");
    SetIf(SetIf(d, Truthy(caption), "caption", caption), Truthy(entities), "caption_entities", entities)
  }

  /** The keys copyMessage's overrides may write. */
  const COPY_OVERRIDE_KEYS: set<string> := {"message_thread_id", "has_protected_content", "caption", "caption_entities"}

  /** All request overrides of copyMessage, in the order the source applies them. */
  function CopyOverrides(d: Dict, req: Dict): (r: Dict)
    ensures forall k :: k in d && k !in COPY_OVERRIDE_KEYS ==> k in r && r[k] == d[k]
    ensures forall k :: k in r ==> k in d || k in COPY_OVERRIDE_KEYS
  {
    CaptionOverrides(PlacementOverrides(d, req), req)
  }

  /** A copyMessage request up to the final message dict: the destination's tables and id and the patched dict. */
  datatype CopyBase = CopyBase(t: EntityTables, dict: Dict, dest: int)

  /**
   * The common part of copyMessage: the plan, the destination (fetched when unknown), then
   * `to_dict` of the original with `edit_date` deleted, the copy's id and chat, and the overrides.
   */
  function CopyOneBase(t: EntityTables, req: Dict, data: Dict, named: Option<int>, fetched: Dict, botId: int, now: int)
    : (r: Result<Option<CopyBase>>)
    requires NamedOk(t, Get(req, "chat_id"), named)
  {
    var plan :- CopyOnePlanOf(t, req, data, named);
    if plan.None? then Ok(None)
    else CopyFromPlan(t, plan.value.known, MessageModel.ToDict(plan.value.orig, t.messages[plan.value.orig]), req, data, fetched, botId, now)
  }

  /** copyMessage once the original `d` is found: the destination is resolved, then the original's dict patched. */
  function CopyFromPlan(t: EntityTables, known: Option<int>, d: Dict, req: Dict, data: Dict, fetched: Dict, botId: int, now: int)
    : Result<Option<CopyBase>>
  {
    var resolved :- Resolve(t, known, fetched, botId, now);
    PatchedCopy(resolved, d, Get(data, "message_id"), req)
  }

  /** CopyOneBase by the outcome of its plan. */
  lemma CopyOneBaseCases(t: EntityTables, req: Dict, data: Dict, named: Option<int>, fetched: Dict, botId: int, now: int)
    requires NamedOk(t, Get(req, "chat_id"), named)
    ensures var plan := CopyOnePlanOf(t, req, data, named);
      var r := CopyOneBase(t, req, data, named, fetched, botId, now);
      (plan.Err? ==> r == Err(plan.error))
      && (plan.Ok? && plan.value.None? ==> r == Ok(None))
      && (plan.Ok? && plan.value.Some? ==> r == CopyFromPlan(t, plan.value.value.known,
        MessageModel.ToDict(plan.value.value.orig, t.messages[plan.value.value.orig]), req, data, fetched, botId, now))
  {
  }

  /** The original's dict patched for its copy into the resolved destination. */
  function PatchedCopy(resolved: (EntityTables, int), d: Dict, newId: Json, req: Dict): Result<Option<CopyBase>>
  {
    var base :- ClonedBase(d, newId, resolved.1);
    Ok(Some(CopyBase(resolved.0, CopyOverrides(base, req), resolved.1)))
  }

  /** `Message.de_json` of the final dict: anything but an object naming its chat and id fails. */
  function MessageOf(j: Json): (r: Result<Dict>)
    ensures r.Ok? <==> j.JObj? && EditKey(j.fields).Some?
    ensures r.Ok? ==> j == JObj(r.value)
    ensures r.Err? ==> r.error == Raised("TypeError")
  {
    if j.JObj? && EditKey(j.fields).Some? then Ok(j.fields) else Err(Raised("TypeError"))
  }

  /**
   * The two INSERTs that end copyMessage: the message row under its own key and the bot's link
   * to (destination, copied id), stamped with `now`; a stored key aborts with an integrity error.
   */
  function StoreCopy(t: EntityTables, msg: Json, dest: int, copied: Json, botId: int, now: int): (r: Result<EntityTables>)
    ensures r.Ok? <==> (MessageOf(msg).Ok? && copied.JInt? && EditKey(msg.fields).value !in t.messages
      && BotMessageKey(botId, MsgKey(dest, copied.i)) !in t.botMessages)
    ensures r.Ok? ==> (EditKey(msg.fields).value in r.value.messages
      && r.value.messages[EditKey(msg.fields).value] == PrepareMessage(msg.fields)
      && r.value.messages.Keys == t.messages.Keys + {EditKey(msg.fields).value}
      && (forall k :: k in t.messages ==> r.value.messages[k] == t.messages[k])
      && r.value.botMessages == t.botMessages[BotMessageKey(botId, MsgKey(dest, copied.i)) := now]
      && r.value == t.(messages := r.value.messages, botMessages := r.value.botMessages))
  {
    var fields :- MessageOf(msg);
    var c :- IntParam(copied);
    var key := EditKey(fields).value;
    var link := BotMessageKey(botId, MsgKey(dest, c));
    if key in t.messages || link in t.botMessages then Err(Raised("IntegrityError"))
    else Ok(t.(messages := t.messages[key := PrepareMessage(fields)], botMessages := t.botMessages[link := now]))
  }

  /**
   * The final dict as written: a truthy `show_caption_above_media`, and after it a truthy
   * `reply_markup`, replaces the whole patched dict by the request's value.
   */
  function CopiedAsWritten(d: Dict, req: Dict): Json
  {
    var shown := if Truthy(Get(req, "show_caption_above_media")) then req["show_caption_above_media"] else JObj(d);
    if Truthy(Get(req, "reply_markup")) then req["reply_markup"] else shown
  }

  /** The final dict as intended: `show_caption_above_media` and `reply_markup` are set as keys of the patched dict. */
  function CopiedDict(d: Dict, req: Dict): (r: Dict)
    ensures Truthy(Get(req, "show_caption_above_media")) ==> Get(r, "show_caption_above_media") == req["show_caption_above_media"]
    ensures Truthy(Get(req, "reply_markup")) ==> Get(r, "reply_markup") == req["reply_markup"]
    ensures forall k :: k in d && k != "show_caption_above_media" && k != "reply_markup" ==> k in r && r[k] == d[k]
    ensures forall k :: k in r ==> k in d || k == "show_caption_above_media" || k == "reply_markup"
  {
    var show := Get(req, "show_caption_above_media");
    var markup := Get(req, "reply_markup");
    SetIf(SetIf(d, Truthy(show), "show_caption_above_media", show), Truthy(markup), "reply_markup", markup)
  }

  /** copyMessage as written. */
  function CopyOneAsWritten(t: EntityTables, req: Dict, data: Dict, named: Option<int>, fetched: Dict, botId: int, now: int)
    : Result<EntityTables>
    requires NamedOk(t, Get(req, "chat_id"), named)
  {
    var b :- CopyOneBase(t, req, data, named, fetched, botId, now);
    if b.None? then Ok(t)
    else StoreCopy(b.value.t, CopiedAsWritten(b.value.dict, req), b.value.dest, Get(data, "message_id"), botId, now)
  }

  /** copyMessage as intended: the copy keeps the patched dict, with the two display options as keys. */
  function CopyOneSpec(t: EntityTables, req: Dict, data: Dict, named: Option<int>, fetched: Dict, botId: int, now: int)
    : Result<EntityTables>
    requires NamedOk(t, Get(req, "chat_id"), named)
  {
    var b :- CopyOneBase(t, req, data, named, fetched, botId, now);
    if b.None? then Ok(t)
    else StoreCopy(b.value.t, JObj(CopiedDict(b.value.dict, req)), b.value.dest, Get(data, "message_id"), botId, now)
  }

  /** copyMessage logs nothing, and fetches nothing, when a parameter is falsy or the original is not stored. */
  lemma CopyOneSkips(t: EntityTables, req: Dict, data: Dict, named: Option<int>, fetched: Dict, botId: int, now: int)
    requires NamedOk(t, Get(req, "chat_id"), named)
    requires !Truthy(Get(req, "chat_id")) || !Truthy(Get(req, "from_chat_id")) || !Truthy(Get(req, "message_id"))
      || !Truthy(Get(data, "message_id"))
      || (Get(req, "from_chat_id").JInt? && Get(req, "message_id").JInt?
        && MsgKey(Get(req, "from_chat_id").i, Get(req, "message_id").i) !in t.messages)
    ensures CopyOneSpec(t, req, data, named, fetched, botId, now).Ok? ==> CopyOneSpec(t, req, data, named, fetched, botId, now) == Ok(t)
  {
  }

  /**
   * The dict a copyMessage request builds names the destination chat and the copied id, and
   * only the chats, files and bot files gain the destination when it is fetched.
   */
  lemma CopyOneBaseShape(t: EntityTables, req: Dict, data: Dict, named: Option<int>, fetched: Dict, botId: int, now: int)
    requires NamedOk(t, Get(req, "chat_id"), named)
    requires CopyOneBase(t, req, data, named, fetched, botId, now).Ok? && CopyOneBase(t, req, data, named, fetched, botId, now).value.Some?
    ensures var b := CopyOneBase(t, req, data, named, fetched, botId, now).value.value;
      (Get(data, "message_id").JInt? ==> EditKey(b.dict) == Some(MsgKey(b.dest, Get(data, "message_id").i)))
      && (!Get(data, "message_id").JInt? ==> EditKey(b.dict).None?)
      && b.dest in b.t.chats && t.chats.Keys <= b.t.chats.Keys
      && b.t == t.(chats := b.t.chats, files := b.t.files, botFiles := b.t.botFiles)
  {
    var plan := CopyOnePlanOf(t, req, data, named).value.value;
    ResolveStores(t, req["chat_id"], named, fetched, botId, now);
    var resolved := Resolve(t, plan.known, fetched, botId, now).value;
    var d := MessageModel.ToDict(plan.orig, t.messages[plan.orig]);
    OverriddenKey(d, Get(data, "message_id"), resolved.1, req);
  }

  /** The overrides keep the id and chat the base patch wrote, so the dict names (destination, new id). */
  lemma OverriddenKey(d: Dict, newId: Json, dest: int, req: Dict)
    requires ClonedBase(d, newId, dest).Ok?
    ensures var b := CopyOverrides(ClonedBase(d, newId, dest).value, req);
      (newId.JInt? ==> EditKey(b) == Some(MsgKey(dest, newId.i))) && (!newId.JInt? ==> EditKey(b).None?)
  {
    var base := ClonedBase(d, newId, dest).value;
    var b := CopyOverrides(base, req);
    assert b["message_id"] == newId && b["chat"] == base["chat"];
  }

  /** With the display options set as keys, the final dict still names the destination chat and the copied id. */
  lemma CopiedDictKey(d: Dict, req: Dict)
    ensures EditKey(CopiedDict(d, req)) == EditKey(d)
  {
    var r := CopiedDict(d, req);
    assert Get(r, "chat") == Get(d, "chat") && Get(r, "message_id") == Get(d, "message_id");
  }

  /**
   * The intended copyMessage: whenever the copy's ids are free it stores the patched dict under
   * (destination, copied id), keeping a truthy `reply_markup`, and links the bot to it.
   */
  lemma CopyOneStoresCopy(t: EntityTables, req: Dict, data: Dict, named: Option<int>, fetched: Dict, botId: int, now: int)
    requires NamedOk(t, Get(req, "chat_id"), named)
    requires CopyOneBase(t, req, data, named, fetched, botId, now).Ok? && CopyOneBase(t, req, data, named, fetched, botId, now).value.Some?
    requires Get(data, "message_id").JInt?
    requires var b := CopyOneBase(t, req, data, named, fetched, botId, now).value.value;
      MsgKey(b.dest, data["message_id"].i) !in b.t.messages
      && BotMessageKey(botId, MsgKey(b.dest, data["message_id"].i)) !in b.t.botMessages
    ensures var b := CopyOneBase(t, req, data, named, fetched, botId, now).value.value;
      var key := MsgKey(b.dest, data["message_id"].i);
      var r := CopyOneSpec(t, req, data, named, fetched, botId, now);
      r.Ok? && key in r.value.messages && r.value.messages[key] == PrepareMessage(CopiedDict(b.dict, req))
      && r.value.botMessages == b.t.botMessages[BotMessageKey(botId, key) := now]
      && (Truthy(Get(req, "reply_markup")) ==> Get(CopiedDict(b.dict, req), "reply_markup") == req["reply_markup"])
  {
    var b := CopyOneBase(t, req, data, named, fetched, botId, now).value.value;
    CopyOneBaseShape(t, req, data, named, fetched, botId, now);
    CopiedDictKey(b.dict, req);
  }

  /**
   * copyMessage as written loses the copy of any request with a truthy `reply_markup` (an
   * inline keyboard is no message): the request fails and is rolled back.
   */
  lemma CopyOneAsWrittenDropsMarkup(t: EntityTables, req: Dict, data: Dict, named: Option<int>, fetched: Dict, botId: int, now: int)
    requires NamedOk(t, Get(req, "chat_id"), named)
    requires CopyOneBase(t, req, data, named, fetched, botId, now).Ok? && CopyOneBase(t, req, data, named, fetched, botId, now).value.Some?
    requires Truthy(Get(req, "reply_markup")) && !(req["reply_markup"].JObj? && EditKey(req["reply_markup"].fields).Some?)
    ensures CopyOneAsWritten(t, req, data, named, fetched, botId, now) == Err(Raised("TypeError"))
  {
  }

  /** The lookup of copyMessage; it reads the tables and changes nothing. */
  method PlanCopyOne(db: Database, req: Dict, data: Dict, named: Option<int>) returns (r: Result<Option<CopyOnePlan>>)
    requires NamedOk(db.Entities(), Get(req, "chat_id"), named)
    ensures r == CopyOnePlanOf(db.Entities(), req, data, named)
  {
    if !Truthy(Get(req, "chat_id")) || !Truthy(Get(req, "from_chat_id")) || !Truthy(Get(req, "message_id"))
      || !Truthy(Get(data, "message_id"))
    {
      return Ok(None);
    }
    if !req["from_chat_id"].JInt? || !req["message_id"].JInt? {
      return Err(Raised("DataError"));
    }
    var known := KnownDest(db.Entities(), req["chat_id"], named);
    if known.Err? {
      return Err(known.error);
    }
    var key := MsgKey(req["from_chat_id"].i, req["message_id"].i);
    if key !in db.messages {
      return Ok(None);
    }
    r := Ok(Some(CopyOnePlan(key, known.value)));
  }

  /** Everything of copyMessage before the INSERTs: the lookup, the destination and the patched dict. */
  method RunCopyOneBase(db: Database, req: Dict, data: Dict, named: Option<int>, fetched: Dict, botId: int)
    returns (r: Result<Option<CopyBase>>)
    requires NamedOk(db.Entities(), Get(req, "chat_id"), named)
    modifies db`tgChats, db`files, db`botFiles
    ensures r == CopyOneBase(old(db.Entities()), req, data, named, fetched, botId, db.now)
    ensures r.Ok? && r.value.Some? ==> db.Entities() == r.value.value.t
    ensures r.Ok? && r.value.None? ==> db.Entities() == old(db.Entities())
  {
    CopyOneBaseCases(db.Entities(), req, data, named, fetched, botId, db.now);
    var plan := PlanCopyOne(db, req, data, named);
    if plan.Err? {
      return Err(plan.error);
    }
    if plan.value.None? {
      return Ok(None);
    }
    var orig := plan.value.value.orig;
    var d := MessageModel.ToDict(orig, db.messages[orig]);
    r := RunCopyFromPlan(db, plan.value.value.known, d, req, data, fetched, botId);
  }

  /** The destination and the patched dict of a copyMessage whose original is found. */
  method RunCopyFromPlan(db: Database, known: Option<int>, d: Dict, req: Dict, data: Dict, fetched: Dict, botId: int)
    returns (r: Result<Option<CopyBase>>)
    modifies db`tgChats, db`files, db`botFiles
    ensures r == CopyFromPlan(old(db.Entities()), known, d, req, data, fetched, botId, db.now)
    ensures r.Ok? ==> r.value.Some? && db.Entities() == r.value.value.t
  {
    var dest := ResolveDest(db, known, fetched, botId);
    if dest.Err? {
      return Err(dest.error);
    }
    r := PatchedCopy((db.Entities(), dest.value), d, Get(data, "message_id"), req);
  }

  /** The two INSERTs of copyMessage. */
  method InsertCopy(db: Database, msg: Json, dest: int, copied: Json, botId: int) returns (r: Result<()>)
    modifies db`messages, db`botMessages
    ensures var spec := StoreCopy(old(db.Entities()), msg, dest, copied, botId, db.now);
      (spec.Ok? ==> r == Ok(()) && db.Entities() == spec.value)
      && (spec.Err? ==> r == Err(spec.error) && db.Entities() == old(db.Entities()))
  {
    var stored := StoreCopy(db.Entities(), msg, dest, copied, botId, db.now);
    if stored.Err? {
      return Err(stored.error);
    }
    db.messages, db.botMessages := stored.value.messages, stored.value.botMessages;
    r := Ok(());
  }

  /** CopyOneSpec by the outcome of its common part. */
  lemma CopyOneSpecCases(t: EntityTables, req: Dict, data: Dict, named: Option<int>, fetched: Dict, botId: int, now: int)
    requires NamedOk(t, Get(req, "chat_id"), named)
    ensures var b := CopyOneBase(t, req, data, named, fetched, botId, now);
      var r := CopyOneSpec(t, req, data, named, fetched, botId, now);
      (b.Err? ==> r == Err(b.error))
      && (b.Ok? && b.value.None? ==> r == Ok(t))
      && (b.Ok? && b.value.Some? ==> r == StoreCopy(b.value.value.t, JObj(CopiedDict(b.value.value.dict, req)),
        b.value.value.dest, Get(data, "message_id"), botId, now))
  {
  }

  /** The INSERTs of copyMessage went as StoreCopy says: the copy and its link are stored, or the error is returned. */
  predicate CopyStored(b: CopyBase, req: Dict, data: Dict, botId: int, now: int, r: Result<()>, t: EntityTables)
  {
    var s := StoreCopy(b.t, JObj(CopiedDict(b.dict, req)), b.dest, Get(data, "message_id"), botId, now);
    (s.Ok? ==> r == Ok(()) && t == s.value) && (s.Err? ==> r == Err(s.error))
  }

  /** copyMessage. On an error the caller rolls the request back. */
  method LogCopyMessage(db: Database, req: Dict, data: Dict, named: Option<int>, fetched: Dict, botId: int)
    returns (r: Result<()>)
    requires NamedOk(db.Entities(), Get(req, "chat_id"), named)
    modifies db`tgChats, db`messages, db`files, db`botMessages, db`botFiles
    ensures var b := CopyOneBase(old(db.Entities()), req, data, named, fetched, botId, db.now);
      (b.Err? ==> r == Err(b.error))
      && (b.Ok? && b.value.None? ==> r == Ok(()) && db.Entities() == old(db.Entities()))
      && (b.Ok? && b.value.Some? ==> CopyStored(b.value.value, req, data, botId, db.now, r, db.Entities()))
  {
    var b := RunCopyOneBase(db, req, data, named, fetched, botId);
    if b.Err? {
      return Err(b.error);
    }
    if b.value.None? {
      return Ok(());
    }
    r := InsertCopy(db, JObj(CopiedDict(b.value.value.dict, req)), b.value.value.dest, Get(data, "message_id"), botId);
  }
}
