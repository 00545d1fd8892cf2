// app/services/telegram/entity_logger.py: classifies the entities found in a payload,
// projects them to rows, and reconciles them with the stored tables (insert what is new,
// link what this bot has not seen yet).

module EntityLogger {

  import opened Wrappers
  import opened Json
  import opened Enums
  import opened Payload
  import opened Utils
  import opened MessageModel
  import opened FileModel
  import opened Db

  // ---------------------------------------------------------------------------------
  // File and message classification
  // ---------------------------------------------------------------------------------

  /** FILE_TO_TYPE_MAPPING, in its declaration order. */
  const FILE_TO_TYPE_MAPPING: seq<(Cls, FileType)> := [
    (PhotoSizeClass, FPhoto), (AnimationClass, FAnimation), (AudioClass, FAudio),
    (DocumentClass, FDocument), (VideoClass, FVideo), (VideoNoteClass, FVideoNote),
    (VoiceClass, FVoice), (StickerClass, FSticker), (PassportFileClass, FPassport)
  ]

  /** The position of the first mapping entry, from `i` on, whose class the node is an instance of. */
  function FileTypeIndex(n: Node, i: nat): (r: Option<nat>)
    requires i <= |FILE_TO_TYPE_MAPPING|
    ensures r.Some? ==> (i <= r.value < |FILE_TO_TYPE_MAPPING| && IsInstance(n, FILE_TO_TYPE_MAPPING[r.value].0)
      && forall j :: i <= j < r.value ==> !IsInstance(n, FILE_TO_TYPE_MAPPING[j].0))
    ensures r.None? ==> forall j :: i <= j < |FILE_TO_TYPE_MAPPING| ==> !IsInstance(n, FILE_TO_TYPE_MAPPING[j].0)
    decreases |FILE_TO_TYPE_MAPPING| - i
  {
    if i == |FILE_TO_TYPE_MAPPING| then None
    else if IsInstance(n, FILE_TO_TYPE_MAPPING[i].0) then Some(i)
    else FileTypeIndex(n, i + 1)
  }

  /** `get_file_type`: the type of the first class in mapping order that the object is an instance of. */
  function GetFileType(n: Node): (r: Option<FileType>)
    ensures r.None? <==> forall j :: 0 <= j < |FILE_TO_TYPE_MAPPING| ==> !IsInstance(n, FILE_TO_TYPE_MAPPING[j].0)
    ensures r.Some? ==> exists j :: (0 <= j < |FILE_TO_TYPE_MAPPING| && IsInstance(n, FILE_TO_TYPE_MAPPING[j].0)
      && FILE_TO_TYPE_MAPPING[j].1 == r.value
      && forall j' :: 0 <= j' < j ==> !IsInstance(n, FILE_TO_TYPE_MAPPING[j'].0))
  {
    match FileTypeIndex(n, 0)
    case None => None
    case Some(j) => Some(FILE_TO_TYPE_MAPPING[j].1)
  }

  /** A document that is also a video is classified as a document: Document precedes Video. */
  lemma DocumentBeforeVideo(n: Node)
    requires IsInstance(n, DocumentClass) && IsInstance(n, VideoClass)
    requires !IsInstance(n, PhotoSizeClass) && !IsInstance(n, AnimationClass) && !IsInstance(n, AudioClass)
    ensures GetFileType(n) == Some(FDocument)
  {
    assert FileTypeIndex(n, 0) == Some(3);
  }

  /** MESSAGE_TYPE_ATTRIBUTE_MAP, in its declaration order. */
  const MESSAGE_TYPE_ATTRIBUTE_MAP: seq<(string, MessageType)> := [
    ("text", MText), ("animation", MAnimation), ("audio", MAudio), ("document", MDocument),
    ("paid_media", MPaidMedia), ("photo", MPhoto), ("sticker", MSticker), ("story", MStory),
    ("video", MVideo), ("video_note", MVideoNote), ("voice", MVoice), ("checklist", MChecklist),
    ("contact", MContact), ("dice", MDice), ("game", MGame), ("poll", MPoll), ("venue", MVenue),
    ("location", MLocation), ("invoice", MInvoice), ("giveaway", MGiveaway), ("passport_data", MPassport)
  ]

  /** The position of the first attribute, from `i` on, that is truthy on the message. */
  function MessageTypeIndex(data: Dict, i: nat): (r: Option<nat>)
    requires i <= |MESSAGE_TYPE_ATTRIBUTE_MAP|
    ensures r.Some? ==> (i <= r.value < |MESSAGE_TYPE_ATTRIBUTE_MAP| && Truthy(Get(data, MESSAGE_TYPE_ATTRIBUTE_MAP[r.value].0))
      && forall j :: i <= j < r.value ==> !Truthy(Get(data, MESSAGE_TYPE_ATTRIBUTE_MAP[j].0)))
    ensures r.None? ==> forall j :: i <= j < |MESSAGE_TYPE_ATTRIBUTE_MAP| ==> !Truthy(Get(data, MESSAGE_TYPE_ATTRIBUTE_MAP[j].0))
    decreases |MESSAGE_TYPE_ATTRIBUTE_MAP| - i
  {
    if i == |MESSAGE_TYPE_ATTRIBUTE_MAP| then None
    else if Truthy(Get(data, MESSAGE_TYPE_ATTRIBUTE_MAP[i].0)) then Some(i)
    else MessageTypeIndex(data, i + 1)
  }

  /**
   * `get_message_type` on the message's attributes: the tag of the first truthy attribute in
   * map order, SERVICE when none is truthy.
   */
  function GetMessageType(data: Dict): (r: MessageType)
    ensures r == MService <==> forall j :: 0 <= j < |MESSAGE_TYPE_ATTRIBUTE_MAP| ==> !Truthy(Get(data, MESSAGE_TYPE_ATTRIBUTE_MAP[j].0))
    ensures r != MService ==> exists j :: (0 <= j < |MESSAGE_TYPE_ATTRIBUTE_MAP| && MESSAGE_TYPE_ATTRIBUTE_MAP[j].1 == r
      && Truthy(Get(data, MESSAGE_TYPE_ATTRIBUTE_MAP[j].0))
      && forall j' :: 0 <= j' < j ==> !Truthy(Get(data, MESSAGE_TYPE_ATTRIBUTE_MAP[j'].0)))
  {
    match MessageTypeIndex(data, 0)
    case None => MService
    case Some(j) => MESSAGE_TYPE_ATTRIBUTE_MAP[j].1
  }

  /** A message with text is a text message whatever else it carries: "text" comes first. */
  lemma TextWins(data: Dict)
    requires Truthy(Get(data, "text"))
    ensures GetMessageType(data) == MText
  {
    assert MessageTypeIndex(data, 0) == Some(0);
  }

  // ---------------------------------------------------------------------------------
  // Projection of messages and files to rows
  // ---------------------------------------------------------------------------------

  /** The promoted message fields: stored in their own columns and never in the overflow record. */
  const PROMOTED_MESSAGE_FIELDS: set<string> := {
    "message_id", "chat", "message_thread_id", "text", "caption", "from", "sender_chat",
    "sender_boost_count", "sender_business_bot", "date", "edit_date", "business_connection_id",
    "is_topic_message", "is_automatic_forward", "has_media_spoiler", "has_protected_content",
    "is_from_offline", "is_paid_post", "author_signature", "paid_star_count"
  }

  /** The four service flags, kept in the overflow record only when they are set. */
  const SERVICE_FLAGS: set<string> := {
    "delete_chat_photo", "group_chat_created", "supergroup_chat_created", "channel_chat_created"
  }

  const FILE_EXCLUDED_FIELDS: set<string> := {"file_unique_id", "file_id", "file_size", "mime_type", "file_type"}

  const CHAT_EXCLUDED_FIELDS: set<string> := {
    "id", "type", "title", "username", "first_name", "last_name", "is_forum",
    "is_direct_messages", "personal_chat", "parent_chat", "pinned_message", "photo"
  }

  /**
   * `get_message_excluded_fields`: every promoted field, and each service flag exactly when
   * the message does not have it set.
   */
  function MessageExcludedFields(data: Dict): (r: set<string>)
    ensures PROMOTED_MESSAGE_FIELDS <= r <= PROMOTED_MESSAGE_FIELDS + SERVICE_FLAGS
    ensures forall f :: f in SERVICE_FLAGS ==> (f in r <==> !Truthy(Get(data, f)))
  {
    PROMOTED_MESSAGE_FIELDS + set f | f in SERVICE_FLAGS && !Truthy(Get(data, f))
  }

  /** The overflow record of a message: its dict minus the excluded keys, with `file_id` scrubbed at every depth. */
  function MessageOverflow(data: Dict): (r: Option<Dict>)
    ensures r.Some? ==> (r.value != map[]
      && (forall key :: key in r.value ==> key in data && key !in MessageExcludedFields(data) && key != "file_id")
      && KeyFree(JObj(r.value), {"file_id"}))
    ensures r.None? <==> forall key :: key in data ==> key in MessageExcludedFields(data) || key == "file_id"
    ensures r.Some? ==> forall key :: key in data && key !in MessageExcludedFields(data) && key != "file_id" ==>
      (key in r.value && r.value[key] == Scrub(data[key], {"file_id"}))
  {
    var o := RemovedFields(data, MessageExcludedFields(data), {"file_id"});
    if o == map[] then
      assert forall key :: key in data && key !in MessageExcludedFields(data) && key != "file_id" ==> key in o;
      None
    else Some(o)
  }

  /**
   * `bulk_prepare_messages` / `make_message_db_object`: the row stored for the message with
   * key `k` and dictionary `data`. A related object gives its `id`; flags are the truthiness
   * of the attribute; the rest goes to the overflow record, or NULL when that is empty.
   */
  function PrepareMessage(data: Dict): (r: MessageRow)
    ensures r.messageType == GetMessageType(data) && r.otherData == MessageOverflow(data)
    ensures r.fromUserId == RefId(Get(data, "from")) && r.senderChatId == RefId(Get(data, "sender_chat"))
    ensures r.senderBusinessBotId == RefId(Get(data, "sender_business_bot"))
    ensures r.hasProtectedContent <==> Truthy(Get(data, "has_protected_content"))
  {
    MessageRow(
      GetMessageType(data),
      Get(data, "message_thread_id"),
      Get(data, "text"),
      Get(data, "caption"),
      RefId(Get(data, "from")),
      RefId(Get(data, "sender_chat")),
      Get(data, "sender_boost_count"),
      RefId(Get(data, "sender_business_bot")),
      Get(data, "date"),
      Get(data, "edit_date"),
      Get(data, "business_connection_id"),
      Truthy(Get(data, "is_topic_message")),
      Truthy(Get(data, "is_automatic_forward")),
      Truthy(Get(data, "has_media_spoiler")),
      Truthy(Get(data, "has_protected_content")),
      Truthy(Get(data, "is_from_offline")),
      Truthy(Get(data, "is_paid_post")),
      Get(data, "author_signature"),
      Get(data, "paid_star_count"),
      MessageOverflow(data))
  }

  /** The overflow of a prepared message never holds a key that `to_dict` promotes. */
  lemma PreparedOverflowDisjoint(data: Dict)
    requires "message_type" !in data
    ensures forall key :: key in Overflow(PrepareMessage(data).otherData) ==> key !in MESSAGE_DICT_KEYS
  {
  }

  /**
   * Reading a prepared message back with `to_dict` restores its identity: the overflow
   * never shadows a promoted key, because every promoted key is excluded from it.
   */
  lemma PreparedMessageIdentity(k: MsgKey, data: Dict)
    requires "message_type" !in data
    ensures var d := MessageModel.ToDict(k, PrepareMessage(data));
      d["message_id"] == JInt(k.id)
      && d["chat"] == JObj(map["id" := JInt(k.chatId), "type" := JStr("")])
      && d["message_type"] == JStr(MessageTypeValue(GetMessageType(data)))
  {
    PreparedOverflowDisjoint(data);
    PromotedSurvive(k, PrepareMessage(data));
  }

  /** The pass-through columns of a prepared message come back from `to_dict` as the payload had them. */
  lemma PreparedMessageContent(k: MsgKey, data: Dict)
    requires "message_type" !in data
    ensures var d := MessageModel.ToDict(k, PrepareMessage(data));
      d["text"] == Get(data, "text") && d["caption"] == Get(data, "caption")
      && d["date"] == Get(data, "date") && d["edit_date"] == Get(data, "edit_date")
  {
    PreparedOverflowDisjoint(data);
    PromotedContent(k, PrepareMessage(data));
  }

  /** When the overflow avoids the promoted keys, `to_dict` shows the stored text, caption and dates. */
  lemma PromotedContent(k: MsgKey, m: MessageRow)
    requires forall key :: key in Overflow(m.otherData) ==> key !in MESSAGE_DICT_KEYS
    ensures var d := MessageModel.ToDict(k, m);
      d["text"] == m.text && d["caption"] == m.caption && d["date"] == m.date && d["edit_date"] == m.editDate
  {
    var d := MessageModel.ToDict(k, m);
    assert d["text"] == PromotedValue(k, m, "text");
    assert d["caption"] == PromotedValue(k, m, "caption");
    assert d["date"] == PromotedValue(k, m, "date");
    assert d["edit_date"] == PromotedValue(k, m, "edit_date");
  }

  /** When the overflow avoids the promoted keys, `to_dict` shows every promoted value. */
  lemma PromotedSurvive(k: MsgKey, m: MessageRow)
    requires forall key :: key in Overflow(m.otherData) ==> key !in MESSAGE_DICT_KEYS
    ensures forall key :: key in MESSAGE_DICT_KEYS ==> MessageModel.ToDict(k, m)[key] == PromotedValue(k, m, key)
  {
  }

  /** Every key the overflow kept comes back from `to_dict`, with `file_id` scrubbed at every depth. */
  lemma PreparedMessageKeepsOverflow(k: MsgKey, data: Dict, key: string)
    requires key in data && key !in MessageExcludedFields(data) && key != "file_id"
    ensures var d := MessageModel.ToDict(k, PrepareMessage(data));
      key in d && d[key] == Scrub(data[key], {"file_id"})
  {
  }

  /** A file reached in the payload: its type and its dictionary, tagged with `file_type`. */
  datatype FileEntry = FileEntry(fileType: FileType, data: Dict)

  /**
   * `bulk_prepare_files`: the type from the entry, size and MIME type when present (NULL
   * otherwise), and the remaining keys, without FILE_EXCLUDED_FIELDS, as the overflow record.
   */
  function PrepareFile(e: FileEntry): (r: FileRow)
    ensures r.fileType == e.fileType && r.fileSize == Get(e.data, "file_size") && r.mimeType == Get(e.data, "mime_type")
    ensures r.otherData.Some? ==> (r.otherData.value != map[]
      && forall key :: key in r.otherData.value ==>
        (key !in FILE_EXCLUDED_FIELDS && key in e.data && r.otherData.value[key] == e.data[key]))
    ensures r.otherData.None? <==> e.data.Keys <= FILE_EXCLUDED_FIELDS
  {
    var o := RemovedFields(e.data, FILE_EXCLUDED_FIELDS, {});
    assert e.data.Keys <= FILE_EXCLUDED_FIELDS <==> o == map[] by {
      if o == map[] {
        forall key | key in e.data ensures key in FILE_EXCLUDED_FIELDS {
          assert key !in o;
        }
      }
    }
    FileRow(e.fileType, Get(e.data, "file_size"), Get(e.data, "mime_type"), if o == map[] then None else Some(o))
  }

  /**
   * A stored file read back with `to_dict` shows its own key, its type, size and MIME type:
   * the overflow cannot clobber them. Every other key of the entry comes back unchanged, and
   * `file_id` never does.
   */
  lemma PreparedFileRoundTrip(uniqueId: string, e: FileEntry)
    ensures var d := FileModel.ToDict(uniqueId, PrepareFile(e));
      d["file_unique_id"] == JStr(uniqueId) && d["file_type"] == JStr(FileTypeValue(e.fileType))
      && d["file_size"] == Get(e.data, "file_size") && d["mime_type"] == Get(e.data, "mime_type")
      && (forall key :: key in e.data && key !in FILE_EXCLUDED_FIELDS ==> key in d && d[key] == e.data[key])
      && (forall key :: key in d ==> key in FILE_DICT_KEYS || (key in e.data && key !in FILE_EXCLUDED_FIELDS))
      && "file_id" !in d
  {
    var f := PrepareFile(e);
    if f.otherData.Some? {
      assert forall key :: key in FILE_DICT_KEYS ==> key !in f.otherData.value;
    }
  }

  // ---------------------------------------------------------------------------------
  // collect_entities
  // ---------------------------------------------------------------------------------

  /** The dictionary of a node (`to_dict()` for an object, nothing for a container). */
  function NodeData(g: Graph, h: Handle): Dict
  {
    if h in g && g[h].ObjNode? then g[h].data else map[]
  }

  /** `getattr(obj, field)` for an integer field, as the key extractor of `deduplicate`. */
  function IntField(g: Graph, field: string): Handle -> Option<int>
  {
    (h: Handle) => GetInt(NodeData(g, h), field)
  }

  /** `getattr(obj, field)` for a string field. */
  function StrField(g: Graph, field: string): Handle -> Option<string>
  {
    (h: Handle) => if field in NodeData(g, h) && NodeData(g, h)[field].JStr? then Some(NodeData(g, h)[field].s) else None
  }

  /** `getattr(message, name)`: `chat_id` is the id of the message's chat, `id` its `message_id`. */
  function MessageField(data: Dict, name: string): Option<int>
  {
    if name == "chat_id" then RefId(Get(data, "chat"))
    else if name == "id" then GetInt(data, "message_id")
    else GetInt(data, name)
  }

  function MessageAttr(g: Graph): (Handle, string) -> Option<int>
  {
    (h: Handle, name: string) => MessageField(NodeData(g, h), name)
  }

  /** The compound key of a message, in field order. */
  const MESSAGE_KEY_FIELDS: seq<string> := ["chat_id", "id"]

  /** The attributes that make an object a file. */
  const FILE_ATTRIBUTES: seq<string> := ["file_unique_id", "file_id"]

  /** The objects' dictionaries, under the same keys in the same order. */
  function DataOf<K>(g: Graph, m: OrderedMap<K, Handle>): (r: OrderedMap<K, Dict>)
    ensures r.keys == m.keys && r.values.Keys == m.values.Keys
    ensures forall k :: k in r.values ==> r.values[k] == NodeData(g, m.values[k])
  {
    OrderedMap(m.keys, map k | k in m.values :: NodeData(g, m.values[k]))
  }

  /**
   * A file object as `collect_entities` keeps it: it must have a file type and be a Telegram
   * object; its dictionary is tagged with `file_type`.
   */
  function FileEntryOf(n: Node): (r: Option<FileEntry>)
    ensures r.Some? <==> GetFileType(n).Some? && n.ObjNode? && TelegramObjectClass in n.classes
    ensures r.Some? ==> (r.value.fileType == GetFileType(n).value
      && r.value.data == n.data["file_type" := JStr(FileTypeValue(r.value.fileType))])
  {
    match GetFileType(n)
    case None => None
    case Some(t) =>
      if n.ObjNode? && TelegramObjectClass in n.classes then Some(FileEntry(t, n.data["file_type" := JStr(FileTypeValue(t))]))
      else None
  }

  /** The typed files among `keys`, in order: the loop of `collect_entities` that skips untyped files. */
  function TypedFiles(g: Graph, files: OrderedMap<string, Handle>, keys: seq<string>): (r: OrderedMap<string, FileEntry>)
    requires forall k :: k in keys ==> k in files.values
    requires NoDup(keys)
    ensures NoDup(r.keys) && (forall k :: k in r.values <==> k in r.keys)
    ensures forall k :: k in r.values <==> k in keys && files.values[k] in g && FileEntryOf(g[files.values[k]]).Some?
    ensures forall k :: k in r.values ==> r.values[k] == FileEntryOf(g[files.values[k]]).value
  {
    if keys == [] then OrderedMap([], map[])
    else
      var init := keys[..|keys| - 1];
      var k := keys[|keys| - 1];
      assert keys == init + [k];
      var rest := TypedFiles(g, files, init);
      var h := files.values[k];
      if h in g && FileEntryOf(g[h]).Some? then
        NoDupAppend(rest.keys, [k]);
        OrderedMap(rest.keys + [k], rest.values[k := FileEntryOf(g[h]).value])
      else rest
  }

  /** What `collect_entities` returns: the unique users, chats, messages and typed files. */
  datatype Collected = Collected(
    users: OrderedMap<int, Dict>,
    chats: OrderedMap<int, Dict>,
    messages: OrderedMap<seq<int>, Dict>,
    files: OrderedMap<string, FileEntry>)

  /** The user objects of the payload, deduplicated by `id`. */
  function UniqueUsers(g: Graph, root: Handle): OrderedMap<int, Handle>
    requires Closed(g) && root in g
  {
    Dedup(Traverse(g, root, {}, InstanceOf(UserClass)).0, IntField(g, "id"))
  }

  /** The chat objects of the payload, deduplicated by `id`. */
  function UniqueChats(g: Graph, root: Handle): OrderedMap<int, Handle>
    requires Closed(g) && root in g
  {
    Dedup(Traverse(g, root, {}, InstanceOf(ChatClass)).0, IntField(g, "id"))
  }

  /** The message objects of the payload, deduplicated by (chat id, message id). */
  function UniqueMessages(g: Graph, root: Handle): OrderedMap<seq<int>, Handle>
    requires Closed(g) && root in g
  {
    Dedup(Traverse(g, root, {}, InstanceOf(MessageClass)).0, CompoundKeyOf(MESSAGE_KEY_FIELDS, MessageAttr(g)))
  }

  /** The objects with both file attributes, deduplicated by `file_unique_id`. */
  function UniqueFiles(g: Graph, root: Handle): OrderedMap<string, Handle>
    requires Closed(g) && root in g
  {
    Dedup(Traverse(g, root, {}, WithAttrs(FILE_ATTRIBUTES)).0, StrField(g, "file_unique_id"))
  }

  /** The collection of the payload rooted at `root`: four walks, each deduplicated. */
  function CollectSpec(g: Graph, root: Handle): (c: Collected)
    requires Closed(g) && root in g
  {
    var files := UniqueFiles(g, root);
    Collected(DataOf(g, UniqueUsers(g, root)), DataOf(g, UniqueChats(g, root)), DataOf(g, UniqueMessages(g, root)),
      TypedFiles(g, files, files.keys))
  }

  /** `collect_entities`: the walks, the deduplications and the loop that types the files. */
  method CollectEntities(g: Graph, root: Handle) returns (c: Collected)
    requires Closed(g) && root in g
    ensures c == CollectSpec(g, root)
  {
    var users, _ := FindInstances(g, root, UserClass, {});
    var uniqueUsers := Deduplicate(users, IntField(g, "id"));
    var chats, _ := FindInstances(g, root, ChatClass, {});
    var uniqueChats := Deduplicate(chats, IntField(g, "id"));
    var messages, _ := FindInstances(g, root, MessageClass, {});
    var uniqueMessages := DeduplicateCompound(messages, MESSAGE_KEY_FIELDS, MessageAttr(g));
    var files, _ := FindObjectsWithAttributes(g, root, FILE_ATTRIBUTES, {});
    var uniqueFiles := Deduplicate(files, StrField(g, "file_unique_id"));
    var typed := TypeFiles(g, uniqueFiles);
    c := Collected(DataOf(g, uniqueUsers), DataOf(g, uniqueChats), DataOf(g, uniqueMessages), typed);
  }

  /** The loop of `collect_entities` over the unique files: untyped files are skipped. */
  method TypeFiles(g: Graph, files: OrderedMap<string, Handle>) returns (typed: OrderedMap<string, FileEntry>)
    requires WellFormed(files)
    ensures typed == TypedFiles(g, files, files.keys)
  {
    typed := OrderedMap([], map[]);
    var i := 0;
    while i < |files.keys|
      invariant 0 <= i <= |files.keys|
      invariant typed == TypedFiles(g, files, files.keys[..i])
    {
      var k := files.keys[i];
      assert files.keys[..i + 1] == files.keys[..i] + [k];
      var h := files.values[k];
      if h in g {
        var entry := FileEntryOf(g[h]);
        if entry.Some? {
          typed := OrderedMap(typed.keys + [k], typed.values[k := entry.value]);
        }
      }
      i := i + 1;
    }
    assert files.keys[..i] == files.keys;
  }

  /** Keys are listed once, every listed key has a value, and message keys are (chat id, message id) pairs. */
  ghost predicate CollectedWF(c: Collected)
  {
    WellFormed(c.users) && WellFormed(c.chats) && WellFormed(c.messages) && WellFormed(c.files)
    && forall k :: k in c.messages.values ==> |k| == 2
  }

  /** The collection of any payload is well formed. */
  lemma CollectSpecWF(g: Graph, root: Handle)
    requires Closed(g) && root in g
    ensures CollectedWF(CollectSpec(g, root))
  {
    var found := Traverse(g, root, {}, InstanceOf(MessageClass)).0;
    var keyOf := CompoundKeyOf(MESSAGE_KEY_FIELDS, MessageAttr(g));
    forall k | k in UniqueMessages(g, root).values ensures |k| == 2 {
      var i := FirstIndex(found, keyOf, k).value;
      assert CompoundKey(found[i], MESSAGE_KEY_FIELDS, MessageAttr(g)) == Some(k);
    }
  }

  /**
   * A user id is collected exactly when some user object reached by the walk has it, and the
   * dictionary kept is that of the first such object in walk order.
   */
  lemma CollectedUsersFirstWins(g: Graph, root: Handle, id: int)
    requires Closed(g) && root in g
    ensures var found := Traverse(g, root, {}, InstanceOf(UserClass)).0;
      var idOf := IntField(g, "id");
      var users := DataOf(g, UniqueUsers(g, root));
      (id in users.values <==> exists i :: 0 <= i < |found| && idOf(found[i]) == Some(id))
      && (id in users.values ==> exists i :: (0 <= i < |found| && idOf(found[i]) == Some(id)
        && users.values[id] == NodeData(g, found[i])
        && forall j :: 0 <= j < i ==> idOf(found[j]) != Some(id)))
  {
    var found := Traverse(g, root, {}, InstanceOf(UserClass)).0;
    var idOf := IntField(g, "id");
    DedupFirstWins(found, idOf, id);
  }

  /** Every collected file carries the type of its first object, and its dictionary is tagged with it. */
  lemma CollectedFilesTyped(g: Graph, root: Handle, uid: string)
    requires Closed(g) && root in g
    requires uid in CollectSpec(g, root).files.values
    ensures var e := CollectSpec(g, root).files.values[uid];
      "file_type" in e.data && e.data["file_type"] == JStr(FileTypeValue(e.fileType))
      && exists h :: h in g && GetFileType(g[h]) == Some(e.fileType) && StrField(g, "file_unique_id")(h) == Some(uid)
  {
    var found := Traverse(g, root, {}, WithAttrs(FILE_ATTRIBUTES)).0;
    var files := UniqueFiles(g, root);
    var h := files.values[uid];
    var i := FirstIndex(found, StrField(g, "file_unique_id"), uid).value;
    assert h == found[i];
  }

  // ---------------------------------------------------------------------------------
  // check_entities
  // ---------------------------------------------------------------------------------

  /**
   * One row of the `check_entities` union: the probed key (NULL in the other key columns),
   * whether the entity is stored (`exists`), whether the bot is linked to it (NULL, read as false, for
   * chats and users) and the entity kind.
   */
  datatype CheckRow = CheckRow(
    kind: EntityCheckResultType,
    chatId: Option<int>, userId: Option<int>, messageId: Option<int>, fileUniqueId: Option<string>,
    stored: bool, botRelation: bool)

  /** `non_empty_cte_data`: a VALUES list is never empty; an empty one becomes one row of NULLs. */
  function NonEmptyCteData<T>(data: seq<T>): (r: seq<Option<T>>)
    ensures data == [] ==> r == [None]
    ensures data != [] ==> |r| == |data| && forall i :: 0 <= i < |data| ==> r[i] == Some(data[i])
    ensures forall y :: y in r ==> y.None? || y.value in data
  {
    if data == [] then [None] else seq(|data|, i requires 0 <= i < |data| => Some(data[i]))
  }

  /** The chat probe, joined on the chat id. */
  function ChatProbe(t: EntityTables, id: Option<int>): CheckRow
  {
    CheckRow(CheckChat, id, None, None, None, id.Some? && id.value in t.chats, false)
  }

  /** The user probe, joined on the user id. */
  function UserProbe(t: EntityTables, id: Option<int>): CheckRow
  {
    CheckRow(CheckUser, None, id, None, None, id.Some? && id.value in t.users, false)
  }

  /** The message probe, joined on (chat id, message id), and for the link also on the bot. */
  function MessageProbe(t: EntityTables, botId: int, key: Option<seq<int>>): CheckRow
    requires key.Some? ==> |key.value| == 2
  {
    match key
    case None => CheckRow(CheckMessage, None, None, None, None, false, false)
    case Some(k) =>
      CheckRow(CheckMessage, Some(k[0]), None, Some(k[1]), None,
        MsgKey(k[0], k[1]) in t.messages, BotMessageKey(botId, MsgKey(k[0], k[1])) in t.botMessages)
  }

  /** The file probe, joined on the unique id, and for the link also on the bot. */
  function FileProbe(t: EntityTables, botId: int, uid: Option<string>): CheckRow
  {
    CheckRow(CheckFile, None, None, None, uid,
      uid.Some? && uid.value in t.files, uid.Some? && BotFileKey(botId, uid.value) in t.botFiles)
  }

  /** The chat part of the union: one probe per VALUES row. */
  function ChatChecks(t: EntityTables, ids: seq<Option<int>>): (r: seq<CheckRow>)
    ensures |r| == |ids| && forall i :: 0 <= i < |ids| ==> r[i] == ChatProbe(t, ids[i])
  {
    seq(|ids|, i requires 0 <= i < |ids| => ChatProbe(t, ids[i]))
  }

  function UserChecks(t: EntityTables, ids: seq<Option<int>>): (r: seq<CheckRow>)
    ensures |r| == |ids| && forall i :: 0 <= i < |ids| ==> r[i] == UserProbe(t, ids[i])
  {
    seq(|ids|, i requires 0 <= i < |ids| => UserProbe(t, ids[i]))
  }

  function MessageChecks(t: EntityTables, botId: int, keys: seq<Option<seq<int>>>): (r: seq<CheckRow>)
    requires forall y :: y in keys ==> y.None? || |y.value| == 2
    ensures |r| == |keys| && forall i :: 0 <= i < |keys| ==> r[i] == MessageProbe(t, botId, keys[i])
  {
    assert forall i :: 0 <= i < |keys| ==> keys[i] in keys;
    seq(|keys|, i requires 0 <= i < |keys| => MessageProbe(t, botId, keys[i]))
  }

  function FileChecks(t: EntityTables, botId: int, uids: seq<Option<string>>): (r: seq<CheckRow>)
    ensures |r| == |uids| && forall i :: 0 <= i < |uids| ==> r[i] == FileProbe(t, botId, uids[i])
  {
    seq(|uids|, i requires 0 <= i < |uids| => FileProbe(t, botId, uids[i]))
  }

  /**
   * `check_entities` as its query is evidently meant: each VALUES list left-joined with its
   * table (and the link tables with the bot's id), so that every probed key yields one row.
   */
  function CheckEntities(t: EntityTables, chatIds: seq<int>, userIds: seq<int>, messages: seq<seq<int>>,
                         fileIds: seq<string>, botId: int): seq<CheckRow>
    requires forall k :: k in messages ==> |k| == 2
  {
    ChatChecks(t, NonEmptyCteData(chatIds)) + UserChecks(t, NonEmptyCteData(userIds))
    + MessageChecks(t, botId, NonEmptyCteData(messages)) + FileChecks(t, botId, NonEmptyCteData(fileIds))
  }

  /** Every element of `xs` repeated `n` times in a row: the rows of a cross join with an `n`-row table. */
  function Cross<T>(xs: seq<T>, n: nat): (r: seq<T>)
    ensures forall y :: y in r ==> y in xs
  {
    if xs == [] then [] else seq(n, _ => xs[0]) + Cross(xs[1..], n)
  }

  /** A row that asks for nothing: the entity is stored and, for messages and files, so is the bot's link. */
  predicate Quiet(row: CheckRow)
  {
    row.stored && (row.kind == CheckMessage || row.kind == CheckFile ==> row.botRelation)
  }

  /** The chat rows of the query as written: every id of the VALUES list once per stored chat, all reported stored. */
  function CrossedChatRows(ids: seq<Option<int>>, n: nat): (r: seq<CheckRow>)
    ensures forall i :: 0 <= i < |r| ==> Quiet(r[i])
  {
    var chats := Cross(ids, n);
    seq(|chats|, i requires 0 <= i < |chats| => CheckRow(CheckChat, chats[i], None, None, None, true, false))
  }

  function CrossedUserRows(ids: seq<Option<int>>, n: nat): (r: seq<CheckRow>)
    ensures forall i :: 0 <= i < |r| ==> Quiet(r[i])
  {
    var users := Cross(ids, n);
    seq(|users|, i requires 0 <= i < |users| => CheckRow(CheckUser, None, users[i], None, None, true, false))
  }

  /** A message row of the query as written: a key of the VALUES list paired with some stored message and link. */
  function CrossedMessageRow(key: Option<seq<int>>): CheckRow
    requires key.Some? ==> |key.value| == 2
  {
    match key
    case None => CheckRow(CheckMessage, None, None, None, None, true, true)
    case Some(k) => CheckRow(CheckMessage, Some(k[0]), None, Some(k[1]), None, true, true)
  }

  function CrossedMessageRows(keys: seq<Option<seq<int>>>, n: nat): (r: seq<CheckRow>)
    requires forall y :: y in keys ==> y.None? || |y.value| == 2
    ensures forall i :: 0 <= i < |r| ==> Quiet(r[i])
  {
    var msgs := Cross(keys, n);
    assert forall i :: 0 <= i < |msgs| ==> msgs[i] in keys;
    seq(|msgs|, i requires 0 <= i < |msgs| => CrossedMessageRow(msgs[i]))
  }

  function CrossedFileRows(uids: seq<Option<string>>, n: nat): (r: seq<CheckRow>)
    ensures forall i :: 0 <= i < |r| ==> Quiet(r[i])
  {
    var files := Cross(uids, n);
    seq(|files|, i requires 0 <= i < |files| => CheckRow(CheckFile, None, None, None, files[i], true, true))
  }

  /**
   * `check_entities` as written: the selects name the aliased tables without any join
   * condition, so each VALUES list is crossed with the whole table (and, for messages and
   * files, also with the whole link table); `exists` and `bot_relation` test a primary-key
   * column of a row that is always there.
   */
  function CheckEntitiesAsWritten(t: EntityTables, chatIds: seq<int>, userIds: seq<int>, messages: seq<seq<int>>,
                                  fileIds: seq<string>, botId: int): seq<CheckRow>
    requires forall k :: k in messages ==> |k| == 2
  {
    CrossedChatRows(NonEmptyCteData(chatIds), |t.chats|)
    + CrossedUserRows(NonEmptyCteData(userIds), |t.users|)
    + CrossedMessageRows(NonEmptyCteData(messages), |t.messages| * |t.botMessages|)
    + CrossedFileRows(NonEmptyCteData(fileIds), |t.files| * |t.botFiles|)
  }

  /** In the rows of the query as written every entity is reported stored and every link present. */
  lemma AsWrittenReportsAllStored(t: EntityTables, chatIds: seq<int>, userIds: seq<int>, messages: seq<seq<int>>,
                                  fileIds: seq<string>, botId: int)
    requires forall k :: k in messages ==> |k| == 2
    ensures var rows := CheckEntitiesAsWritten(t, chatIds, userIds, messages, fileIds, botId);
      forall i :: 0 <= i < |rows| ==> Quiet(rows[i])
  {
    var a := CrossedChatRows(NonEmptyCteData(chatIds), |t.chats|);
    var b := CrossedUserRows(NonEmptyCteData(userIds), |t.users|);
    PairKeys(messages);
    var m := CrossedMessageRows(NonEmptyCteData(messages), |t.messages| * |t.botMessages|);
    var f := CrossedFileRows(NonEmptyCteData(fileIds), |t.files| * |t.botFiles|);
    assert CheckEntitiesAsWritten(t, chatIds, userIds, messages, fileIds, botId) == a + b + m + f;
    QuietOfFour(a, b, m, f);
  }

  /** The VALUES list of message keys holds only pairs (or the NULL row). */
  lemma PairKeys(messages: seq<seq<int>>)
    requires forall k :: k in messages ==> |k| == 2
    ensures forall y :: y in NonEmptyCteData(messages) ==> y.None? || |y.value| == 2
  {
  }

  lemma QuietOfFour(a: seq<CheckRow>, b: seq<CheckRow>, m: seq<CheckRow>, f: seq<CheckRow>)
    requires forall i :: 0 <= i < |a| ==> Quiet(a[i])
    requires forall i :: 0 <= i < |b| ==> Quiet(b[i])
    requires forall i :: 0 <= i < |m| ==> Quiet(m[i])
    requires forall i :: 0 <= i < |f| ==> Quiet(f[i])
    ensures var rows := a + b + m + f; forall i :: 0 <= i < |rows| ==> Quiet(rows[i])
  {
    var rows := a + b + m + f;
    forall i | 0 <= i < |rows| ensures Quiet(rows[i]) {
      if i < |a| { assert rows[i] == a[i]; }
      else if i < |a| + |b| { assert rows[i] == b[i - |a|]; }
      else if i < |a| + |b| + |m| { assert rows[i] == m[i - |a| - |b|]; }
      else { assert rows[i] == f[i - |a| - |b| - |m|]; }
    }
  }

  // ---------------------------------------------------------------------------------
  // log_object
  // ---------------------------------------------------------------------------------

  /** `if user_id:`: a key column is truthy when it is not NULL and not zero. */
  predicate IntTruthy(o: Option<int>)
  {
    o.Some? && o.value != 0
  }

  /** `if file_unique_id:`: not NULL and not empty. */
  predicate StrTruthy(o: Option<string>)
  {
    o.Some? && o.value != ""
  }

  /**
   * The user a row asks to insert: a truthy user id that is not stored. (The collected map is
   * indexed with the id; the rows only ever name collected ids, see `RowsName`.)
   */
  function PickUser(c: Collected, row: CheckRow): Option<(int, Dict)>
  {
    if row.kind == CheckUser && IntTruthy(row.userId) && !row.stored && row.userId.value in c.users.values
    then Some((row.userId.value, c.users.values[row.userId.value]))
    else None
  }

  function PickChat(c: Collected, row: CheckRow): Option<(int, Dict)>
  {
    if row.kind == CheckChat && IntTruthy(row.chatId) && !row.stored && row.chatId.value in c.chats.values
    then Some((row.chatId.value, c.chats.values[row.chatId.value]))
    else None
  }

  /** A message row names a collected message when both key columns are truthy. */
  predicate NamesMessage(c: Collected, row: CheckRow)
  {
    row.kind == CheckMessage && IntTruthy(row.chatId) && IntTruthy(row.messageId)
    && [row.chatId.value, row.messageId.value] in c.messages.values
  }

  function PickMessage(c: Collected, row: CheckRow): Option<(MsgKey, Dict)>
  {
    if NamesMessage(c, row) && !row.stored
    then Some((MsgKey(row.chatId.value, row.messageId.value), c.messages.values[[row.chatId.value, row.messageId.value]]))
    else None
  }

  /** The message a row asks to link to the bot: it is linked whether or not it was stored before. */
  function PickBotMessage(c: Collected, row: CheckRow): Option<MsgKey>
  {
    if NamesMessage(c, row) && !row.botRelation then Some(MsgKey(row.chatId.value, row.messageId.value)) else None
  }

  predicate NamesFile(c: Collected, row: CheckRow)
  {
    row.kind == CheckFile && StrTruthy(row.fileUniqueId) && row.fileUniqueId.value in c.files.values
  }

  function PickFile(c: Collected, row: CheckRow): Option<(string, FileEntry)>
  {
    if NamesFile(c, row) && !row.stored then Some((row.fileUniqueId.value, c.files.values[row.fileUniqueId.value])) else None
  }

  /** The file a row asks to link to the bot, with the bot's own `file_id` for it. */
  function PickBotFile(c: Collected, row: CheckRow): Option<(string, Json)>
  {
    if NamesFile(c, row) && !row.botRelation
    then Some((row.fileUniqueId.value, Get(c.files.values[row.fileUniqueId.value].data, "file_id")))
    else None
  }

  function UserPicker(c: Collected): CheckRow -> Option<(int, Dict)>
  {
    row => PickUser(c, row)
  }

  function ChatPicker(c: Collected): CheckRow -> Option<(int, Dict)>
  {
    row => PickChat(c, row)
  }

  function MessagePicker(c: Collected): CheckRow -> Option<(MsgKey, Dict)>
  {
    row => PickMessage(c, row)
  }

  function BotMessagePicker(c: Collected): CheckRow -> Option<MsgKey>
  {
    row => PickBotMessage(c, row)
  }

  function FilePicker(c: Collected): CheckRow -> Option<(string, FileEntry)>
  {
    row => PickFile(c, row)
  }

  function BotFilePicker(c: Collected): CheckRow -> Option<(string, Json)>
  {
    row => PickBotFile(c, row)
  }

  /** The six lists `log_object` fills while it reads the check rows. */
  datatype Batches = Batches(
    users: seq<(int, Dict)>, chats: seq<(int, Dict)>, messages: seq<(MsgKey, Dict)>,
    botMessages: seq<MsgKey>, files: seq<(string, FileEntry)>, botFiles: seq<(string, Json)>)

  /** The lists after reading `rows`: each picks, in row order, what its kind of row asks for. */
  function Plan(c: Collected, rows: seq<CheckRow>): Batches
  {
    Batches(FilterMap(rows, UserPicker(c)), FilterMap(rows, ChatPicker(c)), FilterMap(rows, MessagePicker(c)),
      FilterMap(rows, BotMessagePicker(c)), FilterMap(rows, FilePicker(c)), FilterMap(rows, BotFilePicker(c)))
  }

  /**
   * A multi-row INSERT into a table keyed by the first component: it aborts with an integrity
   * error when a key is already stored or repeats among the rows, and otherwise adds every row.
   */
  function BulkInsert<K(==,!new), V>(m: map<K, V>, rows: seq<(K, V)>): (r: Result<map<K, V>>)
    ensures r.Ok? <==> (forall i :: 0 <= i < |rows| ==> rows[i].0 !in m) && NoDup(Firsts(rows))
    ensures r.Err? ==> r.error == Raised("IntegrityError")
    ensures r.Ok? ==> forall k :: k in r.value <==> k in m || k in Firsts(rows)
    ensures r.Ok? ==> forall k :: k in m ==> r.value[k] == m[k]
    ensures r.Ok? ==> forall i :: 0 <= i < |rows| ==> r.value[rows[i].0] == rows[i].1
    decreases |rows|
  {
    if rows == [] then Ok(m)
    else if rows[0].0 in m then Err(Raised("IntegrityError"))
    else
      var rest := BulkInsert(m[rows[0].0 := rows[0].1], rows[1..]);
      assert Firsts(rows) == [rows[0].0] + Firsts(rows[1..]);
      rest
  }

  /** The columns `bulk_insert_users` writes for a user: `is_premium` as its truth value. */
  function UserRowOf(d: Dict): (r: TgUserRow)
    ensures r.isPremium <==> Truthy(Get(d, "is_premium"))
  {
    TgUserRow(Get(d, "first_name"), Get(d, "last_name"), Get(d, "username"), Get(d, "language_code"),
      Truthy(Get(d, "is_premium")), Get(d, "is_bot"))
  }

  /** `ChatType(chat.type)`: None when the type is not one of the enum's values. */
  function ChatTypeOf(d: Dict): (r: Option<ChatType>)
    ensures r.Some? ==> Get(d, "type") == JStr(ChatTypeValue(r.value))
    ensures r.None? ==> forall t: ChatType :: Get(d, "type") != JStr(ChatTypeValue(t))
  {
    if Get(d, "type").JStr? then ParseChatType(Get(d, "type").s) else None
  }

  /** The columns `bulk_insert_chats` writes; the enum conversion raises `ValueError` on an unknown type. */
  function ChatRowOf(d: Dict): (r: Result<ChatRow>)
    ensures r.Err? <==> ChatTypeOf(d).None?
    ensures r.Err? ==> r.error == Raised("ValueError")
    ensures r.Ok? ==> (r.value.chatType == ChatTypeOf(d).value
      && r.value.isForum == Truthy(Get(d, "is_forum")) && r.value.isDirectMessages == Truthy(Get(d, "is_direct_messages"))
      && r.value.otherData.None? && r.value.photoSmallId.None? && r.value.photoBigId.None?)
  {
    match ChatTypeOf(d)
    case None => Err(Raised("ValueError"))
    case Some(ct) =>
      Ok(ChatRow(ct, Get(d, "title"), Get(d, "username"), Get(d, "first_name"), Get(d, "last_name"),
        Truthy(Get(d, "is_forum")), Truthy(Get(d, "is_direct_messages")), None, None, None, None, None, None))
  }

  /** The rows of `bulk_insert_chats`: the first chat with an unknown type aborts the whole batch. */
  function ChatRowsOf(chats: seq<(int, Dict)>): (r: Result<seq<(int, ChatRow)>>)
    ensures r.Err? <==> exists i :: 0 <= i < |chats| && ChatTypeOf(chats[i].1).None?
    ensures r.Err? ==> r.error == Raised("ValueError")
    ensures r.Ok? ==> (|r.value| == |chats|
      && forall i :: 0 <= i < |chats| ==> r.value[i] == (chats[i].0, ChatRowOf(chats[i].1).value))
  {
    if chats == [] then Ok([])
    else
      match ChatRowOf(chats[0].1)
      case Err(e) => Err(e)
      case Ok(row) =>
        var rest := ChatRowsOf(chats[1..]);
        assert forall i :: 1 <= i < |chats| ==> chats[i] == chats[1..][i - 1];
        if rest.Err? then rest else Ok([(chats[0].0, row)] + rest.value)
  }

  /** The rows of a bulk insert: each entity of the batch under its key, through its column mapping. */
  function Converted<K, D, V>(batch: seq<(K, D)>, columns: D -> V): (r: seq<(K, V)>)
    ensures |r| == |batch| && forall i :: 0 <= i < |batch| ==> r[i] == (batch[i].0, columns(batch[i].1))
  {
    seq(|batch|, i requires 0 <= i < |batch| => (batch[i].0, columns(batch[i].1)))
  }

  /** The rows of `bulk_insert_bot_messages`: the bot's id and the message key; the database stamps the time. */
  function BotMessageRows(botId: int, keys: seq<MsgKey>, now: int): (r: seq<(BotMessageKey, int)>)
    ensures |r| == |keys| && forall i :: 0 <= i < |keys| ==> r[i] == (BotMessageKey(botId, keys[i]), now)
  {
    seq(|keys|, i requires 0 <= i < |keys| => (BotMessageKey(botId, keys[i]), now))
  }

  /** The rows of `bulk_insert_bot_files`. */
  function BotFileRows(botId: int, links: seq<(string, Json)>, now: int): (r: seq<(BotFileKey, BotFileRow)>)
    ensures |r| == |links| && forall i :: 0 <= i < |links| ==> r[i] == (BotFileKey(botId, links[i].0), BotFileRow(links[i].1, now))
  {
    seq(|links|, i requires 0 <= i < |links| => (BotFileKey(botId, links[i].0), BotFileRow(links[i].1, now)))
  }

  /**
   * The six bulk inserts of `log_object`, in its order (an empty list inserts nothing). A
   * failure aborts the request, whose transaction is then rolled back, so a failed call
   * leaves the tables as they were.
   */
  function Apply(t: EntityTables, b: Batches, botId: int, now: int): Result<EntityTables>
  {
    var users :- BulkInsert(t.users, Converted(b.users, UserRowOf));
    var chatRows :- ChatRowsOf(b.chats);
    var chats :- BulkInsert(t.chats, chatRows);
    var messages :- BulkInsert(t.messages, Converted(b.messages, PrepareMessage));
    var botMessages :- BulkInsert(t.botMessages, BotMessageRows(botId, b.botMessages, now));
    var files :- BulkInsert(t.files, Converted(b.files, PrepareFile));
    var botFiles :- BulkInsert(t.botFiles, BotFileRows(botId, b.botFiles, now));
    Ok(EntityTables(users, chats, messages, files, botMessages, botFiles))
  }

  /** What `log_object` returns: whether each of the six lists was non-empty. */
  datatype LogFlags = LogFlags(users: bool, chats: bool, messages: bool, botMessages: bool, files: bool, botFiles: bool)

  const NO_FLAGS := LogFlags(false, false, false, false, false, false)

  function FlagsOf(b: Batches): LogFlags
  {
    LogFlags(b.users != [], b.chats != [], b.messages != [], b.botMessages != [], b.files != [], b.botFiles != [])
  }

  /** The check rows for a collection, probed against the tables `t`. */
  function CheckRowsOf(t: EntityTables, c: Collected, botId: int): seq<CheckRow>
    requires CollectedWF(c)
  {
    CheckEntities(t, c.chats.keys, c.users.keys, c.messages.keys, c.files.keys, botId)
  }

  /** `log_object` on a collection, with its query as evidently meant: the new tables and the flags. */
  function Reconcile(t: EntityTables, c: Collected, botId: int, now: int): Result<(EntityTables, LogFlags)>
    requires CollectedWF(c)
  {
    var b := Plan(c, CheckRowsOf(t, c, botId));
    var t' :- Apply(t, b, botId, now);
    Ok((t', FlagsOf(b)))
  }

  /** `log_object` on a collection, with `check_entities` as written. */
  function ReconcileAsWritten(t: EntityTables, c: Collected, botId: int, now: int): Result<(EntityTables, LogFlags)>
    requires CollectedWF(c)
  {
    ReconcileRows(t, c, CheckEntitiesAsWritten(t, c.chats.keys, c.users.keys, c.messages.keys, c.files.keys, botId), botId, now)
  }

  /** The planning and inserting half of `log_object`, on given check rows. */
  function ReconcileRows(t: EntityTables, c: Collected, rows: seq<CheckRow>, botId: int, now: int): Result<(EntityTables, LogFlags)>
  {
    var b := Plan(c, rows);
    var t' :- Apply(t, b, botId, now);
    Ok((t', FlagsOf(b)))
  }

  // The rows of each kind come from their own part of the union; the other parts pick nothing.

  lemma ChatsFromChatChecks(t: EntityTables, c: Collected, botId: int)
    requires CollectedWF(c)
    ensures FilterMap(CheckRowsOf(t, c, botId), ChatPicker(c)) == FilterMap(ChatChecks(t, NonEmptyCteData(c.chats.keys)), ChatPicker(c))
  {
    var A := ChatChecks(t, NonEmptyCteData(c.chats.keys));
    var B := UserChecks(t, NonEmptyCteData(c.users.keys));
    var C := MessageChecks(t, botId, NonEmptyCteData(c.messages.keys));
    var D := FileChecks(t, botId, NonEmptyCteData(c.files.keys));
    assert CheckRowsOf(t, c, botId) == A + B + C + D;
    FilterMapFirstOfFour(A, B, C, D, ChatPicker(c));
  }

  lemma UsersFromUserChecks(t: EntityTables, c: Collected, botId: int)
    requires CollectedWF(c)
    ensures FilterMap(CheckRowsOf(t, c, botId), UserPicker(c)) == FilterMap(UserChecks(t, NonEmptyCteData(c.users.keys)), UserPicker(c))
  {
    var A := ChatChecks(t, NonEmptyCteData(c.chats.keys));
    var B := UserChecks(t, NonEmptyCteData(c.users.keys));
    var C := MessageChecks(t, botId, NonEmptyCteData(c.messages.keys));
    var D := FileChecks(t, botId, NonEmptyCteData(c.files.keys));
    assert CheckRowsOf(t, c, botId) == A + B + C + D;
    FilterMapSecondOfFour(A, B, C, D, UserPicker(c));
  }

  /** The parts of the union hold rows of their own kind only. */
  lemma CheckKinds(t: EntityTables, c: Collected, botId: int)
    requires CollectedWF(c)
    ensures var A := ChatChecks(t, NonEmptyCteData(c.chats.keys));
      forall i :: 0 <= i < |A| ==> A[i].kind == CheckChat
    ensures var B := UserChecks(t, NonEmptyCteData(c.users.keys));
      forall i :: 0 <= i < |B| ==> B[i].kind == CheckUser
    ensures var D := FileChecks(t, botId, NonEmptyCteData(c.files.keys));
      forall i :: 0 <= i < |D| ==> D[i].kind == CheckFile
  {
  }

  lemma MessagesFromMessageChecks(t: EntityTables, c: Collected, botId: int)
    requires CollectedWF(c)
    ensures FilterMap(CheckRowsOf(t, c, botId), MessagePicker(c)) == FilterMap(MessageChecks(t, botId, NonEmptyCteData(c.messages.keys)), MessagePicker(c))
  {
    var A := ChatChecks(t, NonEmptyCteData(c.chats.keys));
    var B := UserChecks(t, NonEmptyCteData(c.users.keys));
    var C := MessageChecks(t, botId, NonEmptyCteData(c.messages.keys));
    var D := FileChecks(t, botId, NonEmptyCteData(c.files.keys));
    assert CheckRowsOf(t, c, botId) == A + B + C + D;
    CheckKinds(t, c, botId);
    var f := MessagePicker(c);
    assert forall row: CheckRow :: row.kind != CheckMessage ==> f(row).None?;
    FilterMapThirdOfFour(A, B, C, D, f);
  }

  lemma BotMessagesFromMessageChecks(t: EntityTables, c: Collected, botId: int)
    requires CollectedWF(c)
    ensures FilterMap(CheckRowsOf(t, c, botId), BotMessagePicker(c)) == FilterMap(MessageChecks(t, botId, NonEmptyCteData(c.messages.keys)), BotMessagePicker(c))
  {
    var A := ChatChecks(t, NonEmptyCteData(c.chats.keys));
    var B := UserChecks(t, NonEmptyCteData(c.users.keys));
    var C := MessageChecks(t, botId, NonEmptyCteData(c.messages.keys));
    var D := FileChecks(t, botId, NonEmptyCteData(c.files.keys));
    assert CheckRowsOf(t, c, botId) == A + B + C + D;
    CheckKinds(t, c, botId);
    var f := BotMessagePicker(c);
    assert forall row: CheckRow :: row.kind != CheckMessage ==> f(row).None?;
    FilterMapThirdOfFour(A, B, C, D, f);
  }

  lemma FilesFromFileChecks(t: EntityTables, c: Collected, botId: int)
    requires CollectedWF(c)
    ensures FilterMap(CheckRowsOf(t, c, botId), FilePicker(c)) == FilterMap(FileChecks(t, botId, NonEmptyCteData(c.files.keys)), FilePicker(c))
  {
    var A := ChatChecks(t, NonEmptyCteData(c.chats.keys));
    var B := UserChecks(t, NonEmptyCteData(c.users.keys));
    var C := MessageChecks(t, botId, NonEmptyCteData(c.messages.keys));
    var D := FileChecks(t, botId, NonEmptyCteData(c.files.keys));
    assert CheckRowsOf(t, c, botId) == A + B + C + D;
    FilterMapFourthOfFour(A, B, C, D, FilePicker(c));
  }

  lemma BotFilesFromFileChecks(t: EntityTables, c: Collected, botId: int)
    requires CollectedWF(c)
    ensures FilterMap(CheckRowsOf(t, c, botId), BotFilePicker(c)) == FilterMap(FileChecks(t, botId, NonEmptyCteData(c.files.keys)), BotFilePicker(c))
  {
    var A := ChatChecks(t, NonEmptyCteData(c.chats.keys));
    var B := UserChecks(t, NonEmptyCteData(c.users.keys));
    var C := MessageChecks(t, botId, NonEmptyCteData(c.messages.keys));
    var D := FileChecks(t, botId, NonEmptyCteData(c.files.keys));
    assert CheckRowsOf(t, c, botId) == A + B + C + D;
    FilterMapFourthOfFour(A, B, C, D, BotFilePicker(c));
  }

  /** A collected user `log_object` inserts: a non-zero id that is not stored yet. */
  predicate NewUser(t: EntityTables, c: Collected, id: int)
  {
    id in c.users.values && id != 0 && id !in t.users
  }

  /** A collected chat `log_object` inserts. */
  predicate NewChat(t: EntityTables, c: Collected, id: int)
  {
    id in c.chats.values && id != 0 && id !in t.chats
  }

  /** A collected message whose key columns are both truthy. */
  predicate NamedMessage(c: Collected, k: MsgKey)
  {
    [k.chatId, k.id] in c.messages.values && k.chatId != 0 && k.id != 0
  }

  predicate NewMessage(t: EntityTables, c: Collected, k: MsgKey)
  {
    NamedMessage(c, k) && k !in t.messages
  }

  /** A named message the bot is not linked to yet. */
  predicate NewBotMessage(t: EntityTables, c: Collected, botId: int, k: MsgKey)
  {
    NamedMessage(c, k) && BotMessageKey(botId, k) !in t.botMessages
  }

  predicate NamedFile(c: Collected, u: string)
  {
    u in c.files.values && u != ""
  }

  predicate NewFile(t: EntityTables, c: Collected, u: string)
  {
    NamedFile(c, u) && u !in t.files
  }

  predicate NewBotFile(t: EntityTables, c: Collected, botId: int, u: string)
  {
    NamedFile(c, u) && BotFileKey(botId, u) !in t.botFiles
  }

  /** Membership and distinct keys for the picks of the user part. */
  lemma UserBatch(t: EntityTables, c: Collected)
    requires WellFormed(c.users)
    ensures var r := FilterMap(UserChecks(t, NonEmptyCteData(c.users.keys)), UserPicker(c));
      (forall p :: p in r <==> NewUser(t, c, p.0) && p.1 == c.users.values[p.0]) && NoDup(Firsts(r))
  {
    var B := UserChecks(t, NonEmptyCteData(c.users.keys));
    var f := UserPicker(c);
    var r := FilterMap(B, f);
    forall p ensures p in r <==> NewUser(t, c, p.0) && p.1 == c.users.values[p.0] {
      if NewUser(t, c, p.0) && p.1 == c.users.values[p.0] {
        var i :| 0 <= i < |c.users.keys| && c.users.keys[i] == p.0;
        assert f(B[i]) == Some(p);
      }
    }
    forall i, j | 0 <= i < |B| && 0 <= j < |B| && f(B[i]).Some? && f(B[j]).Some? && First(f(B[i]).value) == First(f(B[j]).value)
      ensures i == j
    {
      assert f(B[i]).value.0 == c.users.keys[i] && f(B[j]).value.0 == c.users.keys[j];
    }
    FilterMapNoDup(B, f, First);
    DistinctFirsts(r);
  }

  lemma ChatBatch(t: EntityTables, c: Collected)
    requires WellFormed(c.chats)
    ensures var r := FilterMap(ChatChecks(t, NonEmptyCteData(c.chats.keys)), ChatPicker(c));
      (forall p :: p in r <==> NewChat(t, c, p.0) && p.1 == c.chats.values[p.0]) && NoDup(Firsts(r))
  {
    var A := ChatChecks(t, NonEmptyCteData(c.chats.keys));
    var f := ChatPicker(c);
    var r := FilterMap(A, f);
    forall p ensures p in r <==> NewChat(t, c, p.0) && p.1 == c.chats.values[p.0] {
      if NewChat(t, c, p.0) && p.1 == c.chats.values[p.0] {
        var i :| 0 <= i < |c.chats.keys| && c.chats.keys[i] == p.0;
        assert f(A[i]) == Some(p);
      }
    }
    forall i, j | 0 <= i < |A| && 0 <= j < |A| && f(A[i]).Some? && f(A[j]).Some? && First(f(A[i]).value) == First(f(A[j]).value)
      ensures i == j
    {
      assert f(A[i]).value.0 == c.chats.keys[i] && f(A[j]).value.0 == c.chats.keys[j];
    }
    FilterMapNoDup(A, f, First);
    DistinctFirsts(r);
  }

  /** A message probe for a collected key picks that key, as a message key. */
  lemma MessageProbeKey(t: EntityTables, c: Collected, botId: int, i: int)
    requires WellFormed(c.messages) && forall k :: k in c.messages.values ==> |k| == 2
    requires 0 <= i < |c.messages.keys|
    ensures var keys := c.messages.keys;
      var row := MessageChecks(t, botId, NonEmptyCteData(keys))[i];
      |keys[i]| == 2 && row.chatId == Some(keys[i][0]) && row.messageId == Some(keys[i][1])
      && keys[i] == [keys[i][0], keys[i][1]] && row.kind == CheckMessage
      && row.stored == (MsgKey(keys[i][0], keys[i][1]) in t.messages)
      && row.botRelation == (BotMessageKey(botId, MsgKey(keys[i][0], keys[i][1])) in t.botMessages)
  {
    var keys := c.messages.keys;
    assert keys[i] in c.messages.values;
    assert NonEmptyCteData(keys)[i] == Some(keys[i]);
  }

  lemma MessageBatchMembers(t: EntityTables, c: Collected, botId: int)
    requires WellFormed(c.messages) && forall k :: k in c.messages.values ==> |k| == 2
    ensures var r := FilterMap(MessageChecks(t, botId, NonEmptyCteData(c.messages.keys)), MessagePicker(c));
      forall p :: p in r <==> NewMessage(t, c, p.0) && p.1 == c.messages.values[[p.0.chatId, p.0.id]]
  {
    MessageBatchOnlyNew(t, c, botId);
    MessageBatchAllNew(t, c, botId);
  }

  /** Every message the batch picks is a new one, with its collected dictionary. */
  lemma MessageBatchOnlyNew(t: EntityTables, c: Collected, botId: int)
    requires WellFormed(c.messages) && forall k :: k in c.messages.values ==> |k| == 2
    ensures var r := FilterMap(MessageChecks(t, botId, NonEmptyCteData(c.messages.keys)), MessagePicker(c));
      forall p :: p in r ==> NewMessage(t, c, p.0) && p.1 == c.messages.values[[p.0.chatId, p.0.id]]
  {
    var C := MessageChecks(t, botId, NonEmptyCteData(c.messages.keys));
    var f := MessagePicker(c);
    var r := FilterMap(C, f);
    forall p | p in r ensures NewMessage(t, c, p.0) && p.1 == c.messages.values[[p.0.chatId, p.0.id]] {
      var i :| 0 <= i < |C| && f(C[i]) == Some(p);
      MessagePickedIsNew(t, c, botId, i);
    }
  }

  /** Every new message is picked by the batch, with its collected dictionary. */
  lemma MessageBatchAllNew(t: EntityTables, c: Collected, botId: int)
    requires WellFormed(c.messages) && forall k :: k in c.messages.values ==> |k| == 2
    ensures var r := FilterMap(MessageChecks(t, botId, NonEmptyCteData(c.messages.keys)), MessagePicker(c));
      forall p: (MsgKey, Dict) :: NewMessage(t, c, p.0) && p.1 == c.messages.values[[p.0.chatId, p.0.id]] ==> p in r
  {
    var keys := c.messages.keys;
    var C := MessageChecks(t, botId, NonEmptyCteData(keys));
    var f := MessagePicker(c);
    var r := FilterMap(C, f);
    forall p: (MsgKey, Dict) | NewMessage(t, c, p.0) && p.1 == c.messages.values[[p.0.chatId, p.0.id]] ensures p in r {
      var i :| 0 <= i < |keys| && keys[i] == [p.0.chatId, p.0.id];
      MessageProbeKey(t, c, botId, i);
      assert f(C[i]) == Some(p);
    }
  }

  /** What a message row picks is a new message with its collected dictionary. */
  lemma MessagePickedIsNew(t: EntityTables, c: Collected, botId: int, i: int)
    requires WellFormed(c.messages) && forall k :: k in c.messages.values ==> |k| == 2
    requires var C := MessageChecks(t, botId, NonEmptyCteData(c.messages.keys));
      0 <= i < |C| && PickMessage(c, C[i]).Some?
    ensures var p := PickMessage(c, MessageChecks(t, botId, NonEmptyCteData(c.messages.keys))[i]).value;
      NewMessage(t, c, p.0) && p.1 == c.messages.values[[p.0.chatId, p.0.id]]
  {
    var keys := c.messages.keys;
    var row := MessageChecks(t, botId, NonEmptyCteData(keys))[i];
    assert NamesMessage(c, row) && !row.stored;
    assert [row.chatId.value, row.messageId.value] in keys;
    MessageProbeKey(t, c, botId, i);
  }

  lemma MessageBatchDistinct(t: EntityTables, c: Collected, botId: int)
    requires WellFormed(c.messages) && forall k :: k in c.messages.values ==> |k| == 2
    ensures NoDup(Firsts(FilterMap(MessageChecks(t, botId, NonEmptyCteData(c.messages.keys)), MessagePicker(c))))
  {
    var keys := c.messages.keys;
    var C := MessageChecks(t, botId, NonEmptyCteData(keys));
    var f := MessagePicker(c);
    forall i, j | 0 <= i < |C| && 0 <= j < |C| && f(C[i]).Some? && f(C[j]).Some? && First(f(C[i]).value) == First(f(C[j]).value)
      ensures i == j
    {
      MessageProbeKey(t, c, botId, i);
      MessageProbeKey(t, c, botId, j);
    }
    FilterMapNoDup(C, f, First);
    DistinctFirsts(FilterMap(C, f));
  }

  lemma BotMessageBatchMembers(t: EntityTables, c: Collected, botId: int)
    requires WellFormed(c.messages) && forall k :: k in c.messages.values ==> |k| == 2
    ensures var r := FilterMap(MessageChecks(t, botId, NonEmptyCteData(c.messages.keys)), BotMessagePicker(c));
      forall k :: k in r <==> NewBotMessage(t, c, botId, k)
  {
    var keys := c.messages.keys;
    var C := MessageChecks(t, botId, NonEmptyCteData(keys));
    var f := BotMessagePicker(c);
    var r := FilterMap(C, f);
    forall k | k in r ensures NewBotMessage(t, c, botId, k) {
      var i :| 0 <= i < |C| && f(C[i]) == Some(k);
      BotMessagePickedIsNew(t, c, botId, i);
    }
    forall k | NewBotMessage(t, c, botId, k) ensures k in r {
      var i :| 0 <= i < |keys| && keys[i] == [k.chatId, k.id];
      MessageProbeKey(t, c, botId, i);
      assert f(C[i]) == Some(k);
    }
  }

  /** What a message row asks to link is a named message the bot lacks. */
  lemma BotMessagePickedIsNew(t: EntityTables, c: Collected, botId: int, i: int)
    requires WellFormed(c.messages) && forall k :: k in c.messages.values ==> |k| == 2
    requires var C := MessageChecks(t, botId, NonEmptyCteData(c.messages.keys));
      0 <= i < |C| && PickBotMessage(c, C[i]).Some?
    ensures NewBotMessage(t, c, botId, PickBotMessage(c, MessageChecks(t, botId, NonEmptyCteData(c.messages.keys))[i]).value)
  {
    var keys := c.messages.keys;
    var row := MessageChecks(t, botId, NonEmptyCteData(keys))[i];
    assert NamesMessage(c, row) && !row.botRelation;
    MessageProbeKey(t, c, botId, i);
  }

  lemma BotMessageBatchDistinct(t: EntityTables, c: Collected, botId: int)
    requires WellFormed(c.messages) && forall k :: k in c.messages.values ==> |k| == 2
    ensures NoDup(FilterMap(MessageChecks(t, botId, NonEmptyCteData(c.messages.keys)), BotMessagePicker(c)))
  {
    var keys := c.messages.keys;
    var C := MessageChecks(t, botId, NonEmptyCteData(keys));
    var f := BotMessagePicker(c);
    forall i, j | 0 <= i < |C| && 0 <= j < |C| && f(C[i]).Some? && f(C[j]).Some? && Id(f(C[i]).value) == Id(f(C[j]).value)
      ensures i == j
    {
      MessageProbeKey(t, c, botId, i);
      MessageProbeKey(t, c, botId, j);
    }
    FilterMapNoDup(C, f, Id);
    DistinctIds(FilterMap(C, f));
  }

  lemma FileBatch(t: EntityTables, c: Collected, botId: int)
    requires WellFormed(c.files)
    ensures var r := FilterMap(FileChecks(t, botId, NonEmptyCteData(c.files.keys)), FilePicker(c));
      (forall p :: p in r <==> NewFile(t, c, p.0) && p.1 == c.files.values[p.0]) && NoDup(Firsts(r))
  {
    var D := FileChecks(t, botId, NonEmptyCteData(c.files.keys));
    var f := FilePicker(c);
    var r := FilterMap(D, f);
    forall p ensures p in r <==> NewFile(t, c, p.0) && p.1 == c.files.values[p.0] {
      if NewFile(t, c, p.0) && p.1 == c.files.values[p.0] {
        var i :| 0 <= i < |c.files.keys| && c.files.keys[i] == p.0;
        assert f(D[i]) == Some(p);
      }
    }
    forall i, j | 0 <= i < |D| && 0 <= j < |D| && f(D[i]).Some? && f(D[j]).Some? && First(f(D[i]).value) == First(f(D[j]).value)
      ensures i == j
    {
      assert f(D[i]).value.0 == c.files.keys[i] && f(D[j]).value.0 == c.files.keys[j];
    }
    FilterMapNoDup(D, f, First);
    DistinctFirsts(r);
  }

  lemma BotFileBatch(t: EntityTables, c: Collected, botId: int)
    requires WellFormed(c.files)
    ensures var r := FilterMap(FileChecks(t, botId, NonEmptyCteData(c.files.keys)), BotFilePicker(c));
      (forall p :: p in r <==> NewBotFile(t, c, botId, p.0) && p.1 == Get(c.files.values[p.0].data, "file_id"))
      && NoDup(Firsts(r))
  {
    var D := FileChecks(t, botId, NonEmptyCteData(c.files.keys));
    var f := BotFilePicker(c);
    var r := FilterMap(D, f);
    forall p ensures p in r <==> NewBotFile(t, c, botId, p.0) && p.1 == Get(c.files.values[p.0].data, "file_id") {
      if NewBotFile(t, c, botId, p.0) && p.1 == Get(c.files.values[p.0].data, "file_id") {
        var i :| 0 <= i < |c.files.keys| && c.files.keys[i] == p.0;
        assert f(D[i]) == Some(p);
      }
    }
    forall i, j | 0 <= i < |D| && 0 <= j < |D| && f(D[i]).Some? && f(D[j]).Some? && First(f(D[i]).value) == First(f(D[j]).value)
      ensures i == j
    {
      assert f(D[i]).value.0 == c.files.keys[i] && f(D[j]).value.0 == c.files.keys[j];
    }
    FilterMapNoDup(D, f, First);
    DistinctFirsts(r);
  }

  /**
   * The six lists hold exactly what the call must write, each key once: the new users,
   * chats, messages and files with their collected data, and the missing links.
   */
  ghost predicate Planned(t: EntityTables, c: Collected, botId: int, b: Batches)
  {
    (forall p :: p in b.users <==> NewUser(t, c, p.0) && p.1 == c.users.values[p.0])
    && (forall p :: p in b.chats <==> NewChat(t, c, p.0) && p.1 == c.chats.values[p.0])
    && (forall p :: p in b.messages <==> NewMessage(t, c, p.0) && p.1 == c.messages.values[[p.0.chatId, p.0.id]])
    && (forall k :: k in b.botMessages <==> NewBotMessage(t, c, botId, k))
    && (forall p :: p in b.files <==> NewFile(t, c, p.0) && p.1 == c.files.values[p.0])
    && (forall p :: p in b.botFiles <==> NewBotFile(t, c, botId, p.0) && p.1 == Get(c.files.values[p.0].data, "file_id"))
    && NoDup(Firsts(b.users)) && NoDup(Firsts(b.chats)) && NoDup(Firsts(b.messages))
    && NoDup(b.botMessages) && NoDup(Firsts(b.files)) && NoDup(Firsts(b.botFiles))
  }

  /** Reading the check rows of the evidently meant query plans exactly the missing entities and links. */
  lemma PlanIsPlanned(t: EntityTables, c: Collected, botId: int)
    requires CollectedWF(c)
    ensures Planned(t, c, botId, Plan(c, CheckRowsOf(t, c, botId)))
  {
    UsersFromUserChecks(t, c, botId);
    UserBatch(t, c);
    ChatsFromChatChecks(t, c, botId);
    ChatBatch(t, c);
    MessagesFromMessageChecks(t, c, botId);
    MessageBatchMembers(t, c, botId);
    MessageBatchDistinct(t, c, botId);
    BotMessagesFromMessageChecks(t, c, botId);
    BotMessageBatchMembers(t, c, botId);
    BotMessageBatchDistinct(t, c, botId);
    FilesFromFileChecks(t, c, botId);
    FileBatch(t, c, botId);
    BotFilesFromFileChecks(t, c, botId);
    BotFileBatch(t, c, botId);
  }

  // Each bulk insert of a planned batch succeeds (except for an unknown chat type) and adds exactly the batch.

  /** A batch with distinct keys, none of them stored, is inserted whole. */
  lemma BulkInsertBatch<K(!new), D, V>(m: map<K, V>, batch: seq<(K, D)>, columns: D -> V)
    requires NoDup(Firsts(batch))
    requires forall i :: 0 <= i < |batch| ==> batch[i].0 !in m
    ensures var r := BulkInsert(m, Converted(batch, columns));
      r.Ok? && (forall k :: k in r.value <==> k in m || k in Firsts(batch))
      && (forall k :: k in m ==> r.value[k] == m[k])
      && (forall i :: 0 <= i < |batch| ==> r.value[batch[i].0] == columns(batch[i].1))
  {
    assert Firsts(Converted(batch, columns)) == Firsts(batch);
  }

  lemma InsertUsers(t: EntityTables, c: Collected, botId: int, b: Batches)
    requires Planned(t, c, botId, b)
    ensures var r := BulkInsert(t.users, Converted(b.users, UserRowOf));
      r.Ok? && StoredUsers(t, c, r.value)
  {
    forall i | 0 <= i < |b.users| ensures b.users[i].0 !in t.users {
      assert b.users[i] in b.users;
    }
    BulkInsertBatch(t.users, b.users, UserRowOf);
    var r := BulkInsert(t.users, Converted(b.users, UserRowOf));
    forall id | NewUser(t, c, id) ensures id in Firsts(b.users) && r.value[id] == UserRowOf(c.users.values[id]) {
      assert (id, c.users.values[id]) in b.users;
      var i :| 0 <= i < |b.users| && b.users[i] == (id, c.users.values[id]);
      assert Firsts(b.users)[i] == id;
    }
    forall id | id in Firsts(b.users) ensures NewUser(t, c, id) {
      var i :| 0 <= i < |b.users| && Firsts(b.users)[i] == id;
      assert b.users[i] in b.users;
    }
  }

  lemma InsertChats(t: EntityTables, c: Collected, botId: int, b: Batches)
    requires Planned(t, c, botId, b)
    ensures ChatRowsOf(b.chats).Err? <==> exists id :: BadNewChat(t, c, id)
    ensures ChatRowsOf(b.chats).Ok? ==> var r := BulkInsert(t.chats, ChatRowsOf(b.chats).value);
      r.Ok? && StoredChats(t, c, r.value)
  {
    ChatRowsFail(t, c, botId, b);
    if ChatRowsOf(b.chats).Ok? {
      ChatRowsStored(t, c, botId, b);
    }
  }

  /** The chat batch fails to convert exactly when a new chat has an unknown type. */
  lemma ChatRowsFail(t: EntityTables, c: Collected, botId: int, b: Batches)
    requires Planned(t, c, botId, b)
    ensures ChatRowsOf(b.chats).Err? <==> exists id :: BadNewChat(t, c, id)
  {
    if ChatRowsOf(b.chats).Err? {
      var i :| 0 <= i < |b.chats| && ChatTypeOf(b.chats[i].1).None?;
      assert b.chats[i] in b.chats;
      assert BadNewChat(t, c, b.chats[i].0);
    }
    if exists id :: BadNewChat(t, c, id) {
      var id :| BadNewChat(t, c, id);
      assert (id, c.chats.values[id]) in b.chats;
      var i :| 0 <= i < |b.chats| && b.chats[i] == (id, c.chats.values[id]);
    }
  }

  lemma ChatRowsStored(t: EntityTables, c: Collected, botId: int, b: Batches)
    requires Planned(t, c, botId, b) && ChatRowsOf(b.chats).Ok?
    ensures var r := BulkInsert(t.chats, ChatRowsOf(b.chats).value);
      r.Ok? && StoredChats(t, c, r.value)
  {
    var rows := ChatRowsOf(b.chats).value;
    assert Firsts(rows) == Firsts(b.chats);
    forall i | 0 <= i < |rows| ensures rows[i].0 !in t.chats {
      assert b.chats[i] in b.chats;
    }
    var r := BulkInsert(t.chats, rows);
    forall id | NewChat(t, c, id) ensures id in Firsts(rows) && ChatRowOf(c.chats.values[id]) == Ok(r.value[id]) {
      assert (id, c.chats.values[id]) in b.chats;
      var i :| 0 <= i < |b.chats| && b.chats[i] == (id, c.chats.values[id]);
      assert rows[i] == (id, ChatRowOf(c.chats.values[id]).value);
    }
    forall id | id in Firsts(rows) ensures NewChat(t, c, id) {
      var i :| 0 <= i < |rows| && Firsts(rows)[i] == id;
      assert b.chats[i] in b.chats;
    }
  }

  /** The message insert, for any column mapping. */
  lemma InsertMessagesWith(t: EntityTables, c: Collected, botId: int, b: Batches, columns: Dict -> MessageRow)
    requires Planned(t, c, botId, b)
    ensures var r := BulkInsert(t.messages, Converted(b.messages, columns));
      r.Ok? && (forall k :: k in r.value <==> k in t.messages || NewMessage(t, c, k))
      && (forall k :: k in t.messages ==> r.value[k] == t.messages[k])
      && (forall k :: NewMessage(t, c, k) ==> r.value[k] == columns(c.messages.values[[k.chatId, k.id]]))
  {
    forall i | 0 <= i < |b.messages| ensures b.messages[i].0 !in t.messages {
      assert b.messages[i] in b.messages;
    }
    BulkInsertBatch(t.messages, b.messages, columns);
    var r := BulkInsert(t.messages, Converted(b.messages, columns));
    forall k | NewMessage(t, c, k) ensures k in Firsts(b.messages) && r.value[k] == columns(c.messages.values[[k.chatId, k.id]]) {
      var d := c.messages.values[[k.chatId, k.id]];
      assert (k, d) in b.messages;
      var i :| 0 <= i < |b.messages| && b.messages[i] == (k, d);
      assert Firsts(b.messages)[i] == k;
    }
    forall k | k in Firsts(b.messages) ensures NewMessage(t, c, k) {
      var i :| 0 <= i < |b.messages| && Firsts(b.messages)[i] == k;
      assert b.messages[i] in b.messages;
    }
  }

  lemma InsertMessages(t: EntityTables, c: Collected, botId: int, b: Batches)
    requires Planned(t, c, botId, b)
    ensures var r := BulkInsert(t.messages, Converted(b.messages, PrepareMessage));
      r.Ok? && StoredMessages(t, c, r.value)
  {
    InsertMessagesWith(t, c, botId, b, PrepareMessage);
  }

  lemma InsertBotMessages(t: EntityTables, c: Collected, botId: int, b: Batches, now: int)
    requires Planned(t, c, botId, b)
    ensures var r := BulkInsert(t.botMessages, BotMessageRows(botId, b.botMessages, now));
      r.Ok? && StoredBotMessages(t, c, botId, now, r.value)
  {
    var rows := BotMessageRows(botId, b.botMessages, now);
    assert NoDup(Firsts(rows)) by {
      forall i, j | 0 <= i < j < |rows| ensures Firsts(rows)[i] != Firsts(rows)[j] {
        assert b.botMessages[i] != b.botMessages[j];
      }
    }
    forall i | 0 <= i < |rows| ensures rows[i].0 !in t.botMessages {
      assert b.botMessages[i] in b.botMessages;
    }
    var r := BulkInsert(t.botMessages, rows);
    forall k | NewBotMessage(t, c, botId, k) ensures BotMessageKey(botId, k) in Firsts(rows) && r.value[BotMessageKey(botId, k)] == now {
      var i :| 0 <= i < |b.botMessages| && b.botMessages[i] == k;
      assert rows[i] == (BotMessageKey(botId, k), now);
    }
    forall k | k in Firsts(rows) ensures k.botId == botId && NewBotMessage(t, c, botId, k.msg) {
      var i :| 0 <= i < |rows| && Firsts(rows)[i] == k;
      assert b.botMessages[i] in b.botMessages;
    }
  }

  lemma InsertFiles(t: EntityTables, c: Collected, botId: int, b: Batches)
    requires Planned(t, c, botId, b)
    ensures var r := BulkInsert(t.files, Converted(b.files, PrepareFile));
      r.Ok? && StoredFiles(t, c, r.value)
  {
    forall i | 0 <= i < |b.files| ensures b.files[i].0 !in t.files {
      assert b.files[i] in b.files;
    }
    BulkInsertBatch(t.files, b.files, PrepareFile);
    var r := BulkInsert(t.files, Converted(b.files, PrepareFile));
    forall u | NewFile(t, c, u) ensures u in Firsts(b.files) && r.value[u] == PrepareFile(c.files.values[u]) {
      assert (u, c.files.values[u]) in b.files;
      var i :| 0 <= i < |b.files| && b.files[i] == (u, c.files.values[u]);
      assert Firsts(b.files)[i] == u;
    }
    forall u | u in Firsts(b.files) ensures NewFile(t, c, u) {
      var i :| 0 <= i < |b.files| && Firsts(b.files)[i] == u;
      assert b.files[i] in b.files;
    }
  }

  lemma InsertBotFiles(t: EntityTables, c: Collected, botId: int, b: Batches, now: int)
    requires Planned(t, c, botId, b)
    ensures var r := BulkInsert(t.botFiles, BotFileRows(botId, b.botFiles, now));
      r.Ok? && StoredBotFiles(t, c, botId, now, r.value)
  {
    var rows := BotFileRows(botId, b.botFiles, now);
    assert NoDup(Firsts(rows)) by {
      forall i, j | 0 <= i < j < |rows| ensures Firsts(rows)[i] != Firsts(rows)[j] {
        assert Firsts(b.botFiles)[i] != Firsts(b.botFiles)[j];
      }
    }
    forall i | 0 <= i < |rows| ensures rows[i].0 !in t.botFiles {
      assert b.botFiles[i] in b.botFiles;
    }
    var r := BulkInsert(t.botFiles, rows);
    forall u | NewBotFile(t, c, botId, u)
      ensures BotFileKey(botId, u) in Firsts(rows) && r.value[BotFileKey(botId, u)] == BotFileRow(Get(c.files.values[u].data, "file_id"), now)
    {
      var fid := Get(c.files.values[u].data, "file_id");
      assert (u, fid) in b.botFiles;
      var i :| 0 <= i < |b.botFiles| && b.botFiles[i] == (u, fid);
      assert rows[i] == (BotFileKey(botId, u), BotFileRow(fid, now));
    }
    forall k | k in Firsts(rows) ensures k.botId == botId && NewBotFile(t, c, botId, k.fileUniqueId) {
      var i :| 0 <= i < |rows| && Firsts(rows)[i] == k;
      assert b.botFiles[i] in b.botFiles;
    }
  }

  // --- What log_object leaves in the tables ---------------------------------------------

  /** The users table after logging: the stored rows unchanged, plus one row per new user. */
  ghost predicate StoredUsers(t: EntityTables, c: Collected, users: map<int, TgUserRow>)
  {
    (forall id :: id in users <==> id in t.users || NewUser(t, c, id))
    && (forall id :: id in t.users ==> users[id] == t.users[id])
    && (forall id :: NewUser(t, c, id) ==> users[id] == UserRowOf(c.users.values[id]))
  }

  ghost predicate StoredChats(t: EntityTables, c: Collected, chats: map<int, ChatRow>)
  {
    (forall id :: id in chats <==> id in t.chats || NewChat(t, c, id))
    && (forall id :: id in t.chats ==> chats[id] == t.chats[id])
    && (forall id :: NewChat(t, c, id) ==> ChatRowOf(c.chats.values[id]) == Ok(chats[id]))
  }

  ghost predicate StoredMessages(t: EntityTables, c: Collected, messages: map<MsgKey, MessageRow>)
  {
    (forall k :: k in messages <==> k in t.messages || NewMessage(t, c, k))
    && (forall k :: k in t.messages ==> messages[k] == t.messages[k])
    && (forall k :: NewMessage(t, c, k) ==> messages[k] == PrepareMessage(c.messages.values[[k.chatId, k.id]]))
  }

  /** The bot's message links: every named message is linked, new links stamped with `now`. */
  ghost predicate StoredBotMessages(t: EntityTables, c: Collected, botId: int, now: int, links: map<BotMessageKey, int>)
  {
    (forall k :: k in links <==> k in t.botMessages || (k.botId == botId && NewBotMessage(t, c, botId, k.msg)))
    && (forall k :: k in t.botMessages ==> links[k] == t.botMessages[k])
    && (forall k :: NewBotMessage(t, c, botId, k) ==> links[BotMessageKey(botId, k)] == now)
  }

  ghost predicate StoredFiles(t: EntityTables, c: Collected, files: map<string, FileRow>)
  {
    (forall u :: u in files <==> u in t.files || NewFile(t, c, u))
    && (forall u :: u in t.files ==> files[u] == t.files[u])
    && (forall u :: NewFile(t, c, u) ==> files[u] == PrepareFile(c.files.values[u]))
  }

  /** The bot's file links, each new one holding the `file_id` the bot saw. */
  ghost predicate StoredBotFiles(t: EntityTables, c: Collected, botId: int, now: int, links: map<BotFileKey, BotFileRow>)
  {
    (forall k :: k in links <==> k in t.botFiles || (k.botId == botId && NewBotFile(t, c, botId, k.fileUniqueId)))
    && (forall k :: k in t.botFiles ==> links[k] == t.botFiles[k])
    && (forall u :: NewBotFile(t, c, botId, u) ==> links[BotFileKey(botId, u)] == BotFileRow(Get(c.files.values[u].data, "file_id"), now))
  }

  ghost predicate Stored(t: EntityTables, c: Collected, botId: int, now: int, t': EntityTables)
  {
    StoredUsers(t, c, t'.users) && StoredChats(t, c, t'.chats) && StoredMessages(t, c, t'.messages)
    && StoredBotMessages(t, c, botId, now, t'.botMessages) && StoredFiles(t, c, t'.files)
    && StoredBotFiles(t, c, botId, now, t'.botFiles)
  }

  /** A collected chat whose type is not one of the enum's values, which `log_object` would insert. */
  predicate BadNewChat(t: EntityTables, c: Collected, id: int)
  {
    NewChat(t, c, id) && ChatTypeOf(c.chats.values[id]).None?
  }

  /** The six inserts of a planned batch: they fail exactly on a bad new chat, and otherwise store the batch. */
  lemma ApplyPlanned(t: EntityTables, c: Collected, botId: int, now: int, b: Batches)
    requires Planned(t, c, botId, b)
    ensures var r := Apply(t, b, botId, now);
      (r.Err? <==> exists id :: BadNewChat(t, c, id))
      && (r.Err? ==> r.error == Raised("ValueError"))
      && (r.Ok? ==> Stored(t, c, botId, now, r.value))
  {
    InsertUsers(t, c, botId, b);
    InsertChats(t, c, botId, b);
    InsertMessages(t, c, botId, b);
    InsertBotMessages(t, c, botId, b, now);
    InsertFiles(t, c, botId, b);
    InsertBotFiles(t, c, botId, b, now);
    var users := BulkInsert(t.users, Converted(b.users, UserRowOf));
    var chatRows := ChatRowsOf(b.chats);
    if chatRows.Ok? {
      var chats := BulkInsert(t.chats, chatRows.value);
      var messages := BulkInsert(t.messages, Converted(b.messages, PrepareMessage));
      var botMessages := BulkInsert(t.botMessages, BotMessageRows(botId, b.botMessages, now));
      var files := BulkInsert(t.files, Converted(b.files, PrepareFile));
      var botFiles := BulkInsert(t.botFiles, BotFileRows(botId, b.botFiles, now));
      assert Apply(t, b, botId, now) == Ok(EntityTables(users.value, chats.value, messages.value, files.value,
        botMessages.value, botFiles.value));
    }
  }

  /** `log_object` fails exactly when it would insert a chat of unknown type, and then changes nothing. */
  lemma LogObjectFails(t: EntityTables, c: Collected, botId: int, now: int)
    requires CollectedWF(c)
    ensures var r := Reconcile(t, c, botId, now);
      (r.Err? <==> exists id :: BadNewChat(t, c, id)) && (r.Err? ==> r.error == Raised("ValueError"))
  {
    PlanIsPlanned(t, c, botId);
    ApplyPlanned(t, c, botId, now, Plan(c, CheckRowsOf(t, c, botId)));
  }

  /**
   * Insert-only: every stored row is kept as it was, and exactly the named entities that were
   * missing are added; every named message and file ends up linked to the bot.
   */
  lemma LogObjectStores(t: EntityTables, c: Collected, botId: int, now: int)
    requires CollectedWF(c)
    ensures var r := Reconcile(t, c, botId, now);
      r.Ok? ==> Stored(t, c, botId, now, r.value.0)
  {
    PlanIsPlanned(t, c, botId);
    ApplyPlanned(t, c, botId, now, Plan(c, CheckRowsOf(t, c, botId)));
  }

  /** A planned batch is non-empty exactly when something of its kind is missing. */
  lemma PlannedFlags(t: EntityTables, c: Collected, botId: int, b: Batches)
    requires Planned(t, c, botId, b)
    ensures (b.users != [] <==> exists id :: NewUser(t, c, id)) && (b.chats != [] <==> exists id :: NewChat(t, c, id))
      && (b.messages != [] <==> exists k :: NewMessage(t, c, k)) && (b.botMessages != [] <==> exists k :: NewBotMessage(t, c, botId, k))
      && (b.files != [] <==> exists u :: NewFile(t, c, u)) && (b.botFiles != [] <==> exists u :: NewBotFile(t, c, botId, u))
  {
    PlannedUsersFlag(t, c, botId, b);
    PlannedChatsFlag(t, c, botId, b);
    PlannedMessagesFlag(t, c, botId, b);
    PlannedBotMessagesFlag(t, c, botId, b);
    PlannedFilesFlag(t, c, botId, b);
    PlannedBotFilesFlag(t, c, botId, b);
  }

  lemma PlannedUsersFlag(t: EntityTables, c: Collected, botId: int, b: Batches)
    requires Planned(t, c, botId, b)
    ensures b.users != [] <==> exists id :: NewUser(t, c, id)
  {
    if b.users != [] { assert b.users[0] in b.users; }
    if exists id :: NewUser(t, c, id) {
      var id :| NewUser(t, c, id);
      assert (id, c.users.values[id]) in b.users;
    }
  }

  lemma PlannedChatsFlag(t: EntityTables, c: Collected, botId: int, b: Batches)
    requires Planned(t, c, botId, b)
    ensures b.chats != [] <==> exists id :: NewChat(t, c, id)
  {
    if b.chats != [] { assert b.chats[0] in b.chats; }
    if exists id :: NewChat(t, c, id) {
      var id :| NewChat(t, c, id);
      assert (id, c.chats.values[id]) in b.chats;
    }
  }

  lemma PlannedMessagesFlag(t: EntityTables, c: Collected, botId: int, b: Batches)
    requires Planned(t, c, botId, b)
    ensures b.messages != [] <==> exists k :: NewMessage(t, c, k)
  {
    if b.messages != [] { assert b.messages[0] in b.messages; }
    if exists k :: NewMessage(t, c, k) {
      var k :| NewMessage(t, c, k);
      assert (k, c.messages.values[[k.chatId, k.id]]) in b.messages;
    }
  }

  lemma PlannedBotMessagesFlag(t: EntityTables, c: Collected, botId: int, b: Batches)
    requires Planned(t, c, botId, b)
    ensures b.botMessages != [] <==> exists k :: NewBotMessage(t, c, botId, k)
  {
    if b.botMessages != [] { assert b.botMessages[0] in b.botMessages; }
    if exists k :: NewBotMessage(t, c, botId, k) {
      var k :| NewBotMessage(t, c, botId, k);
      assert k in b.botMessages;
    }
  }

  lemma PlannedFilesFlag(t: EntityTables, c: Collected, botId: int, b: Batches)
    requires Planned(t, c, botId, b)
    ensures b.files != [] <==> exists u :: NewFile(t, c, u)
  {
    if b.files != [] { assert b.files[0] in b.files; }
    if exists u :: NewFile(t, c, u) {
      var u :| NewFile(t, c, u);
      assert (u, c.files.values[u]) in b.files;
    }
  }

  lemma PlannedBotFilesFlag(t: EntityTables, c: Collected, botId: int, b: Batches)
    requires Planned(t, c, botId, b)
    ensures b.botFiles != [] <==> exists u :: NewBotFile(t, c, botId, u)
  {
    if b.botFiles != [] { assert b.botFiles[0] in b.botFiles; }
    if exists u :: NewBotFile(t, c, botId, u) {
      var u :| NewBotFile(t, c, botId, u);
      assert (u, Get(c.files.values[u].data, "file_id")) in b.botFiles;
    }
  }

  /** The six flags report exactly which kinds of row were missing. */
  lemma LogObjectFlags(t: EntityTables, c: Collected, botId: int, now: int)
    requires CollectedWF(c)
    ensures var r := Reconcile(t, c, botId, now);
      r.Ok? ==> var f := r.value.1;
        (f.users <==> exists id :: NewUser(t, c, id)) && (f.chats <==> exists id :: NewChat(t, c, id))
        && (f.messages <==> exists k :: NewMessage(t, c, k)) && (f.botMessages <==> exists k :: NewBotMessage(t, c, botId, k))
        && (f.files <==> exists u :: NewFile(t, c, u)) && (f.botFiles <==> exists u :: NewBotFile(t, c, botId, u))
  {
    var b := Plan(c, CheckRowsOf(t, c, botId));
    PlanIsPlanned(t, c, botId);
    PlannedFlags(t, c, botId, b);
    ReconcileReportsPlan(t, c, botId, now);
  }

  lemma ReconcileReportsPlan(t: EntityTables, c: Collected, botId: int, now: int)
    requires CollectedWF(c)
    ensures Reconcile(t, c, botId, now).Ok? ==> Reconcile(t, c, botId, now).value.1 == FlagsOf(Plan(c, CheckRowsOf(t, c, botId)))
  {
  }

  const NO_BATCHES := Batches([], [], [], [], [], [])

  /** With nothing to insert, the six inserts leave the tables as they are. */
  lemma ApplyNothing(t: EntityTables, botId: int, now: int)
    ensures Apply(t, NO_BATCHES, botId, now) == Ok(t)
  {
    assert Converted(NO_BATCHES.users, UserRowOf) == [];
    assert Converted(NO_BATCHES.messages, PrepareMessage) == [];
    assert Converted(NO_BATCHES.files, PrepareFile) == [];
    assert BotMessageRows(botId, [], now) == [];
    assert BotFileRows(botId, [], now) == [];
  }

  /** Nothing collected is missing from `t`. */
  ghost predicate NothingNew(t: EntityTables, c: Collected, botId: int)
  {
    (forall id :: !NewUser(t, c, id)) && (forall id :: !NewChat(t, c, id)) && (forall k :: !NewMessage(t, c, k))
    && (forall k :: !NewBotMessage(t, c, botId, k)) && (forall u :: !NewFile(t, c, u)) && (forall u :: !NewBotFile(t, c, botId, u))
  }

  /** When nothing is missing, the plan is empty. */
  lemma PlanNothing(t: EntityTables, c: Collected, botId: int)
    requires CollectedWF(c) && NothingNew(t, c, botId)
    ensures Plan(c, CheckRowsOf(t, c, botId)) == NO_BATCHES
  {
    var b := Plan(c, CheckRowsOf(t, c, botId));
    PlanIsPlanned(t, c, botId);
    PlannedFlags(t, c, botId, b);
  }

  /** After a successful call nothing of the collection is missing any more. */
  lemma StoredLeavesNothingNew(t: EntityTables, c: Collected, botId: int, now: int, t': EntityTables)
    requires Stored(t, c, botId, now, t')
    ensures NothingNew(t', c, botId)
  {
    forall k ensures !NewBotMessage(t', c, botId, k) {
      if NamedMessage(c, k) {
        assert BotMessageKey(botId, k).msg == k;
      }
    }
    forall u ensures !NewBotFile(t', c, botId, u) {
      if NamedFile(c, u) {
        assert BotFileKey(botId, u).fileUniqueId == u;
      }
    }
  }

  /** Idempotence: logging the same payload again for the same bot inserts nothing and reports nothing. */
  lemma LogObjectIdempotent(t: EntityTables, c: Collected, botId: int, now: int, later: int)
    requires CollectedWF(c)
    requires Reconcile(t, c, botId, now).Ok?
    ensures var t' := Reconcile(t, c, botId, now).value.0;
      Reconcile(t', c, botId, later) == Ok((t', NO_FLAGS))
  {
    var t' := Reconcile(t, c, botId, now).value.0;
    LogObjectStores(t, c, botId, now);
    StoredLeavesNothingNew(t, c, botId, now, t');
    PlanNothing(t', c, botId);
    ApplyNothing(t', botId, later);
  }

  /** Quiet rows ask for nothing. */
  lemma QuietPlan(c: Collected, rows: seq<CheckRow>)
    requires forall i :: 0 <= i < |rows| ==> Quiet(rows[i])
    ensures Plan(c, rows) == NO_BATCHES
  {
    FilterMapNone(rows, UserPicker(c));
    FilterMapNone(rows, ChatPicker(c));
    FilterMapNone(rows, MessagePicker(c));
    FilterMapNone(rows, BotMessagePicker(c));
    FilterMapNone(rows, FilePicker(c));
    FilterMapNone(rows, BotFilePicker(c));
  }

  /** With `check_entities` as written, every row is quiet, so nothing is inserted whatever is missing. */
  lemma AsWrittenLogsNothing(t: EntityTables, c: Collected, botId: int, now: int)
    requires CollectedWF(c)
    ensures ReconcileAsWritten(t, c, botId, now) == Ok((t, NO_FLAGS))
  {
    var rows := CheckEntitiesAsWritten(t, c.chats.keys, c.users.keys, c.messages.keys, c.files.keys, botId);
    AsWrittenReportsAllStored(t, c.chats.keys, c.users.keys, c.messages.keys, c.files.keys, botId);
    QuietReconcile(t, c, rows, botId, now);
  }

  lemma QuietReconcile(t: EntityTables, c: Collected, rows: seq<CheckRow>, botId: int, now: int)
    requires forall i :: 0 <= i < |rows| ==> Quiet(rows[i])
    ensures ReconcileRows(t, c, rows, botId, now) == Ok((t, NO_FLAGS))
  {
    QuietPlan(c, rows);
    ApplyNothing(t, botId, now);
  }

  /** The discrepancy: a payload with a user the tables lack is logged by the intended query and dropped as written. */
  lemma AsWrittenMissesNewUser(t: EntityTables, c: Collected, botId: int, now: int, id: int)
    requires CollectedWF(c) && NewUser(t, c, id)
    ensures ReconcileAsWritten(t, c, botId, now) != Reconcile(t, c, botId, now)
  {
    AsWrittenLogsNothing(t, c, botId, now);
    LogObjectFlags(t, c, botId, now);
  }

  // --- log_object on the database -------------------------------------------------------

  /** A row whose truthy key names a collected entity of its kind (so the lookup in `log_object` succeeds). */
  predicate RowNames(c: Collected, row: CheckRow)
  {
    (row.kind == CheckUser && IntTruthy(row.userId) ==> row.userId.value in c.users.values)
    && (row.kind == CheckChat && IntTruthy(row.chatId) ==> row.chatId.value in c.chats.values)
    && (row.kind == CheckMessage && IntTruthy(row.chatId) && IntTruthy(row.messageId) ==>
      [row.chatId.value, row.messageId.value] in c.messages.values)
    && (row.kind == CheckFile && StrTruthy(row.fileUniqueId) ==> row.fileUniqueId.value in c.files.values)
  }

  /** The check rows only name collected keys: each probes one key of the collection, or is the padding. */
  lemma CheckRowsName(t: EntityTables, c: Collected, botId: int)
    requires CollectedWF(c)
    ensures forall row :: row in CheckRowsOf(t, c, botId) ==> RowNames(c, row)
  {
    var A := ChatChecks(t, NonEmptyCteData(c.chats.keys));
    var B := UserChecks(t, NonEmptyCteData(c.users.keys));
    var C := MessageChecks(t, botId, NonEmptyCteData(c.messages.keys));
    var D := FileChecks(t, botId, NonEmptyCteData(c.files.keys));
    assert CheckRowsOf(t, c, botId) == A + B + C + D;
    ChatChecksName(t, c);
    UserChecksName(t, c);
    MessageChecksName(t, c, botId);
    FileChecksName(t, c, botId);
  }

  lemma ChatChecksName(t: EntityTables, c: Collected)
    requires WellFormed(c.chats)
    ensures forall row :: row in ChatChecks(t, NonEmptyCteData(c.chats.keys)) ==> RowNames(c, row)
  {
    var ids := NonEmptyCteData(c.chats.keys);
    forall row | row in ChatChecks(t, ids) ensures RowNames(c, row) {
      var i :| 0 <= i < |ids| && ChatChecks(t, ids)[i] == row;
      assert ids[i] in ids;
    }
  }

  lemma UserChecksName(t: EntityTables, c: Collected)
    requires WellFormed(c.users)
    ensures forall row :: row in UserChecks(t, NonEmptyCteData(c.users.keys)) ==> RowNames(c, row)
  {
    var ids := NonEmptyCteData(c.users.keys);
    forall row | row in UserChecks(t, ids) ensures RowNames(c, row) {
      var i :| 0 <= i < |ids| && UserChecks(t, ids)[i] == row;
      assert ids[i] in ids;
    }
  }

  lemma MessageChecksName(t: EntityTables, c: Collected, botId: int)
    requires CollectedWF(c)
    ensures forall row :: row in MessageChecks(t, botId, NonEmptyCteData(c.messages.keys)) ==> RowNames(c, row)
  {
    var keys := NonEmptyCteData(c.messages.keys);
    forall row | row in MessageChecks(t, botId, keys) ensures RowNames(c, row) {
      var i :| 0 <= i < |keys| && MessageChecks(t, botId, keys)[i] == row;
      assert keys[i] in keys;
      if keys[i].Some? {
        assert [keys[i].value[0], keys[i].value[1]] == keys[i].value;
      }
    }
  }

  lemma FileChecksName(t: EntityTables, c: Collected, botId: int)
    requires WellFormed(c.files)
    ensures forall row :: row in FileChecks(t, botId, NonEmptyCteData(c.files.keys)) ==> RowNames(c, row)
  {
    var uids := NonEmptyCteData(c.files.keys);
    forall row | row in FileChecks(t, botId, uids) ensures RowNames(c, row) {
      var i :| 0 <= i < |uids| && FileChecks(t, botId, uids)[i] == row;
      assert uids[i] in uids;
    }
  }

  /** The lists after one more row: each gains what the row asks of its kind. */
  function AddRow(c: Collected, b: Batches, row: CheckRow): Batches
  {
    Batches(b.users + Kept(PickUser(c, row)), b.chats + Kept(PickChat(c, row)),
      b.messages + Kept(PickMessage(c, row)), b.botMessages + Kept(PickBotMessage(c, row)),
      b.files + Kept(PickFile(c, row)), b.botFiles + Kept(PickBotFile(c, row)))
  }

  lemma PlanSnoc(c: Collected, rows: seq<CheckRow>, row: CheckRow)
    ensures Plan(c, rows + [row]) == AddRow(c, Plan(c, rows), row)
  {
    FilterMapSnoc(rows, row, UserPicker(c));
    FilterMapSnoc(rows, row, ChatPicker(c));
    FilterMapSnoc(rows, row, MessagePicker(c));
    FilterMapSnoc(rows, row, BotMessagePicker(c));
    FilterMapSnoc(rows, row, FilePicker(c));
    FilterMapSnoc(rows, row, BotFilePicker(c));
  }

  /** The loop of `log_object` over the check rows, filling the six lists. */
  method ReadRows(c: Collected, rows: seq<CheckRow>) returns (b: Batches)
    requires forall row :: row in rows ==> RowNames(c, row)
    ensures b == Plan(c, rows)
  {
    b := NO_BATCHES;
    for i := 0 to |rows|
      invariant b == Plan(c, rows[..i])
    {
      assert rows[..i + 1] == rows[..i] + [rows[i]];
      PlanSnoc(c, rows[..i], rows[i]);
      b := ReadRow(c, b, rows[i]);
    }
    assert rows[..|rows|] == rows;
  }

  /** One pass of the loop of `log_object`: the branch on the row's kind. */
  method ReadRow(c: Collected, b: Batches, row: CheckRow) returns (b': Batches)
    requires RowNames(c, row)
    ensures b' == AddRow(c, b, row)
  {
    b' := b;
    if row.kind == CheckUser {
      if IntTruthy(row.userId) {
        var obj := c.users.values[row.userId.value];
        if !row.stored {
          b' := b'.(users := b'.users + [(row.userId.value, obj)]);
        }
      }
    } else if row.kind == CheckChat {
      if IntTruthy(row.chatId) {
        var obj := c.chats.values[row.chatId.value];
        if !row.stored {
          b' := b'.(chats := b'.chats + [(row.chatId.value, obj)]);
        }
      }
    } else if row.kind == CheckMessage {
      if IntTruthy(row.chatId) && IntTruthy(row.messageId) {
        var key := MsgKey(row.chatId.value, row.messageId.value);
        var obj := c.messages.values[[row.chatId.value, row.messageId.value]];
        if !row.stored {
          b' := b'.(messages := b'.messages + [(key, obj)]);
        }
        if !row.botRelation {
          b' := b'.(botMessages := b'.botMessages + [key]);
        }
      }
    } else if row.kind == CheckFile {
      if StrTruthy(row.fileUniqueId) {
        var obj := c.files.values[row.fileUniqueId.value];
        if !row.stored {
          b' := b'.(files := b'.files + [(row.fileUniqueId.value, obj)]);
        }
        if !row.botRelation {
          b' := b'.(botFiles := b'.botFiles + [(row.fileUniqueId.value, Get(obj.data, "file_id"))]);
        }
      }
    }
  }

  /** `log_object` on a payload: collect, probe the tables, insert; the clock is the database's. */
  function LogObjectSpec(t: EntityTables, g: Graph, root: Handle, botId: int, now: int): Result<(EntityTables, LogFlags)>
    requires Closed(g) && root in g
  {
    CollectSpecWF(g, root);
    Reconcile(t, CollectSpec(g, root), botId, now)
  }

  /** `log_object`: `collect_entities`, then the check and the inserts. */
  method LogObject(db: Database, g: Graph, root: Handle, botId: int) returns (r: Result<LogFlags>)
    requires Closed(g) && root in g
    modifies db`tgUsers, db`tgChats, db`messages, db`files, db`botMessages, db`botFiles
    ensures var spec := LogObjectSpec(old(db.Entities()), g, root, botId, db.now);
      (spec.Ok? ==> r == Ok(spec.value.1) && db.Entities() == spec.value.0)
      && (spec.Err? ==> r == Err(spec.error) && db.Entities() == old(db.Entities()))
  {
    var c := CollectEntities(g, root);
    CollectSpecWF(g, root);
    r := LogCollected(db, c, botId);
  }

  /**
   * The body of `log_object` after the collection: the loop over the check rows fills the six
   * lists, then each non-empty list is inserted. The tables are written only once every insert
   * has succeeded: a raised error rolls the request's transaction back.
   */
  method LogCollected(db: Database, c: Collected, botId: int) returns (r: Result<LogFlags>)
    requires CollectedWF(c)
    modifies db`tgUsers, db`tgChats, db`messages, db`files, db`botMessages, db`botFiles
    ensures var spec := Reconcile(old(db.Entities()), c, botId, db.now);
      (spec.Ok? ==> r == Ok(spec.value.1) && db.Entities() == spec.value.0)
      && (spec.Err? ==> r == Err(spec.error) && db.Entities() == old(db.Entities()))
  {
    var t := db.Entities();
    var b := CheckAndRead(t, c, botId);
    ReconcileApplies(t, c, botId, db.now);
    var next := InsertBatches(t, b, botId, db.now);
    if next.Err? {
      return Err(next.error);
    }
    db.SetEntities(next.value);
    r := Ok(FlagsOf(b));
  }

  /** `check_entities`, then the reading loop of `log_object`. */
  method CheckAndRead(t: EntityTables, c: Collected, botId: int) returns (b: Batches)
    requires CollectedWF(c)
    ensures b == Plan(c, CheckRowsOf(t, c, botId))
  {
    var rows := CheckRowsOf(t, c, botId);
    CheckRowsName(t, c, botId);
    b := ReadRows(c, rows);
  }

  lemma ReconcileApplies(t: EntityTables, c: Collected, botId: int, now: int)
    requires CollectedWF(c)
    ensures var b := Plan(c, CheckRowsOf(t, c, botId));
      var a := Apply(t, b, botId, now);
      Reconcile(t, c, botId, now) == if a.Ok? then Ok((a.value, FlagsOf(b))) else Err(a.error)
  {
  }

  /** The inserts of `log_object` in its order; the first failure aborts the rest. */
  method InsertBatches(t: EntityTables, b: Batches, botId: int, now: int) returns (r: Result<EntityTables>)
    ensures r == Apply(t, b, botId, now)
  {
    var users :- InsertIfAny(t.users, Converted(b.users, UserRowOf));
    var chats :- InsertChatsIfAny(t.chats, b.chats);
    var messages :- InsertIfAny(t.messages, Converted(b.messages, PrepareMessage));
    var botMessages :- InsertIfAny(t.botMessages, BotMessageRows(botId, b.botMessages, now));
    var files :- InsertIfAny(t.files, Converted(b.files, PrepareFile));
    var botFiles :- InsertIfAny(t.botFiles, BotFileRows(botId, b.botFiles, now));
    r := Ok(EntityTables(users, chats, messages, files, botMessages, botFiles));
  }

  /** `if rows: await bulk_insert(...)`: an empty list issues no statement. */
  method InsertIfAny<K(==,!new), V>(m: map<K, V>, rows: seq<(K, V)>) returns (r: Result<map<K, V>>)
    ensures r == BulkInsert(m, rows)
  {
    if rows != [] {
      r := BulkInsert(m, rows);
    } else {
      r := Ok(m);
    }
  }

  /** `if new_chats: await bulk_insert_chats(...)`: the enum conversion, then the insert. */
  method InsertChatsIfAny(m: map<int, ChatRow>, chats: seq<(int, Dict)>) returns (r: Result<map<int, ChatRow>>)
    ensures r == (var rows :- ChatRowsOf(chats); BulkInsert(m, rows))
  {
    if chats != [] {
      var rows :- ChatRowsOf(chats);
      r := BulkInsert(m, rows);
    } else {
      r := Ok(m);
    }
  }

  // --- update_message -------------------------------------------------------------------

  /** The WHERE key of `update_message`: the message's `(chat_id, id)`, when both are present. */
  function EditKey(data: Dict): (r: Option<MsgKey>)
    ensures r.Some? <==> MessageField(data, "chat_id").Some? && MessageField(data, "id").Some?
    ensures r.Some? ==> r.value == MsgKey(MessageField(data, "chat_id").value, MessageField(data, "id").value)
  {
    if MessageField(data, "chat_id").Some? && MessageField(data, "id").Some?
    then Some(MsgKey(MessageField(data, "chat_id").value, MessageField(data, "id").value))
    else None
  }

  /**
   * The UPDATE of `update_message`: the key columns are removed from the values and used as
   * the WHERE key, so exactly the stored row under that key gets the prepared columns, and a
   * missing row is not created.
   */
  function EditMessage(t: EntityTables, data: Dict): (r: EntityTables)
    ensures r.users == t.users && r.chats == t.chats && r.files == t.files
    ensures r.botMessages == t.botMessages && r.botFiles == t.botFiles
    ensures r.messages.Keys == t.messages.Keys
    ensures forall k :: k in t.messages && EditKey(data) != Some(k) ==> r.messages[k] == t.messages[k]
    ensures EditKey(data).Some? && EditKey(data).value in t.messages ==>
      r.messages[EditKey(data).value] == PrepareMessage(data)
  {
    match EditKey(data)
    case Some(k) => if k in t.messages then t.(messages := t.messages[k := PrepareMessage(data)]) else t
    case None => t
  }

  /**
   * `update_message`, given what its `log_object` call returns (`logged`): unless `skip_log`,
   * the edit is skipped when that call created a bot link for any message.
   */
  function UpdateMessageSpec(t: EntityTables, logged: Result<(EntityTables, LogFlags)>, data: Dict, skipLog: bool): Result<EntityTables>
  {
    if skipLog then Ok(EditMessage(t, data))
    else
      var l :- logged;
      if l.1.botMessages then Ok(l.0) else Ok(EditMessage(l.0, data))
  }

  method UpdateMessage(db: Database, g: Graph, root: Handle, botId: int, skipLog: bool) returns (r: Result<()>)
    requires Closed(g) && root in g
    modifies db`tgUsers, db`tgChats, db`messages, db`files, db`botMessages, db`botFiles
    ensures var spec := UpdateMessageSpec(old(db.Entities()), LogObjectSpec(old(db.Entities()), g, root, botId, db.now),
      NodeData(g, root), skipLog);
      (spec.Ok? ==> r == Ok(()) && db.Entities() == spec.value)
      && (spec.Err? ==> r == Err(spec.error) && db.Entities() == old(db.Entities()))
  {
    if !skipLog {
      var res := LogObject(db, g, root, botId);
      if res.Err? {
        return Err(res.error);
      }
      if res.value.botMessages {
        return Ok(());
      }
    }
    EditStored(db, NodeData(g, root));
    r := Ok(());
  }

  /** The UPDATE statement of `update_message`, on the database. */
  method EditStored(db: Database, data: Dict)
    modifies db`messages
    ensures db.Entities() == EditMessage(old(db.Entities()), data)
  {
    var key := EditKey(data);
    if key.Some? && key.value in db.messages {
      db.messages := db.messages[key.value := PrepareMessage(data)];
    }
  }

  /** With `skip_log` the edit path never adds or removes a message, and touches no other table. */
  lemma UpdateMessageKeepsKeys(t: EntityTables, logged: Result<(EntityTables, LogFlags)>, data: Dict)
    ensures var r := UpdateMessageSpec(t, logged, data, true);
      r.Ok? && r.value.messages.Keys == t.messages.Keys
      && r.value.users == t.users && r.value.chats == t.chats && r.value.files == t.files
      && r.value.botMessages == t.botMessages && r.value.botFiles == t.botFiles
  {
  }

  /**
   * An edit of a message this bot has not been linked to is dropped, even when the message was
   * already stored: the stored row keeps its old columns.
   */
  lemma UpdateMessageSkipsNewLink(t: EntityTables, c: Collected, data: Dict, botId: int, now: int, k: MsgKey)
    requires CollectedWF(c) && NewBotMessage(t, c, botId, k) && k in t.messages
    requires UpdateMessageSpec(t, Reconcile(t, c, botId, now), data, false).Ok?
    ensures var r := UpdateMessageSpec(t, Reconcile(t, c, botId, now), data, false).value;
      k in r.messages && r.messages[k] == t.messages[k]
  {
    LogObjectFlags(t, c, botId, now);
    LogObjectStores(t, c, botId, now);
  }

  /** Without a new link, the edit is applied on top of what `log_object` stored, and only to the edited message. */
  lemma UpdateMessageEdits(t: EntityTables, c: Collected, data: Dict, botId: int, now: int)
    requires CollectedWF(c) && forall k :: !NewBotMessage(t, c, botId, k)
    requires UpdateMessageSpec(t, Reconcile(t, c, botId, now), data, false).Ok?
    ensures var r := UpdateMessageSpec(t, Reconcile(t, c, botId, now), data, false).value;
      var k := EditKey(data);
      (k.Some? && k.value in t.messages ==> k.value in r.messages && r.messages[k.value] == PrepareMessage(data))
      && (forall m :: m in t.messages && k != Some(m) ==> m in r.messages && r.messages[m] == t.messages[m])
  {
    LogObjectFlags(t, c, botId, now);
    LogObjectStores(t, c, botId, now);
  }

  // --- insert_chat_photo_if_not_exist ---------------------------------------------------

  /** A chat's avatar: the bot-specific file id and the unique id of each size. */
  datatype ChatPhoto = ChatPhoto(smallFileId: string, smallFileUniqueId: string, bigFileId: string, bigFileUniqueId: string)

  /** A row of `chat_photo_check_entities`: the unique id, whether the file is stored, whether this bot is linked. */
  datatype PhotoCheck = PhotoCheck(fileUniqueId: string, stored: bool, botRelation: bool)

  function PhotoProbe(t: EntityTables, botId: int, u: string): (r: PhotoCheck)
    ensures r.fileUniqueId == u && (r.stored <==> u in t.files) && (r.botRelation <==> BotFileKey(botId, u) in t.botFiles)
  {
    PhotoCheck(u, u in t.files, BotFileKey(botId, u) in t.botFiles)
  }

  /** `chat_photo_check_entities`: the two unique ids, small then big, outer-joined with the files and the bot's links. */
  function PhotoChecks(t: EntityTables, p: ChatPhoto, botId: int): (r: seq<PhotoCheck>)
    ensures r == [PhotoProbe(t, botId, p.smallFileUniqueId), PhotoProbe(t, botId, p.bigFileUniqueId)]
  {
    [PhotoProbe(t, botId, p.smallFileUniqueId), PhotoProbe(t, botId, p.bigFileUniqueId)]
  }

  /** The `bot_files` dictionary: when both sizes share a unique id, the big size's file id wins. */
  function PhotoFileIds(p: ChatPhoto): (r: map<string, string>)
    ensures r.Keys == {p.smallFileUniqueId, p.bigFileUniqueId}
    ensures r[p.bigFileUniqueId] == p.bigFileId
    ensures p.smallFileUniqueId != p.bigFileUniqueId ==> r[p.smallFileUniqueId] == p.smallFileId
  {
    map[p.smallFileUniqueId := p.smallFileId][p.bigFileUniqueId := p.bigFileId]
  }

  /** The file record `insert_chat_photo_entities` builds: only the unique id and the CHAT_PHOTO type. */
  function ChatPhotoEntry(u: string): FileEntry
  {
    FileEntry(FChatPhoto, map["file_unique_id" := JStr(u), "file_type" := JStr(FileTypeValue(FChatPhoto))])
  }

  /** A new avatar file is stored with type CHAT_PHOTO and NULL size, MIME type and overflow. */
  lemma ChatPhotoRow(u: string)
    ensures PrepareFile(ChatPhotoEntry(u)) == FileRow(FChatPhoto, JNull, JNull, None)
  {
    assert ChatPhotoEntry(u).data.Keys <= FILE_EXCLUDED_FIELDS;
  }

  function PickPhotoFile(row: PhotoCheck): Option<(string, FileEntry)>
  {
    if !row.stored then Some((row.fileUniqueId, ChatPhotoEntry(row.fileUniqueId))) else None
  }

  /** A missing link is made only when the dictionary gives a truthy file id for the unique id. */
  function PickPhotoLink(ids: map<string, string>, row: PhotoCheck): Option<(string, Json)>
  {
    if !row.botRelation && row.fileUniqueId in ids && ids[row.fileUniqueId] != ""
    then Some((row.fileUniqueId, JStr(ids[row.fileUniqueId])))
    else None
  }

  /** The files list of `insert_chat_photo_entities`, in row order. */
  function PhotoFiles(rows: seq<PhotoCheck>): seq<(string, FileEntry)>
  {
    if rows == [] then [] else PhotoFiles(rows[..|rows| - 1]) + Kept(PickPhotoFile(rows[|rows| - 1]))
  }

  /** The links list of `insert_chat_photo_entities`, in row order. */
  function PhotoLinks(ids: map<string, string>, rows: seq<PhotoCheck>): seq<(string, Json)>
  {
    if rows == [] then [] else PhotoLinks(ids, rows[..|rows| - 1]) + Kept(PickPhotoLink(ids, rows[|rows| - 1]))
  }

  /** The two lists over the two check rows. */
  lemma PhotoPair(ids: map<string, string>, a: PhotoCheck, b: PhotoCheck)
    ensures PhotoFiles([a, b]) == Kept(PickPhotoFile(a)) + Kept(PickPhotoFile(b))
    ensures PhotoLinks(ids, [a, b]) == Kept(PickPhotoLink(ids, a)) + Kept(PickPhotoLink(ids, b))
  {
    assert [a, b][..1] == [a];
    assert [a][..0] == [];
    assert PhotoFiles([a]) == Kept(PickPhotoFile(a));
    assert PhotoLinks(ids, [a]) == Kept(PickPhotoLink(ids, a));
  }

  /** `insert_chat_photo_if_not_exist`: the two lists read off the check rows, then the two inserts. */
  function ChatPhotoSpec(t: EntityTables, p: ChatPhoto, botId: int, now: int): Result<EntityTables>
  {
    var rows := PhotoChecks(t, p, botId);
    var files :- BulkInsert(t.files, Converted(PhotoFiles(rows), PrepareFile));
    var links :- BulkInsert(t.botFiles, BotFileRows(botId, PhotoLinks(PhotoFileIds(p), rows), now));
    Ok(t.(files := files, botFiles := links))
  }

  method InsertChatPhotoIfNotExist(db: Database, p: ChatPhoto, botId: int) returns (r: Result<()>)
    modifies db`files, db`botFiles
    ensures var spec := ChatPhotoSpec(old(db.Entities()), p, botId, db.now);
      (spec.Ok? ==> r == Ok(()) && db.Entities() == spec.value)
      && (spec.Err? ==> r == Err(spec.error) && db.Entities() == old(db.Entities()))
  {
    var ids := PhotoFileIds(p);
    var rows := PhotoChecks(db.Entities(), p, botId);
    var files: seq<(string, FileEntry)> := [];
    var links: seq<(string, Json)> := [];
    for i := 0 to |rows|
      invariant files == PhotoFiles(rows[..i])
      invariant links == PhotoLinks(ids, rows[..i])
    {
      var row := rows[i];
      assert rows[..i + 1][..i] == rows[..i];
      if !row.stored {
        files := files + [(row.fileUniqueId, ChatPhotoEntry(row.fileUniqueId))];
      }
      if !row.botRelation {
        if row.fileUniqueId in ids && ids[row.fileUniqueId] != "" {
          links := links + [(row.fileUniqueId, JStr(ids[row.fileUniqueId]))];
        }
      }
    }
    assert rows[..|rows|] == rows;
    var newFiles := InsertIfAny(db.files, Converted(files, PrepareFile));
    if newFiles.Err? {
      return Err(newFiles.error);
    }
    var newLinks := InsertIfAny(db.botFiles, BotFileRows(botId, links, db.now));
    if newLinks.Err? {
      return Err(newLinks.error);
    }
    db.files, db.botFiles := newFiles.value, newLinks.value;
    r := Ok(());
  }

  /** The avatar ids a call adds: a missing file, and a missing link that has a file id. */
  predicate NewPhotoFile(t: EntityTables, p: ChatPhoto, u: string)
  {
    (u == p.smallFileUniqueId || u == p.bigFileUniqueId) && u !in t.files
  }

  predicate NewPhotoLink(t: EntityTables, p: ChatPhoto, botId: int, u: string)
  {
    (u == p.smallFileUniqueId || u == p.bigFileUniqueId) && BotFileKey(botId, u) !in t.botFiles && PhotoFileIds(p)[u] != ""
  }

  /** Every stored file kept, and each missing avatar file added as a CHAT_PHOTO row with no size or MIME type. */
  ghost predicate StoredPhotoFiles(t: EntityTables, p: ChatPhoto, files: map<string, FileRow>)
  {
    (forall u :: u in files <==> u in t.files || NewPhotoFile(t, p, u))
    && (forall u :: u in t.files ==> files[u] == t.files[u])
    && (forall u :: NewPhotoFile(t, p, u) ==> files[u] == FileRow(FChatPhoto, JNull, JNull, None))
  }

  /** Every stored link kept, and each size this bot lacks linked under its own file id. */
  ghost predicate StoredPhotoLinks(t: EntityTables, p: ChatPhoto, botId: int, now: int, links: map<BotFileKey, BotFileRow>)
  {
    (forall k: BotFileKey :: k in links <==> k in t.botFiles || (k.botId == botId && NewPhotoLink(t, p, botId, k.fileUniqueId)))
    && (forall k :: k in t.botFiles ==> links[k] == t.botFiles[k])
    && (forall u :: NewPhotoLink(t, p, botId, u) ==> links[BotFileKey(botId, u)] == BotFileRow(JStr(PhotoFileIds(p)[u]), now))
  }

  /** A map with the entry of `o`, if any, written in. */
  function Put<K, V>(m: map<K, V>, o: Option<(K, V)>): (r: map<K, V>)
    ensures o.None? ==> r == m
    ensures o.Some? ==> r == m[o.value.0 := o.value.1]
  {
    match o
    case None => m
    case Some(kv) => m[kv.0 := kv.1]
  }

  /** A bulk insert of at most two rows with fresh, distinct keys succeeds and writes both in. */
  lemma BulkInsertTwo<K(!new), V>(m: map<K, V>, x: Option<(K, V)>, y: Option<(K, V)>)
    requires x.Some? ==> x.value.0 !in m
    requires y.Some? ==> y.value.0 !in m && (x.Some? ==> x.value.0 != y.value.0)
    ensures BulkInsert(m, Kept(x) + Kept(y)) == Ok(Put(Put(m, x), y))
  {
    var m' := Put(m, x);
    assert BulkInsert(m', Kept(y)) == Ok(Put(m', y)) by {
      if y.Some? {
        assert Kept(y)[1..] == [];
      }
    }
    if x.Some? {
      assert (Kept(x) + Kept(y))[1..] == Kept(y);
    }
  }

  function FileRowOpt(o: Option<(string, FileEntry)>): (r: Option<(string, FileRow)>)
    ensures o.None? <==> r.None?
    ensures o.Some? ==> r.value == (o.value.0, PrepareFile(o.value.1))
  {
    match o
    case None => None
    case Some(e) => Some((e.0, PrepareFile(e.1)))
  }

  function LinkRowOpt(botId: int, o: Option<(string, Json)>, now: int): (r: Option<(BotFileKey, BotFileRow)>)
    ensures o.None? <==> r.None?
    ensures o.Some? ==> r.value == (BotFileKey(botId, o.value.0), BotFileRow(o.value.1, now))
  {
    match o
    case None => None
    case Some(l) => Some((BotFileKey(botId, l.0), BotFileRow(l.1, now)))
  }

  lemma ConvertedKept(x: Option<(string, FileEntry)>, y: Option<(string, FileEntry)>)
    ensures Converted(Kept(x) + Kept(y), PrepareFile) == Kept(FileRowOpt(x)) + Kept(FileRowOpt(y))
  {
  }

  lemma BotFileRowsKept(botId: int, x: Option<(string, Json)>, y: Option<(string, Json)>, now: int)
    ensures BotFileRows(botId, Kept(x) + Kept(y), now) == Kept(LinkRowOpt(botId, x, now)) + Kept(LinkRowOpt(botId, y, now))
  {
  }

  /** The file rows the call writes, as map updates. */
  function PhotoFilesPut(t: EntityTables, p: ChatPhoto, botId: int): map<string, FileRow>
  {
    var rows := PhotoChecks(t, p, botId);
    Put(Put(t.files, FileRowOpt(PickPhotoFile(rows[0]))), FileRowOpt(PickPhotoFile(rows[1])))
  }

  function PhotoLinksPut(t: EntityTables, p: ChatPhoto, botId: int, now: int): map<BotFileKey, BotFileRow>
  {
    var rows := PhotoChecks(t, p, botId);
    var ids := PhotoFileIds(p);
    Put(Put(t.botFiles, LinkRowOpt(botId, PickPhotoLink(ids, rows[0]), now)), LinkRowOpt(botId, PickPhotoLink(ids, rows[1]), now))
  }

  lemma PhotoFilesPutStored(t: EntityTables, p: ChatPhoto, botId: int)
    ensures StoredPhotoFiles(t, p, PhotoFilesPut(t, p, botId))
  {
    ChatPhotoRow(p.smallFileUniqueId);
    ChatPhotoRow(p.bigFileUniqueId);
  }

  lemma PhotoLinksPutStored(t: EntityTables, p: ChatPhoto, botId: int, now: int)
    ensures StoredPhotoLinks(t, p, botId, now, PhotoLinksPut(t, p, botId, now))
  {
  }

  lemma PhotoFilesInserted(t: EntityTables, p: ChatPhoto, botId: int)
    requires p.smallFileUniqueId != p.bigFileUniqueId
    ensures BulkInsert(t.files, Converted(PhotoFiles(PhotoChecks(t, p, botId)), PrepareFile)) == Ok(PhotoFilesPut(t, p, botId))
  {
    var rows := PhotoChecks(t, p, botId);
    PhotoPair(PhotoFileIds(p), rows[0], rows[1]);
    var x, y := PickPhotoFile(rows[0]), PickPhotoFile(rows[1]);
    ConvertedKept(x, y);
    BulkInsertTwo(t.files, FileRowOpt(x), FileRowOpt(y));
  }

  lemma PhotoLinksInserted(t: EntityTables, p: ChatPhoto, botId: int, now: int)
    requires p.smallFileUniqueId != p.bigFileUniqueId
    ensures BulkInsert(t.botFiles, BotFileRows(botId, PhotoLinks(PhotoFileIds(p), PhotoChecks(t, p, botId)), now))
      == Ok(PhotoLinksPut(t, p, botId, now))
  {
    var rows := PhotoChecks(t, p, botId);
    var ids := PhotoFileIds(p);
    PhotoPair(ids, rows[0], rows[1]);
    var x, y := PickPhotoLink(ids, rows[0]), PickPhotoLink(ids, rows[1]);
    BotFileRowsKept(botId, x, y, now);
    BulkInsertTwo(t.botFiles, LinkRowOpt(botId, x, now), LinkRowOpt(botId, y, now));
  }

  /**
   * With two distinct unique ids the call succeeds, changes only the files and the bot's
   * links, keeps every stored row, and adds exactly the missing avatar files and links.
   */
  lemma ChatPhotoStores(t: EntityTables, p: ChatPhoto, botId: int, now: int)
    requires p.smallFileUniqueId != p.bigFileUniqueId
    ensures var r := ChatPhotoSpec(t, p, botId, now);
      r.Ok? && r.value == t.(files := r.value.files, botFiles := r.value.botFiles)
      && StoredPhotoFiles(t, p, r.value.files) && StoredPhotoLinks(t, p, botId, now, r.value.botFiles)
  {
    PhotoFilesInserted(t, p, botId);
    PhotoLinksInserted(t, p, botId, now);
    PhotoFilesPutStored(t, p, botId);
    PhotoLinksPutStored(t, p, botId, now);
  }

  /** When both sizes share a unique id the file is missing twice from one batch: the insert raises an integrity error. */
  lemma ChatPhotoSameIds(t: EntityTables, p: ChatPhoto, botId: int, now: int)
    requires p.smallFileUniqueId == p.bigFileUniqueId && p.bigFileUniqueId !in t.files
    ensures ChatPhotoSpec(t, p, botId, now) == Err(Raised("IntegrityError"))
  {
    var rows := PhotoChecks(t, p, botId);
    var u := p.bigFileUniqueId;
    PhotoPair(PhotoFileIds(p), rows[0], rows[1]);
    var rs := Converted(PhotoFiles(rows), PrepareFile);
    assert Firsts(rs)[0] == Firsts(rs)[1];
  }

  /** A second call with the same avatar for the same bot changes nothing. */
  lemma ChatPhotoIdempotent(t: EntityTables, p: ChatPhoto, botId: int, now: int, later: int)
    requires p.smallFileUniqueId != p.bigFileUniqueId
    ensures ChatPhotoSpec(t, p, botId, now).Ok?
    ensures var t' := ChatPhotoSpec(t, p, botId, now).value;
      ChatPhotoSpec(t', p, botId, later) == Ok(t')
  {
    ChatPhotoStores(t, p, botId, now);
    var t' := ChatPhotoSpec(t, p, botId, now).value;
    var ids := PhotoFileIds(p);
    var rows := PhotoChecks(t', p, botId);
    PhotoPair(ids, rows[0], rows[1]);
    assert BotFileKey(botId, p.smallFileUniqueId).fileUniqueId == p.smallFileUniqueId;
    assert BotFileKey(botId, p.bigFileUniqueId).fileUniqueId == p.bigFileUniqueId;
    assert PhotoFiles(rows) == [];
    assert PhotoLinks(ids, rows) == [];
  }
}
