// app/db/models/telegram/message.py: a stored Telegram message, its composite key and
// its dictionary form.

module MessageModel {

  import opened Wrappers
  import opened Json
  import opened Enums

  /** The primary key of `telegram_messages`: the pair (chat_id, id). */
  datatype MsgKey = MsgKey(chatId: int, id: int)

  /**
   * The non-key columns of a stored message. Nullable pass-through columns are kept as JSON
   * values (JNull for NULL); dates are kept as the value the payload carried (integer seconds).
   */
  datatype MessageRow = MessageRow(
    messageType: MessageType,
    threadId: Json,
    text: Json,
    caption: Json,
    fromUserId: Option<int>,
    senderChatId: Option<int>,
    senderBoostCount: Json,
    senderBusinessBotId: Option<int>,
    date: Json,
    editDate: Json,
    businessConnectionId: Json,
    isTopicMessage: bool,
    isAutomaticForward: bool,
    hasMediaSpoiler: bool,
    hasProtectedContent: bool,
    isFromOffline: bool,
    isPaidPost: bool,
    authorSignature: Json,
    paidStarCount: Json,
    otherData: Option<Dict>)

  /** The keys `to_dict` always emits before merging `other_data`. */
  const MESSAGE_DICT_KEYS: set<string> := {
    "message_id", "chat", "message_thread_id", "message_type", "text", "caption", "from",
    "sender_chat", "sender_boost_count", "sender_business_bot", "date", "edit_date",
    "business_connection_id", "is_topic_message", "is_automatic_forward", "has_media_spoiler",
    "has_protected_content", "is_from_offline", "is_paid_post", "author_signature", "paid_star_count"
  }

  /** `{"id": id, "first_name": "", "is_bot": isBot}`: a sender rebuilt from its id alone. */
  function SenderStub(id: int, isBot: bool): Json
  {
    JObj(map["id" := JInt(id), "first_name" := JStr(""), "is_bot" := JBool(isBot)])
  }

  /** A stub when the stored id is truthy (present and non-zero), None otherwise. */
  function StubOrNull(id: Option<int>, isBot: bool): (r: Json)
    ensures r != JNull <==> id.Some? && id.value != 0
    ensures r != JNull ==> r == SenderStub(id.value, isBot)
  {
    if id.Some? && id.value != 0 then SenderStub(id.value, isBot) else JNull
  }

  /** The value `to_dict` emits under a promoted key. */
  function PromotedValue(k: MsgKey, m: MessageRow, key: string): Json
  {
    if key == "message_id" then JInt(k.id)
    else if key == "chat" then JObj(map["id" := JInt(k.chatId), "type" := JStr("")])
    else if key == "message_thread_id" then m.threadId
    else if key == "message_type" then JStr(MessageTypeValue(m.messageType))
    else if key == "text" then m.text
    else if key == "caption" then m.caption
    else if key == "from" then StubOrNull(m.fromUserId, false)
    else if key == "sender_chat" then StubOrNull(m.senderChatId, false)
    else if key == "sender_boost_count" then m.senderBoostCount
    else if key == "sender_business_bot" then StubOrNull(m.senderBusinessBotId, true)
    else if key == "date" then m.date
    else if key == "edit_date" then m.editDate
    else if key == "business_connection_id" then m.businessConnectionId
    else if key == "is_topic_message" then JBool(m.isTopicMessage)
    else if key == "is_automatic_forward" then JBool(m.isAutomaticForward)
    else if key == "has_media_spoiler" then JBool(m.hasMediaSpoiler)
    else if key == "has_protected_content" then JBool(m.hasProtectedContent)
    else if key == "is_from_offline" then JBool(m.isFromOffline)
    else if key == "is_paid_post" then JBool(m.isPaidPost)
    else if key == "author_signature" then m.authorSignature
    else m.paidStarCount
  }

  /** The promoted part of `to_dict`, before `other_data` is merged in. */
  function PromotedDict(k: MsgKey, m: MessageRow): (r: Dict)
    ensures r.Keys == MESSAGE_DICT_KEYS
    ensures forall key :: key in r ==> r[key] == PromotedValue(k, m, key)
  {
    map key | key in MESSAGE_DICT_KEYS :: PromotedValue(k, m, key)
  }

  /** The overflow record as `to_dict` merges it: NULL and `{}` both add nothing. */
  function Overflow(o: Option<Dict>): (r: Dict)
    ensures o.None? ==> r == map[]
    ensures o.Some? ==> r == o.value
  {
    if o.Some? then o.value else map[]
  }

  /**
   * `TelegramMessage.to_dict`: the promoted keys, then `other_data` merged in last,
   * so an overflow key overrides a promoted key of the same name.
   */
  function ToDict(k: MsgKey, m: MessageRow): (r: Dict)
    ensures r.Keys == MESSAGE_DICT_KEYS + Overflow(m.otherData).Keys
    ensures forall key :: key in Overflow(m.otherData) ==> r[key] == Overflow(m.otherData)[key]
    ensures forall key :: key in MESSAGE_DICT_KEYS && key !in Overflow(m.otherData) ==>
      r[key] == PromotedDict(k, m)[key]
  {
    Update(PromotedDict(k, m), Overflow(m.otherData))
  }

  /**
   * The dictionary identifies the message by `message_id` and `chat.id`, and carries the
   * type as its enum string, unless the overflow record shadows those keys.
   */
  lemma ToDictIdentity(k: MsgKey, m: MessageRow)
    requires m.otherData.Some? ==> ("message_id" !in m.otherData.value && "chat" !in m.otherData.value
      && "message_type" !in m.otherData.value)
    ensures var d := ToDict(k, m);
      d["message_id"] == JInt(k.id)
      && d["chat"] == JObj(map["id" := JInt(k.chatId), "type" := JStr("")])
      && d["message_type"] == JStr(MessageTypeValue(m.messageType))
  {
  }

  /** Sender stubs: only the business bot is marked as a bot; a falsy id gives None. */
  lemma ToDictSenders(k: MsgKey, m: MessageRow)
    requires m.otherData.None?
    ensures var d := ToDict(k, m);
      (d["from"] != JNull <==> m.fromUserId.Some? && m.fromUserId.value != 0)
      && (d["from"] != JNull ==> d["from"].fields["is_bot"] == JBool(false))
      && (d["sender_chat"] != JNull ==> d["sender_chat"].fields["is_bot"] == JBool(false))
      && (d["sender_business_bot"] != JNull ==> d["sender_business_bot"].fields["is_bot"] == JBool(true))
      && d["edit_date"] == m.editDate
  {
  }
}
