// app/services/telegram/logger.py, lines 215-379 and 469-556: the dispatch of a Bot API
// answer to the logging routes, the token check, the request-merge rule, and the part of
// `proxy_request` that decides whether an answer is logged and committed.

module Proxy {

  import opened Wrappers
  import opened Json
  import opened Text
  import opened Constants
  import opened Payload
  import opened MessageModel
  import opened Db
  import opened EntityLogger
  import opened TgLogger

  // --- dispatch --------------------------------------------------------------------------

  /** The logging route an answer takes. */
  datatype Route =
    | Ignored
    | Updates
    | MediaGroup
    | CopyMany(clearCaption: bool)
    | ChatFullInfo
    | Me
    | NewMessage
    | EditedMessage
    | CopyOne

  /**
   * The branch chain of `log_telegram_request`: a boolean answer is ignored; a list goes to
   * getUpdates, sendMediaGroup or copyMessages/forwardMessages; anything else is taken as
   * a dictionary and dispatched on the method name. Only copyMessages clears captions.
   */
  function RouteOf(name: string, req: Dict, data: Json): (r: Route)
    ensures data.JBool? ==> r == Ignored
    ensures data.JList? ==> r in {Ignored, Updates, MediaGroup, CopyMany(false), CopyMany(true)}
    ensures r == Updates || r == MediaGroup || r.CopyMany? ==> data.JList?
    ensures r.CopyMany? ==> ((name == "copyMessages" || name == "forwardMessages")
      && (r.clearCaption <==> name == "copyMessages" && Truthy(Get(req, "remove_caption"))))
    ensures !data.JBool? && !data.JList? && name in MESSAGE_RETURNED_METHODS ==> r == NewMessage
  {
    if data.JBool? then Ignored
    else if data.JList? then
      if name == "getUpdates" then Updates
      else if name == "sendMediaGroup" then MediaGroup
      else if name == "copyMessages" || name == "forwardMessages" then
        CopyMany(Truthy(Get(req, "remove_caption")) && name == "copyMessages")
      else Ignored
    else if name == "getChatFullInfo" then ChatFullInfo
    else if name == "getMe" then Me
    else if name in MESSAGE_RETURNED_METHODS then NewMessage
    else if name in EDITED_MESSAGE_RETURNED_METHODS then EditedMessage
    else if name == "copyMessage" then CopyOne
    else Ignored
  }

  /**
   * The dictionary branches can be read in any order: a message-returning method is never
   * an edit method and is none of the four special names, and likewise for the edit methods.
   */
  lemma RouteUnambiguous(name: string, req: Dict, data: Json)
    requires !data.JBool? && !data.JList?
    ensures name in EDITED_MESSAGE_RETURNED_METHODS ==> RouteOf(name, req, data) == EditedMessage
    ensures RouteOf(name, req, data) == NewMessage <==> name in MESSAGE_RETURNED_METHODS
    ensures RouteOf(name, req, data) == EditedMessage <==> name in EDITED_MESSAGE_RETURNED_METHODS
  {
    MethodSetsDisjoint();
    assert name in EDITED_MESSAGE_RETURNED_METHODS ==> name !in MESSAGE_RETURNED_METHODS;
  }

  /** The chat whose username is the destination without its leading "@" (the outer join row). */
  method ChatByUsername(db: Database, dest: Json) returns (named: Option<int>)
    ensures NamedOk(db.Entities(), dest, named)
  {
    named := None;
    if dest.JStr? {
      var wanted := JStr(LStripChar(dest.s, '@'));
      if exists c :: c in db.tgChats && db.tgChats[c].username == wanted {
        var c :| c in db.tgChats && db.tgChats[c].username == wanted;
        named := Some(c);
      }
    }
  }

  /** The dictionary behind a dictionary route; `de_json` of anything else raises. */
  function ObjectOf(data: Json): (r: Result<Dict>)
    ensures r.Ok? <==> data.JObj?
    ensures r.Ok? ==> r.value == data.fields
    ensures r.Err? ==> r.error == Raised("TypeError")
  {
    if data.JObj? then Ok(data.fields) else Err(Raised("TypeError"))
  }

  // What the dictionary routes make of the tables. On an answer that is not a dictionary
  // they fail in `de_json`.

  /** getChatFullInfo. */
  function ChatFullInfoSpec(t: EntityTables, data: Json, botId: int, now: int): Result<EntityTables>
  {
    var d :- ObjectOf(data);
    GetChatFullInfoSpec(t, d, botId, now)
  }

  /** getMe: the profile's id, then its names and username written over the stored user. */
  function MeSpec(t: EntityTables, data: Json): Result<EntityTables>
  {
    var d :- ObjectOf(data);
    var id :- ProfileId(d);
    Ok(t.(users := MeUpdated(t.users, id, d)))
  }

  /** An edit method: the message is logged, then its stored row is rewritten. */
  ghost function EditedSpec(t: EntityTables, decode: Json -> Decoded, data: Json, botId: int, now: int)
    : Result<EntityTables>
    requires DecoderOk(decode)
  {
    var _ :- ObjectOf(data);
    var p := decode(data);
    UpdateMessageSpec(t, LogObjectSpec(t, p.g, p.root, botId, now), NodeData(p.g, p.root), false)
  }

  /** copyMessage. */
  function CopySpec(t: EntityTables, req: Dict, data: Json, named: Option<int>, fetched: Dict, botId: int, now: int)
    : Result<EntityTables>
    requires NamedOk(t, Get(req, "chat_id"), named)
  {
    var d :- ObjectOf(data);
    CopyOneSpec(t, req, d, named, fetched, botId, now)
  }

  /**
   * What `log_telegram_request` makes of the tables on `route`. `named` is the chat the
   * copy routes' destination names (the first row of the outer join, any chat with that
   * username), `fetched` what `getChat` answers for an unknown destination.
   */
  ghost function RouteSpec(t: EntityTables, route: Route, req: Dict, data: Json, named: Option<int>, fetched: Dict,
                           decode: Json -> Decoded, botId: int, now: int): Result<EntityTables>
    requires DecoderOk(decode) && NamedOk(t, Get(req, "chat_id"), named)
    requires route.Updates? || route.MediaGroup? || route.CopyMany? ==> data.JList?
  {
    match route
    case Ignored => Ok(t)
    case Updates => GetUpdatesSpec(t, data.items, decode, botId, now)
    case MediaGroup => LogDecoded(t, decode, data, botId, now)
    case CopyMany(clearCaption) => CopyManySpec(t, req, data.items, clearCaption, named, fetched, decode, botId, now)
    case NewMessage => LogDecoded(t, decode, data, botId, now)
    case ChatFullInfo => ChatFullInfoSpec(t, data, botId, now)
    case Me => MeSpec(t, data)
    case EditedMessage => EditedSpec(t, decode, data, botId, now)
    case CopyOne => CopySpec(t, req, data, named, fetched, botId, now)
  }

  /** A route ran as specified: on success the tables are the specified ones, on failure its error is returned. */
  predicate LoggedAs(spec: Result<EntityTables>, r: Result<()>, t: EntityTables)
  {
    (spec.Ok? ==> r == Ok(()) && t == spec.value) && (spec.Err? ==> r == Err(spec.error))
  }

  /** The route of the answer ran as RouteSpec says, for some chat the destination's username can name. */
  ghost predicate RouteLogged(before: EntityTables, req: Dict, data: Json, name: string, fetched: Dict,
                              decode: Json -> Decoded, botId: int, now: int, r: Result<()>, after: EntityTables)
    requires DecoderOk(decode)
  {
    exists named :: NamedOk(before, Get(req, "chat_id"), named)
      && LoggedAs(RouteSpec(before, RouteOf(name, req, data), req, data, named, fetched, decode, botId, now), r, after)
  }

  /** The tables once the route's transaction is committed, or rolled back when it failed. */
  function Committed(spec: Result<EntityTables>, before: EntityTables): (r: EntityTables)
    ensures spec.Ok? ==> r == spec.value
    ensures spec.Err? ==> r == before
  {
    if spec.Ok? then spec.value else before
  }

  /** The committed tables are those of RouteSpec, for some chat the destination's username can name. */
  ghost predicate RouteCommitted(before: EntityTables, req: Dict, data: Json, name: string, fetched: Dict,
                                 decode: Json -> Decoded, botId: int, now: int, after: EntityTables)
    requires DecoderOk(decode)
  {
    exists named :: NamedOk(before, Get(req, "chat_id"), named)
      && after == Committed(RouteSpec(before, RouteOf(name, req, data), req, data, named, fetched, decode, botId, now), before)
  }

  /** Committing a route that ran as specified, or rolling it back on its error, gives the committed tables. */
  lemma CommittedOfLogged(before: EntityTables, req: Dict, data: Json, name: string, fetched: Dict,
                          decode: Json -> Decoded, botId: int, now: int, r: Result<()>, after: EntityTables)
    requires DecoderOk(decode)
    requires RouteLogged(before, req, data, name, fetched, decode, botId, now, r, after)
    ensures RouteCommitted(before, req, data, name, fetched, decode, botId, now, if r.Ok? then after else before)
  {
    var route := RouteOf(name, req, data);
    var named :| NamedOk(before, Get(req, "chat_id"), named)
      && LoggedAs(RouteSpec(before, route, req, data, named, fetched, decode, botId, now), r, after);
    var spec := RouteSpec(before, route, req, data, named, fetched, decode, botId, now);
    assert (if r.Ok? then after else before) == Committed(spec, before);
  }

  /** Some chat, or none, is what the username lookup can return. */
  lemma SomeNamed(t: EntityTables, dest: Json)
    ensures exists named :: NamedOk(t, dest, named)
  {
    if dest.JStr? && exists c :: c in t.chats && t.chats[c].username == JStr(LStripChar(dest.s, '@')) {
      var c :| c in t.chats && t.chats[c].username == JStr(LStripChar(dest.s, '@'));
      assert NamedOk(t, dest, Some(c));
    } else {
      assert NamedOk(t, dest, None);
    }
  }

  /** An ignored answer (a boolean, or a method no route logs) commits exactly the tables it found. */
  lemma IgnoredCommitsNothing(before: EntityTables, req: Dict, data: Json, name: string, fetched: Dict,
                              decode: Json -> Decoded, botId: int, now: int, after: EntityTables)
    requires DecoderOk(decode) && RouteOf(name, req, data).Ignored?
    ensures RouteCommitted(before, req, data, name, fetched, decode, botId, now, after) <==> after == before
  {
    if after == before {
      SomeNamed(before, Get(req, "chat_id"));
      var named :| NamedOk(before, Get(req, "chat_id"), named);
      assert after == Committed(RouteSpec(before, RouteOf(name, req, data), req, data, named, fetched, decode, botId, now), before);
    }
  }

  /** Only the two copy routes read the destination's username lookup. */
  lemma RouteIgnoresNamed(t: EntityTables, route: Route, req: Dict, data: Json, named: Option<int>, other: Option<int>,
                          fetched: Dict, decode: Json -> Decoded, botId: int, now: int)
    requires DecoderOk(decode) && NamedOk(t, Get(req, "chat_id"), named) && NamedOk(t, Get(req, "chat_id"), other)
    requires route.Updates? || route.MediaGroup? || route.CopyMany? ==> data.JList?
    requires !route.CopyMany? && !route.CopyOne?
    ensures RouteSpec(t, route, req, data, named, fetched, decode, botId, now)
      == RouteSpec(t, route, req, data, other, fetched, decode, botId, now)
  {
  }

  /** Outside the copy routes the committed tables are determined by the tables found and the answer. */
  lemma CommittedUnique(before: EntityTables, req: Dict, data: Json, name: string, fetched: Dict,
                        decode: Json -> Decoded, botId: int, now: int, after: EntityTables, after': EntityTables)
    requires DecoderOk(decode) && !RouteOf(name, req, data).CopyMany? && !RouteOf(name, req, data).CopyOne?
    requires RouteCommitted(before, req, data, name, fetched, decode, botId, now, after)
    requires RouteCommitted(before, req, data, name, fetched, decode, botId, now, after')
    ensures after == after'
  {
    var route := RouteOf(name, req, data);
    var named :| NamedOk(before, Get(req, "chat_id"), named)
      && after == Committed(RouteSpec(before, route, req, data, named, fetched, decode, botId, now), before);
    var other :| NamedOk(before, Get(req, "chat_id"), other)
      && after' == Committed(RouteSpec(before, route, req, data, other, fetched, decode, botId, now), before);
    RouteIgnoresNamed(before, route, req, data, named, other, fetched, decode, botId, now);
  }

  // --- the routes --------------------------------------------------------------------------

  /** The getUpdates route. */
  method LogUpdatesRoute(db: Database, items: seq<Json>, decode: Json -> Decoded, botId: int) returns (r: Result<()>)
    requires DecoderOk(decode)
    modifies db`tgUsers, db`tgChats, db`messages, db`files, db`botMessages, db`botFiles
    ensures LoggedAs(GetUpdatesSpec(old(db.Entities()), items, decode, botId, db.now), r, db.Entities())
  {
    r := LogGetUpdates(db, items, decode, botId);
  }

  /** The sendMediaGroup route and the message-returning methods: `log_object` on the decoded answer. */
  method LogDecodedRoute(db: Database, data: Json, decode: Json -> Decoded, botId: int) returns (r: Result<()>)
    requires DecoderOk(decode)
    modifies db`tgUsers, db`tgChats, db`messages, db`files, db`botMessages, db`botFiles
    ensures LoggedAs(LogDecoded(old(db.Entities()), decode, data, botId, db.now), r, db.Entities())
  {
    r := LogDecodedObject(db, decode, data, botId);
  }

  /** The copyMessages and forwardMessages route. */
  method LogCopiesRoute(db: Database, req: Dict, items: seq<Json>, clearCaption: bool, named: Option<int>, fetched: Dict,
                        decode: Json -> Decoded, botId: int) returns (r: Result<()>)
    requires DecoderOk(decode) && NamedOk(db.Entities(), Get(req, "chat_id"), named)
    modifies db`tgUsers, db`tgChats, db`messages, db`files, db`botMessages, db`botFiles
    ensures LoggedAs(CopyManySpec(old(db.Entities()), req, items, clearCaption, named, fetched, decode, botId, db.now),
      r, db.Entities())
  {
    r := LogCopies(db, req, items, clearCaption, named, fetched, decode, botId);
  }

  /** The getChatFullInfo route. */
  method LogChatFullInfoRoute(db: Database, data: Json, botId: int) returns (r: Result<()>)
    modifies db`tgChats, db`files, db`botFiles
    ensures LoggedAs(ChatFullInfoSpec(old(db.Entities()), data, botId, db.now), r, db.Entities())
  {
    var d := ObjectOf(data);
    if d.Err? {
      r := Err(d.error);
    } else {
      r := LogGetChatFullInfo(db, d.value, botId);
    }
  }

  /** The getMe route. */
  method LogMeRoute(db: Database, data: Json) returns (r: Result<()>)
    modifies db`tgUsers
    ensures LoggedAs(MeSpec(old(db.Entities()), data), r, db.Entities())
  {
    var d := ObjectOf(data);
    if d.Err? {
      return Err(d.error);
    }
    var id := ProfileId(d.value);
    if id.Err? {
      return Err(id.error);
    }
    LogMe(db, id.value, d.value);
    r := Ok(());
  }

  /** The edit methods' route: `update_message` on the decoded answer. */
  method LogEditedRoute(db: Database, data: Json, decode: Json -> Decoded, botId: int) returns (r: Result<()>)
    requires DecoderOk(decode)
    modifies db`tgUsers, db`tgChats, db`messages, db`files, db`botMessages, db`botFiles
    ensures LoggedAs(EditedSpec(old(db.Entities()), decode, data, botId, db.now), r, db.Entities())
  {
    var d := ObjectOf(data);
    if d.Err? {
      return Err(d.error);
    }
    var p := decode(data);
    r := UpdateMessage(db, p.g, p.root, botId, false);
  }

  /** The copyMessage route. */
  method LogCopyRoute(db: Database, req: Dict, data: Json, named: Option<int>, fetched: Dict, botId: int)
    returns (r: Result<()>)
    requires NamedOk(db.Entities(), Get(req, "chat_id"), named)
    modifies db`tgChats, db`messages, db`files, db`botMessages, db`botFiles
    ensures LoggedAs(CopySpec(old(db.Entities()), req, data, named, fetched, botId, db.now), r, db.Entities())
  {
    var d := ObjectOf(data);
    if d.Err? {
      return Err(d.error);
    }
    r := LogCopyMessage(db, req, d.value, named, fetched, botId);
  }

  // --- log_telegram_request ------------------------------------------------------------------

  /**
   * The route of the answer, run. `named` is the chat the destination's username names,
   * looked up only by the copy routes.
   */
  method RunRoute(db: Database, route: Route, req: Dict, data: Json, fetched: Dict, decode: Json -> Decoded, botId: int)
    returns (r: Result<()>, ghost named: Option<int>)
    requires DecoderOk(decode)
    requires route.Updates? || route.MediaGroup? || route.CopyMany? ==> data.JList?
    modifies db`tgUsers, db`tgChats, db`messages, db`files, db`botMessages, db`botFiles
    ensures NamedOk(old(db.Entities()), Get(req, "chat_id"), named)
    ensures LoggedAs(RouteSpec(old(db.Entities()), route, req, data, named, fetched, decode, botId, db.now), r, db.Entities())
  {
    if route.CopyMany? || route.CopyOne? {
      r, named := RunCopyRoute(db, route, req, data, fetched, decode, botId);
    } else {
      SomeNamed(db.Entities(), Get(req, "chat_id"));
      named :| NamedOk(db.Entities(), Get(req, "chat_id"), named);
      r := RunPlainRoute(db, route, req, data, named, fetched, decode, botId);
    }
  }

  /** The two copy routes, which look the destination up by username. */
  method RunCopyRoute(db: Database, route: Route, req: Dict, data: Json, fetched: Dict, decode: Json -> Decoded,
                      botId: int) returns (r: Result<()>, ghost named: Option<int>)
    requires DecoderOk(decode) && (route.CopyMany? || route.CopyOne?)
    requires route.CopyMany? ==> data.JList?
    modifies db`tgUsers, db`tgChats, db`messages, db`files, db`botMessages, db`botFiles
    ensures NamedOk(old(db.Entities()), Get(req, "chat_id"), named)
    ensures LoggedAs(RouteSpec(old(db.Entities()), route, req, data, named, fetched, decode, botId, db.now), r, db.Entities())
  {
    var dest := ChatByUsername(db, Get(req, "chat_id"));
    named := dest;
    if route.CopyOne? {
      r := LogCopyRoute(db, req, data, dest, fetched, botId);
    } else {
      r := LogCopiesRoute(db, req, data.items, route.clearCaption, dest, fetched, decode, botId);
    }
  }

  /** The other routes, which do not use the destination. */
  method RunPlainRoute(db: Database, route: Route, req: Dict, data: Json, ghost named: Option<int>, fetched: Dict,
                       decode: Json -> Decoded, botId: int) returns (r: Result<()>)
    requires DecoderOk(decode) && NamedOk(db.Entities(), Get(req, "chat_id"), named)
    requires !route.CopyMany? && !route.CopyOne?
    requires route.Updates? || route.MediaGroup? ==> data.JList?
    modifies db`tgUsers, db`tgChats, db`messages, db`files, db`botMessages, db`botFiles
    ensures LoggedAs(RouteSpec(old(db.Entities()), route, req, data, named, fetched, decode, botId, db.now), r, db.Entities())
  {
    if route.Ignored? {
      r := Ok(());
    } else if route.Updates? {
      r := LogUpdatesRoute(db, data.items, decode, botId);
    } else if route.MediaGroup? || route.NewMessage? {
      r := LogDecodedRoute(db, data, decode, botId);
    } else if route.ChatFullInfo? {
      r := LogChatFullInfoRoute(db, data, botId);
    } else if route.Me? {
      r := LogMeRoute(db, data);
    } else {
      r := LogEditedRoute(db, data, decode, botId);
    }
  }

  /**
   * `log_telegram_request`: the answer `data` of `name`, called with the parameters
   * `req`, goes to its route and is logged as RouteSpec says; `decode` is `de_json`.
   */
  method LogTelegramRequest(db: Database, req: Dict, data: Json, name: string, fetched: Dict,
                            decode: Json -> Decoded, botId: int) returns (r: Result<()>)
    requires DecoderOk(decode)
    modifies db`tgUsers, db`tgChats, db`messages, db`files, db`botMessages, db`botFiles
    ensures RouteLogged(old(db.Entities()), req, data, name, fetched, decode, botId, db.now, r, db.Entities())
    ensures RouteOf(name, req, data) == Ignored ==> r == Ok(()) && db.Entities() == old(db.Entities())
  {
    ghost var named: Option<int>;
    r, named := RunRoute(db, RouteOf(name, req, data), req, data, fetched, decode, botId);
  }

  // --- verify_token ------------------------------------------------------------------------

  const BAD_TOKEN: Error := HttpError(400, "Invalid Telegram bot token format")
  const NO_BOT: Error := HttpError(404, "Bot not found")

  /** A token that passes the regex has an integer prefix and a suffix after its first colon. */
  lemma MatchedTokenParts(token: string)
    requires BotTokenMatches(token)
    ensures ParseInt(BeforeFirst(token, ':')).Some? && AfterFirst(token, ':').Some?
  {
    if BotTokenShape(token) {
      ShapedTokenParts(token, token);
    } else {
      ShapedTokenParts(token, token[..|token| - 1]);
    }
  }

  /** A token that starts with a well-shaped one has the same integer prefix. */
  lemma ShapedTokenParts(token: string, s: string)
    requires BotTokenShape(s) && |s| <= |token| && token[..|s|] == s
    ensures ParseInt(BeforeFirst(token, ':')).Some? && AfterFirst(token, ':').Some?
  {
    var k := |s| - 36;
    BotTokenParts(s);
    assert token == s[..k] + [':'] + token[k + 1..];
    PartitionAt(s[..k], ':', token[k + 1..]);
    ParseDigits(s[..k]);
  }

  /** A non-empty run of digits parses as its decimal value. */
  lemma ParseDigits(d: string)
    requires d != [] && AllDigits(d)
    ensures ParseInt(d) == Some(DecimalValue(d))
  {
    StripOfUnpadded(d);
  }

  /**
   * `verify_token`: 400 unless the token is non-empty and matches the token regex; 404
   * unless a bot with the integer prefix is stored and the part after the first colon is
   * its decrypted secret. The bot id is returned.
   */
  function VerifyToken(bots: map<int, BotRow>, token: string): (r: Result<int>)
    ensures r.Ok? <==> (token != "" && BotTokenMatches(token)
      && ParseInt(BeforeFirst(token, ':')).Some? && ParseInt(BeforeFirst(token, ':')).value in bots
      && AfterFirst(token, ':') == Some(Decrypt(bots[ParseInt(BeforeFirst(token, ':')).value].token)))
    ensures r.Ok? ==> Some(r.value) == ParseInt(BeforeFirst(token, ':'))
    ensures r.Err? && (token == "" || !BotTokenMatches(token)) ==> r.error == BAD_TOKEN
    ensures r.Err? && token != "" && BotTokenMatches(token) ==> r.error == NO_BOT
  {
    if token == "" || !BotTokenMatches(token) then Err(BAD_TOKEN)
    else
      MatchedTokenParts(token);
      var id := ParseInt(BeforeFirst(token, ':')).value;
      if id !in bots then Err(NO_BOT)
      else if AfterFirst(token, ':').value != Decrypt(bots[id].token) then Err(NO_BOT)
      else Ok(id)
  }

  /**
   * A bot stored under `id` with the sealed `secret` is found by the token
   * "{id}:{secret}", whenever that token has the regex shape.
   */
  lemma VerifyTokenAccepts(bots: map<int, BotRow>, id: int, secret: string)
    requires id in bots && bots[id].token == Encrypt(secret)
    requires BotTokenShape(IntToString(id) + ":" + secret)
    ensures VerifyToken(bots, IntToString(id) + ":" + secret) == Ok(id)
  {
    var token := IntToString(id) + ":" + secret;
    IntToStringChars(id, ':');
    PartitionAt(IntToString(id), ':', secret);
    ParseIntToString(id);
  }

  /** The same token with any other stored secret is refused as an unknown bot. */
  lemma VerifyTokenRejectsOtherSecret(bots: map<int, BotRow>, token: string)
    requires token != "" && BotTokenMatches(token)
    requires var id := ParseInt(BeforeFirst(token, ':'));
      id.Some? && id.value in bots && AfterFirst(token, ':') != Some(Decrypt(bots[id.value].token))
    ensures VerifyToken(bots, token) == Err(NO_BOT)
  {
  }

  // --- proxy_request -------------------------------------------------------------------------

  /** The request body: empty, parsed JSON, or text that is not JSON. */
  datatype Body = Empty | Parsed(json: Json) | Malformed

  /** The query string's parameters as a dictionary of strings. */
  function QueryDict(query: map<string, string>): (r: Dict)
    ensures r.Keys == query.Keys
    ensures forall k :: k in query ==> r[k] == JStr(query[k])
  {
    map k | k in query :: JStr(query[k])
  }

  /**
   * `query_params | body_dict`: an empty body counts as `{}`; text that is not JSON is a
   * 404; a JSON value that is not an object cannot be merged and raises.
   */
  function MergedRequest(query: map<string, string>, body: Body): (r: Result<Dict>)
    ensures body.Malformed? ==> r == Err(HttpError(404, "JSON request expected"))
    ensures body.Parsed? && !body.json.JObj? ==> r == Err(Raised("TypeError"))
    ensures r.Ok? <==> body.Empty? || (body.Parsed? && body.json.JObj?)
    ensures r.Ok? && body.Empty? ==> r.value == QueryDict(query)
    ensures r.Ok? && body.Parsed? ==> (r.value.Keys == query.Keys + body.json.fields.Keys
      && (forall k :: k in body.json.fields ==> r.value[k] == body.json.fields[k])
      && (forall k :: k in query && k !in body.json.fields ==> r.value[k] == JStr(query[k])))
  {
    match body
    case Empty => Ok(QueryDict(query))
    case Malformed => Err(HttpError(404, "JSON request expected"))
    case Parsed(j) => if j.JObj? then Ok(Update(QueryDict(query), j.fields)) else Err(Raised("TypeError"))
  }

  /** What the Bot API server did with the forwarded call. */
  datatype Upstream = Reply(status: int, answer: Option<Json>) | Unreachable

  /** The reply is logged only for status 200 with an object answer whose `ok` is truthy. */
  predicate Loggable(reply: Upstream)
  {
    reply.Reply? && reply.status == 200 && reply.answer.Some? && reply.answer.value.JObj?
    && Truthy(Get(reply.answer.value.fields, "ok"))
  }

  /** `json_response.get("result", {})` */
  function ResultOf(answer: Dict): (r: Json)
    ensures "result" in answer ==> r == answer["result"]
    ensures "result" !in answer ==> r == JObj(map[])
  {
    if "result" in answer then answer["result"] else JObj(map[])
  }

  /**
   * The logging part of `proxy_request`: a loggable reply goes through
   * `log_telegram_request` and is committed; any exception on that path is logged and
   * swallowed, and since nothing is committed the tables stay as they were.
   */
  method LogReply(db: Database, req: Dict, reply: Upstream, name: string, fetched: Dict,
                  decode: Json -> Decoded, botId: int)
    requires DecoderOk(decode)
    modifies db`tgUsers, db`tgChats, db`messages, db`files, db`botMessages, db`botFiles
    ensures !Loggable(reply) ==> db.Entities() == old(db.Entities())
    ensures Loggable(reply) ==>
      RouteCommitted(old(db.Entities()), req, ResultOf(reply.answer.value.fields), name, fetched, decode, botId, db.now, db.Entities())
  {
    if Loggable(reply) {
      var saved := db.Entities();
      var r := LogTelegramRequest(db, req, ResultOf(reply.answer.value.fields), name, fetched, decode, botId);
      ghost var logged := db.Entities();
      if r.Err? {
        db.SetEntities(saved);
      }
      CommittedOfLogged(saved, req, ResultOf(reply.answer.value.fields), name, fetched, decode, botId, db.now, r, logged);
    }
  }

  /**
   * `proxy_request`: the token is checked first, then the body is merged with the query;
   * the upstream reply is passed back unchanged (502 when the server cannot be reached),
   * and only a loggable reply can change the tables. The method name loses trailing "/".
   */
  method ProxyRequest(db: Database, token: string, name: string, query: map<string, string>, body: Body,
                      reply: Upstream, fetched: Dict, decode: Json -> Decoded) returns (r: Result<Upstream>)
    requires DecoderOk(decode)
    modifies db`tgUsers, db`tgChats, db`messages, db`files, db`botMessages, db`botFiles
    ensures var bot := VerifyToken(old(db.bots), token);
      var merged := MergedRequest(query, body);
      (bot.Err? ==> r == Err(bot.error))
      && (bot.Ok? && merged.Err? ==> r == Err(merged.error))
      && (bot.Ok? && merged.Ok? && reply.Unreachable? ==> r == Err(HttpError(502, "Failed to reach Telegram API")))
      && (bot.Ok? && merged.Ok? && reply.Reply? ==> r == Ok(reply))
    ensures !Loggable(reply) || r.Err? ==> db.Entities() == old(db.Entities())
    ensures r.Ok? && Loggable(reply) ==>
      RouteCommitted(old(db.Entities()), MergedRequest(query, body).value, ResultOf(reply.answer.value.fields),
                     RStripChar(name, '/'), fetched, decode, VerifyToken(old(db.bots), token).value, db.now, db.Entities())
  {
    var bot := VerifyToken(db.bots, token);
    if bot.Err? {
      return Err(bot.error);
    }
    var stripped := RStripChar(name, '/');
    var merged := MergedRequest(query, body);
    if merged.Err? {
      return Err(merged.error);
    }
    if reply.Unreachable? {
      return Err(HttpError(502, "Failed to reach Telegram API"));
    }
    LogReply(db, merged.value, reply, stripped, fetched, decode, bot.value);
    r := Ok(reply);
  }
}
