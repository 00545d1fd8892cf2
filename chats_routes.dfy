// app/routes/telegram/chats.py: page arithmetic, the per-chat read-mark map, the cursor
// listing of a chat's messages, and the read-mark upsert and delete.

module ChatsRoutes {

  import opened Wrappers
  import opened Json
  import opened Text
  import opened MessageModel
  import opened Db
  import opened Utils

  const NOT_ACCESSIBLE: Error := HttpError(404, "Chat not found or no accessible messages")

  // --- page arithmetic -------------------------------------------------------------------

  /** The rows skipped before page `page` (pages count from 1). */
  function PageOffset(page: int, size: int): (r: int)
    requires page >= 1 && size >= 1
    ensures r >= 0
  {
    (page - 1) * size
  }

  /** `(total + size - 1) // size`, the number of pages. */
  function PageCount(total: nat, size: int): (r: nat)
    requires size >= 1
    ensures r == 0 <==> total == 0
  {
    (total + size - 1) / size
  }

  /** The page count is the ceiling of total / size: the last page is not empty and holds the last row. */
  lemma PageCountCeil(total: nat, size: int)
    requires size >= 1
    ensures total == 0 ==> PageCount(total, size) == 0
    ensures total > 0 ==> (PageCount(total, size) - 1) * size < total <= PageCount(total, size) * size
  {
    var p := PageCount(total, size);
    var q := total + size - 1;
    assert q == p * size + q % size;
  }

  /** A page within the count starts at a row that exists. */
  lemma PageStartsInside(total: nat, page: int, size: int)
    requires size >= 1 && 1 <= page <= PageCount(total, size)
    ensures PageOffset(page, size) < total
  {
    PageCountCeil(total, size);
    assert (page - 1) * size <= (PageCount(total, size) - 1) * size;
  }

  // --- read marks per chat -----------------------------------------------------------------

  /** One row of the outer join with read_messages: the chat, and the mark's thread and message if any. */
  datatype ReadRow = ReadRow(chatId: int, threadId: Option<int>, messageId: Option<int>)

  /** `{"message_thread_id": thread_id, "message_id": msg_id}` */
  function MarkEntry(row: ReadRow): (r: Json)
    requires row.threadId.Some?
  {
    JObj(map["message_thread_id" := JInt(row.threadId.value), "message_id" := OptIntJson(row.messageId)])
  }

  /** The marks of one chat among the rows, in row order, skipping rows with no thread. */
  function MarksOf(rows: seq<ReadRow>, chat: int): (r: seq<Json>)
    ensures |r| <= |rows|
  {
    if rows == [] then []
    else
      var last := rows[|rows| - 1];
      MarksOf(rows[..|rows| - 1], chat) + (if last.chatId == chat && last.threadId.Some? then [MarkEntry(last)] else [])
  }

  /** A chat has marks exactly when one of its rows has a thread. */
  lemma {:induction false} MarksOfEmpty(rows: seq<ReadRow>, chat: int)
    ensures MarksOf(rows, chat) == [] <==> forall i :: 0 <= i < |rows| && rows[i].chatId == chat ==> rows[i].threadId.None?
  {
    if rows != [] {
      var init := rows[..|rows| - 1];
      MarksOfEmpty(init, chat);
      assert forall i :: 0 <= i < |init| ==> init[i] == rows[i];
    }
  }

  /** `chat_read_map.get(chat.id, [])`: the marks listed for a chat. */
  function MarksFor(m: map<int, seq<Json>>, chat: int): seq<Json>
  {
    if chat in m then m[chat] else []
  }

  /**
   * The `defaultdict(list)` filled by the loop: every chat maps to its marks in row order,
   * and only chats with at least one mark get an entry.
   */
  method GroupReadMarks(rows: seq<ReadRow>) returns (m: map<int, seq<Json>>)
    ensures forall c :: MarksFor(m, c) == MarksOf(rows, c)
    ensures forall c :: c in m ==> m[c] != []
  {
    m := map[];
    var i := 0;
    while i < |rows|
      invariant 0 <= i <= |rows|
      invariant forall c :: MarksFor(m, c) == MarksOf(rows[..i], c)
      invariant forall c :: c in m ==> m[c] != []
    {
      var row := rows[i];
      assert rows[..i + 1][..i] == rows[..i];
      if row.threadId.Some? {
        m := m[row.chatId := MarksFor(m, row.chatId) + [MarkEntry(row)]];
      }
      i := i + 1;
    }
    assert rows[..i] == rows;
  }

  // --- the accessible messages of a chat ----------------------------------------------------

  /** Which bots' messages a listing may show. */
  datatype BotFilter = AnyBot | LinkedTo(userId: int) | Among(bots: set<int>)

  predicate Passes(userBots: map<UserBotKey, UserBotRow>, filter: BotFilter, botId: int)
  {
    match filter
    case AnyBot => true
    case LinkedTo(u) => UserBotKey(u, botId) in userBots
    case Among(bots) => botId in bots
  }

  /** The filter of the listings: requested bots if any, else the caller's bots unless admin. */
  function ListingFilter(userId: int, isAdmin: bool, requested: Option<set<int>>): (r: BotFilter)
    ensures requested.Some? && requested.value != {} ==> r == Among(requested.value)
    ensures (requested.None? || requested.value == {}) ==> r == (if isAdmin then AnyBot else LinkedTo(userId))
  {
    if requested.Some? && requested.value != {} then Among(requested.value)
    else if !isAdmin then LinkedTo(userId)
    else AnyBot
  }

  /** `coalesce(message_thread_id, 1)` */
  function ThreadOrOne(m: MessageRow): int
  {
    if m.threadId.JInt? then m.threadId.i else 1
  }

  /** The stored messages of a chat that some passing bot recorded, of the given thread when one is named. */
  function ChatMessageIds(db: Database, chat: int, filter: BotFilter, thread: Option<int>): (r: set<int>)
    reads db
    ensures forall id :: id in r ==> MsgKey(chat, id) in db.messages
  {
    set k | k in db.botMessages && k.msg.chatId == chat && k.msg in db.messages
      && Passes(db.userBots, filter, k.botId)
      && (thread.None? || ThreadOrOne(db.messages[k.msg]) == thread.value) :: k.msg.id
  }

  // --- cursor listing -------------------------------------------------------------------------

  /**
   * The ids the cursor query selects: the chat's accessible messages, of the thread when a
   * truthy thread id is given, below the cursor when a truthy cursor is given.
   */
  function CursorCandidates(db: Database, chat: int, filter: BotFilter, thread: Option<int>, before: Option<int>): (r: set<int>)
    reads db
    ensures forall id :: id in r ==> before.None? || before.value == 0 || id < before.value
  {
    set k | k in db.botMessages && k.msg.chatId == chat && k.msg in db.messages
      && Passes(db.userBots, filter, k.botId)
      && (thread.None? || thread.value == 0 || db.messages[k.msg].threadId == JInt(thread.value))
      && (before.None? || before.value == 0 || k.msg.id < before.value) :: k.msg.id
  }

  /** A strictly decreasing sequence. */
  predicate Descending(s: seq<int>)
  {
    forall i, j :: 0 <= i < j < |s| ==> s[i] > s[j]
  }

  /** `ORDER BY id DESC LIMIT n` over distinct candidates (the corrected listing): the n largest, largest first. */
  predicate TopDescending(fetched: seq<int>, candidates: set<int>, n: nat)
  {
    Descending(fetched) && (forall i :: 0 <= i < |fetched| ==> fetched[i] in candidates)
    && |fetched| == (if |candidates| < n then |candidates| else n)
    && (forall x :: x in candidates && x !in fetched ==> |fetched| > 0 && x < fetched[|fetched| - 1])
  }

  /** The answer of the cursor listing (items as message ids). */
  datatype CursorPage = CursorPage(items: seq<int>, nextCursor: Option<int>, hasMore: bool)

  /**
   * The post-processing of the `limit + 1` rows fetched: none is a 404; there are more
   * exactly when more than `limit` came back, the items are then cut to `limit`, and the
   * next cursor is the last item's id.
   */
  function PageOfFetched(fetched: seq<int>, limit: nat): (r: Result<CursorPage>)
    ensures r.Err? <==> fetched == []
    ensures r.Err? ==> r.error == NOT_ACCESSIBLE
    ensures r.Ok? ==> (r.value.hasMore <==> |fetched| > limit)
    ensures r.Ok? ==> |r.value.items| <= |fetched| && r.value.items == fetched[..|r.value.items|]
    ensures r.Ok? && r.value.hasMore ==> |r.value.items| == limit
    ensures r.Ok? && !r.value.hasMore ==> r.value.items == fetched && r.value.nextCursor.None?
    ensures r.Ok? && r.value.hasMore && limit > 0 ==> r.value.nextCursor == Some(fetched[limit - 1])
  {
    if fetched == [] then Err(NOT_ACCESSIBLE)
    else
      var hasMore := |fetched| > limit;
      var items := if hasMore then fetched[..limit] else fetched;
      Ok(CursorPage(items, if hasMore && items != [] then Some(items[|items| - 1]) else None, hasMore))
  }

  /**
   * Over the `limit + 1` largest candidates, the listing answers a page exactly when some
   * message is accessible, and says there are more exactly when more than `limit` are.
   */
  lemma CursorPageBounded(fetched: seq<int>, candidates: set<int>, limit: nat)
    requires TopDescending(fetched, candidates, limit + 1)
    ensures PageOfFetched(fetched, limit).Ok? <==> candidates != {}
    ensures PageOfFetched(fetched, limit).Ok? ==> (PageOfFetched(fetched, limit).value.hasMore <==> |candidates| > limit)
  {
  }

  /**
   * A page with more to come splits the candidates: every item is at least the next
   * cursor, and every candidate that is not an item lies strictly below it, so following
   * the cursor neither repeats nor skips a message.
   */
  lemma CursorPagesSplit(fetched: seq<int>, candidates: set<int>, limit: nat)
    requires limit >= 1 && TopDescending(fetched, candidates, limit + 1)
    requires PageOfFetched(fetched, limit).Ok? && PageOfFetched(fetched, limit).value.hasMore
    ensures var p := PageOfFetched(fetched, limit).value;
      p.nextCursor.Some?
      && (forall i :: 0 <= i < |p.items| ==> p.items[i] >= p.nextCursor.value)
      && (forall x :: x in candidates ==> (x in p.items || x < p.nextCursor.value))
  {
    var p := PageOfFetched(fetched, limit).value;
    var c := fetched[limit - 1];
    assert forall j :: 0 <= j < limit ==> fetched[j] in p.items;
    forall x | x in candidates && x !in p.items ensures x < c {
      if x in fetched {
        var j :| 0 <= j < |fetched| && fetched[j] == x;
        assert fetched[limit - 1] > fetched[j];
      }
    }
  }

  /** Following a truthy cursor selects exactly the earlier candidates below it. */
  lemma CursorNarrows(db: Database, chat: int, filter: BotFilter, thread: Option<int>, c: int)
    requires c != 0
    ensures CursorCandidates(db, chat, filter, thread, Some(c))
      == set x | x in CursorCandidates(db, chat, filter, thread, None) && x < c
  {
  }

  /**
   * The rows the cursor query as written returns before its limit: it selects messages joined with
   * `bot_messages` and does not make them unique, so there is one row per recording bot that passes.
   */
  function CursorRows(db: Database, chat: int, filter: BotFilter, thread: Option<int>, before: Option<int>)
    : (r: set<BotMessageKey>)
    reads db
    ensures forall k :: k in r ==> k in db.botMessages && k.msg.id in CursorCandidates(db, chat, filter, thread, before)
  {
    set k | k in db.botMessages && k.msg.chatId == chat && k.msg in db.messages
      && Passes(db.userBots, filter, k.botId)
      && (thread.None? || thread.value == 0 || db.messages[k.msg].threadId == JInt(thread.value))
      && (before.None? || before.value == 0 || k.msg.id < before.value)
  }

  /** The candidates are exactly the message ids of the joined rows. */
  lemma CandidatesOfRows(db: Database, chat: int, filter: BotFilter, thread: Option<int>, before: Option<int>)
    ensures CursorCandidates(db, chat, filter, thread, before)
      == set k | k in CursorRows(db, chat, filter, thread, before) :: k.msg.id
  {
  }

  /** The message ids of a sequence of joined rows. */
  function RowIds(rows: seq<BotMessageKey>): (r: seq<int>)
    ensures |r| == |rows| && forall i :: 0 <= i < |rows| ==> r[i] == rows[i].msg.id
  {
    seq(|rows|, i requires 0 <= i < |rows| => rows[i].msg.id)
  }

  /** `ORDER BY id DESC LIMIT n` over joined rows: n distinct rows of the largest ids, ties in any order. */
  predicate TopRows(fetched: seq<BotMessageKey>, rows: set<BotMessageKey>, n: nat)
  {
    (forall i, j :: 0 <= i < j < |fetched| ==> fetched[i].msg.id >= fetched[j].msg.id && fetched[i] != fetched[j])
    && (forall i :: 0 <= i < |fetched| ==> fetched[i] in rows)
    && |fetched| == (if |rows| < n then |rows| else n)
    && (forall k :: k in rows && k !in fetched ==> |fetched| > 0 && k.msg.id <= fetched[|fetched| - 1].msg.id)
  }

  /**
   * As written, one message recorded by two passing bots fills a page of `limit = 1` twice over: the
   * listing reports more messages and a cursor at that message, though it is the only one, and the
   * page that cursor leads to has no row at all (a 404).
   */
  lemma RepeatedRowsAsWritten(fetched: seq<BotMessageKey>, a: BotMessageKey, b: BotMessageKey)
    requires a != b && a.msg.id == b.msg.id && TopRows(fetched, {a, b}, 2)
    ensures (set k | k in {a, b} :: k.msg.id) == {a.msg.id}
    ensures PageOfFetched(RowIds(fetched), 1) == Ok(CursorPage([a.msg.id], Some(a.msg.id), true))
    ensures forall k :: k in {a, b} ==> !(k.msg.id < a.msg.id)
  {
    assert |{a, b}| == 2;
    assert fetched[0] in {a, b} && fetched[1] in {a, b};
    var ids := RowIds(fetched);
    assert ids == [a.msg.id, a.msg.id];
    assert ids[..1] == [a.msg.id];
  }

  // --- read-mark upsert and delete -------------------------------------------------------------

  /** `body.message_thread_id or 1`: a missing or zero thread is the general thread 1. */
  function ThreadOrDefault(thread: Option<int>): (r: int)
    ensures thread.Some? && thread.value != 0 ==> r == thread.value
    ensures thread.None? || thread.value == 0 ==> r == 1
  {
    if thread.Some? && thread.value != 0 then thread.value else 1
  }

  /** The largest element of a non-empty set of ids (SQL `max`). */
  ghost function SetMax(s: set<int>): (m: int)
    requires s != {}
    ensures m in s && forall y :: y in s ==> y <= m
  {
    var x := Elem(s);
    if s == {x} then x
    else
      var rest := SetMax(s - {x});
      assert forall y :: y in s ==> y == x || y in s - {x};
      if x > rest then x else rest
  }

  /** The maximum, computed by visiting the set once. */
  method MaxId(s: set<int>) returns (m: Option<int>)
    ensures s == {} ==> m.None?
    ensures s != {} ==> m == Some(SetMax(s))
  {
    if s == {} {
      return None;
    }
    var x := Choose(s);
    var top := x;
    var rest := s - {x};
    while rest != {}
      decreases |rest|
      invariant rest <= s
      invariant top in s && forall y :: y in s && y !in rest ==> y <= top
    {
      var y := Choose(rest);
      if y > top {
        top := y;
      }
      rest := rest - {y};
    }
    assert SetMax(s) <= top && top <= SetMax(s);
    m := Some(top);
  }

  /**
   * What `mark_chat_read` writes, given the accessible ids of the chat's thread: 404 with
   * no (truthy) last id; the target is the given message id or the last one; a target past
   * the last id is a 400; otherwise the mark of (user, chat, thread) is set to the target.
   */
  ghost function MarkSpec(marks: map<ReadKey, int>, ids: set<int>, userId: int, chat: int, thread: int,
                          message: Option<int>): (r: Result<map<ReadKey, int>>)
    ensures r.Ok? ==> ids != {} && r.value.Keys == marks.Keys + {ReadKey(userId, chat, thread)}
    ensures r.Ok? ==> forall k :: k in marks && k != ReadKey(userId, chat, thread) ==> r.value[k] == marks[k]
    ensures r.Ok? ==> r.value[ReadKey(userId, chat, thread)] <= SetMax(ids)
    ensures r.Ok? && message.None? ==> r.value[ReadKey(userId, chat, thread)] == SetMax(ids)
    ensures r.Ok? && message.Some? ==> r.value[ReadKey(userId, chat, thread)] == message.value
    ensures ids == {} ==> r == Err(NOT_ACCESSIBLE)
    ensures ids != {} && SetMax(ids) != 0 && message.Some? && message.value > SetMax(ids) ==>
      r == Err(HttpError(400, "message_id " + IntToString(message.value) + " is greater than last message id " + IntToString(SetMax(ids))))
  {
    if ids == {} || SetMax(ids) == 0 then Err(NOT_ACCESSIBLE)
    else
      var last := SetMax(ids);
      var target := if message.Some? then message.value else last;
      if target > last then
        Err(HttpError(400, "message_id " + IntToString(target) + " is greater than last message id " + IntToString(last)))
      else Ok(marks[ReadKey(userId, chat, thread) := target])
  }

  /** Marking one thread leaves the marks of every other thread, chat and account as they were. */
  lemma MarkKeepsOtherThreads(marks: map<ReadKey, int>, ids: set<int>, userId: int, chat: int, thread: int,
                              message: Option<int>, other: int)
    requires other != thread && ReadKey(userId, chat, other) in marks
    requires MarkSpec(marks, ids, userId, chat, thread, message).Ok?
    ensures MarkSpec(marks, ids, userId, chat, thread, message).value[ReadKey(userId, chat, other)]
      == marks[ReadKey(userId, chat, other)]
  {
  }

  /** Marking the same message twice is the same as marking it once. */
  lemma MarkIdempotent(marks: map<ReadKey, int>, ids: set<int>, userId: int, chat: int, thread: int, message: Option<int>)
    requires MarkSpec(marks, ids, userId, chat, thread, message).Ok?
    ensures var once := MarkSpec(marks, ids, userId, chat, thread, message).value;
      MarkSpec(once, ids, userId, chat, thread, message) == Ok(once)
  {
    var once := MarkSpec(marks, ids, userId, chat, thread, message).value;
    assert once[ReadKey(userId, chat, thread) := once[ReadKey(userId, chat, thread)]] == once;
  }

  /** `mark_chat_read` on the database, with a read-mark key that includes the thread. */
  method MarkChatRead(db: Database, userId: int, isAdmin: bool, chat: int, thread: Option<int>, message: Option<int>)
    returns (r: Result<()>)
    modifies db`readMarks
    ensures var t := ThreadOrDefault(thread);
      var spec := MarkSpec(old(db.readMarks), ChatMessageIds(db, chat, if isAdmin then AnyBot else LinkedTo(userId), Some(t)),
        userId, chat, t, message);
      (spec.Ok? ==> r == Ok(()) && db.readMarks == spec.value)
      && (spec.Err? ==> r == Err(spec.error) && db.readMarks == old(db.readMarks))
  {
    var t := ThreadOrDefault(thread);
    var ids := ChatMessageIds(db, chat, if isAdmin then AnyBot else LinkedTo(userId), Some(t));
    var last := MaxId(ids);
    if last.None? || last.value == 0 {
      return Err(NOT_ACCESSIBLE);
    }
    var target := if message.Some? then message.value else last.value;
    if target > last.value {
      return Err(HttpError(400, "message_id " + IntToString(target) + " is greater than last message id " + IntToString(last.value)));
    }
    db.readMarks := db.readMarks[ReadKey(userId, chat, t) := target];
    r := Ok(());
  }

  /** The marks that survive deleting the caller's marks of a chat, or of one thread of it. */
  function MarksAfterDelete(marks: map<ReadKey, int>, userId: int, chat: int, thread: Option<int>): (r: map<ReadKey, int>)
    ensures forall k :: k in r <==> k in marks && !(k.userId == userId && k.chatId == chat && (thread.None? || k.threadId == thread.value))
    ensures forall k :: k in r ==> r[k] == marks[k]
  {
    map k | k in marks && !(k.userId == userId && k.chatId == chat && (thread.None? || k.threadId == thread.value)) :: marks[k]
  }

  /** `delete_chat_read_marks`: 404 with no accessible message in the chat, else the delete. */
  method DeleteChatReadMarks(db: Database, userId: int, isAdmin: bool, chat: int, thread: Option<int>) returns (r: Result<()>)
    modifies db`readMarks
    ensures ChatMessageIds(db, chat, if isAdmin then AnyBot else LinkedTo(userId), None) == {} ==>
      r == Err(NOT_ACCESSIBLE) && db.readMarks == old(db.readMarks)
    ensures ChatMessageIds(db, chat, if isAdmin then AnyBot else LinkedTo(userId), None) != {} ==>
      r == Ok(()) && db.readMarks == MarksAfterDelete(old(db.readMarks), userId, chat, thread)
  {
    var ids := ChatMessageIds(db, chat, if isAdmin then AnyBot else LinkedTo(userId), None);
    if ids == {} {
      return Err(NOT_ACCESSIBLE);
    }
    db.readMarks := MarksAfterDelete(db.readMarks, userId, chat, thread);
    r := Ok(());
  }

  /** Deleting all of a chat's marks also removes every single thread's mark; other chats keep theirs. */
  lemma DeleteAllCoversThreads(marks: map<ReadKey, int>, userId: int, chat: int, thread: int)
    ensures MarksAfterDelete(MarksAfterDelete(marks, userId, chat, Some(thread)), userId, chat, None)
      == MarksAfterDelete(marks, userId, chat, None)
  {
  }

  // --- the read_messages table as declared ------------------------------------------------------

  /** The declared primary key of read_messages: (user_id, chat_id); the thread is a plain column. */
  datatype DeclaredKey = DeclaredKey(userId: int, chatId: int)

  datatype DeclaredRow = DeclaredRow(threadId: int, messageId: int)

  /**
   * The upsert of `mark_chat_read` against the table as declared: an existing row for
   * (user, chat, thread) is updated; otherwise a row is inserted, which clashes with the
   * primary key when the account already marked another thread of the chat.
   */
  function MarkAsDeclared(rows: map<DeclaredKey, DeclaredRow>, userId: int, chat: int, thread: int, target: int)
    : (r: Result<map<DeclaredKey, DeclaredRow>>)
    ensures r.Err? <==> DeclaredKey(userId, chat) in rows && rows[DeclaredKey(userId, chat)].threadId != thread
    ensures r.Ok? ==>
      r.value.Keys == rows.Keys + {DeclaredKey(userId, chat)}
      && r.value[DeclaredKey(userId, chat)] == DeclaredRow(thread, target)
      && forall k :: k in rows && k != DeclaredKey(userId, chat) ==> r.value[k] == rows[k]
  {
    var key := DeclaredKey(userId, chat);
    if key in rows && rows[key].threadId == thread then Ok(rows[key := DeclaredRow(thread, target)])
    else if key in rows then Err(Raised("IntegrityError"))
    else Ok(rows[key := DeclaredRow(thread, target)])
  }

  /** A second thread of the same chat can never be marked against the declared key. */
  lemma MarkAsDeclaredSecondThread(rows: map<DeclaredKey, DeclaredRow>, userId: int, chat: int, t1: int, t2: int, m1: int, m2: int)
    requires t1 != t2
    ensures var first := MarkAsDeclared(rows, userId, chat, t1, m1);
      first.Ok? ==> MarkAsDeclared(first.value, userId, chat, t2, m2) == Err(Raised("IntegrityError"))
  {
  }

  /** With the thread in the key, marking a second thread succeeds and keeps the first mark. */
  lemma MarkSecondThread(marks: map<ReadKey, int>, ids: set<int>, userId: int, chat: int, t1: int, t2: int, m1: int, m2: int)
    requires t1 != t2 && ids != {} && SetMax(ids) != 0 && m1 <= SetMax(ids) && m2 <= SetMax(ids)
    ensures var first := MarkSpec(marks, ids, userId, chat, t1, Some(m1));
      first.Ok? && MarkSpec(first.value, ids, userId, chat, t2, Some(m2)).Ok?
      && MarkSpec(first.value, ids, userId, chat, t2, Some(m2)).value[ReadKey(userId, chat, t1)] == m1
  {
  }
}
