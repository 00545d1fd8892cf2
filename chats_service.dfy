// app/services/telegram/chats.py: the `bots` query parameter, the bot-access check and
// the dictionary form of a message served to the account holder.

module ChatsService {

  import opened Wrappers
  import opened Json
  import opened Text
  import opened MessageModel
  import opened Db
  import opened Utils

  const BAD_BOT_PARAM: Error := HttpError(400, "Invalid bot parameter; must be comma-separated integers")
  const NO_BOT_ACCESS: Error := HttpError(403, "Forbidden: you don't have access to one or more requested bots")

  /** A piece that is not blank after stripping. */
  predicate Listed(piece: string)
  {
    Strip(piece) != ""
  }

  /**
   * `{int(x.strip()) for x in pieces if x.strip()}`: the integers of the non-blank pieces;
   * any non-blank piece that is not an integer raises, which is answered with 400.
   */
  function ParseIds(pieces: seq<string>): (r: Result<set<int>>)
    ensures r.Ok? <==> forall i :: 0 <= i < |pieces| && Listed(pieces[i]) ==> ParseInt(Strip(pieces[i])).Some?
    ensures r.Ok? ==> forall n :: n in r.value <==>
      exists i :: 0 <= i < |pieces| && Listed(pieces[i]) && ParseInt(Strip(pieces[i])) == Some(n)
    ensures r.Err? ==> r.error == BAD_BOT_PARAM
  {
    if forall i :: 0 <= i < |pieces| && Listed(pieces[i]) ==> ParseInt(Strip(pieces[i])).Some? then
      Ok(set i | 0 <= i < |pieces| && Listed(pieces[i]) :: ParseInt(Strip(pieces[i])).value)
    else Err(BAD_BOT_PARAM)
  }

  /** `parse_bot_param`: no filter for a missing or empty parameter, else the set of ids. */
  function ParseBotParam(bot: Option<string>): (r: Result<Option<set<int>>>)
    ensures bot.None? || bot.value == "" ==> r == Ok(None)
    ensures bot.Some? && bot.value != "" ==> (r.Ok? <==> ParseIds(Split(bot.value, ',')).Ok?)
    ensures r.Ok? && r.value.Some? ==> bot.Some? && r.value.value == ParseIds(Split(bot.value, ',')).value
    ensures r.Err? ==> r.error == BAD_BOT_PARAM
  {
    if bot.None? || bot.value == "" then Ok(None)
    else
      var ids :- ParseIds(Split(bot.value, ','));
      Ok(Some(ids))
  }

  /** A string with no `sep` splits into itself. */
  lemma {:induction false} SplitWhole(a: string, sep: char)
    requires sep !in a
    ensures Split(a, sep) == [a]
  {
    if a != [] {
      SplitWhole(a[1..], sep);
      assert a[0] != sep;
      assert [a[0]] + a[1..] == a;
    }
  }

  /** Splitting at the first separator peels off the piece before it. */
  lemma {:induction false} SplitFirst(a: string, sep: char, b: string)
    requires sep !in a
    ensures Split(a + [sep] + b, sep) == [a] + Split(b, sep)
  {
    if a == [] {
      assert a + [sep] + b == [sep] + b;
      assert ([sep] + b)[1..] == b;
    } else {
      SplitFirst(a[1..], sep, b);
      assert (a + [sep] + b)[1..] == a[1..] + [sep] + b;
      assert [a[0]] + a[1..] == a;
    }
  }

  /** Joining pieces that hold no separator and splitting again gives the pieces back. */
  lemma {:induction false} SplitOfJoin(pieces: seq<string>, sep: char)
    requires |pieces| >= 1 && forall i :: 0 <= i < |pieces| ==> sep !in pieces[i]
    ensures Split(Join(pieces, sep), sep) == pieces
  {
    if |pieces| == 1 {
      SplitWhole(pieces[0], sep);
    } else {
      SplitOfJoin(pieces[1..], sep);
      SplitFirst(pieces[0], sep, Join(pieces[1..], sep));
    }
  }

  /** The decimal spellings of some ids. */
  function Spelled(ids: seq<int>): (r: seq<string>)
    ensures |r| == |ids| && forall i :: 0 <= i < |ids| ==> r[i] == IntToString(ids[i])
  {
    seq(|ids|, i requires 0 <= i < |ids| => IntToString(ids[i]))
  }

  /** Decimal spellings hold neither commas nor padding, and parse back. */
  lemma SpelledPieces(ids: seq<int>)
    ensures forall i :: 0 <= i < |ids| ==> ',' !in Spelled(ids)[i]
    ensures forall i :: 0 <= i < |ids| ==> Listed(Spelled(ids)[i]) && ParseInt(Strip(Spelled(ids)[i])) == Some(ids[i])
  {
    forall i | 0 <= i < |ids|
      ensures ',' !in Spelled(ids)[i]
      ensures Listed(Spelled(ids)[i]) && ParseInt(Strip(Spelled(ids)[i])) == Some(ids[i])
    {
      var s := IntToString(ids[i]);
      forall j | 0 <= j < |s| ensures s[j] != ',' && !IsSpace(s[j]) {
        if ids[i] < 0 && j > 0 {
          assert s[1..][j - 1] == s[j];
        }
      }
      StripOfUnpadded(s);
      ParseIntToString(ids[i]);
    }
  }

  /** The ids written comma-separated are read back as the set of those ids. */
  lemma ParseBotParamRoundTrip(ids: seq<int>)
    requires |ids| >= 1
    ensures ParseBotParam(Some(Join(Spelled(ids), ','))) == Ok(Some(set i | i in ids))
  {
    var pieces := Spelled(ids);
    SpelledPieces(ids);
    SplitOfJoin(pieces, ',');
    ReadBack(pieces, ids);
  }

  /** Pieces that each read as the id at their position read back as the set of the ids. */
  lemma ReadBack(pieces: seq<string>, ids: seq<int>)
    requires |pieces| == |ids|
    requires forall i :: 0 <= i < |ids| ==> Listed(pieces[i]) && ParseInt(Strip(pieces[i])) == Some(ids[i])
    ensures ParseIds(pieces) == Ok(set i | i in ids)
  {
    ReadBackOnly(pieces, ids);
    ReadBackAll(pieces, ids);
    var written := set i | i in ids;
    SameMembers(ParseIds(pieces).value, written, ids);
  }

  /** Two sets with the same members as a sequence are equal. */
  lemma SameMembers(a: set<int>, b: set<int>, ids: seq<int>)
    requires forall n :: n in a ==> n in ids
    requires forall n :: n in ids ==> n in a
    requires forall n :: n in b <==> n in ids
    ensures a == b
  {
    assert forall n :: n in a <==> n in b;
  }

  lemma ReadBackOnly(pieces: seq<string>, ids: seq<int>)
    requires |pieces| == |ids|
    requires forall i :: 0 <= i < |ids| ==> Listed(pieces[i]) && ParseInt(Strip(pieces[i])) == Some(ids[i])
    ensures ParseIds(pieces).Ok? && forall n :: n in ParseIds(pieces).value ==> n in ids
  {
    var read := ParseIds(pieces).value;
    forall n | n in read ensures n in ids {
      var i :| 0 <= i < |pieces| && Listed(pieces[i]) && ParseInt(Strip(pieces[i])) == Some(n);
      assert ids[i] == n;
    }
  }

  lemma ReadBackAll(pieces: seq<string>, ids: seq<int>)
    requires |pieces| == |ids|
    requires forall i :: 0 <= i < |ids| ==> Listed(pieces[i]) && ParseInt(Strip(pieces[i])) == Some(ids[i])
    ensures ParseIds(pieces).Ok? && forall n :: n in ids ==> n in ParseIds(pieces).value
  {
    var read := ParseIds(pieces).value;
    forall n | n in ids ensures n in read {
      var i :| 0 <= i < |ids| && ids[i] == n;
      assert Listed(pieces[i]) && ParseInt(Strip(pieces[i])) == Some(n);
    }
  }

  /** The requested bots the account is linked to (the `count(distinct bot_id)` query). */
  function LinkedAmong(userBots: map<UserBotKey, UserBotRow>, userId: int, requested: set<int>): (r: set<int>)
    ensures r <= requested
    ensures forall b :: b in r <==> b in requested && UserBotKey(userId, b) in userBots
  {
    set b | b in requested && UserBotKey(userId, b) in userBots
  }

  /**
   * `check_bot_access`: nothing to check without requested bots or for an admin; otherwise
   * the number of linked requested bots must be the number requested, else 403.
   */
  function CheckBotAccess(userBots: map<UserBotKey, UserBotRow>, userId: int, requested: Option<set<int>>,
                          isAdmin: bool): (r: Result<()>)
    ensures r.Err? ==> r == Err(NO_BOT_ACCESS) && requested.Some? && requested.value != {} && !isAdmin
  {
    if requested.None? || requested.value == {} || isAdmin then Ok(())
    else if |LinkedAmong(userBots, userId, requested.value)| != |requested.value| then Err(NO_BOT_ACCESS)
    else Ok(())
  }

  /** A subset with as many elements as the whole set is the whole set. */
  lemma SameSizeSubset<T>(a: set<T>, b: set<T>)
    requires a <= b && |a| == |b|
    ensures a == b
  {
    if a != b {
      var x :| x in b && x !in a;
      assert a <= b - {x};
      assert |a| <= |b - {x}| by {
        SubsetSize(a, b - {x});
      }
    }
  }

  /** The count comparison means: every requested bot is linked to the account. */
  lemma CheckBotAccessMeans(userBots: map<UserBotKey, UserBotRow>, userId: int, requested: Option<set<int>>, isAdmin: bool)
    ensures CheckBotAccess(userBots, userId, requested, isAdmin).Ok? <==>
      requested.None? || isAdmin || forall b :: b in requested.value ==> UserBotKey(userId, b) in userBots
    ensures CheckBotAccess(userBots, userId, requested, isAdmin).Err? ==>
      CheckBotAccess(userBots, userId, requested, isAdmin).error == NO_BOT_ACCESS
  {
    if requested.Some? && !isAdmin {
      var linked := LinkedAmong(userBots, userId, requested.value);
      if |linked| == |requested.value| {
        SameSizeSubset(linked, requested.value);
      }
      if forall b :: b in requested.value ==> UserBotKey(userId, b) in userBots {
        assert linked == requested.value;
      }
    }
  }

  /**
   * `serialize_message`: the stored message's dictionary without "chat", with the loaded
   * sender user, sender chat and business bot put in place of the stubs when they are loaded.
   */
  function SerializeMessage(d: Dict, fromUser: Option<Dict>, senderChat: Option<Dict>, senderBot: Option<Dict>): (r: Dict)
    ensures "chat" !in r
    ensures fromUser.Some? ==> "from" in r && r["from"] == JObj(fromUser.value)
    ensures senderChat.Some? ==> "sender_chat" in r && r["sender_chat"] == JObj(senderChat.value)
    ensures senderBot.Some? ==> "sender_business_bot" in r && r["sender_business_bot"] == JObj(senderBot.value)
    ensures forall k :: k in d && k !in {"chat", "from", "sender_chat", "sender_business_bot"} ==> k in r && r[k] == d[k]
    ensures r.Keys == (d.Keys - {"chat"})
      + (if fromUser.Some? then {"from"} else {})
      + (if senderChat.Some? then {"sender_chat"} else {})
      + (if senderBot.Some? then {"sender_business_bot"} else {})
    ensures fromUser.None? && "from" in d ==> r["from"] == d["from"]
  {
    var data := d - {"chat"};
    var data := if fromUser.Some? then data["from" := JObj(fromUser.value)] else data;
    var data := if senderChat.Some? then data["sender_chat" := JObj(senderChat.value)] else data;
    if senderBot.Some? then data["sender_business_bot" := JObj(senderBot.value)] else data
  }
}
