// app/schemas/telegram/bot.py: the validators of the bot-token, bot-member and webhook
// request bodies. `HttpUrl` and `EmailStr` are the `urlOf` and `emailOf` parameters, each the
// library's check giving the value in its normal form (for a URL: scheme and host lower-cased,
// an empty path written "/"), or None for an invalid one; the bodies keep the normal forms. The
// set of update types the Bot API library knows is the `allTypes` parameter.

module BotSchemas {

  import opened Wrappers
  import opened Text
  import opened Enums
  import opened Db
  import opened Utils
  import opened Constants
  import opened Pydantic
  import opened AuthSchemas

  const INVALID_TOKEN_FORMAT: string := "Invalid Telegram bot token format"

  // --- BotTokenRequest ----------------------------------------------------------------------------------

  /**
   * `BotTokenRequest` as written: 44..46 characters, then `re.match(BOT_TOKEN_REGEX, v)`,
   * whose `$` also matches before a final newline.
   */
  function ValidateBotTokenAsWritten(token: string): (r: Result<string>)
    ensures r.Ok? <==> 44 <= |token| <= 46 && BotTokenMatches(token)
    ensures r.Ok? ==> r.value == token
  {
    var v :- LengthCheck(token, 44, 46);
    if v == "" || !BotTokenMatches(v) then Err(ValueError(INVALID_TOKEN_FORMAT)) else Ok(v)
  }

  /** A well-shaped token of 44 or 45 characters with a newline appended passes the validator as written. */
  lemma TokenWithNewlineAccepted(t: string)
    requires BotTokenShape(t) && |t| <= 45
    ensures ValidateBotTokenAsWritten(t + "\n").Ok?
    ensures !BotTokenShape(t + "\n")
  {
    BotTokenTrailingNewline(t);
  }

  /** `BotTokenRequest` with the pattern matched against the whole string, as the anchors intend. */
  function ValidateBotToken(token: string): (r: Result<string>)
    ensures r.Ok? <==> BotTokenShape(token)
    ensures r.Ok? ==> r.value == token && ':' in token
  {
    var v :- LengthCheck(token, 44, 46);
    if v == "" || !BotTokenShape(v) then Err(ValueError(INVALID_TOKEN_FORMAT))
    else
      assert v[|v| - 36] == ':';
      Ok(v)
  }

  /** The two token validators agree on every input without a final newline. */
  lemma BotTokenValidatorsAgree(token: string)
    requires token == [] || token[|token| - 1] != '\n'
    ensures ValidateBotTokenAsWritten(token) == ValidateBotToken(token)
  {
  }

  // --- UserBotUpdateRequest -----------------------------------------------------------------------------

  datatype UserBotUpdate = UserBotUpdate(who: AccountRef, role: UserBotRole)

  /**
   * `UserBotUpdateRequest`: an optional e-mail, an optional username (stripped, 4..16
   * characters, USERNAME_REGEX), then exactly one of the two.
   */
  function ValidateUserBotUpdate(email: Option<string>, username: Option<string>, role: UserBotRole,
                                 emailOf: string -> Option<string>): (r: Result<UserBotUpdate>)
    ensures r.Ok? <==> (email.Some? ==> emailOf(email.value).Some?)
                       && (username.Some? ==> UsernameMatches(Strip(username.value)))
                       && (Given(NormalEmail(email, emailOf)) != username.Some?)
    ensures r.Ok? ==> r.value == UserBotUpdate(if Given(NormalEmail(email, emailOf)) then ByEmail(NormalEmail(email, emailOf).value)
                                               else ByUsername(Strip(username.value)), role)
  {
    var e :- OptionalCheck(email, x => EmailCheck(x, emailOf));
    var u :- OptionalCheck(username, LoginUsername);
    UsernameValidatorsAgreeOn(username);
    var who :- OneOfEmailOrUsername(e, u);
    Ok(UserBotUpdate(who, role))
  }

  // --- WebhookCreateRequest -----------------------------------------------------------------------------

  /** `set(v)` */
  function SeqSet(v: seq<string>): set<string>
  {
    set x | x in v
  }

  /** `len(v) != len(set(v))` exactly when `v` repeats an item. */
  lemma {:induction false} DistinctIffSetSize(v: seq<string>)
    ensures |SeqSet(v)| <= |v|
    ensures |SeqSet(v)| == |v| <==> NoDup(v)
    decreases |v|
  {
    if v != [] {
      var init := v[..|v| - 1];
      var last := v[|v| - 1];
      DistinctIffSetSize(init);
      assert v == init + [last];
      assert SeqSet(v) == SeqSet(init) + {last};
      if last in init {
        var k :| 0 <= k < |init| && init[k] == last;
        assert v[k] == v[|v| - 1];
        assert SeqSet(v) == SeqSet(init);
      } else {
        assert last !in SeqSet(init);
        NoDupSnoc(init, last);
      }
    }
  }

  /** Appending an item not yet present keeps a sequence repetition-free. */
  lemma NoDupSnoc(init: seq<string>, last: string)
    requires last !in init
    ensures NoDup(init + [last]) <==> NoDup(init)
  {
    var v := init + [last];
    if NoDup(init) {
      forall i, j | 0 <= i < j < |v| ensures v[i] != v[j] {
        if j < |v| - 1 {
          assert v[i] == init[i] && v[j] == init[j];
        } else {
          assert v[i] == init[i] && init[i] in init;
        }
      }
    }
    if NoDup(v) {
      forall i, j | 0 <= i < j < |init| ensures init[i] != init[j] {
        assert init[i] == v[i] && init[j] == v[j];
      }
    }
  }

  /** `[item for item in v if item not in Update.ALL_TYPES]` */
  function Unknown(v: seq<string>, allTypes: set<string>): (r: seq<string>)
    ensures forall x :: x in r <==> x in v && x !in allTypes
    ensures |r| <= |v|
  {
    if v == [] then []
    else Unknown(v[..|v| - 1], allTypes) + (if v[|v| - 1] in allTypes then [] else [v[|v| - 1]])
  }

  /** `sep.join(pieces)` */
  function JoinWith(pieces: seq<string>, sep: string): string
  {
    if pieces == [] then ""
    else if |pieces| == 1 then pieces[0]
    else pieces[0] + sep + JoinWith(pieces[1..], sep)
  }

  /** The message naming the unknown update types, with the plural when there are several. */
  function UnknownTypesMessage(invalid: seq<string>): string
  {
    "Invalid update type" + (if |invalid| > 1 then "s" else "") + ": " + JoinWith(invalid, ", ") + "."
  }

  /** `validate_allowed_updates`: no repeated item, then every item a known update type. */
  function AllowedUpdatesCheck(v: seq<string>, allTypes: set<string>): (r: Result<seq<string>>)
    ensures r.Ok? <==> NoDup(v) && forall x :: x in v ==> x in allTypes
    ensures r.Ok? ==> r.value == v
    ensures NoDup(v) && r.Err? ==> r.error == ValueError(UnknownTypesMessage(Unknown(v, allTypes)))
  {
    DistinctIffSetSize(v);
    if |v| != |SeqSet(v)| then Err(ValueError("allowed_updates must not contain duplicate values"))
    else
      var invalid := Unknown(v, allTypes);
      if invalid != [] then
        assert invalid[0] in invalid;
        Err(ValueError(UnknownTypesMessage(invalid)))
      else
        assert forall x :: x in v ==> x in allTypes;
        Ok(v)
  }

  /** One unknown item is named in the singular, several in the plural, in request order. */
  lemma UnknownTypesNamed()
    ensures UnknownTypesMessage(["foo"]) == "Invalid update type: foo."
    ensures UnknownTypesMessage(["foo", "bar"]) == "Invalid update types: foo, bar."
  {
  }

  datatype WebhookCreate = WebhookCreate(url: Option<string>, maxConnections: Option<int>,
                                         allowedUpdates: Option<seq<string>>, dropPendingUpdates: Option<bool>,
                                         secretToken: Option<string>)

  /** `max_connections`: absent, or in 1..100. */
  function MaxConnectionsCheck(n: Option<int>): (r: Result<Option<int>>)
    ensures r.Ok? <==> n.None? || 1 <= n.value <= 100
    ensures r.Ok? ==> r.value == n
  {
    if n.None? then Ok(None)
    else
      var v :- RangeCheck(n.value, 1, 100);
      Ok(Some(v))
  }

  /** `secret_token` as written: 1..256 characters, then `re.match(WEBHOOK_SECRET_REGEX, v)`. */
  function SecretCheckAsWritten(s: string): (r: Result<string>)
    ensures r.Ok? <==> 1 <= |s| <= 256 && WebhookSecretMatches(s)
  {
    var v :- LengthCheck(s, 1, 256);
    if !WebhookSecretMatches(v) then Err(ValueError("Invalid secret token format")) else Ok(v)
  }

  /** A secret of at most 255 characters with a newline appended passes the check as written. */
  lemma SecretWithNewlineAccepted(s: string)
    requires WebhookSecretShape(s) && |s| <= 255
    ensures SecretCheckAsWritten(s + "\n").Ok?
    ensures !WebhookSecretShape(s + "\n")
  {
    assert (s + "\n")[..|s|] == s;
    assert !IsTokenChar((s + "\n")[|s|]);
  }

  /** `secret_token` matched against the whole string: 1..256 token characters. */
  function SecretCheck(s: string): (r: Result<string>)
    ensures r.Ok? <==> WebhookSecretShape(s)
    ensures r.Ok? ==> r.value == s
  {
    var v :- LengthCheck(s, 1, 256);
    if !WebhookSecretShape(v) then Err(ValueError("Invalid secret token format")) else Ok(v)
  }

  /**
   * `WebhookCreateRequest`, field by field in declaration order: a URL, the connection bound,
   * the update types, the flag, and the secret token.
   */
  function ValidateWebhookCreate(url: Option<string>, maxConnections: Option<int>, allowedUpdates: Option<seq<string>>,
                                 dropPendingUpdates: Option<bool>, secretToken: Option<string>,
                                 urlOf: string -> Option<string>, allTypes: set<string>): (r: Result<WebhookCreate>)
    ensures r.Ok? <==> (url.Some? ==> urlOf(url.value).Some?)
                       && (maxConnections.Some? ==> 1 <= maxConnections.value <= 100)
                       && (allowedUpdates.Some? ==>
                             (NoDup(allowedUpdates.value) && forall x :: x in allowedUpdates.value ==> x in allTypes))
                       && (secretToken.Some? ==> WebhookSecretShape(secretToken.value))
    ensures r.Ok? ==> r.value == WebhookCreate(if url.Some? then urlOf(url.value) else None, maxConnections,
                                               allowedUpdates, dropPendingUpdates, secretToken)
  {
    if url.Some? && urlOf(url.value).None? then Err(Invalid("Input should be a valid URL"))
    else
      var m :- MaxConnectionsCheck(maxConnections);
      var a :- if allowedUpdates.None? then Ok(None)
               else (var v :- AllowedUpdatesCheck(allowedUpdates.value, allTypes); Ok(Some(v)));
      var s :- OptionalCheck(secretToken, SecretCheck);
      Ok(WebhookCreate(if url.Some? then urlOf(url.value) else None, m, a, dropPendingUpdates, s))
  }
}
