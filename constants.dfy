// The four input regexes of app/core/constants.py as character-class and length
// predicates, and the two sets of Bot API method names the proxy dispatches on.

module Constants {

  import opened Wrappers
  import opened Text

  /** `[A-Za-z0-9_]` */
  predicate IsWordChar(c: char) { IsAsciiLetter(c) || IsDigit(c) || c == '_' }

  /** `[A-Za-z0-9_-]` */
  predicate IsTokenChar(c: char) { IsWordChar(c) || c == '-' }

  /** `re.fullmatch(USERNAME_REGEX, s)`: one ASCII letter, then 3 to 15 word characters. */
  predicate UsernameMatches(s: string)
  {
    |s| >= 1 && IsAsciiLetter(s[0]) && 3 <= |s| - 1 <= 15
    && forall i :: 1 <= i < |s| ==> IsWordChar(s[i])
  }

  /**
   * `re.fullmatch(PASSWORD_REGEX, s)`: 8 to 32 characters other than a newline (`.`), with
   * at least one upper-case letter, one lower-case letter and one digit (the three lookaheads).
   */
  predicate PasswordMatches(s: string)
  {
    8 <= |s| <= 32
    && (forall i :: 0 <= i < |s| ==> s[i] != '\n')
    && (exists i :: 0 <= i < |s| && IsAsciiUpper(s[i]))
    && (exists i :: 0 <= i < |s| && IsAsciiLower(s[i]))
    && (exists i :: 0 <= i < |s| && IsDigit(s[i]))
  }

  /**
   * The whole-string form of BOT_TOKEN_REGEX: 8 to 10 digits, a colon, then exactly 35
   * token characters. The digit run has length |s| - 36 because neither a digit nor a
   * token character is a colon.
   */
  predicate BotTokenShape(s: string)
  {
    |s| >= 36 && 8 <= |s| - 36 <= 10
    && AllDigits(s[..|s| - 36]) && s[|s| - 36] == ':'
    && forall i :: |s| - 35 <= i < |s| ==> IsTokenChar(s[i])
  }

  /** The whole-string form of WEBHOOK_SECRET_REGEX: 1 to 256 token characters. */
  predicate WebhookSecretShape(s: string)
  {
    1 <= |s| <= 256 && forall i :: 0 <= i < |s| ==> IsTokenChar(s[i])
  }

  /**
   * `re.match("^" + core + "$", s)`: Python's `$` matches at the very end and also just
   * before one newline that ends the string.
   */
  predicate AnchoredMatch(core: string -> bool, s: string)
  {
    core(s) || (|s| >= 1 && s[|s| - 1] == '\n' && core(s[..|s| - 1]))
  }

  /** `re.match(BOT_TOKEN_REGEX, s)` */
  predicate BotTokenMatches(s: string) { AnchoredMatch(BotTokenShape, s) }

  /** `re.match(WEBHOOK_SECRET_REGEX, s)` */
  predicate WebhookSecretMatches(s: string) { AnchoredMatch(WebhookSecretShape, s) }

  /** USERNAME_REGEX fixes the length to 4..16, the bounds the request schemas also declare. */
  lemma UsernameLength(s: string)
    requires UsernameMatches(s)
    ensures 4 <= |s| <= 16
  {
  }

  /** A token of the regex shape is 44..46 characters; `re.match` also lets one trailing newline through. */
  lemma BotTokenLength(s: string)
    requires BotTokenMatches(s)
    ensures 44 <= |s| <= 47
    ensures |s| == 47 ==> s[46] == '\n'
  {
  }

  /** A token of the regex shape with a newline appended still passes `re.match`. */
  lemma BotTokenTrailingNewline(t: string)
    requires BotTokenShape(t)
    ensures BotTokenMatches(t + "\n")
    ensures !BotTokenShape(t + "\n")
  {
    assert (t + "\n")[..|t|] == t;
  }

  /** The bot id prefix and the secret suffix of a well-shaped token, as `split(":")` sees them. */
  lemma BotTokenParts(s: string)
    requires BotTokenShape(s)
    ensures BeforeFirst(s, ':') == s[..|s| - 36]
    ensures AfterFirst(s, ':') == Some(s[|s| - 35..])
    ensures |s[|s| - 35..]| == 35
  {
    var k := |s| - 36;
    assert ':' !in s[..k] by {
      forall i | 0 <= i < k ensures s[..k][i] != ':' {
        assert IsDigit(s[..k][i]);
      }
    }
    assert s == s[..k] + [':'] + s[k + 1..];
    PartitionAt(s[..k], ':', s[k + 1..]);
  }

  /** Methods whose result is a new Message (logged as new entities). */
  const MESSAGE_RETURNED_METHODS: set<string> := {
    "sendMessage", "forwardMessage", "sendPhoto", "sendAudio", "sendDocument", "sendVideo",
    "sendAnimation", "sendVoice", "sendVideoNote", "sendPaidMedia", "sendLocation", "sendVenue",
    "sendContact", "sendPoll", "sendChecklist", "sendDice", "sendSticker", "sendInvoice", "sendGame"
  }

  /** Methods whose result is an edited Message (applied as an update). */
  const EDITED_MESSAGE_RETURNED_METHODS: set<string> := {
    "editMessageText", "editMessageCaption", "editMessageMedia", "editMessageLiveLocation",
    "stopMessageLiveLocation", "editMessageChecklist", "editMessageReplyMarkup", "setGameScore"
  }

  /** Every message-returning method starts with "sen" or "f"; no edit method does. */
  predicate SendOrForwardName(m: string)
  {
    |m| >= 3 && ((m[0] == 's' && m[2] == 'n') || m[0] == 'f')
  }

  /** No method is in both sets, so the dispatch on the method name is unambiguous. */
  lemma MethodSetsDisjoint()
    ensures MESSAGE_RETURNED_METHODS * EDITED_MESSAGE_RETURNED_METHODS == {}
  {
    assert forall m :: m in MESSAGE_RETURNED_METHODS ==> SendOrForwardName(m);
    assert forall m :: m in EDITED_MESSAGE_RETURNED_METHODS ==> !SendOrForwardName(m);
  }
}
