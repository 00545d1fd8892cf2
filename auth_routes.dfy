// app/routes/auth.py: registration, login, the session list, e-mail verification and change,
// and the password flows, over the account, session and code tables.

module AuthRoutes {

  import opened Wrappers
  import opened Text
  import opened Enums
  import opened Db
  import opened Utils
  import opened AuthService

  const EMAIL_TAKEN: Error := HttpError(409, "Email already registered")
  const INVALID_CREDENTIALS: Error := HttpError(401, "Invalid credentials")
  const SESSION_NOT_FOUND: Error := HttpError(404, "Session not found")
  const OTP_INVALID: Error := HttpError(404, "OTP code invalid or user not found")
  const SAME_PASSWORD: Error := HttpError(409, "New password is the same as old")
  const OLD_PASSWORD_INVALID: Error := HttpError(401, "Invalid old password or user not found")
  const FORGOT_DETAIL: string := "If the email exists, a reset link has been sent"

  /** The one-time codes a request may consume: kind, code and age under `OTP_TTL` minutes. */
  predicate LiveOtp(o: OtpRow, t: OtpCodeType, code: string, now: int)
  {
    o.otpType == t && o.code == code && o.createdAt > now - OTP_TTL * 60
  }

  // --- register -----------------------------------------------------------------------------------------

  /** The account `register` creates: unbanned, unverified, a plain user. */
  function NewAccount(email: string, username: string, password: string): (a: Account)
    ensures !a.isBanned && !a.emailVerified && a.role == RoleUser
    ensures VerifyPassword(password, a.passwordHash)
  {
    Account(email, username, false, HashPassword(password), false, RoleUser)
  }

  /**
   * `register`: 409 for a registered e-mail; a taken username breaks the unique column;
   * otherwise the account is committed and a token pair is issued on a new session.
   */
  method Register(db: Database, email: string, username: string, password: string, name: Option<string>,
                  accessJti: string, refreshJti: string, freshUserId: int, freshSessionId: int)
    returns (r: Result<TokenPair>)
    requires freshUserId !in db.accounts && freshSessionId !in db.sessions
    modifies db`accounts, db`sessions
    ensures Matching(old(db.accounts), ByEmail(email)) != {} ==>
      r == Err(EMAIL_TAKEN) && db.accounts == old(db.accounts) && db.sessions == old(db.sessions)
    ensures Matching(old(db.accounts), ByEmail(email)) == {} && Matching(old(db.accounts), ByUsername(username)) != {} ==>
      r == Err(Raised("IntegrityError")) && db.accounts == old(db.accounts) && db.sessions == old(db.sessions)
    ensures Matching(old(db.accounts), ByEmail(email)) == {} && Matching(old(db.accounts), ByUsername(username)) == {} ==>
      db.accounts == old(db.accounts)[freshUserId := NewAccount(email, username, password)]
      && IssuedAs(IssueSpec(db.accounts, old(db.sessions), freshUserId, name, None, accessJti, refreshJti, freshSessionId, db.now),
                  r, old(db.sessions), db.sessions)
  {
    if Matching(db.accounts, ByEmail(email)) != {} {
      return Err(EMAIL_TAKEN);
    }
    if Matching(db.accounts, ByUsername(username)) != {} {
      return Err(Raised("IntegrityError"));
    }
    db.accounts := db.accounts[freshUserId := NewAccount(email, username, password)];
    r := IssueTokenPair(db, freshUserId, name, None, accessJti, refreshJti, freshSessionId);
  }

  /** The account a session row points at exists (the foreign key of `sessions.user_id`). */
  predicate SessionsBelong(accounts: map<int, Account>, sessions: map<int, SessionRow>)
  {
    forall i :: i in sessions ==> sessions[i].userId in accounts
  }

  /** A freshly registered account has no sessions, so its first pair is issued unless the refresh id collides. */
  lemma RegisteredAccountGetsTokens(accounts: map<int, Account>, sessions: map<int, SessionRow>, email: string,
                                    username: string, password: string, name: Option<string>, accessJti: string,
                                    refreshJti: string, freshUserId: int, freshSessionId: int, now: int)
    requires freshUserId !in accounts && freshSessionId !in sessions && SessionsBelong(accounts, sessions)
    requires !RefreshJtiTaken(sessions, refreshJti, freshSessionId)
    ensures var after := accounts[freshUserId := NewAccount(email, username, password)];
      IssueSpec(after, sessions, freshUserId, name, None, accessJti, refreshJti, freshSessionId, now).Ok?
  {
    forall i | i in sessions ensures sessions[i].userId != freshUserId {
      assert sessions[i].userId in accounts;
    }
    assert SessionsOf(sessions, freshUserId) == {};
  }

  // --- login --------------------------------------------------------------------------------------------

  /**
   * The checks of `login` before the pair is issued: the account by e-mail or username, then
   * 401 for no account or a wrong password, and only then 403 for a banned account. The hash column is
   * not nullable and every stored hash comes from `hash_password`, so the `not user.password_hash` guard never fires.
   */
  ghost function LoginCheck(accounts: map<int, Account>, who: AccountRef, password: string): (r: Result<int>)
    ensures r.Ok? ==> (Matching(accounts, who) == {r.value} && r.value in accounts
      && VerifyPassword(password, accounts[r.value].passwordHash)
      && !accounts[r.value].isBanned)
    ensures r == Err(BANNED) ==> (|Matching(accounts, who)| == 1
      && forall id :: id in Matching(accounts, who) ==> (accounts[id].isBanned
           && VerifyPassword(password, accounts[id].passwordHash)))
  {
    var found :- OneOrNone(Matching(accounts, who));
    if found.None? then Err(INVALID_CREDENTIALS)
    else
      var a := accounts[found.value];
      if !VerifyPassword(password, a.passwordHash) then Err(INVALID_CREDENTIALS)
      else if a.isBanned then Err(BANNED)
      else Ok(found.value)
  }

  /** A wrong password is refused with 401 whether or not the account is banned, so a ban is not disclosed. */
  lemma WrongPasswordHidesBan(accounts: map<int, Account>, who: AccountRef, password: string, id: int)
    requires Matching(accounts, who) == {id} && id in accounts
    requires !VerifyPassword(password, accounts[id].passwordHash)
    ensures LoginCheck(accounts, who, password) == Err(INVALID_CREDENTIALS)
    ensures LoginCheck(accounts[id := accounts[id].(isBanned := !accounts[id].isBanned)], who, password)
      == Err(INVALID_CREDENTIALS)
  {
    var flipped := accounts[id := accounts[id].(isBanned := !accounts[id].isBanned)];
    assert Matching(flipped, who) == Matching(accounts, who);
  }

  /** Logging in as the account registration created succeeds with its password, and with no other. */
  lemma LoginAfterRegister(accounts: map<int, Account>, email: string, username: string, password: string,
                           other: string, freshUserId: int)
    requires freshUserId !in accounts
    requires Matching(accounts, ByEmail(email)) == {} && Matching(accounts, ByUsername(username)) == {}
    ensures var after := accounts[freshUserId := NewAccount(email, username, password)];
      LoginCheck(after, ByEmail(email), password) == Ok(freshUserId)
      && LoginCheck(after, ByUsername(username), password) == Ok(freshUserId)
      && (other != password ==> LoginCheck(after, ByEmail(email), other) == Err(INVALID_CREDENTIALS))
  {
    var after := accounts[freshUserId := NewAccount(email, username, password)];
    assert Matching(after, ByEmail(email)) == {freshUserId};
    assert Matching(after, ByUsername(username)) == {freshUserId};
  }

  method Login(db: Database, who: AccountRef, password: string, name: Option<string>,
               accessJti: string, refreshJti: string, freshId: int) returns (r: Result<TokenPair>)
    requires freshId !in db.sessions
    modifies db`sessions
    ensures var c := LoginCheck(db.accounts, who, password);
      (c.Err? ==> r == Err(c.error) && db.sessions == old(db.sessions))
      && (c.Ok? ==> IssuedAs(IssueSpec(db.accounts, old(db.sessions), c.value, name, None, accessJti, refreshJti, freshId, db.now),
                             r, old(db.sessions), db.sessions))
  {
    var found := ScalarOneOrNone(Matching(db.accounts, who));
    if found.Err? {
      return Err(found.error);
    }
    if found.value.None? {
      return Err(INVALID_CREDENTIALS);
    }
    var id := found.value.value;
    var a := db.accounts[id];
    if !VerifyPassword(password, a.passwordHash) {
      return Err(INVALID_CREDENTIALS);
    }
    if a.isBanned {
      return Err(BANNED);
    }
    r := IssueTokenPair(db, id, name, None, accessJti, refreshJti, freshId);
  }

  // --- sessions -----------------------------------------------------------------------------------------

  /** One entry of the session list. */
  datatype SessionInfo = SessionInfo(id: int, name: Option<string>, createdAt: int, updatedAt: int, isCurrent: bool)

  /** The answer of `list_sessions`: the entries, and the most sessions an account may hold. */
  datatype SessionList = SessionList(sessions: map<int, SessionInfo>, limit: nat)

  /** The entry that describes a stored session to the account `user`. */
  function InfoOf(sessions: map<int, SessionRow>, user: AuthorizedUser, i: int): SessionInfo
    requires i in sessions
  {
    SessionInfo(i, sessions[i].name, sessions[i].createdAt, sessions[i].updatedAt, sessions[i].accessJti == user.jti)
  }

  /** `list_sessions`: the caller's sessions, the one holding the caller's access id marked current, and the cap. */
  function ListSessions(sessions: map<int, SessionRow>, user: AuthorizedUser): (r: SessionList)
    ensures r.limit == MAX_USER_SESSIONS
    ensures r.sessions.Keys == SessionsOf(sessions, user.id)
    ensures forall i :: i in r.sessions ==>
      (r.sessions[i].id == i && r.sessions[i].name == sessions[i].name
       && r.sessions[i].createdAt == sessions[i].createdAt && r.sessions[i].updatedAt == sessions[i].updatedAt)
    ensures forall i :: i in r.sessions ==> (r.sessions[i].isCurrent <==> sessions[i].accessJti == user.jti)
  {
    SessionList(map i | i in SessionsOf(sessions, user.id) :: InfoOf(sessions, user, i), MAX_USER_SESSIONS)
  }

  /** `get_session`: the caller's own session, else 404 (another account's session is not found either). */
  function GetSession(sessions: map<int, SessionRow>, user: AuthorizedUser, sid: int): (r: Result<SessionInfo>)
    ensures r.Ok? <==> sid in ListSessions(sessions, user).sessions
    ensures r.Ok? ==> r.value == ListSessions(sessions, user).sessions[sid]
    ensures r.Err? ==> r.error == SESSION_NOT_FOUND
  {
    if sid in sessions && sessions[sid].userId == user.id then
      Ok(InfoOf(sessions, user, sid))
    else Err(SESSION_NOT_FOUND)
  }

  /** The session issued at login is the current one of the token issued with it. */
  lemma IssuedSessionIsCurrent(accounts: map<int, Account>, sessions: map<int, SessionRow>, userId: int, name: Option<string>,
                               accessJti: string, refreshJti: string, freshId: int, now: int, role: UserRole, verified: bool)
    requires userId in accounts && freshId !in sessions
    requires IssueSpec(accounts, sessions, userId, name, None, accessJti, refreshJti, freshId, now).Ok?
    ensures var after := IssueSpec(accounts, sessions, userId, name, None, accessJti, refreshJti, freshId, now).value.0;
      GetSession(after, AuthorizedUser(userId, role, verified, accessJti), freshId)
        == Ok(SessionInfo(freshId, name, now, now, true))
  {
  }

  /**
   * `revoke_session`: 404 unless the session is the caller's; otherwise the session is revoked
   * by its refresh id and its access id is revoked as well.
   */
  method RevokeSession(db: Database, user: AuthorizedUser, sid: int) returns (r: Result<()>)
    modifies db`sessions, db`revoked
    ensures !(sid in old(db.sessions) && old(db.sessions)[sid].userId == user.id) ==>
      r == Err(SESSION_NOT_FOUND) && db.sessions == old(db.sessions) && db.revoked == old(db.revoked)
    ensures sid in old(db.sessions) && old(db.sessions)[sid].userId == user.id ==>
      var s := old(db.sessions)[sid];
      var found := OneOrNone(set i | i in old(db.sessions) && old(db.sessions)[i].refreshJti == s.refreshJti);
      (found.Err? ==> r == Err(found.error) && db.sessions == old(db.sessions) && db.revoked == old(db.revoked))
      && (found.Ok? ==> (r == Ok(()) && db.sessions == old(db.sessions) - {sid}
            && db.revoked == old(db.revoked) + {s.accessJti}))
  {
    if !(sid in db.sessions && db.sessions[sid].userId == user.id) {
      return Err(SESSION_NOT_FOUND);
    }
    var s := db.sessions[sid];
    ghost var found := set i | i in db.sessions && db.sessions[i].refreshJti == s.refreshJti;
    assert sid in found;
    r := RevokeSessionByJti(db, s.refreshJti);
    if r.Err? {
      return;
    }
    Singleton(found, sid);
    db.revoked := db.revoked + {s.accessJti};
  }

  // --- e-mail verification ------------------------------------------------------------------------------

  /** `email_send_confirmation`: 400 without an e-mail, 409 when already verified, else a fresh code. */
  method EmailSendConfirmation(db: Database, userId: int, draw: nat, freshId: int) returns (r: Result<string>)
    requires userId in db.accounts && draw < Pow10(OTP_LENGTH) && freshId !in db.otps
    modifies db`otps
    ensures db.accounts[userId].email == "" ==> r == Err(HttpError(400, "No email on account")) && db.otps == old(db.otps)
    ensures db.accounts[userId].email != "" && db.accounts[userId].emailVerified ==>
      r == Err(HttpError(409, "Email already verified")) && db.otps == old(db.otps)
    ensures db.accounts[userId].email != "" && !db.accounts[userId].emailVerified ==>
      r == Ok("Verification email sent")
      && exists code :: db.otps == OtpsWithout(old(db.otps), userId, OtpCodeType.VerifyEmail)[freshId := OtpRow(userId, code, OtpCodeType.VerifyEmail, db.now)]
  {
    if db.accounts[userId].email == "" {
      return Err(HttpError(400, "No email on account"));
    }
    if db.accounts[userId].emailVerified {
      return Err(HttpError(409, "Email already verified"));
    }
    var code := SendVerificationEmail(db, userId, draw, freshId);
    r := Ok("Verification email sent");
  }

  /** The codes `verify_email` accepts: the account's live VERIFY_EMAIL code with that value. */
  function VerifyCandidates(otps: map<int, OtpRow>, userId: int, code: string, now: int): (r: set<int>)
    ensures forall i :: i in r <==> (i in otps && otps[i].userId == userId && LiveOtp(otps[i], OtpCodeType.VerifyEmail, code, now))
  {
    set i | i in otps && otps[i].userId == userId && LiveOtp(otps[i], OtpCodeType.VerifyEmail, code, now)
  }

  /** `verify_email`: 404 without a live matching code; otherwise the code is consumed and the account verified. */
  method VerifyEmail(db: Database, code: string, userId: int) returns (r: Result<string>)
    modifies db`otps, db`accounts
    ensures var found := OneOrNone(VerifyCandidates(old(db.otps), userId, code, db.now));
      (found.Err? ==> r == Err(found.error) && db.otps == old(db.otps) && db.accounts == old(db.accounts))
      && (found == Ok(None) ==> r == Err(OTP_INVALID) && db.otps == old(db.otps) && db.accounts == old(db.accounts))
      && (found.Ok? && found.value.Some? && userId !in old(db.accounts) ==>
            r == Err(Raised("AttributeError")) && db.otps == old(db.otps) && db.accounts == old(db.accounts))
      && (found.Ok? && found.value.Some? && userId in old(db.accounts) ==>
            (r == Ok("Email verified") && db.otps == old(db.otps) - {found.value.value}
             && db.accounts == old(db.accounts)[userId := old(db.accounts)[userId].(emailVerified := true)]))
  {
    var found := ScalarOneOrNone(VerifyCandidates(db.otps, userId, code, db.now));
    if found.Err? {
      return Err(found.error);
    }
    if found.value.None? {
      return Err(OTP_INVALID);
    }
    if userId !in db.accounts {
      return Err(Raised("AttributeError"));
    }
    db.otps := db.otps - {found.value.value};
    db.accounts := db.accounts[userId := db.accounts[userId].(emailVerified := true)];
    r := Ok("Email verified");
  }

  /** The code `send_verification_email` issues is the one `verify_email` accepts while it is live, and only once. */
  lemma IssuedCodeVerifies(otps: map<int, OtpRow>, userId: int, code: string, freshId: int, now: int, later: int)
    requires OneOtpPerKind(otps) && freshId !in otps && now <= later < now + OTP_TTL * 60
    ensures var after := OtpsWithout(otps, userId, OtpCodeType.VerifyEmail)[freshId := OtpRow(userId, code, OtpCodeType.VerifyEmail, now)];
      OneOrNone(VerifyCandidates(after, userId, code, later)) == Ok(Some(freshId))
      && OneOrNone(VerifyCandidates(after - {freshId}, userId, code, later)) == Ok(None)
  {
    var after := OtpsWithout(otps, userId, OtpCodeType.VerifyEmail)[freshId := OtpRow(userId, code, OtpCodeType.VerifyEmail, now)];
    assert VerifyCandidates(after, userId, code, later) == {freshId};
    forall i | i in after - {freshId} ensures i !in VerifyCandidates(after - {freshId}, userId, code, later) {
      assert i in otps && !(otps[i].userId == userId && otps[i].otpType == OtpCodeType.VerifyEmail);
    }
    assert VerifyCandidates(after - {freshId}, userId, code, later) == {};
  }

  // --- e-mail change ------------------------------------------------------------------------------------

  /**
   * `email_change`: 400 for an empty e-mail or one equal to the current one up to case. The new
   * address is flushed by the first query of the session revocation, so an address another
   * account holds breaks the unique column before anything is revoked. Otherwise the e-mail is
   * set, verification cleared, every session revoked, and a VERIFY_EMAIL code issued.
   */
  method EmailChange(db: Database, userId: int, newEmail: string, draw: nat, freshOtpId: int) returns (r: Result<string>)
    requires userId in db.accounts && draw < Pow10(OTP_LENGTH) && freshOtpId !in db.otps
    modifies db`accounts, db`sessions, db`revoked, db`otps
    ensures newEmail == "" || LowerAscii(old(db.accounts)[userId].email) == LowerAscii(newEmail) ==>
      r.Err? && r.error.HttpError? && r.error.status == 400
      && db.accounts == old(db.accounts) && db.sessions == old(db.sessions) && db.revoked == old(db.revoked)
      && db.otps == old(db.otps)
    ensures newEmail != "" && LowerAscii(old(db.accounts)[userId].email) != LowerAscii(newEmail)
            && Matching(old(db.accounts), ByEmail(newEmail)) != {} ==>
      r == Err(Raised("IntegrityError"))
      && db.accounts == old(db.accounts) && db.sessions == old(db.sessions) && db.revoked == old(db.revoked)
      && db.otps == old(db.otps)
    ensures newEmail != "" && LowerAscii(old(db.accounts)[userId].email) != LowerAscii(newEmail)
            && Matching(old(db.accounts), ByEmail(newEmail)) == {} ==>
      r == Ok("Email updated. Verification sent")
      && db.accounts == old(db.accounts)[userId := old(db.accounts)[userId].(email := newEmail, emailVerified := false)]
      && db.sessions == SessionsWithout(old(db.sessions), userId)
      && db.revoked == old(db.revoked) + AccessJtisOf(old(db.sessions), userId)
      && exists code :: db.otps == OtpsWithout(old(db.otps), userId, OtpCodeType.VerifyEmail)[freshOtpId := OtpRow(userId, code, OtpCodeType.VerifyEmail, db.now)]
  {
    if newEmail == "" {
      return Err(HttpError(400, "New email is required"));
    }
    if LowerAscii(db.accounts[userId].email) == LowerAscii(newEmail) {
      return Err(HttpError(400, "New email must differ from current"));
    }
    if Matching(db.accounts, ByEmail(newEmail)) != {} {
      return Err(Raised("IntegrityError"));
    }
    db.accounts := db.accounts[userId := db.accounts[userId].(email := newEmail, emailVerified := false)];
    RevokeAllSessions(db, userId);
    var code := SendVerificationEmail(db, userId, draw, freshOtpId);
    r := Ok("Email updated. Verification sent");
  }

  // --- passwords ----------------------------------------------------------------------------------------

  /** `password_forgot`: a PASSWORD_RESET code for the account with that e-mail, if there is one; the answer is the same either way. */
  method PasswordForgot(db: Database, email: string, draw: nat, freshOtpId: int) returns (r: Result<string>)
    requires draw < Pow10(OTP_LENGTH) && freshOtpId !in db.otps
    modifies db`otps
    ensures var found := OneOrNone(Matching(db.accounts, ByEmail(email)));
      (found.Err? ==> r == Err(found.error) && db.otps == old(db.otps))
      && (found == Ok(None) ==> r == Ok(FORGOT_DETAIL) && db.otps == old(db.otps))
      && (found.Ok? && found.value.Some? ==> (r == Ok(FORGOT_DETAIL)
            && exists code :: db.otps == OtpsWithout(old(db.otps), found.value.value, OtpCodeType.PasswordReset)
                                           [freshOtpId := OtpRow(found.value.value, code, OtpCodeType.PasswordReset, db.now)]))
    ensures r.Ok? ==> r.value == FORGOT_DETAIL
  {
    var found := ScalarOneOrNone(Matching(db.accounts, ByEmail(email)));
    if found.Err? {
      return Err(found.error);
    }
    if found.value.None? {
      return Ok(FORGOT_DETAIL);
    }
    var code := IssueOtp(db, found.value.value, OtpCodeType.PasswordReset, draw, freshOtpId);
    r := Ok(FORGOT_DETAIL);
  }

  /** The codes `password_reset` accepts: a live PASSWORD_RESET code with that value whose account has the e-mail. */
  function ResetCandidates(otps: map<int, OtpRow>, accounts: map<int, Account>, email: string, code: string, now: int)
    : (r: set<int>)
    ensures forall i :: i in r <==> (i in otps && LiveOtp(otps[i], OtpCodeType.PasswordReset, code, now)
      && otps[i].userId in accounts && accounts[otps[i].userId].email == email)
  {
    set i | i in otps && LiveOtp(otps[i], OtpCodeType.PasswordReset, code, now) && otps[i].userId in accounts
      && accounts[otps[i].userId].email == email
  }

  /**
   * `password_reset`: 404 without a matching code; 409 when the new password verifies against
   * the stored hash; otherwise the hash is replaced, the code consumed and every session revoked.
   */
  method PasswordReset(db: Database, code: string, email: string, newPassword: string) returns (r: Result<string>)
    modifies db`accounts, db`sessions, db`revoked, db`otps
    ensures var found := OneOrNone(ResetCandidates(old(db.otps), old(db.accounts), email, code, db.now));
      found.Ok? && found.value.Some? ==>
        var uid := old(db.otps)[found.value.value].userId;
        var h := old(db.accounts)[uid].passwordHash;
        (VerifyPassword(newPassword, h) ==> r == Err(SAME_PASSWORD))
        && (!VerifyPassword(newPassword, h) ==> (r == Ok("Password reset")
              && db.accounts == old(db.accounts)[uid := old(db.accounts)[uid].(passwordHash := HashPassword(newPassword))]
              && db.otps == old(db.otps) - {found.value.value}
              && db.sessions == SessionsWithout(old(db.sessions), uid)
              && db.revoked == old(db.revoked) + AccessJtisOf(old(db.sessions), uid)))
    ensures var found := OneOrNone(ResetCandidates(old(db.otps), old(db.accounts), email, code, db.now));
      (found.Err? ==> r == Err(found.error)) && (found == Ok(None) ==> r == Err(OTP_INVALID))
    ensures r.Err? ==> (db.accounts == old(db.accounts) && db.otps == old(db.otps) && db.sessions == old(db.sessions)
      && db.revoked == old(db.revoked))
  {
    var found := ScalarOneOrNone(ResetCandidates(db.otps, db.accounts, email, code, db.now));
    if found.Err? {
      return Err(found.error);
    }
    if found.value.None? {
      return Err(OTP_INVALID);
    }
    var oid := found.value.value;
    var uid := db.otps[oid].userId;
    var h := db.accounts[uid].passwordHash;
    if VerifyPassword(newPassword, h) {
      return Err(SAME_PASSWORD);
    }
    db.accounts := db.accounts[uid := db.accounts[uid].(passwordHash := HashPassword(newPassword))];
    db.otps := db.otps - {oid};
    RevokeAllSessions(db, uid);
    r := Ok("Password reset");
  }

  /** After a reset the new password logs in and the old one no longer does. */
  lemma ResetReplacesPassword(accounts: map<int, Account>, uid: int, oldPassword: string, newPassword: string)
    requires uid in accounts && !accounts[uid].isBanned && oldPassword != newPassword
    requires Matching(accounts, ByEmail(accounts[uid].email)) == {uid}
    ensures var after := accounts[uid := accounts[uid].(passwordHash := HashPassword(newPassword))];
      LoginCheck(after, ByEmail(accounts[uid].email), newPassword) == Ok(uid)
      && LoginCheck(after, ByEmail(accounts[uid].email), oldPassword) == Err(INVALID_CREDENTIALS)
  {
    var after := accounts[uid := accounts[uid].(passwordHash := HashPassword(newPassword))];
    assert Matching(after, ByEmail(accounts[uid].email)) == {uid};
  }

  /** `password_change`: 401 unless the old password verifies for the account with that e-mail; then a new hash and no sessions. */
  method PasswordChange(db: Database, email: string, oldPassword: string, newPassword: string) returns (r: Result<string>)
    modifies db`accounts, db`sessions, db`revoked
    ensures var found := OneOrNone(Matching(old(db.accounts), ByEmail(email)));
      (found.Err? ==> r == Err(found.error))
      && (found == Ok(None) ==> r == Err(OLD_PASSWORD_INVALID))
      && (found.Ok? && found.value.Some? ==>
            var uid := found.value.value;
            var h := old(db.accounts)[uid].passwordHash;
            (!VerifyPassword(oldPassword, h) ==> r == Err(OLD_PASSWORD_INVALID))
            && (VerifyPassword(oldPassword, h) ==> (r == Ok("Password updated")
                  && db.accounts == old(db.accounts)[uid := old(db.accounts)[uid].(passwordHash := HashPassword(newPassword))]
                  && db.sessions == SessionsWithout(old(db.sessions), uid)
                  && db.revoked == old(db.revoked) + AccessJtisOf(old(db.sessions), uid))))
    ensures r.Err? ==> db.accounts == old(db.accounts) && db.sessions == old(db.sessions) && db.revoked == old(db.revoked)
  {
    var found := ScalarOneOrNone(Matching(db.accounts, ByEmail(email)));
    if found.Err? {
      return Err(found.error);
    }
    if found.value.None? {
      return Err(OLD_PASSWORD_INVALID);
    }
    var uid := found.value.value;
    var h := db.accounts[uid].passwordHash;
    if !VerifyPassword(oldPassword, h) {
      return Err(OLD_PASSWORD_INVALID);
    }
    db.accounts := db.accounts[uid := db.accounts[uid].(passwordHash := HashPassword(newPassword))];
    RevokeAllSessions(db, uid);
    r := Ok("Password updated");
  }
}
