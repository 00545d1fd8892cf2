// app/services/auth.py: the claim checks of the bearer tokens, the session table behind
// the token pairs, the revocation of access tokens and the one-time codes.

module AuthService {

  import opened Wrappers
  import opened Json
  import opened Text
  import opened Enums
  import opened Db
  import opened Utils

  const INVALID_TOKEN: Error := HttpError(401, "Invalid token")
  const INVALID_SUBJECT: Error := HttpError(401, "Invalid subject in token")
  const FORBIDDEN: Error := HttpError(403, "Forbidden")
  const BANNED: Error := HttpError(403, "User is banned")
  const INVALID_REFRESH: Error := HttpError(401, "Invalid refresh token")
  const NOT_AUTHENTICATED: Error := HttpError(401, "Not authenticated")

  function TooManySessions(): Error
  {
    HttpError(403, "User already has the maximum number of sessions (" + IntToString(MAX_USER_SESSIONS) + ")")
  }

  // --- token claims -------------------------------------------------------------------------------------

  /**
   * What the JWT library makes of a bearer token: expired, invalid (bad signature, audience,
   * issuer, not yet valid, malformed), or valid with its payload.
   */
  datatype JwtVerdict = JwtExpired | JwtInvalid | JwtValid(payload: Dict)

  /** `jti in bloom_filter`: only strings are ever added. */
  predicate IsRevoked(jti: Json, revoked: set<string>)
  {
    jti.JStr? && jti.s in revoked
  }

  /** `decode_jwt_token`: the library's verdict, then a present, unrevoked `jti`. */
  function DecodeJwtToken(v: JwtVerdict, revoked: set<string>): (r: Result<Dict>)
    ensures r.Ok? <==> v.JwtValid? && Get(v.payload, "jti") != JNull && !IsRevoked(Get(v.payload, "jti"), revoked)
    ensures r.Ok? ==> r.value == v.payload
    ensures r.Err? ==> r.error == (if v.JwtExpired? then HttpError(401, "Token expired") else INVALID_TOKEN)
  {
    match v
    case JwtExpired => Err(HttpError(401, "Token expired"))
    case JwtInvalid => Err(INVALID_TOKEN)
    case JwtValid(p) =>
      var jti := Get(p, "jti");
      if jti == JNull || IsRevoked(jti, revoked) then Err(INVALID_TOKEN) else Ok(p)
  }

  /** Python `int(v)` on a claim: integers, booleans and integer strings convert; anything else raises. */
  function SubjectId(v: Json): (r: Option<int>)
    ensures v.JInt? ==> r == Some(v.i)
    ensures v.JStr? ==> r == ParseInt(v.s)
    ensures v.JNull? || v.JList? || v.JObj? ==> r.None?
  {
    match v
    case JInt(i) => Some(i)
    case JBool(b) => Some(if b then 1 else 0)
    case JStr(s) => ParseInt(s)
    case _ => None
  }

  /** The role a claim names, when it is the value of a role. */
  function RoleClaim(v: Json): (r: Option<UserRole>)
    ensures r.Some? <==> v.JStr? && ParseUserRole(v.s).Some?
    ensures r.Some? ==> v == JStr(UserRoleValue(r.value))
  {
    if v.JStr? then ParseUserRole(v.s) else None
  }

  /** A required role is met by the same role or by GOD; no role is required when there is none. */
  predicate RoleMet(required: Option<UserRole>, role: UserRole)
  {
    required.None? || required.value == role || role == RoleGod
  }

  /**
   * `authorize_user`: decode, then in order an access-type token (401), an integer subject
   * (401), a known role (401), a boolean verification flag (401), the required role (403);
   * a non-string `jti` fails the construction of the result.
   */
  function AuthorizeUser(v: JwtVerdict, revoked: set<string>, required: Option<UserRole>): (r: Result<AuthorizedUser>)
    ensures r.Ok? ==> v.JwtValid? && DecodeJwtToken(v, revoked).Ok?
    ensures r.Ok? ==> var p := v.payload;
      Get(p, "type") == JStr(TokenTypeValue(Access)) && SubjectId(Get(p, "sub")) == Some(r.value.id)
      && Get(p, "role") == JStr(UserRoleValue(r.value.role)) && Get(p, "email_verified") == JBool(r.value.emailVerified)
      && Get(p, "jti") == JStr(r.value.jti)
    ensures r.Ok? ==> RoleMet(required, r.value.role)
  {
    var p :- DecodeJwtToken(v, revoked);
    if Get(p, "type") != JStr(TokenTypeValue(Access)) then Err(INVALID_TOKEN)
    else if SubjectId(Get(p, "sub")).None? then Err(INVALID_SUBJECT)
    else if RoleClaim(Get(p, "role")).None? then Err(HttpError(401, "Invalid role in token"))
    else if !Get(p, "email_verified").JBool? then Err(HttpError(401, "Invalid email verified in token"))
    else
      var role := RoleClaim(Get(p, "role")).value;
      if !RoleMet(required, role) then Err(FORBIDDEN)
      else if !Get(p, "jti").JStr? then Err(Raised("ValidationError"))
      else Ok(AuthorizedUser(SubjectId(Get(p, "sub")).value, role, Get(p, "email_verified").b, Get(p, "jti").s))
  }

  /** `validate_refresh_token`: decode, then a refresh-type token (401) with a subject (401). */
  function ValidateRefreshToken(v: JwtVerdict, revoked: set<string>): (r: Result<Dict>)
    ensures r.Ok? <==> (DecodeJwtToken(v, revoked).Ok? && Get(v.payload, "type") == JStr(TokenTypeValue(Refresh))
      && Get(v.payload, "sub") != JNull)
    ensures r.Ok? ==> r.value == v.payload
    ensures r.Err? && DecodeJwtToken(v, revoked).Ok? ==>
      r.error == (if Get(v.payload, "type") != JStr(TokenTypeValue(Refresh)) then INVALID_TOKEN else INVALID_SUBJECT)
  {
    var p :- DecodeJwtToken(v, revoked);
    if Get(p, "type") != JStr(TokenTypeValue(Refresh)) then Err(INVALID_TOKEN)
    else if Get(p, "sub") == JNull then Err(INVALID_SUBJECT)
    else Ok(p)
  }

  /** The authorized caller together with the account row. */
  datatype AuthorizedUserDb = AuthorizedUserDb(id: int, user: Account, jti: string)

  /** `authorize_user_db`: the token checks, then the account must exist (401) and its stored role must also meet the requirement (403). */
  function AuthorizeUserDb(v: JwtVerdict, revoked: set<string>, accounts: map<int, Account>, required: Option<UserRole>)
    : (r: Result<AuthorizedUserDb>)
    ensures r.Ok? ==> AuthorizeUser(v, revoked, required).Ok? && r.value.id == AuthorizeUser(v, revoked, required).value.id
    ensures r.Ok? ==> r.value.id in accounts && r.value.user == accounts[r.value.id]
    ensures r.Ok? ==> RoleMet(required, AuthorizeUser(v, revoked, required).value.role) && RoleMet(required, r.value.user.role)
    ensures AuthorizeUser(v, revoked, required).Ok? && AuthorizeUser(v, revoked, required).value.id !in accounts ==>
      r == Err(INVALID_TOKEN)
  {
    var auth :- AuthorizeUser(v, revoked, required);
    if auth.id !in accounts then Err(INVALID_TOKEN)
    else if !RoleMet(required, accounts[auth.id].role) then Err(FORBIDDEN)
    else Ok(AuthorizedUserDb(auth.id, accounts[auth.id], auth.jti))
  }

  /** The claims `create_jwt_token` writes into an access token (the time, audience and issuer claims are the library's). */
  function AccessTokenClaims(userId: int, a: Account, jti: string): Dict
  {
    map["sub" := JStr(IntToString(userId)), "type" := JStr(TokenTypeValue(Access)), "jti" := JStr(jti),
        "email_verified" := JBool(a.emailVerified), "role" := JStr(UserRoleValue(a.role))]
  }

  /** The claims of a refresh token. */
  function RefreshTokenClaims(userId: int, jti: string): Dict
  {
    map["sub" := JStr(IntToString(userId)), "type" := JStr(TokenTypeValue(Refresh)), "jti" := JStr(jti)]
  }

  lemma RoleValueRoundTrip(role: UserRole)
    ensures ParseUserRole(UserRoleValue(role)) == Some(role)
  {
  }

  /**
   * An access token issued for an account authorizes as that account, its role, its flag and
   * the token id, as long as the id is not revoked and the role meets the requirement.
   */
  lemma IssuedAccessAuthorizes(userId: int, a: Account, jti: string, revoked: set<string>, required: Option<UserRole>)
    ensures var r := AuthorizeUser(JwtValid(AccessTokenClaims(userId, a, jti)), revoked, required);
      r == (if jti in revoked then Err(INVALID_TOKEN)
            else if RoleMet(required, a.role) then Ok(AuthorizedUser(userId, a.role, a.emailVerified, jti))
            else Err(FORBIDDEN))
  {
    var p := AccessTokenClaims(userId, a, jti);
    assert Get(p, "jti") == JStr(jti);
    assert Get(p, "type") == JStr(TokenTypeValue(Access));
    assert Get(p, "sub") == JStr(IntToString(userId));
    ParseIntToString(userId);
    assert Get(p, "role") == JStr(UserRoleValue(a.role));
    RoleValueRoundTrip(a.role);
    assert Get(p, "email_verified") == JBool(a.emailVerified);
  }

  /** Access and refresh tokens are not interchangeable. */
  lemma TokenTypesDiffer(userId: int, a: Account, jti: string, revoked: set<string>, required: Option<UserRole>)
    ensures AuthorizeUser(JwtValid(RefreshTokenClaims(userId, jti)), revoked, required).Err?
    ensures ValidateRefreshToken(JwtValid(AccessTokenClaims(userId, a, jti)), revoked).Err?
    ensures jti !in revoked ==> ValidateRefreshToken(JwtValid(RefreshTokenClaims(userId, jti)), revoked).Ok?
  {
    var p := RefreshTokenClaims(userId, jti);
    var q := AccessTokenClaims(userId, a, jti);
    assert Get(p, "type") == JStr("refresh") && Get(q, "type") == JStr("access");
    assert Get(p, "jti") == JStr(jti) && Get(q, "jti") == JStr(jti);
    assert Get(p, "sub") == JStr(IntToString(userId));
  }

  // --- sessions -----------------------------------------------------------------------------------------

  /** The ids of the account's sessions. */
  function SessionsOf(sessions: map<int, SessionRow>, userId: int): (r: set<int>)
    ensures forall i :: i in r <==> i in sessions && sessions[i].userId == userId
  {
    set i | i in sessions && sessions[i].userId == userId
  }

  /** The access-token ids of the account's sessions. */
  function AccessJtisOf(sessions: map<int, SessionRow>, userId: int): (r: set<string>)
    ensures forall i :: i in sessions && sessions[i].userId == userId ==> sessions[i].accessJti in r
  {
    set i | i in sessions && sessions[i].userId == userId :: sessions[i].accessJti
  }

  /** Whether a session other than `except` already holds the refresh-token id (the column is unique). */
  predicate RefreshJtiTaken(sessions: map<int, SessionRow>, jti: string, except: int)
  {
    exists i :: i in sessions && i != except && sessions[i].refreshJti == jti
  }

  /** The unique constraint on `sessions.refresh_jti`. */
  predicate UniqueRefreshJtis(sessions: map<int, SessionRow>)
  {
    forall i, j :: i in sessions && j in sessions && sessions[i].refreshJti == sessions[j].refreshJti ==> i == j
  }

  /** The token pair handed out: the claims of both tokens (signed by the library) and their lifetimes in seconds. */
  datatype TokenPair = TokenPair(access: Dict, refresh: Dict, expiresIn: int, refreshExpiresIn: int)

  function PairFor(userId: int, a: Account, accessJti: string, refreshJti: string): TokenPair
  {
    TokenPair(AccessTokenClaims(userId, a, accessJti), RefreshTokenClaims(userId, refreshJti),
      ACCESS_TOKEN_EXPIRES_MINUTES * 60, REFRESH_TOKEN_EXPIRES_DAYS * 24 * 60 * 60)
  }

  /**
   * `issue_token_pair`, given the two fresh token ids and the id a new session row gets:
   * a banned account is refused (403); an existing session is rewritten in place with the new
   * ids and name; otherwise a new session is added unless the account already has
   * `MAX_USER_SESSIONS` (403). A refresh id another session holds violates the unique column.
   */
  function IssueSpec(accounts: map<int, Account>, sessions: map<int, SessionRow>, userId: int, name: Option<string>,
                     session: Option<int>, accessJti: string, refreshJti: string, freshId: int, now: int)
    : (r: Result<(map<int, SessionRow>, TokenPair)>)
    requires userId in accounts
    requires session.Some? ==> session.value in sessions && sessions[session.value].userId == userId
    requires session.None? ==> freshId !in sessions
    ensures r.Ok? ==> !accounts[userId].isBanned && r.value.1 == PairFor(userId, accounts[userId], accessJti, refreshJti)
    ensures r.Ok? && session.None? ==>
      r.value.0 == sessions[freshId := SessionRow(userId, refreshJti, accessJti, name, now, now)]
      && |SessionsOf(sessions, userId)| < MAX_USER_SESSIONS
    ensures r.Ok? && session.Some? ==> (r.value.0.Keys == sessions.Keys
      && r.value.0 == sessions[session.value := SessionRow(userId, refreshJti, accessJti, name,
                                                               sessions[session.value].createdAt, now)])
    ensures r.Ok? ==> !RefreshJtiTaken(sessions, refreshJti, if session.Some? then session.value else freshId)
    ensures accounts[userId].isBanned ==> r == Err(BANNED)
  {
    if accounts[userId].isBanned then Err(BANNED)
    else if session.Some? then
      var sid := session.value;
      if RefreshJtiTaken(sessions, refreshJti, sid) then Err(Raised("IntegrityError"))
      else
        var s := sessions[sid].(refreshJti := refreshJti, accessJti := accessJti, name := name, updatedAt := now);
        Ok((sessions[sid := s], PairFor(userId, accounts[userId], accessJti, refreshJti)))
    else if |SessionsOf(sessions, userId)| >= MAX_USER_SESSIONS then Err(TooManySessions())
    else if RefreshJtiTaken(sessions, refreshJti, freshId) then Err(Raised("IntegrityError"))
    else Ok((sessions[freshId := SessionRow(userId, refreshJti, accessJti, name, now, now)],
             PairFor(userId, accounts[userId], accessJti, refreshJti)))
  }

  /** Issuing keeps every account within `MAX_USER_SESSIONS`. */
  lemma IssueKeepsSessionCap(accounts: map<int, Account>, sessions: map<int, SessionRow>, userId: int, name: Option<string>,
                             session: Option<int>, accessJti: string, refreshJti: string, freshId: int, now: int, other: int)
    requires userId in accounts
    requires session.Some? ==> session.value in sessions && sessions[session.value].userId == userId
    requires session.None? ==> freshId !in sessions
    requires |SessionsOf(sessions, other)| <= MAX_USER_SESSIONS
    requires IssueSpec(accounts, sessions, userId, name, session, accessJti, refreshJti, freshId, now).Ok?
    ensures |SessionsOf(IssueSpec(accounts, sessions, userId, name, session, accessJti, refreshJti, freshId, now).value.0, other)|
      <= MAX_USER_SESSIONS
  {
    var spec := IssueSpec(accounts, sessions, userId, name, session, accessJti, refreshJti, freshId, now);
    if session.Some? {
      var row := SessionRow(userId, refreshJti, accessJti, name, sessions[session.value].createdAt, now);
      assert spec.value.0 == sessions[session.value := row];
      SessionsOfRewrite(sessions, session.value, row, other);
    } else {
      var row := SessionRow(userId, refreshJti, accessJti, name, now, now);
      assert spec.value.0 == sessions[freshId := row];
      SessionsOfInsert(sessions, freshId, row, other);
    }
  }

  /** A new row adds its id to its account's sessions only. */
  lemma SessionsOfInsert(sessions: map<int, SessionRow>, id: int, row: SessionRow, other: int)
    requires id !in sessions
    ensures |SessionsOf(sessions[id := row], other)|
      == |SessionsOf(sessions, other)| + (if row.userId == other then 1 else 0)
  {
    if row.userId == other {
      assert SessionsOf(sessions[id := row], other) == SessionsOf(sessions, other) + {id};
    } else {
      assert SessionsOf(sessions[id := row], other) == SessionsOf(sessions, other);
    }
  }

  /** Rewriting a row that stays with its account changes no account's sessions. */
  lemma SessionsOfRewrite(sessions: map<int, SessionRow>, id: int, row: SessionRow, other: int)
    requires id in sessions && sessions[id].userId == row.userId
    ensures SessionsOf(sessions[id := row], other) == SessionsOf(sessions, other)
  {
  }

  /** Issuing keeps the refresh ids of the session table unique. */
  lemma IssueKeepsRefreshJtisUnique(accounts: map<int, Account>, sessions: map<int, SessionRow>, userId: int, name: Option<string>,
                                    session: Option<int>, accessJti: string, refreshJti: string, freshId: int, now: int)
    requires userId in accounts
    requires session.Some? ==> session.value in sessions && sessions[session.value].userId == userId
    requires session.None? ==> freshId !in sessions
    requires UniqueRefreshJtis(sessions)
    requires IssueSpec(accounts, sessions, userId, name, session, accessJti, refreshJti, freshId, now).Ok?
    ensures UniqueRefreshJtis(IssueSpec(accounts, sessions, userId, name, session, accessJti, refreshJti, freshId, now).value.0)
  {
    var after := IssueSpec(accounts, sessions, userId, name, session, accessJti, refreshJti, freshId, now).value.0;
    var changed := if session.Some? then session.value else freshId;
    assert !RefreshJtiTaken(sessions, refreshJti, changed);
    var created := if session.Some? then sessions[changed].createdAt else now;
    assert after == sessions[changed := SessionRow(userId, refreshJti, accessJti, name, created, now)];
    forall i, j | i in after && j in after && after[i].refreshJti == after[j].refreshJti ensures i == j {
      if i != changed && j != changed {
        assert i in sessions && j in sessions;
      }
    }
  }

  /** A call of `issue_token_pair` behaving as `spec`: the pair and the new sessions, or the error and no change. */
  predicate IssuedAs(spec: Result<(map<int, SessionRow>, TokenPair)>, r: Result<TokenPair>,
                     before: map<int, SessionRow>, after: map<int, SessionRow>)
  {
    (spec.Ok? ==> r == Ok(spec.value.1) && after == spec.value.0)
    && (spec.Err? ==> r == Err(spec.error) && after == before)
  }

  method IssueTokenPair(db: Database, userId: int, name: Option<string>, session: Option<int>,
                        accessJti: string, refreshJti: string, freshId: int) returns (r: Result<TokenPair>)
    requires userId in db.accounts
    requires session.Some? ==> session.value in db.sessions && db.sessions[session.value].userId == userId
    requires session.None? ==> freshId !in db.sessions
    modifies db`sessions
    ensures IssuedAs(IssueSpec(db.accounts, old(db.sessions), userId, name, session, accessJti, refreshJti, freshId, db.now),
                     r, old(db.sessions), db.sessions)
  {
    var user := db.accounts[userId];
    if user.isBanned {
      return Err(BANNED);
    }
    if session.Some? {
      var sid := session.value;
      if RefreshJtiTaken(db.sessions, refreshJti, sid) {
        return Err(Raised("IntegrityError"));
      }
      var s := db.sessions[sid];
      s := s.(refreshJti := refreshJti, accessJti := accessJti, name := name, updatedAt := db.now);
      db.sessions := db.sessions[sid := s];
    } else {
      if |SessionsOf(db.sessions, userId)| >= MAX_USER_SESSIONS {
        return Err(TooManySessions());
      }
      if RefreshJtiTaken(db.sessions, refreshJti, freshId) {
        return Err(Raised("IntegrityError"));
      }
      db.sessions := db.sessions[freshId := SessionRow(userId, refreshJti, accessJti, name, db.now, db.now)];
    }
    r := Ok(PairFor(userId, user, accessJti, refreshJti));
  }

  /** The sessions a refresh token rotates: its id as refresh id, its subject as the (existing) account. */
  function RotationCandidates(sessions: map<int, SessionRow>, accounts: map<int, Account>, sub: Json, jti: Json): (r: set<int>)
    ensures forall i :: i in r <==> (i in sessions && jti == JStr(sessions[i].refreshJti)
      && SubjectId(sub) == Some(sessions[i].userId) && sessions[i].userId in accounts)
  {
    set i | i in sessions && jti == JStr(sessions[i].refreshJti) && SubjectId(sub) == Some(sessions[i].userId)
      && sessions[i].userId in accounts
  }

  /**
   * `rotate_refresh_token`: the session of the refresh token (401 when there is none), whose
   * current access id is revoked before the pair is reissued on the same session row. The
   * revocation stays even when the reissue is then refused.
   */
  method RotateRefreshToken(db: Database, sub: Json, jti: Json, name: Option<string>, accessJti: string, refreshJti: string)
    returns (r: Result<TokenPair>)
    modifies db`sessions, db`revoked
    ensures var found := OneOrNone(RotationCandidates(old(db.sessions), db.accounts, sub, jti));
      (found.Err? ==> r == Err(found.error) && db.sessions == old(db.sessions) && db.revoked == old(db.revoked))
      && (found == Ok(None) ==> r == Err(INVALID_REFRESH) && db.sessions == old(db.sessions) && db.revoked == old(db.revoked))
    ensures var found := OneOrNone(RotationCandidates(old(db.sessions), db.accounts, sub, jti));
      found.Ok? && found.value.Some? ==>
        var sid := found.value.value;
        var s := old(db.sessions)[sid];
        db.revoked == old(db.revoked) + {s.accessJti}
        && IssuedAs(IssueSpec(db.accounts, old(db.sessions), s.userId, name, Some(sid), accessJti, refreshJti, 0, db.now),
                    r, old(db.sessions), db.sessions)
  {
    var candidates := RotationCandidates(db.sessions, db.accounts, sub, jti);
    var found := ScalarOneOrNone(candidates);
    assert found == OneOrNone(RotationCandidates(old(db.sessions), db.accounts, sub, jti));
    if found.Err? {
      return Err(found.error);
    }
    if found.value.None? {
      return Err(INVALID_REFRESH);
    }
    var sid := found.value.value;
    assert sid in candidates;
    var s := db.sessions[sid];
    assert s.userId in db.accounts;
    db.revoked := db.revoked + {s.accessJti};
    assert db.sessions == old(db.sessions);
    r := IssueTokenPair(db, s.userId, name, Some(sid), accessJti, refreshJti, 0);
  }

  /** The sessions left when the account's are deleted. */
  function SessionsWithout(sessions: map<int, SessionRow>, userId: int): (r: map<int, SessionRow>)
    ensures forall i :: i in r <==> i in sessions && sessions[i].userId != userId
    ensures forall i :: i in r ==> r[i] == sessions[i]
  {
    map i | i in sessions && sessions[i].userId != userId :: sessions[i]
  }

  /** The loop over the account's sessions adding each access id to the revocation set. */
  method RevokeAccessJtis(db: Database, userId: int)
    modifies db`revoked
    ensures db.revoked == old(db.revoked) + AccessJtisOf(db.sessions, userId)
  {
    var ids := SessionsOf(db.sessions, userId);
    var left := ids;
    while left != {}
      decreases |left|
      invariant left <= ids
      invariant db.revoked == old(db.revoked) + (set i | i in ids - left :: db.sessions[i].accessJti)
    {
      var i := Choose(left);
      db.revoked := db.revoked + {db.sessions[i].accessJti};
      left := left - {i};
      assert ids - left == (ids - (left + {i})) + {i};
    }
    assert ids - left == ids;
    assert (set i | i in ids :: db.sessions[i].accessJti) == AccessJtisOf(db.sessions, userId);
  }

  /** `revoke_all_sessions`: every access id of the account's sessions is revoked, then the sessions are deleted. */
  method RevokeAllSessions(db: Database, userId: int)
    modifies db`sessions, db`revoked
    ensures db.revoked == old(db.revoked) + AccessJtisOf(old(db.sessions), userId)
    ensures db.sessions == SessionsWithout(old(db.sessions), userId)
  {
    RevokeAccessJtis(db, userId);
    db.sessions := SessionsWithout(db.sessions, userId);
  }

  /** After `revoke_all_sessions` no access token of the account's former sessions authorizes, and none of its sessions is left. */
  lemma RevokedSessionsRefused(sessions: map<int, SessionRow>, revoked: set<string>, userId: int, a: Account,
                               required: Option<UserRole>)
    ensures SessionsOf(SessionsWithout(sessions, userId), userId) == {}
    ensures forall i :: i in sessions && sessions[i].userId == userId ==>
      AuthorizeUser(JwtValid(AccessTokenClaims(userId, a, sessions[i].accessJti)), revoked + AccessJtisOf(sessions, userId), required)
        == Err(INVALID_TOKEN)
  {
    forall i | i in sessions && sessions[i].userId == userId
      ensures AuthorizeUser(JwtValid(AccessTokenClaims(userId, a, sessions[i].accessJti)), revoked + AccessJtisOf(sessions, userId), required)
        == Err(INVALID_TOKEN)
    {
      IssuedAccessAuthorizes(userId, a, sessions[i].accessJti, revoked + AccessJtisOf(sessions, userId), required);
    }
  }

  /** `revoke_session_by_jti`: the session holding the refresh id, if any, has its access id revoked and is deleted. */
  method RevokeSessionByJti(db: Database, jti: string) returns (r: Result<()>)
    modifies db`sessions, db`revoked
    ensures var found := OneOrNone(set i | i in old(db.sessions) && old(db.sessions)[i].refreshJti == jti);
      (found.Err? ==> r == Err(found.error) && db.sessions == old(db.sessions) && db.revoked == old(db.revoked))
      && (found == Ok(None) ==> r == Ok(()) && db.sessions == old(db.sessions) && db.revoked == old(db.revoked))
      && (found.Ok? && found.value.Some? ==> (r == Ok(())
            && db.revoked == old(db.revoked) + {old(db.sessions)[found.value.value].accessJti}
            && db.sessions == old(db.sessions) - {found.value.value}))
  {
    var found := ScalarOneOrNone(set i | i in db.sessions && db.sessions[i].refreshJti == jti);
    if found.Err? {
      return Err(found.error);
    }
    if found.value.Some? {
      var sid := found.value.value;
      db.revoked := db.revoked + {db.sessions[sid].accessJti};
      db.sessions := db.sessions - {sid};
    }
    r := Ok(());
  }

  /** Under the unique refresh ids, the session found by its refresh id is that session. */
  lemma RefreshJtiFindsSession(sessions: map<int, SessionRow>, sid: int)
    requires UniqueRefreshJtis(sessions) && sid in sessions
    ensures OneOrNone(set i | i in sessions && sessions[i].refreshJti == sessions[sid].refreshJti) == Ok(Some(sid))
  {
    var found := set i | i in sessions && sessions[i].refreshJti == sessions[sid].refreshJti;
    forall i | i in found ensures i == sid {
      assert sessions[i].refreshJti == sessions[sid].refreshJti;
    }
    assert found == {sid};
  }

  /**
   * `logout_current_session`: the session of the caller's access id; the id is revoked
   * whether or not it exists, then 401 when it does not, else the session is deleted.
   */
  method LogoutCurrentSession(db: Database, user: AuthorizedUser) returns (r: Result<()>)
    modifies db`sessions, db`revoked
    ensures var found := OneOrNone(set i | i in old(db.sessions) && old(db.sessions)[i].userId == user.id
                                            && old(db.sessions)[i].accessJti == user.jti);
      (found.Err? ==> r == Err(found.error) && db.sessions == old(db.sessions) && db.revoked == old(db.revoked))
      && (found == Ok(None) ==> (r == Err(NOT_AUTHENTICATED) && db.sessions == old(db.sessions)
            && db.revoked == old(db.revoked) + {user.jti}))
      && (found.Ok? && found.value.Some? ==> (r == Ok(()) && db.sessions == old(db.sessions) - {found.value.value}
            && db.revoked == old(db.revoked) + {user.jti}))
  {
    var found := ScalarOneOrNone(set i | i in db.sessions && db.sessions[i].userId == user.id && db.sessions[i].accessJti == user.jti);
    if found.Err? {
      return Err(found.error);
    }
    db.revoked := db.revoked + {user.jti};
    if found.value.None? {
      return Err(NOT_AUTHENTICATED);
    }
    db.sessions := db.sessions - {found.value.value};
    r := Ok(());
  }

  // --- one-time codes -----------------------------------------------------------------------------------

  /** The codes left when the account's codes of one kind are deleted. */
  function OtpsWithout(otps: map<int, OtpRow>, userId: int, t: OtpCodeType): (r: map<int, OtpRow>)
    ensures forall i :: i in r <==> i in otps && !(otps[i].userId == userId && otps[i].otpType == t)
    ensures forall i :: i in r ==> r[i] == otps[i]
  {
    map i | i in otps && !(otps[i].userId == userId && otps[i].otpType == t) :: otps[i]
  }

  /** The unique constraint on (`user_id`, `type`) of `otp_codes`. */
  predicate OneOtpPerKind(otps: map<int, OtpRow>)
  {
    forall i, j :: i in otps && j in otps && otps[i].userId == otps[j].userId && otps[i].otpType == otps[j].otpType ==> i == j
  }

  /**
   * `issue_otp`, with `draw` the value the random source returned and `freshId` the id of the
   * new row: the account's code of that kind is replaced by a fresh `OTP_LENGTH`-digit code.
   */
  method IssueOtp(db: Database, userId: int, t: OtpCodeType, draw: nat, freshId: int) returns (code: string)
    requires draw < Pow10(OTP_LENGTH) && freshId !in db.otps
    modifies db`otps
    ensures |code| == OTP_LENGTH && AllDigits(code) && DecimalValue(code) == draw
    ensures db.otps == OtpsWithout(old(db.otps), userId, t)[freshId := OtpRow(userId, code, t, db.now)]
  {
    var generated := GenerateNumericOtp(OTP_LENGTH, draw);
    code := generated.value;
    db.otps := OtpsWithout(db.otps, userId, t);
    db.otps := db.otps[freshId := OtpRow(userId, code, t, db.now)];
  }

  /** Deleting before inserting keeps one code per account and kind, and the new code is the account's only one of its kind. */
  lemma IssueOtpKeepsOnePerKind(otps: map<int, OtpRow>, userId: int, t: OtpCodeType, code: string, freshId: int, now: int)
    requires OneOtpPerKind(otps) && freshId !in otps
    ensures var after := OtpsWithout(otps, userId, t)[freshId := OtpRow(userId, code, t, now)];
      OneOtpPerKind(after)
      && forall i :: i in after && after[i].userId == userId && after[i].otpType == t ==> i == freshId
  {
    var after := OtpsWithout(otps, userId, t)[freshId := OtpRow(userId, code, t, now)];
    forall i, j | i in after && j in after && after[i].userId == after[j].userId && after[i].otpType == after[j].otpType
      ensures i == j
    {
      if i != freshId && j != freshId {
        assert i in otps && j in otps;
      }
    }
  }

  /** `send_verification_email`: nothing for a verified account, else a fresh VERIFY_EMAIL code (the mail itself is I/O). */
  method SendVerificationEmail(db: Database, userId: int, draw: nat, freshId: int) returns (code: Option<string>)
    requires userId in db.accounts && draw < Pow10(OTP_LENGTH) && freshId !in db.otps
    modifies db`otps
    ensures db.accounts[userId].emailVerified ==> code.None? && db.otps == old(db.otps)
    ensures !db.accounts[userId].emailVerified ==> (code.Some? && AllDigits(code.value) && DecimalValue(code.value) == draw
      && db.otps == OtpsWithout(old(db.otps), userId, VerifyEmail)[freshId := OtpRow(userId, code.value, VerifyEmail, db.now)])
  {
    if db.accounts[userId].emailVerified {
      return None;
    }
    var c := IssueOtp(db, userId, VerifyEmail, draw, freshId);
    code := Some(c);
  }
}
