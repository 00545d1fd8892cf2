// app/routes/users.py: reading, patching and deleting accounts, and the four flag toggles.

module UsersRoutes {

  import opened Wrappers
  import opened Enums
  import opened Db
  import opened Utils
  import opened AuthService
  import opened AuthRoutes

  const USER_NOT_FOUND: Error := HttpError(404, "User not found")

  // --- get_user -----------------------------------------------------------------------------------------

  /** `get_user`: an account may read itself; ADMIN and GOD may read anyone; then 404 for an unknown id. */
  function GetUser(accounts: map<int, Account>, caller: AuthorizedUser, userId: int): (r: Result<Account>)
    ensures r.Ok? <==> (userId == caller.id || IsAdminRole(caller.role)) && userId in accounts
    ensures r.Ok? ==> r.value == accounts[userId]
    ensures r.Err? ==> r.error == (if userId == caller.id || IsAdminRole(caller.role) then USER_NOT_FOUND else FORBIDDEN)
  {
    if userId != caller.id && caller.role != RoleAdmin && caller.role != RoleGod then Err(FORBIDDEN)
    else if userId !in accounts then Err(USER_NOT_FOUND)
    else Ok(accounts[userId])
  }

  // --- update_user --------------------------------------------------------------------------------------

  /** A request field: absent from the body, or given (possibly as null). */
  datatype Patch<T> = Unset | Set(value: Option<T>)

  /** `UserUpdateRequest`. */
  datatype UserUpdate = UserUpdate(email: Patch<string>, username: Patch<string>, isBanned: Patch<bool>,
                                   emailVerified: Patch<bool>, role: Patch<UserRole>)

  /** One `setattr(user, key, value)` of the update loop. */
  datatype FieldSet =
    | SetEmail(email: Option<string>)
    | SetUsername(username: Option<string>)
    | SetBanned(banned: Option<bool>)
    | SetVerified(verified: Option<bool>)
    | SetRole(role: Option<UserRole>)

  function Given<T>(p: Patch<T>, f: Option<T> -> FieldSet): (r: seq<FieldSet>)
    ensures |r| == (if p.Set? then 1 else 0)
  {
    if p.Set? then [f(p.value)] else []
  }

  /** `model_dump(exclude_unset=True)`: the explicitly given fields, in declaration order. */
  function SetFields(u: UserUpdate): (r: seq<FieldSet>)
    ensures |r| <= 5
  {
    Given(u.email, x => SetEmail(x)) + (Given(u.username, x => SetUsername(x)) + (Given(u.isBanned, x => SetBanned(x))
    + (Given(u.emailVerified, x => SetVerified(x)) + Given(u.role, x => SetRole(x)))))
  }

  /** Whether the assignment puts a null into a non-null column. */
  predicate IsNull(f: FieldSet)
  {
    match f
    case SetEmail(v) => v.None?
    case SetUsername(v) => v.None?
    case SetBanned(v) => v.None?
    case SetVerified(v) => v.None?
    case SetRole(v) => v.None?
  }

  /** The account after one assignment (a null leaves it as it was: the commit is refused anyway). */
  function ApplyField(a: Account, f: FieldSet): Account
  {
    match f
    case SetEmail(v) => if v.Some? then a.(email := v.value) else a
    case SetUsername(v) => if v.Some? then a.(username := v.value) else a
    case SetBanned(v) => if v.Some? then a.(isBanned := v.value) else a
    case SetVerified(v) => if v.Some? then a.(emailVerified := v.value) else a
    case SetRole(v) => if v.Some? then a.(role := v.value) else a
  }

  /** The account after the assignments, in order. */
  function ApplyAll(a: Account, fs: seq<FieldSet>): Account
    decreases |fs|
  {
    if fs == [] then a else ApplyAll(ApplyField(a, fs[0]), fs[1..])
  }

  /** The given value of a field, else the stored one. */
  function PatchedValue<T>(p: Patch<T>, stored: T): T
  {
    if p.Set? && p.value.Some? then p.value.value else stored
  }

  /** The update field by field: every given, non-null field takes its value and every other keeps its own. */
  function Patched(a: Account, u: UserUpdate): (b: Account)
    ensures b.passwordHash == a.passwordHash
  {
    Account(PatchedValue(u.email, a.email), PatchedValue(u.username, a.username), PatchedValue(u.isBanned, a.isBanned),
            a.passwordHash, PatchedValue(u.emailVerified, a.emailVerified), PatchedValue(u.role, a.role))
  }

  /** Whether some given field is null. */
  predicate HasNull(u: UserUpdate)
  {
    (u.email.Set? && u.email.value.None?) || (u.username.Set? && u.username.value.None?)
    || (u.isBanned.Set? && u.isBanned.value.None?) || (u.emailVerified.Set? && u.emailVerified.value.None?)
    || (u.role.Set? && u.role.value.None?)
  }

  /** A field given or not, followed by the rest of the assignments. */
  lemma ApplyGiven<T>(a: Account, p: Patch<T>, f: Option<T> -> FieldSet, rest: seq<FieldSet>)
    ensures ApplyAll(a, Given(p, f) + rest) == ApplyAll(if p.Set? then ApplyField(a, f(p.value)) else a, rest)
  {
    if p.Set? {
      assert (Given(p, f) + rest)[1..] == rest;
    } else {
      assert Given(p, f) + rest == rest;
    }
  }

  lemma ApplyLast<T>(a: Account, p: Patch<T>, f: Option<T> -> FieldSet)
    ensures ApplyAll(a, Given(p, f)) == if p.Set? then ApplyField(a, f(p.value)) else a
  {
  }

  /** Running the loop over the given fields is the field-by-field update. */
  lemma SetFieldsPatch(a: Account, u: UserUpdate)
    ensures ApplyAll(a, SetFields(u)) == Patched(a, u)
  {
    var n := Given(u.username, x => SetUsername(x));
    var b := Given(u.isBanned, x => SetBanned(x));
    var v := Given(u.emailVerified, x => SetVerified(x));
    var ro := Given(u.role, x => SetRole(x));
    var a1 := a.(email := PatchedValue(u.email, a.email));
    var a2 := a1.(username := PatchedValue(u.username, a.username));
    var a3 := a2.(isBanned := PatchedValue(u.isBanned, a.isBanned));
    var a4 := a3.(emailVerified := PatchedValue(u.emailVerified, a.emailVerified));
    calc {
      ApplyAll(a, SetFields(u));
      { ApplyGiven(a, u.email, x => SetEmail(x), n + (b + (v + ro))); }
      ApplyAll(a1, n + (b + (v + ro)));
      { ApplyGiven(a1, u.username, x => SetUsername(x), b + (v + ro)); }
      ApplyAll(a2, b + (v + ro));
      { ApplyGiven(a2, u.isBanned, x => SetBanned(x), v + ro); }
      ApplyAll(a3, v + ro);
      { ApplyGiven(a3, u.emailVerified, x => SetVerified(x), ro); }
      ApplyAll(a4, ro);
      { ApplyLast(a4, u.role, x => SetRole(x)); }
      a4.(role := PatchedValue(u.role, a.role));
    }
  }

  /** The fields the request leaves unset keep their values, and applying the same update twice changes nothing more. */
  lemma UpdateTouchesOnlySetFields(a: Account, u: UserUpdate)
    ensures u.email.Unset? ==> Patched(a, u).email == a.email
    ensures u.username.Unset? ==> Patched(a, u).username == a.username
    ensures u.isBanned.Unset? ==> Patched(a, u).isBanned == a.isBanned
    ensures u.emailVerified.Unset? ==> Patched(a, u).emailVerified == a.emailVerified
    ensures u.role.Unset? ==> Patched(a, u).role == a.role
    ensures Patched(Patched(a, u), u) == Patched(a, u)
  {
  }

  /** Another account already holds the e-mail or username the update gives (both columns are unique). */
  predicate Clashes(accounts: map<int, Account>, userId: int, b: Account)
  {
    exists j :: j in accounts && j != userId && (accounts[j].email == b.email || accounts[j].username == b.username)
  }

  /**
   * `update_user` (GOD only): 404 for an unknown id; a null in a non-null column or a value
   * another account holds in a unique column fails the commit; otherwise the given fields are set.
   */
  function UpdateSpec(accounts: map<int, Account>, userId: int, u: UserUpdate): (r: Result<Account>)
    ensures r.Ok? ==> userId in accounts && !HasNull(u) && r.value == Patched(accounts[userId], u)
    ensures r.Ok? ==> !Clashes(accounts, userId, r.value)
    ensures userId !in accounts ==> r == Err(USER_NOT_FOUND)
  {
    if userId !in accounts then Err(USER_NOT_FOUND)
    else if HasNull(u) then Err(Raised("IntegrityError"))
    else if Clashes(accounts, userId, Patched(accounts[userId], u)) then Err(Raised("IntegrityError"))
    else Ok(Patched(accounts[userId], u))
  }

  lemma NullFieldsSeen(u: UserUpdate)
    ensures HasNull(u) <==> exists i :: 0 <= i < |SetFields(u)| && IsNull(SetFields(u)[i])
  {
    var e := Given(u.email, x => SetEmail(x));
    var n := Given(u.username, x => SetUsername(x));
    var b := Given(u.isBanned, x => SetBanned(x));
    var v := Given(u.emailVerified, x => SetVerified(x));
    var ro := Given(u.role, x => SetRole(x));
    assert SetFields(u) == e + n + b + v + ro;
    if HasNull(u) {
      var k := if u.email.Set? && u.email.value.None? then 0
               else if u.username.Set? && u.username.value.None? then |e|
               else if u.isBanned.Set? && u.isBanned.value.None? then |e| + |n|
               else if u.emailVerified.Set? && u.emailVerified.value.None? then |e| + |n| + |b|
               else |e| + |n| + |b| + |v|;
      assert IsNull(SetFields(u)[k]);
    }
  }

  /** `update_user` sits behind `require_role(GOD)`: the caller's token role meets GOD. */
  predicate GodCaller(caller: AuthorizedUser)
  {
    RoleMet(Some(RoleGod), caller.role)
  }

  /** Only GOD itself meets the GOD requirement. */
  lemma GodCallerIsGod(caller: AuthorizedUser)
    ensures GodCaller(caller) <==> caller.role == RoleGod
  {
  }

  method UpdateUser(db: Database, caller: AuthorizedUser, userId: int, u: UserUpdate) returns (r: Result<Account>)
    requires GodCaller(caller)
    modifies db`accounts
    ensures r == UpdateSpec(old(db.accounts), userId, u)
    ensures r.Ok? ==> db.accounts == old(db.accounts)[userId := r.value]
    ensures r.Err? ==> db.accounts == old(db.accounts)
  {
    if userId !in db.accounts {
      return Err(USER_NOT_FOUND);
    }
    var fields := SetFields(u);
    var user := db.accounts[userId];
    var nulls := false;
    var i := 0;
    while i < |fields|
      invariant 0 <= i <= |fields|
      invariant ApplyAll(user, fields[i..]) == ApplyAll(db.accounts[userId], fields)
      invariant nulls <==> exists k :: 0 <= k < i && IsNull(fields[k])
    {
      assert fields[i..][1..] == fields[i + 1..];
      user := ApplyField(user, fields[i]);
      nulls := nulls || IsNull(fields[i]);
      i := i + 1;
    }
    SetFieldsPatch(db.accounts[userId], u);
    NullFieldsSeen(u);
    if nulls || Clashes(db.accounts, userId, user) {
      return Err(Raised("IntegrityError"));
    }
    db.accounts := db.accounts[userId := user];
    r := Ok(user);
  }

  // --- delete_user --------------------------------------------------------------------------------------

  /** `delete_user`: an account may delete itself and GOD anyone (ADMIN is not enough). */
  predicate MayDelete(caller: AuthorizedUser, userId: int)
  {
    caller.id == userId || caller.role == RoleGod
  }

  /**
   * The flush of `db.delete(user)` once the account's sessions are loaded (`delete_user` loads them to
   * revoke their access ids): the relationship has no delete cascade, so the ORM sets each loaded
   * session's `user_id` to NULL, which the NOT NULL column refuses. Without sessions nothing is nulled
   * and the database's `ON DELETE CASCADE` removes the other dependent rows.
   */
  function DeleteFlushAsWritten(sessions: map<int, SessionRow>, userId: int): (r: Result<()>)
    ensures r.Ok? <==> SessionsOf(sessions, userId) == {}
    ensures r.Ok? ==> forall i :: i in sessions ==> sessions[i].userId != userId
    ensures r.Err? ==> r == Err(Raised("IntegrityError"))
  {
    if SessionsOf(sessions, userId) == {} then Ok(()) else Err(Raised("IntegrityError"))
  }

  /** An account that holds a freshly issued session (every registered or logged-in one) cannot be deleted as written. */
  lemma IssuedAccountCannotBeDeleted(accounts: map<int, Account>, sessions: map<int, SessionRow>, userId: int,
                                     name: Option<string>, session: Option<int>, accessJti: string, refreshJti: string,
                                     freshId: int, now: int)
    requires userId in accounts
    requires session.Some? ==> session.value in sessions && sessions[session.value].userId == userId
    requires session.None? ==> freshId !in sessions
    requires IssueSpec(accounts, sessions, userId, name, session, accessJti, refreshJti, freshId, now).Ok?
    ensures DeleteFlushAsWritten(IssueSpec(accounts, sessions, userId, name, session, accessJti, refreshJti, freshId, now).value.0,
                                 userId) == Err(Raised("IntegrityError"))
  {
    var after := IssueSpec(accounts, sessions, userId, name, session, accessJti, refreshJti, freshId, now).value.0;
    var sid := if session.Some? then session.value else freshId;
    assert sid in after && after[sid].userId == userId;
  }

  /** Removes the account and every row that depends on it (what the database's `ON DELETE CASCADE` does). */
  method DropAccount(db: Database, userId: int)
    modifies db`accounts, db`sessions, db`userBots, db`otps, db`readMarks
    ensures db.accounts == old(db.accounts) - {userId}
    ensures db.sessions == SessionsWithout(old(db.sessions), userId) && SessionsOf(db.sessions, userId) == {}
    ensures db.userBots == (map k | k in old(db.userBots) && k.userId != userId :: old(db.userBots)[k])
    ensures db.otps == (map i | i in old(db.otps) && old(db.otps)[i].userId != userId :: old(db.otps)[i])
    ensures db.readMarks == (map k | k in old(db.readMarks) && k.userId != userId :: old(db.readMarks)[k])
  {
    db.accounts := db.accounts - {userId};
    db.sessions := SessionsWithout(db.sessions, userId);
    db.userBots := map k | k in db.userBots && k.userId != userId :: db.userBots[k];
    db.otps := map i | i in db.otps && db.otps[i].userId != userId :: db.otps[i];
    db.readMarks := map k | k in db.readMarks && k.userId != userId :: db.readMarks[k];
  }

  /**
   * `delete_user` as written: 403 or 404, then every session's access id is revoked (the revocation filter
   * lives outside the transaction) and the account is deleted; the flush fails with an IntegrityError, and
   * the transaction rolls back, whenever the account has a session.
   */
  method DeleteUser(db: Database, caller: AuthorizedUser, userId: int) returns (r: Result<()>)
    modifies db`accounts, db`sessions, db`revoked, db`userBots, db`otps, db`readMarks
    ensures !MayDelete(caller, userId) ==> r == Err(FORBIDDEN)
    ensures MayDelete(caller, userId) && userId !in old(db.accounts) ==> r == Err(USER_NOT_FOUND)
    ensures MayDelete(caller, userId) && userId in old(db.accounts) ==>
      r == DeleteFlushAsWritten(old(db.sessions), userId)
      && db.revoked == old(db.revoked) + AccessJtisOf(old(db.sessions), userId)
    ensures r.Err? ==> (db.accounts == old(db.accounts) && db.sessions == old(db.sessions)
      && db.userBots == old(db.userBots) && db.otps == old(db.otps) && db.readMarks == old(db.readMarks))
    ensures r.Err? && !(MayDelete(caller, userId) && userId in old(db.accounts)) ==> db.revoked == old(db.revoked)
    ensures r.Ok? ==>
      db.accounts == old(db.accounts) - {userId} && db.sessions == old(db.sessions)
      && db.userBots == (map k | k in old(db.userBots) && k.userId != userId :: old(db.userBots)[k])
      && db.otps == (map i | i in old(db.otps) && old(db.otps)[i].userId != userId :: old(db.otps)[i])
      && db.readMarks == (map k | k in old(db.readMarks) && k.userId != userId :: old(db.readMarks)[k])
  {
    if caller.id != userId && caller.role != RoleGod {
      return Err(FORBIDDEN);
    }
    if userId !in db.accounts {
      return Err(USER_NOT_FOUND);
    }
    RevokeAccessJtis(db, userId);
    r := DeleteFlushAsWritten(db.sessions, userId);
    if r.Err? {
      return;
    }
    DropAccount(db, userId);
  }

  /**
   * `delete_user` as its design intends (the sessions deleted with the account): 403 or 404, then every
   * session's access id is revoked and the account is deleted, its sessions, bot links, codes and read
   * marks with it.
   */
  method DeleteUserCascading(db: Database, caller: AuthorizedUser, userId: int) returns (r: Result<()>)
    modifies db`accounts, db`sessions, db`revoked, db`userBots, db`otps, db`readMarks
    ensures !MayDelete(caller, userId) ==> r == Err(FORBIDDEN)
    ensures MayDelete(caller, userId) && userId !in old(db.accounts) ==> r == Err(USER_NOT_FOUND)
    ensures r.Err? ==> (db.accounts == old(db.accounts) && db.sessions == old(db.sessions) && db.revoked == old(db.revoked)
      && db.userBots == old(db.userBots) && db.otps == old(db.otps) && db.readMarks == old(db.readMarks))
    ensures MayDelete(caller, userId) && userId in old(db.accounts) ==>
      r == Ok(()) && db.accounts == old(db.accounts) - {userId}
      && db.revoked == old(db.revoked) + AccessJtisOf(old(db.sessions), userId)
      && db.sessions == SessionsWithout(old(db.sessions), userId) && SessionsOf(db.sessions, userId) == {}
      && db.userBots == (map k | k in old(db.userBots) && k.userId != userId :: old(db.userBots)[k])
      && db.otps == (map i | i in old(db.otps) && old(db.otps)[i].userId != userId :: old(db.otps)[i])
      && db.readMarks == (map k | k in old(db.readMarks) && k.userId != userId :: old(db.readMarks)[k])
  {
    if caller.id != userId && caller.role != RoleGod {
      return Err(FORBIDDEN);
    }
    if userId !in db.accounts {
      return Err(USER_NOT_FOUND);
    }
    RevokeAccessJtis(db, userId);
    DropAccount(db, userId);
    r := Ok(());
  }

  /** The permission of `delete_user` is stricter than that of `get_user`: ADMIN may read but not delete others. */
  lemma DeleteNeedsGod(accounts: map<int, Account>, caller: AuthorizedUser, userId: int)
    requires userId != caller.id && userId in accounts
    ensures MayDelete(caller, userId) ==> GetUser(accounts, caller, userId).Ok?
    ensures caller.role == RoleAdmin ==> !MayDelete(caller, userId) && GetUser(accounts, caller, userId).Ok?
  {
  }

  // --- the flag toggles ---------------------------------------------------------------------------------

  /** The toggles sit behind `require_role(ADMIN)`: the caller's token role is ADMIN or GOD. */
  predicate AdminCaller(caller: AuthorizedUser)
  {
    RoleMet(Some(RoleAdmin), caller.role)
  }

  method BanUser(db: Database, caller: AuthorizedUser, userId: int) returns (r: Result<Account>)
    requires AdminCaller(caller)
    modifies db`accounts
    ensures r == BoolFieldUpdate(old(db.accounts), caller, userId, BannedField, true, "User is already banned")
    ensures r.Ok? ==> r.value.isBanned && db.accounts == old(db.accounts)[userId := r.value]
    ensures r.Err? ==> db.accounts == old(db.accounts)
  {
    r := UpdateUserBoolField(db, caller, userId, BannedField, true, "User is already banned");
  }

  method UnbanUser(db: Database, caller: AuthorizedUser, userId: int) returns (r: Result<Account>)
    requires AdminCaller(caller)
    modifies db`accounts
    ensures r == BoolFieldUpdate(old(db.accounts), caller, userId, BannedField, false, "User is not banned")
    ensures r.Ok? ==> !r.value.isBanned && db.accounts == old(db.accounts)[userId := r.value]
    ensures r.Err? ==> db.accounts == old(db.accounts)
  {
    r := UpdateUserBoolField(db, caller, userId, BannedField, false, "User is not banned");
  }

  method VerifyUserEmail(db: Database, caller: AuthorizedUser, userId: int) returns (r: Result<Account>)
    requires AdminCaller(caller)
    modifies db`accounts
    ensures r == BoolFieldUpdate(old(db.accounts), caller, userId, VerifiedField, true, "User email is already verified")
    ensures r.Ok? ==> r.value.emailVerified && db.accounts == old(db.accounts)[userId := r.value]
    ensures r.Err? ==> db.accounts == old(db.accounts)
  {
    r := UpdateUserBoolField(db, caller, userId, VerifiedField, true, "User email is already verified");
  }

  method RevokeEmailVerification(db: Database, caller: AuthorizedUser, userId: int) returns (r: Result<Account>)
    requires AdminCaller(caller)
    modifies db`accounts
    ensures r == BoolFieldUpdate(old(db.accounts), caller, userId, VerifiedField, false, "User email is not verified")
    ensures r.Ok? ==> !r.value.emailVerified && db.accounts == old(db.accounts)[userId := r.value]
    ensures r.Err? ==> db.accounts == old(db.accounts)
  {
    r := UpdateUserBoolField(db, caller, userId, VerifiedField, false, "User email is not verified");
  }

  /** A banned account can neither log in nor be issued a token pair. */
  lemma BannedCannotLogIn(accounts: map<int, Account>, caller: AuthorizedUser, userId: int, who: AccountRef,
                          password: string, sessions: map<int, SessionRow>, name: Option<string>,
                          accessJti: string, refreshJti: string, freshId: int, now: int)
    requires BoolFieldUpdate(accounts, caller, userId, BannedField, true, "User is already banned").Ok?
    requires freshId !in sessions
    ensures var after := accounts[userId := BoolFieldUpdate(accounts, caller, userId, BannedField, true, "User is already banned").value];
      (LoginCheck(after, who, password).Ok? ==> LoginCheck(after, who, password).value != userId)
      && IssueSpec(after, sessions, userId, name, None, accessJti, refreshJti, freshId, now) == Err(BANNED)
  {
  }
}
