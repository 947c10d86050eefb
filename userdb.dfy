/**
 * The current PostgreSQL repository of the users domain (package userdb): the
 * users, tokens and sessions tables as fields of one class, each method one SQL
 * statement. A driver failure of a statement is passed in as `fault`; missing
 * rows and unique-constraint violations follow from the tables themselves.
 */
module UserDb {
  import opened Wrappers
  import opened Errs
  import opened Users
  import opened Tables
  import Text
  import Roles
  import Pgx

  // ---- error mapping ----

  /** The sentinel the adapter returns for a violated constraint it knows. */
  function ConstraintSentinel(name: string): Option<Error> {
    if name == "users_email_uq" then Some(ErrEmailAlreadyExists)
    else if name == "users_user_id_uq" then Some(ErrUserIDConflict)
    else if name == "users_provider_id_uq" then Some(ErrProviderIDExists)
    else if name == "users_phone_number_uq" then Some(ErrPhoneNumberExists)
    else if name == "provider_fields_chk" then Some(ErrProviderFieldsCheck)
    else None
  }

  /** `fmt.Errorf(prefix + "%w: %w", ErrDatabase, err)`. */
  function DbError(prefix: string, err: Error): (r: Error)
    ensures Is(r, ErrDatabase)
    ensures forall t: Error :: t.Sentinel? && Is(err, t) ==> Is(r, t)
  {
    Joined(prefix, ErrDatabase, ": ", err)
  }

  /** CreateUser's mapping of an INSERT failure. */
  function CreateUserError(err: Error): Error {
    match Pgx.AsPg(err)
    case Some(pg) => ConstraintSentinel(pg.constraint).GetOr(DbError("", err))
    case None => DbError("", err)
  }

  /** UpdateUser's mapping of an UPDATE failure: an unknown constraint is reported
      as a plain message. */
  function UpdateUserError(err: Error): Error {
    match Pgx.AsPg(err)
    case Some(pg) =>
      ConstraintSentinel(pg.constraint).GetOr(
        Plain("unhandled db constraint: " + pg.constraint + " (" + pg.detail + ")"))
    case None => DbError("updateyuser: ", err)
  }

  /** Each known constraint name maps to its sentinel, for both statements. */
  lemma ConstraintNames(detail: string)
    ensures CreateUserError(Pgx.UniqueViolation("users_email_uq")) == ErrEmailAlreadyExists
    ensures CreateUserError(Pgx.UniqueViolation("users_user_id_uq")) == ErrUserIDConflict
    ensures CreateUserError(Pgx.UniqueViolation("users_provider_id_uq")) == ErrProviderIDExists
    ensures CreateUserError(Pgx.UniqueViolation("users_phone_number_uq")) == ErrPhoneNumberExists
    ensures CreateUserError(Pg("23514", "provider_fields_chk", detail)) == ErrProviderFieldsCheck
    ensures UpdateUserError(Pgx.UniqueViolation("users_email_uq")) == ErrEmailAlreadyExists
    ensures UpdateUserError(Pgx.UniqueViolation("users_phone_number_uq")) == ErrPhoneNumberExists
  {
  }

  /** A failure that is not a known constraint keeps every sentinel it matched and
      is tagged ErrDatabase by CreateUser; UpdateUser leaves an unknown constraint
      untagged. */
  lemma UnknownFailures(err: Error, t: Error)
    requires t.Sentinel?
    requires Pgx.AsPg(err).None? || ConstraintSentinel(Pgx.AsPg(err).value.constraint).None?
    ensures Is(CreateUserError(err), ErrDatabase)
    ensures Is(err, t) ==> Is(CreateUserError(err), t)
    ensures Pgx.AsPg(err).Some? ==> !Is(UpdateUserError(err), ErrDatabase)
    ensures Pgx.AsPg(err).None? ==> Is(UpdateUserError(err), ErrDatabase)
  {
  }

  /** The post-read checks of GetUserByEmail/GetUserByID on a stored row: the
      e-mail must parse, the contact must validate (both reported as ErrDatabase;
      ValidateContact leaves the number in E.164 form), and the role must parse
      (reported untagged). The SELECT does not read is_enabled, so the loaded
      user is never enabled. */
  function LoadUser(op: string, row: User, v: Validators): Result<User> {
    match v.parseEmail(row.email)
    case Fail(e) =>
      Fail(Joined(op + ": ", ErrDatabase, ": invalid stored email " + row.email + ": ", e))
    case Ok(address) =>
      match v.validatePhone(row.phoneNumber, row.country)
      case Fail(e) =>
        Fail(Joined(op + ": ", ErrDatabase,
                    ": invalid stored contact " + row.phoneNumber + "," + row.country + ": ", e))
      case Ok(number) =>
        var (role, roleErr) := Roles.Parse(row.role.value);
        match roleErr
        case Some(e) =>
          Fail(Wrapped(op + ": invalid stored role " + Text.Quote(row.role.value) + ": ", e, ""))
        case None =>
          Ok(row.(email := address, phoneNumber := number, role := role, isEnabled := false))
  }

  /** A loaded user is the stored row with the parsed address, the E.164
      number, a registered role and the enabled flag cleared; bad stored data is
      ErrDatabase except for the role. */
  lemma LoadUserFacts(op: string, row: User, v: Validators)
    ensures LoadUser(op, row, v).Ok? <==>
      v.parseEmail(row.email).Ok? && v.validatePhone(row.phoneNumber, row.country).Ok?
      && row.role.value in Roles.RoleNames
    ensures LoadUser(op, row, v).Ok? ==>
      LoadUser(op, row, v).value == row.(email := v.parseEmail(row.email).value,
                                         phoneNumber := v.validatePhone(row.phoneNumber, row.country).value,
                                         isEnabled := false)
      && Roles.Registered(LoadUser(op, row, v).value.role)
    ensures LoadUser(op, row, v).Fail? ==>
      (Is(LoadUser(op, row, v).error, ErrDatabase) <==>
        v.parseEmail(row.email).Fail? || v.validatePhone(row.phoneNumber, row.country).Fail?)
  {
    var (role, roleErr) := Roles.Parse(row.role.value);
    if roleErr.Some? {
      assert !Is(roleErr.value, ErrDatabase);
    }
  }

  /** The row userdb.CreateUser's INSERT writes: every column of `u` but
      is_verified and is_enabled, which take the table's defaults. It is `u`
      itself exactly when `u` already carries those defaults. */
  function InsertedRow(u: User, d: ColumnDefaults): (r: User)
    ensures r.userId == u.userId && r.email == u.email
    ensures r.phoneNumber == u.phoneNumber && r.providerId == u.providerId
    ensures r == u <==> u.isVerified == d.isVerified && u.isEnabled == d.isEnabled
  {
    u.(isVerified := d.isVerified, isEnabled := d.isEnabled)
  }

  /** The columns UpdateUser writes; is_verified and the enabled flag keep their
      stored values. */
  function UpdatedRow(stored: User, u: User): User {
    User(stored.userId, u.passwordHash, u.email, u.firstName, u.lastName, u.phoneNumber, u.country,
         u.provider, u.providerId, u.role, stored.isVerified, stored.isEnabled, u.isStoreCreated,
         u.numOfStore)
  }

  /** UpdatedRow keeps the key and the verification state and takes every other
      written column from the new values. */
  lemma UpdatedRowFacts(stored: User, u: User)
    ensures UpdatedRow(stored, u).userId == stored.userId
    ensures UpdatedRow(stored, u).isVerified == stored.isVerified
    ensures UpdatedRow(stored, u).isEnabled == stored.isEnabled
    ensures (u.userId == stored.userId && u.isVerified == stored.isVerified
             && u.isEnabled == stored.isEnabled) ==> UpdatedRow(stored, u) == u
  {
  }

  class UserDb {
    var users: map<Uuid, User>
    var tokens: seq<TokenRow>
    var sessions: map<Uuid, Session>
    /** The defaults of the columns CreateUser does not write. */
    const defaults: ColumnDefaults

    predicate Valid()
      reads this
    {
      UsersValid(users)
    }

    constructor (d: ColumnDefaults)
      ensures Valid() && users == map[] && tokens == [] && sessions == map[] && defaults == d
    {
      users, tokens, sessions, defaults := map[], [], map[], d;
    }

    /** Replaces all three tables at once: a rolled-back transaction. */
    method Restore(u: map<Uuid, User>, t: seq<TokenRow>, s: map<Uuid, Session>)
      requires UsersValid(u)
      modifies this
      ensures Valid() && users == u && tokens == t && sessions == s
    {
      users, tokens, sessions := u, t, s;
    }

    /** userdb.CreateUser: inserts the row, whose is_verified and is_enabled take
        the column defaults; a violated constraint or a driver failure is mapped
        by CreateUserError and nothing is written. */
    method CreateUser(u: User, fault: Option<Error>) returns (err: Option<Error>)
      requires Valid()
      modifies this
      ensures Valid() && tokens == old(tokens) && sessions == old(sessions)
      ensures err.None? <==> fault.None? && InsertViolation(old(users), u).None?
      ensures err.None? ==> users == old(users)[u.userId := InsertedRow(u, defaults)]
      ensures err.Some? ==> users == old(users)
      ensures fault.Some? ==> err == Some(CreateUserError(fault.value))
      ensures fault.None? && InsertViolation(old(users), u).Some? ==>
                err == Some(CreateUserError(Pgx.UniqueViolation(InsertViolation(old(users), u).value)))
      ensures err == InsertResult(old(users), u, fault)
    {
      var violation := InsertViolation(users, u);
      if fault.Some? {
        return Some(CreateUserError(fault.value));
      }
      if violation.Some? {
        return Some(CreateUserError(Pgx.UniqueViolation(violation.value)));
      }
      var row := InsertedRow(u, defaults);
      InsertViolationOfKeys(users, u, row);
      InsertKeepsValid(users, row);
      users := users[u.userId := row];
      err := None;
    }

    /** userdb.GetUserByEmail: the row with that address, checked by LoadUser;
        no row is ErrUserNotFound and a driver failure is ErrDatabase. */
    method GetUserByEmail(email: string, fault: Option<Error>, v: Validators)
      returns (u: Option<User>, err: Option<Error>)
      ensures fault.Some? ==> u.None? && err == Some(LookupError("getuserbyemail: ", fault.value))
      ensures fault.None? && !HasEmail(users, email) ==> u.None? && err == Some(ErrUserNotFound)
      ensures fault.None? && HasEmail(users, email) ==>
                exists id :: id in users && users[id].email == email
                  && (u, err) == Loaded(LoadUser("getuserbyemail", users[id], v))
    {
      if fault.Some? {
        return None, Some(LookupError("getuserbyemail: ", fault.value));
      }
      if !HasEmail(users, email) {
        return None, Some(LookupError("getuserbyemail: ", Pgx.ErrNoRows));
      }
      var id :| id in users && users[id].email == email;
      var loaded := Loaded(LoadUser("getuserbyemail", users[id], v));
      u, err := loaded.0, loaded.1;
    }

    /** userdb.GetUserByID: the row with that key, checked by LoadUser. */
    method GetUserByID(userId: Uuid, fault: Option<Error>, v: Validators)
      returns (u: Option<User>, err: Option<Error>)
      ensures fault.Some? ==> u.None? && err == Some(LookupError("getuserbyid: ", fault.value))
      ensures fault.None? && userId !in users ==> u.None? && err == Some(ErrUserNotFound)
      ensures fault.None? && userId in users ==> (u, err) == Loaded(LoadUser("getuserbyid", users[userId], v))
    {
      if fault.Some? {
        return None, Some(LookupError("getuserbyid: ", fault.value));
      }
      if userId !in users {
        return None, Some(LookupError("getuserbyid: ", Pgx.ErrNoRows));
      }
      var loaded := Loaded(LoadUser("getuserbyid", users[userId], v));
      u, err := loaded.0, loaded.1;
    }

    /** userdb.GetUserPhoneNumber: ErrPhoneNumberExists when some user has the
        number, nil when none has. */
    method GetUserPhoneNumber(phone: string, fault: Option<Error>) returns (err: Option<Error>)
      ensures fault.None? ==> (err.None? <==> !HasPhone(users, phone))
      ensures fault.None? ==> (err == Some(ErrPhoneNumberExists) <==> HasPhone(users, phone))
      ensures fault.Some? && Is(fault.value, Pgx.ErrNoRows) ==> err.None?
      ensures fault.Some? && !Is(fault.value, Pgx.ErrNoRows) ==>
                err == Some(DbError("geruserbyphonenumber: ", fault.value))
    {
      var queryErr := fault;
      if fault.None? && !HasPhone(users, phone) {
        queryErr := Some(Pgx.ErrNoRows);
      }
      if queryErr.Some? {
        if Is(queryErr.value, Pgx.ErrNoRows) {
          return None;
        }
        return Some(DbError("geruserbyphonenumber: ", queryErr.value));
      }
      err := Some(ErrPhoneNumberExists);
    }

    /** userdb.UpdateUser as written: rewrites the row with that key. The
        "no rows" check only runs when Exec succeeded, where it can never hold,
        so a key with no row reports success and changes nothing. */
    method UpdateUser(u: User, fault: Option<Error>) returns (err: Option<Error>)
      requires Valid()
      modifies this
      ensures Valid() && tokens == old(tokens) && sessions == old(sessions)
      ensures fault.Some? ==> err == Some(UpdateUserError(fault.value)) && users == old(users)
      ensures fault.None? && u.userId in old(users) && UpdateViolation(old(users), u).Some? ==>
                err == Some(UpdateUserError(Pgx.UniqueViolation(UpdateViolation(old(users), u).value)))
                && users == old(users)
      ensures fault.None? && u.userId in old(users) && UpdateViolation(old(users), u).None? ==>
                err.None? && users == old(users)[u.userId := UpdatedRow(old(users)[u.userId], u)]
      ensures fault.None? && u.userId !in old(users) ==> err.None? && users == old(users)
    {
      var execErr := fault;
      if fault.None? && u.userId in users {
        var violation := UpdateViolation(users, u);
        if violation.Some? {
          execErr := Some(Pgx.UniqueViolation(violation.value));
        }
      }
      if execErr.Some? {
        return Some(UpdateUserError(execErr.value));
      }
      if u.userId in users {
        var row := UpdatedRow(users[u.userId], u);
        ReplaceKeepsValid(users, row);
        users := users[u.userId := row];
      }
      err := None;
    }

    /** UpdateUser with the intended check: an update that reaches no row is
        ErrUserNotFound. */
    method UpdateUserChecked(u: User, fault: Option<Error>) returns (err: Option<Error>)
      requires Valid()
      modifies this
      ensures Valid() && tokens == old(tokens) && sessions == old(sessions)
      ensures err.None? <==> fault.None? && u.userId in old(users) && UpdateViolation(old(users), u).None?
      ensures err.None? ==> users == old(users)[u.userId := UpdatedRow(old(users)[u.userId], u)]
      ensures err.Some? ==> users == old(users)
      ensures fault.None? && u.userId !in old(users) ==> err == Some(ErrUserNotFound)
    {
      err := UpdateUser(u, fault);
      if err.None? && u.userId !in users {
        err := Some(ErrUserNotFound);
      }
    }

    /** userdb.VerifyUser: sets is_verified on the row; no row is ErrUserNotFound. */
    method VerifyUser(userId: Uuid, fault: Option<Error>) returns (err: Option<Error>)
      requires Valid()
      modifies this
      ensures Valid() && tokens == old(tokens) && sessions == old(sessions)
      ensures fault.Some? ==> err == Some(DbError("", fault.value))
      ensures fault.None? && userId !in old(users) ==> err == Some(ErrUserNotFound)
      ensures err.None? <==> fault.None? && userId in old(users)
      ensures err.None? ==> users == old(users)[userId := old(users)[userId].(isVerified := true)]
      ensures err.Some? ==> users == old(users)
    {
      if fault.Some? {
        return Some(DbError("", fault.value));
      }
      if userId !in users {
        return Some(ErrUserNotFound);
      }
      SameKeysKeepValid(users, userId, users[userId].(isVerified := true));
      users := users[userId := users[userId].(isVerified := true)];
      err := None;
    }

    /** userdb.UpdatePassword: replaces the stored digest; no row is ErrUserNotFound. */
    method UpdatePassword(userId: Uuid, passwordHash: Digest, fault: Option<Error>) returns (err: Option<Error>)
      requires Valid()
      modifies this
      ensures Valid() && tokens == old(tokens) && sessions == old(sessions)
      ensures fault.Some? ==> err == Some(DbError("", fault.value))
      ensures fault.None? && userId !in old(users) ==> err == Some(ErrUserNotFound)
      ensures err.None? <==> fault.None? && userId in old(users)
      ensures err.None? ==> users == old(users)[userId := old(users)[userId].(passwordHash := passwordHash)]
      ensures err.Some? ==> users == old(users)
    {
      if fault.Some? {
        return Some(DbError("", fault.value));
      }
      if userId !in users {
        return Some(ErrUserNotFound);
      }
      SameKeysKeepValid(users, userId, users[userId].(passwordHash := passwordHash));
      users := users[userId := users[userId].(passwordHash := passwordHash)];
      err := None;
    }

    /** userdb.CreateSession: inserts the session under the id the caller chose
        (an id already present violates the key). */
    method CreateSession(s: Session, fault: Option<Error>) returns (err: Option<Error>)
      requires Valid()
      modifies this
      ensures Valid() && users == old(users) && tokens == old(tokens)
      ensures err.None? <==> fault.None? && s.id !in old(sessions)
      ensures err.None? ==> sessions == old(sessions)[s.id := s]
      ensures err.Some? ==> sessions == old(sessions) && Is(err.value, ErrDatabase)
      ensures fault.Some? ==> err == Some(DbError("", fault.value))
    {
      if fault.Some? {
        return Some(DbError("", fault.value));
      }
      if s.id in sessions {
        return Some(DbError("", Pgx.UniqueViolation("sessions_pkey")));
      }
      sessions := sessions[s.id := s];
      err := None;
    }

    /** userdb.CreateToken: appends the token's row (digest, owner, expiry, scope). */
    method CreateToken(t: Token, fault: Option<Error>) returns (err: Option<Error>)
      requires Valid()
      modifies this
      ensures Valid() && users == old(users) && sessions == old(sessions)
      ensures err.None? <==> fault.None?
      ensures err.None? ==> tokens == old(tokens) + [TokenRowOf(t)]
      ensures err.Some? ==> tokens == old(tokens) && err == Some(DbError("", fault.value))
    {
      if fault.Some? {
        return Some(DbError("", fault.value));
      }
      tokens := tokens + [TokenRowOf(t)];
      err := None;
    }

    /** userdb.GetUserIDByToken: the owner recorded in a row with that digest and
        scope. No such row is ErrUserNotFound; a row whose expiry `now` is strictly
        after is ErrTokenExpired, and the row stays. */
    method GetUserIDByToken(hash: Digest, scope: string, now: Time, fault: Option<Error>)
      returns (id: Uuid, err: Option<Error>)
      ensures fault.Some? ==> id == NilUuid && err == Some(TokenLookupError(fault.value))
      ensures fault.None? && CountMatching(tokens, hash, scope) == 0 ==>
                id == NilUuid && err == Some(ErrUserNotFound)
      ensures err.None? ==> exists i :: 0 <= i < |tokens| && TokenMatches(tokens[i], hash, scope)
                              && tokens[i].userId == id && now <= tokens[i].expiry
      ensures err == Some(ErrTokenExpired) ==>
                id == NilUuid
                && exists i :: 0 <= i < |tokens| && TokenMatches(tokens[i], hash, scope) && now > tokens[i].expiry
      ensures fault.None? && CountMatching(tokens, hash, scope) != 0 ==> err.None? || err == Some(ErrTokenExpired)
    {
      if fault.Some? {
        return NilUuid, Some(TokenLookupError(fault.value));
      }
      if CountMatching(tokens, hash, scope) == 0 {
        return NilUuid, Some(TokenLookupError(Pgx.ErrNoRows));
      }
      var i :| 0 <= i < |tokens| && TokenMatches(tokens[i], hash, scope);
      if now > tokens[i].expiry {
        return NilUuid, Some(ErrTokenExpired);
      }
      id, err := tokens[i].userId, None;
    }

    /** userdb.DeleteToken: removes every row with that digest and scope; when none
        was removed the result is ErrTokenNotFound. */
    method DeleteToken(hash: Digest, scope: string, fault: Option<Error>) returns (err: Option<Error>)
      requires Valid()
      modifies this
      ensures Valid() && users == old(users) && sessions == old(sessions)
      ensures fault.Some? ==> err == Some(DbError("", fault.value)) && tokens == old(tokens)
      ensures fault.None? ==> tokens == WithoutMatching(old(tokens), hash, scope)
      ensures fault.None? ==> (err == Some(ErrTokenNotFound) <==> CountMatching(old(tokens), hash, scope) == 0)
      ensures fault.None? ==> (err.None? <==> CountMatching(old(tokens), hash, scope) != 0)
    {
      if fault.Some? {
        return Some(DbError("", fault.value));
      }
      var affected := CountMatching(tokens, hash, scope);
      tokens := WithoutMatching(tokens, hash, scope);
      if affected == 0 {
        return Some(ErrTokenNotFound);
      }
      err := None;
    }

    /** userdb.BlockSession: blocks the sessions with that refresh-token digest
        that are not blocked yet; when there is none the result is
        ErrSessionNotFound, so blocking the same digest twice fails the second time. */
    method BlockSession(token: Digest, fault: Option<Error>) returns (err: Option<Error>)
      requires Valid()
      modifies this
      ensures Valid() && users == old(users) && tokens == old(tokens)
      ensures fault.Some? ==> err == Some(DbError("", fault.value)) && sessions == old(sessions)
      ensures fault.None? ==> sessions == BlockAll(old(sessions), token)
      ensures fault.None? ==> (err.None? <==> HasActiveSession(old(sessions), token))
      ensures fault.None? && !HasActiveSession(old(sessions), token) ==> err == Some(ErrSessionNotFound)
    {
      if fault.Some? {
        return Some(DbError("", fault.value));
      }
      var affected := HasActiveSession(sessions, token);
      sessions := BlockAll(sessions, token);
      if !affected {
        return Some(ErrSessionNotFound);
      }
      err := None;
    }

    /** userdb.GetSession: the session with that id, or ErrSessionNotFound. */
    method GetSession(sessionId: string, fault: Option<Error>) returns (s: Option<Session>, err: Option<Error>)
      ensures s.Some? <==> err.None?
      ensures fault.None? ==> (s.Some? <==> Uuid(sessionId) in sessions)
      ensures s.Some? ==> Uuid(sessionId) in sessions && s.value == sessions[Uuid(sessionId)]
      ensures fault.None? && Uuid(sessionId) !in sessions ==> err == Some(ErrSessionNotFound)
      ensures fault.Some? ==> err == Some(SessionLookupError(fault.value))
    {
      if fault.Some? {
        return None, Some(SessionLookupError(fault.value));
      }
      if Uuid(sessionId) !in sessions {
        return None, Some(SessionLookupError(Pgx.ErrNoRows));
      }
      s, err := Some(sessions[Uuid(sessionId)]), None;
    }
  }

  /** The error userdb.CreateUser returns for inserting `u` into `users`. */
  function InsertResult(users: map<Uuid, User>, u: User, fault: Option<Error>): (r: Option<Error>)
    ensures r.None? <==> fault.None? && InsertViolation(users, u).None?
  {
    if fault.Some? then Some(CreateUserError(fault.value))
    else if InsertViolation(users, u).Some? then Some(CreateUserError(Pgx.UniqueViolation(InsertViolation(users, u).value)))
    else None
  }

  /** An insert fails on the id constraint exactly when the id is taken by a row
      with another address and no other row has the new row's address. */
  lemma IdConflictOnInsert(users: map<Uuid, User>, u: User)
    ensures InsertResult(users, u, None) == Some(ErrUserIDConflict) <==>
              u.userId in users && users[u.userId].email != u.email && !EmailTaken(users, u.email, u.userId)
  {
    ConstraintNames("");
  }

  /** A failed token lookup: "no rows" is ErrUserNotFound, not ErrTokenNotFound. */
  function TokenLookupError(err: Error): (r: Error)
    ensures Is(err, Pgx.ErrNoRows) ==> r == ErrUserNotFound
    ensures !Is(err, Pgx.ErrNoRows) ==> Is(r, ErrDatabase) && r != ErrUserNotFound
  {
    if Is(err, Pgx.ErrNoRows) then ErrUserNotFound else DbError("", err)
  }

  /** A failed session lookup: "no rows" is ErrSessionNotFound. */
  function SessionLookupError(err: Error): (r: Error)
    ensures Is(err, Pgx.ErrNoRows) ==> r == ErrSessionNotFound
    ensures !Is(err, Pgx.ErrNoRows) ==> Is(r, ErrDatabase) && r != ErrSessionNotFound
  {
    if Is(err, Pgx.ErrNoRows) then ErrSessionNotFound else DbError("", err)
  }

  /** The row with that address exists. */
  predicate HasEmail(users: map<Uuid, User>, email: string) {
    exists id :: id in users && users[id].email == email
  }

  /** Some row has that phone number. */
  predicate HasPhone(users: map<Uuid, User>, phone: string) {
    exists id :: id in users && users[id].phoneNumber == phone
  }

  /** A QueryRow failure of a lookup: "no rows" is ErrUserNotFound, anything else
      ErrDatabase. */
  function LookupError(prefix: string, err: Error): (r: Error)
    ensures Is(err, Pgx.ErrNoRows) ==> r == ErrUserNotFound
    ensures !Is(err, Pgx.ErrNoRows) ==> Is(r, ErrDatabase)
  {
    if Is(err, Pgx.ErrNoRows) then ErrUserNotFound else DbError(prefix, err)
  }

  /** A loaded user as the (user, error) pair the adapter returns. */
  function Loaded(r: Result<User>): (Option<User>, Option<Error>) {
    match r
    case Ok(u) => (Some(u), None)
    case Fail(e) => (None, Some(e))
  }
}
