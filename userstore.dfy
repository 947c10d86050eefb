/**
 * The older PostgreSQL repository of the users domain (package userstore), over
 * the same three tables. It differs from the current adapter in its error tags,
 * in letting the database choose a new session's id, in reporting an id clash as
 * ErrUserAlreadyExists, and in blocking sessions that are already blocked.
 */
module UserStore {
  import opened Wrappers
  import opened Errs
  import opened Users
  import opened Tables
  import Pgx

  /** The sentinel the adapter returns for a violated constraint it knows. */
  function ConstraintSentinel(name: string): Option<Error> {
    if name == "users_email_uq" then Some(ErrEmailAlreadyExists)
    else if name == "users_user_id_uq" then Some(ErrUserAlreadyExists)
    else if name == "users_provider_id_uq" then Some(ErrProviderIDExists)
    else if name == "users_phone_number_uq" then Some(ErrPhoneNumberExists)
    else if name == "provider_fields_chk" then Some(ErrProviderFieldsCheck)
    else None
  }

  /** CreateUser's mapping of an INSERT failure. */
  function CreateUserError(err: Error): Error {
    match Pgx.AsPg(err)
    case Some(pg) => ConstraintSentinel(pg.constraint).GetOr(Joined("", ErrDatabase, ": ", err))
    case None => Joined("", ErrDatabase, ": ", err)
  }

  /** UpdateUser's mapping: anything but a known constraint is "database error: "
      around the driver error, which does not match ErrDatabase. */
  function UpdateUserError(err: Error): Error {
    match Pgx.AsPg(err)
    case Some(pg) => ConstraintSentinel(pg.constraint).GetOr(Wrap("database error: ", err))
    case None => Wrap("database error: ", err)
  }

  /** An id clash is ErrUserAlreadyExists here (ErrUserIDConflict in the current
      adapter); the other constraint names map to the same sentinels. */
  lemma ConstraintNames()
    ensures CreateUserError(Pgx.UniqueViolation("users_user_id_uq")) == ErrUserAlreadyExists
    ensures CreateUserError(Pgx.UniqueViolation("users_user_id_uq")) != ErrUserIDConflict
    ensures CreateUserError(Pgx.UniqueViolation("users_email_uq")) == ErrEmailAlreadyExists
    ensures CreateUserError(Pgx.UniqueViolation("users_phone_number_uq")) == ErrPhoneNumberExists
    ensures CreateUserError(Pgx.UniqueViolation("users_provider_id_uq")) == ErrProviderIDExists
    ensures UpdateUserError(Pgx.UniqueViolation("users_user_id_uq")) == ErrUserAlreadyExists
  {
  }

  /** An update failure that is not a known constraint is never tagged
      ErrDatabase, unless the driver error itself was. */
  lemma UpdateFailuresUntagged(err: Error)
    requires !Is(err, ErrDatabase)
    requires Pgx.AsPg(err).None? || ConstraintSentinel(Pgx.AsPg(err).value.constraint).None?
    ensures !Is(UpdateUserError(err), ErrDatabase)
    ensures Message(UpdateUserError(err)) == "database error: " + Message(err)
  {
  }

  /** The columns this UpdateUser writes: role, store data and the flags keep
      their stored values. */
  function UpdatedRow(stored: User, u: User): User {
    User(stored.userId, u.passwordHash, u.email, u.firstName, u.lastName, u.phoneNumber, u.country,
         u.provider, u.providerId, stored.role, stored.isVerified, stored.isEnabled,
         stored.isStoreCreated, stored.numOfStore)
  }

  lemma UpdatedRowKeepsRole(stored: User, u: User)
    ensures UpdatedRow(stored, u).role == stored.role
    ensures UpdatedRow(stored, u).numOfStore == stored.numOfStore
    ensures UpdatedRow(stored, u).email == u.email && UpdatedRow(stored, u).passwordHash == u.passwordHash
  {
  }

  /** The user FindUserByEmail and FindUserByID build from a row: the columns
      their SELECT names (id, e-mail, names, digest, provider id, phone,
      provider, country) and Go's zero values for the rest. */
  function ScannedColumns(row: User): User {
    row.(role := ZeroUser.role, isVerified := false, isEnabled := false, isStoreCreated := false, numOfStore := 0)
  }

  /** The row userstore.CreateUser's nine-column INSERT writes: the columns
      ScannedColumns reads back from `u`, and the table's defaults for role,
      is_verified, is_enabled, is_store_created and number_of_store. */
  function InsertedRow(u: User, d: ColumnDefaults): (r: User)
    ensures r.userId == u.userId && r.email == u.email
    ensures r.phoneNumber == u.phoneNumber && r.providerId == u.providerId
    ensures ScannedColumns(r) == ScannedColumns(u)
  {
    u.(role := d.role, isVerified := d.isVerified, isEnabled := d.isEnabled,
       isStoreCreated := d.isStoreCreated, numOfStore := d.numOfStore)
  }

  class UserStore {
    var users: map<Uuid, User>
    var tokens: seq<TokenRow>
    var sessions: map<Uuid, Session>
    /** The defaults of the columns CreateUser does not write. */
    const defaults: ColumnDefaults

    predicate Valid()
      reads this
    {
      UsersValid(users)
    }

    constructor (d: ColumnDefaults)
      ensures Valid() && users == map[] && tokens == [] && sessions == map[] && defaults == d
    {
      users, tokens, sessions, defaults := map[], [], map[], d;
    }

    /** userstore.CreateUser: inserts the nine written columns; the others take
        the column defaults. */
    method CreateUser(u: User, fault: Option<Error>) returns (err: Option<Error>)
      requires Valid()
      modifies this
      ensures Valid() && tokens == old(tokens) && sessions == old(sessions)
      ensures err.None? <==> fault.None? && InsertViolation(old(users), u).None?
      ensures err.None? ==> users == old(users)[u.userId := InsertedRow(u, defaults)]
      ensures err.Some? ==> users == old(users)
      ensures fault.Some? ==> err == Some(CreateUserError(fault.value))
      ensures fault.None? && InsertViolation(old(users), u).Some? ==>
                err == Some(CreateUserError(Pgx.UniqueViolation(InsertViolation(old(users), u).value)))
    {
      var violation := InsertViolation(users, u);
      if fault.Some? {
        return Some(CreateUserError(fault.value));
      }
      if violation.Some? {
        return Some(CreateUserError(Pgx.UniqueViolation(violation.value)));
      }
      var row := InsertedRow(u, defaults);
      InsertViolationOfKeys(users, u, row);
      InsertKeepsValid(users, row);
      users := users[u.userId := row];
      err := None;
    }

    /** userstore.FindUserByEmail: the nine scanned columns of the row, with no
        checks; role, verification, enabled flag and store fields come back as
        Go's zero values whatever is stored. */
    method FindUserByEmail(email: string, fault: Option<Error>) returns (u: Option<User>, err: Option<Error>)
      ensures u.Some? <==> err.None?
      ensures fault.Some? ==> err == Some(FindError(fault.value))
      ensures fault.None? ==> (u.Some? <==> exists id :: id in users && users[id].email == email)
      ensures fault.None? && u.None? ==> err == Some(ErrUserNotFound)
      ensures u.Some? ==> u.value.email == email && exists id :: id in users && ScannedColumns(users[id]) == u.value
      ensures u.Some? ==> u.value.role == ZeroUser.role && !u.value.isVerified && !u.value.isEnabled
                          && !u.value.isStoreCreated && u.value.numOfStore == 0
    {
      if fault.Some? {
        return None, Some(FindError(fault.value));
      }
      if !exists id :: id in users && users[id].email == email {
        return None, Some(FindError(Pgx.ErrNoRows));
      }
      var id :| id in users && users[id].email == email;
      u, err := Some(ScannedColumns(users[id])), None;
    }

    /** userstore.FindUserByID: the nine scanned columns of the row, as
        FindUserByEmail. */
    method FindUserByID(userId: Uuid, fault: Option<Error>) returns (u: Option<User>, err: Option<Error>)
      ensures u.Some? <==> err.None?
      ensures fault.Some? ==> err == Some(FindError(fault.value))
      ensures fault.None? ==> (u.Some? <==> userId in users)
      ensures fault.None? && u.None? ==> err == Some(ErrUserNotFound)
      ensures u.Some? ==> userId in users && u.value == ScannedColumns(users[userId])
      ensures u.Some? ==> u.value.role == ZeroUser.role && !u.value.isVerified && !u.value.isEnabled
                          && !u.value.isStoreCreated && u.value.numOfStore == 0
    {
      if fault.Some? {
        return None, Some(FindError(fault.value));
      }
      if userId !in users {
        return None, Some(FindError(Pgx.ErrNoRows));
      }
      u, err := Some(ScannedColumns(users[userId])), None;
    }

    /** userstore.FindUserPhoneNumber: ErrPhoneNumberExists exactly when some user
        has the number; a driver failure is reported untagged. */
    method FindUserPhoneNumber(phone: string, fault: Option<Error>) returns (err: Option<Error>)
      ensures fault.None? ==> (err == Some(ErrPhoneNumberExists) <==> exists id :: id in users && users[id].phoneNumber == phone)
      ensures fault.None? ==> (err.None? <==> !exists id :: id in users && users[id].phoneNumber == phone)
      ensures fault.Some? && !Is(fault.value, Pgx.ErrNoRows) ==> err == Some(Wrap("database error: ", fault.value))
      ensures fault.Some? && Is(fault.value, Pgx.ErrNoRows) ==> err.None?
    {
      var queryErr := fault;
      if fault.None? && !exists id :: id in users && users[id].phoneNumber == phone {
        queryErr := Some(Pgx.ErrNoRows);
      }
      if queryErr.Some? {
        if Is(queryErr.value, Pgx.ErrNoRows) {
          return None;
        }
        return Some(Wrap("database error: ", queryErr.value));
      }
      err := Some(ErrPhoneNumberExists);
    }

    /** userstore.UpdateUser: rewrites email, names, digest, provider fields, phone
        and country of the row; a key with no row reports success. */
    method UpdateUser(u: User, fault: Option<Error>) returns (err: Option<Error>)
      requires Valid()
      modifies this
      ensures Valid() && tokens == old(tokens) && sessions == old(sessions)
      ensures fault.Some? ==> err == Some(UpdateUserError(fault.value)) && users == old(users)
      ensures fault.None? && u.userId in old(users) && UpdateViolation(old(users), u).Some? ==>
                err == Some(UpdateUserError(Pgx.UniqueViolation(UpdateViolation(old(users), u).value)))
                && users == old(users)
      ensures fault.None? && u.userId in old(users) && UpdateViolation(old(users), u).None? ==>
                err.None? && users == old(users)[u.userId := UpdatedRow(old(users)[u.userId], u)]
      ensures fault.None? && u.userId !in old(users) ==> err.None? && users == old(users)
    {
      var execErr := fault;
      if fault.None? && u.userId in users {
        var violation := UpdateViolation(users, u);
        if violation.Some? {
          execErr := Some(Pgx.UniqueViolation(violation.value));
        }
      }
      if execErr.Some? {
        return Some(UpdateUserError(execErr.value));
      }
      if u.userId in users {
        var row := UpdatedRow(users[u.userId], u);
        ReplaceKeepsValid(users, row);
        users := users[u.userId := row];
      }
      err := None;
    }

    /** userstore.VerifyUser: a driver failure is reported untagged. */
    method VerifyUser(userId: Uuid, fault: Option<Error>) returns (err: Option<Error>)
      requires Valid()
      modifies this
      ensures Valid() && tokens == old(tokens) && sessions == old(sessions)
      ensures fault.Some? ==> err == Some(Wrap("failed update users verification: ", fault.value))
      ensures fault.None? && userId !in old(users) ==> err == Some(ErrUserNotFound)
      ensures err.None? <==> fault.None? && userId in old(users)
      ensures err.None? ==> users == old(users)[userId := old(users)[userId].(isVerified := true)]
      ensures err.Some? ==> users == old(users)
    {
      if fault.Some? {
        return Some(Wrap("failed update users verification: ", fault.value));
      }
      if userId !in users {
        return Some(ErrUserNotFound);
      }
      SameKeysKeepValid(users, userId, users[userId].(isVerified := true));
      users := users[userId := users[userId].(isVerified := true)];
      err := None;
    }

    /** userstore.UpdatePassword: a driver failure is ErrDatabase. */
    method UpdatePassword(userId: Uuid, passwordHash: Digest, fault: Option<Error>) returns (err: Option<Error>)
      requires Valid()
      modifies this
      ensures Valid() && tokens == old(tokens) && sessions == old(sessions)
      ensures fault.Some? ==> err == Some(Joined("", ErrDatabase, ": ", fault.value))
      ensures fault.None? && userId !in old(users) ==> err == Some(ErrUserNotFound)
      ensures err.None? <==> fault.None? && userId in old(users)
      ensures err.None? ==> users == old(users)[userId := old(users)[userId].(passwordHash := passwordHash)]
      ensures err.Some? ==> users == old(users)
    {
      if fault.Some? {
        return Some(Joined("", ErrDatabase, ": ", fault.value));
      }
      if userId !in users {
        return Some(ErrUserNotFound);
      }
      SameKeysKeepValid(users, userId, users[userId].(passwordHash := passwordHash));
      users := users[userId := users[userId].(passwordHash := passwordHash)];
      err := None;
    }

    /** userstore.CreateSession: the id column is not inserted, so the row gets the
        id the database generates (`generatedId`), whatever `s.id` was. */
    method CreateSession(s: Session, generatedId: Uuid, fault: Option<Error>) returns (err: Option<Error>)
      requires Valid()
      modifies this
      ensures Valid() && users == old(users) && tokens == old(tokens)
      ensures err.None? <==> fault.None? && generatedId !in old(sessions)
      ensures err.None? ==> sessions == old(sessions)[generatedId := s.(id := generatedId)]
      ensures err.Some? ==> sessions == old(sessions)
      ensures fault.Some? ==> err == Some(Wrap("insert session: ", fault.value))
    {
      if fault.Some? {
        return Some(Wrap("insert session: ", fault.value));
      }
      if generatedId in sessions {
        return Some(Wrap("insert session: ", Pgx.UniqueViolation("sessions_pkey")));
      }
      sessions := sessions[generatedId := s.(id := generatedId)];
      err := None;
    }

    /** userstore.CreateToken: appends the token's row; a failure is untagged. */
    method CreateToken(t: Token, fault: Option<Error>) returns (err: Option<Error>)
      requires Valid()
      modifies this
      ensures Valid() && users == old(users) && sessions == old(sessions)
      ensures err.None? <==> fault.None?
      ensures err.None? ==> tokens == old(tokens) + [TokenRowOf(t)]
      ensures err.Some? ==> tokens == old(tokens) && err == Some(Wrap("insert otp: ", fault.value))
    {
      if fault.Some? {
        return Some(Wrap("insert otp: ", fault.value));
      }
      tokens := tokens + [TokenRowOf(t)];
      err := None;
    }

    /** userstore.GetUserIDByToken: the same contract as the current adapter's. */
    method GetUserIDByToken(hash: Digest, scope: string, now: Time, fault: Option<Error>)
      returns (id: Uuid, err: Option<Error>)
      ensures fault.Some? ==> id == NilUuid && err == Some(FindError(fault.value))
      ensures fault.None? && CountMatching(tokens, hash, scope) == 0 ==>
                id == NilUuid && err == Some(ErrUserNotFound)
      ensures err.None? ==> exists i :: 0 <= i < |tokens| && TokenMatches(tokens[i], hash, scope)
                              && tokens[i].userId == id && now <= tokens[i].expiry
      ensures err == Some(ErrTokenExpired) ==>
                id == NilUuid
                && exists i :: 0 <= i < |tokens| && TokenMatches(tokens[i], hash, scope) && now > tokens[i].expiry
      ensures fault.None? && CountMatching(tokens, hash, scope) != 0 ==> err.None? || err == Some(ErrTokenExpired)
    {
      if fault.Some? {
        return NilUuid, Some(FindError(fault.value));
      }
      if CountMatching(tokens, hash, scope) == 0 {
        return NilUuid, Some(FindError(Pgx.ErrNoRows));
      }
      var i :| 0 <= i < |tokens| && TokenMatches(tokens[i], hash, scope);
      if now > tokens[i].expiry {
        return NilUuid, Some(ErrTokenExpired);
      }
      id, err := tokens[i].userId, None;
    }

    /** userstore.DeleteToken: the same contract as the current adapter's. */
    method DeleteToken(hash: Digest, scope: string, fault: Option<Error>) returns (err: Option<Error>)
      requires Valid()
      modifies this
      ensures Valid() && users == old(users) && sessions == old(sessions)
      ensures fault.Some? ==> err == Some(Joined("", ErrDatabase, ": ", fault.value)) && tokens == old(tokens)
      ensures fault.None? ==> tokens == WithoutMatching(old(tokens), hash, scope)
      ensures fault.None? ==> (err == Some(ErrTokenNotFound) <==> CountMatching(old(tokens), hash, scope) == 0)
      ensures fault.None? ==> (err.None? <==> CountMatching(old(tokens), hash, scope) != 0)
    {
      if fault.Some? {
        return Some(Joined("", ErrDatabase, ": ", fault.value));
      }
      var affected := CountMatching(tokens, hash, scope);
      tokens := WithoutMatching(tokens, hash, scope);
      if affected == 0 {
        return Some(ErrTokenNotFound);
      }
      err := None;
    }

    /** userstore.BlockSession as written: the UPDATE blocks every session with
        that digest, blocked or not, and returns the session id, a uuid, which is
        scanned into an int64. Scan fails on every row found, after the rows are
        blocked, so the call never succeeds: a digest no session carries is
        ErrSessionNotFound, and one that some session carries is ErrDatabase
        around the scan error. */
    method BlockSession(token: Digest, fault: Option<Error>) returns (err: Option<Error>)
      requires Valid()
      modifies this
      ensures Valid() && users == old(users) && tokens == old(tokens)
      ensures err.Some?
      ensures fault.Some? && Is(fault.value, Pgx.ErrNoRows) ==> err == Some(ErrSessionNotFound) && sessions == old(sessions)
      ensures fault.Some? && !Is(fault.value, Pgx.ErrNoRows) ==>
                err == Some(Joined("", ErrDatabase, ":", fault.value)) && sessions == old(sessions)
      ensures fault.None? && !HasSession(old(sessions), token) ==>
                err == Some(ErrSessionNotFound) && sessions == old(sessions)
      ensures fault.None? && HasSession(old(sessions), token) ==>
                err == Some(Joined("", ErrDatabase, ":", Pgx.ErrScanUuidIntoInt64))
                && sessions == BlockAll(old(sessions), token)
    {
      var queryErr := fault;
      if fault.None? {
        if HasSession(sessions, token) {
          sessions := BlockAll(sessions, token);
          queryErr := Some(Pgx.ErrScanUuidIntoInt64);
        } else {
          queryErr := Some(Pgx.ErrNoRows);
        }
      }
      if Is(queryErr.value, Pgx.ErrNoRows) {
        return Some(ErrSessionNotFound);
      }
      err := Some(Joined("", ErrDatabase, ":", queryErr.value));
    }

    /** BlockSession with the returned id scanned into a uuid, as GetSession
        scans it: blocks every session with that digest, blocked or not; only a
        digest no session carries is ErrSessionNotFound. */
    method BlockSessionFixed(token: Digest, fault: Option<Error>) returns (err: Option<Error>)
      requires Valid()
      modifies this
      ensures Valid() && users == old(users) && tokens == old(tokens)
      ensures fault.Some? && Is(fault.value, Pgx.ErrNoRows) ==> err == Some(ErrSessionNotFound) && sessions == old(sessions)
      ensures fault.Some? && !Is(fault.value, Pgx.ErrNoRows) ==>
                err == Some(Joined("", ErrDatabase, ":", fault.value)) && sessions == old(sessions)
      ensures fault.None? ==> (err.None? <==> HasSession(old(sessions), token))
      ensures fault.None? && err.None? ==> sessions == BlockAll(old(sessions), token)
      ensures fault.None? && err.Some? ==> err == Some(ErrSessionNotFound) && sessions == old(sessions)
    {
      var queryErr := fault;
      if fault.None? && !HasSession(sessions, token) {
        queryErr := Some(Pgx.ErrNoRows);
      }
      if queryErr.Some? {
        if Is(queryErr.value, Pgx.ErrNoRows) {
          return Some(ErrSessionNotFound);
        }
        return Some(Joined("", ErrDatabase, ":", queryErr.value));
      }
      sessions := BlockAll(sessions, token);
      err := None;
    }

    /** userstore.GetSession: a missing row is ErrSessionNotFound, any other failure
        is reported untagged. */
    method GetSession(sessionId: Uuid, fault: Option<Error>) returns (s: Option<Session>, err: Option<Error>)
      ensures s.Some? <==> err.None?
      ensures fault.None? ==> (s.Some? <==> sessionId in sessions)
      ensures s.Some? ==> sessionId in sessions && s.value == sessions[sessionId]
      ensures fault.None? && sessionId !in sessions ==> err == Some(ErrSessionNotFound)
      ensures fault.Some? && Is(fault.value, Pgx.ErrNoRows) ==> err == Some(ErrSessionNotFound)
      ensures fault.Some? && !Is(fault.value, Pgx.ErrNoRows) ==> err == Some(Wrap("get session: ", fault.value))
    {
      var queryErr := fault;
      if fault.None? && sessionId !in sessions {
        queryErr := Some(Pgx.ErrNoRows);
      }
      if queryErr.Some? {
        if Is(queryErr.value, Pgx.ErrNoRows) {
          return None, Some(ErrSessionNotFound);
        }
        return None, Some(Wrap("get session: ", queryErr.value));
      }
      s, err := Some(sessions[sessionId]), None;
    }
  }

  /** With the corrected BlockSessionFixed, blocking an already-blocked session
      finds it again and succeeds, where the current adapter reports
      ErrSessionNotFound. */
  lemma ReBlockSucceeds(sessions: map<Uuid, Session>, token: Digest)
    requires HasSession(sessions, token)
    ensures HasSession(BlockAll(sessions, token), token)
    ensures !HasActiveSession(BlockAll(sessions, token), token)
  {
    BlockAllBlocks(sessions, token);
  }

  /** A failed lookup: "no rows" is ErrUserNotFound, anything else ErrDatabase. */
  function FindError(err: Error): (r: Error)
    ensures Is(err, Pgx.ErrNoRows) ==> r == ErrUserNotFound
    ensures !Is(err, Pgx.ErrNoRows) ==> Is(r, ErrDatabase)
  {
    if Is(err, Pgx.ErrNoRows) then ErrUserNotFound else Joined("", ErrDatabase, ": ", err)
  }
}
