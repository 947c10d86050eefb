/**
 * The commands of the users domain (UserBusiness in cmd_user.go and
 * cmd_token.go) run against the current repository adapter, the transaction
 * coordinator and the session cache. Each failure a command can meet is a
 * parameter: the adapter's driver faults, the coordinator's Begin/Rollback/Commit
 * faults, the cache server's faults, the random draws and bcrypt's outcomes. A
 * transaction's writes are undone, when it does not commit, by restoring the
 * tables as they were when it began.
 */
module UserCommands {
  import opened Wrappers
  import opened Errs
  import opened Users
  import opened Tables
  import opened Transaction
  import opened Tokens
  import opened CacheKeys
  import opened KeyValueCache
  import Roles
  import UserDb
  import Pgx

  // ---- the domain errors the commands build ----

  const InvalidToken: Error := NewDomainError(InvalidArgument, Plain("invalid or expired token"))
  const InvalidOtp: Error := NewDomainError(InvalidArgument, Plain("invalid or expired OTP"))
  const AlreadyVerified: Error := NewDomainError(InvalidArgument, Plain("user already verified"))
  const InvalidCredentials: Error := NewDomainError(Unauthenticated, Plain("invalid credentials"))
  const InvalidUserData: Error := NewDomainError(Internal, Plain("invalid user data"))
  const LinkExpired: Error := NewDomainError(Unauthenticated, Plain("link expired or invalid"))
  const PasswordIncorrect: Error := NewDomainError(Unauthenticated, Plain("password incorrect"))
  const InvalidRefresh: Error := NewDomainError(Unauthenticated, Plain("invalid or expired refresh token"))
  const SessionBlocked: Error := NewDomainError(Unauthenticated, Plain("session is blocked"))
  const SessionUserMismatch: Error := NewDomainError(Unauthenticated, Plain("session user mismatch"))

  /** The lifetimes the commands give their tokens, in seconds. */
  const ActivationTtl: int := 90
  const ResetTtl: int := 15 * 60
  const AccessTtl: int := 30 * 60
  const RefreshTtl: int := 24 * 60 * 60
  const RenewedAccessTtl: int := 15 * 60

  /** The scope texts the commands look tokens up by. */
  const ActivationScope: string := ScopeText(ActivationToken)
  const ResetScope: string := ScopeText(PasswordReset)

  /** The faults CreateUser can meet: the transaction's, the first insert's, the
      retried insert's and the token insert's. */
  datatype CreateUserFaults = CreateUserFaults(
    tx: TxFaults, insert: Option<Error>, retry: Option<Error>, token: Option<Error>)

  /** The fields UpdateUser may be given; unset ones are None. */
  datatype UserUpdate = UserUpdate(
    firstName: Option<string>, lastName: Option<string>, email: Option<string>,
    roles: Option<Roles.Role>, password: Option<string>, isEnabled: Option<bool>,
    phoneNumber: Option<string>, numOfStore: Option<int>, isStoreCreated: Option<bool>)

  /** The user UpdateUser writes back: first name, address, role, digest and the
      enabled flag are taken from the update; the other fields given are ignored. */
  function ApplyUpdate(u: User, uu: UserUpdate, newHash: Digest): (r: User)
    ensures r.userId == u.userId && r.lastName == u.lastName && r.phoneNumber == u.phoneNumber
    ensures r.numOfStore == u.numOfStore && r.isStoreCreated == u.isStoreCreated && r.isVerified == u.isVerified
    ensures r.firstName == uu.firstName.GetOr(u.firstName) && r.email == uu.email.GetOr(u.email)
    ensures r.role == uu.roles.GetOr(u.role) && r.isEnabled == uu.isEnabled.GetOr(u.isEnabled)
    ensures r.passwordHash == (if uu.password.Some? then newHash else u.passwordHash)
  {
    User(u.userId, if uu.password.Some? then newHash else u.passwordHash, uu.email.GetOr(u.email),
         uu.firstName.GetOr(u.firstName), u.lastName, u.phoneNumber, u.country, u.provider, u.providerId,
         uu.roles.GetOr(u.role), u.isVerified, uu.isEnabled.GetOr(u.isEnabled), u.isStoreCreated, u.numOfStore)
  }

  /** The cache TTL CreateSession passes, as written: time.Duration(ExpiresAt.Second()),
      the second-of-minute of the expiry read as nanoseconds. */
  function CacheTtl(expiresAt: Time): (ns: int)
    ensures 0 <= ns < 60
  {
    expiresAt % 60
  }

  /** As written, both session entries are asked to live one second, or are
      refused when the expiry falls on a whole minute. Both lifetimes are whole
      minutes, so that depends only on `now`. */
  lemma SessionTtlAsWritten(now: Time)
    ensures CacheTtl(now + AccessTtl) == now % 60 && CacheTtl(now + RefreshTtl) == now % 60
    ensures now % 60 == 0 ==> ExpireSeconds(CacheTtl(now + AccessTtl)) == 0
    ensures now % 60 != 0 ==> ExpireSeconds(CacheTtl(now + AccessTtl)) == 1
                              && ExpireSeconds(CacheTtl(now + RefreshTtl)) == 1
  {
    assert (now + AccessTtl) % 60 == now % 60;
    assert (now + RefreshTtl) % 60 == now % 60;
  }

  /** The cache TTL evidently intended: the time left until the expiry
      (time.Until), as a duration. */
  function CacheTtlFixed(expiresAt: Time, now: Time): (ns: int)
    ensures expiresAt > now ==> ns > 0 && ExpireSeconds(ns) == expiresAt - now
  {
    (expiresAt - now) * Second
  }

  /** With the intended TTL each session entry lives exactly as long as its
      token, whatever the time. */
  lemma SessionTtlFixed(now: Time)
    ensures ExpireSeconds(CacheTtlFixed(now + AccessTtl, now)) == AccessTtl
    ensures ExpireSeconds(CacheTtlFixed(now + RefreshTtl, now)) == RefreshTtl
  {
  }

  /** What CreateSession hands back. */
  datatype SessionData = SessionData(
    accessToken: string, accessTokenExpiresAt: Time, refreshToken: string, refreshTokenExpiresAt: Time)

  /** What RenewAccessToken hands back. */
  datatype TokenData = TokenData(accessToken: string, accessExpiresAt: Time, userId: Uuid)

  class UserBusiness {
    const storer: UserDb.UserDb
    var cache: Cache?
    const validators: Validators
    const sha256: string -> Digest
    const serviceName: string
    const sign: Payload -> Result<string>
    /** bcrypt's verdict on a well-formed hash and a password. */
    const bcrypt: (string, string) -> CompareOutcome

    /** NewUserBusiness: the cache is never set. */
    constructor (store: UserDb.UserDb, v: Validators, sha: string -> Digest, svcName: string,
                 signer: Payload -> Result<string>, verdict: (string, string) -> CompareOutcome)
      ensures storer == store && cache == null && validators == v && sha256 == sha
      ensures serviceName == svcName && sign == signer && bcrypt == verdict
    {
      storer, cache, validators, sha256, serviceName, sign, bcrypt := store, null, v, sha, svcName, signer, verdict;
    }

    // ---- CreateUser ----

    /** The insert step of CreateUser's transaction as written: when the insert
        reports ErrUserIDConflict it is retried once under `retryId`, but the
        first error is returned even when the retry succeeds. */
    method InsertUser(user: User, retryId: Uuid, insertFault: Option<Error>, retryFault: Option<Error>)
      returns (stored: User, err: Option<Error>)
      requires storer.Valid()
      modifies storer
      ensures storer.Valid() && storer.tokens == old(storer.tokens) && storer.sessions == old(storer.sessions)
      ensures var first := UserDb.InsertResult(old(storer.users), user, insertFault);
        && (first.None? ==> err.None? && stored == user
                              && storer.users == old(storer.users)[user.userId := UserDb.InsertedRow(user, storer.defaults)])
        && (first.Some? ==> err.Some?)
        && (first.Some? && !Is(first.value, ErrUserIDConflict) ==> err == first && storer.users == old(storer.users))
        && (first.Some? && Is(first.value, ErrUserIDConflict) ==>
              var retried := user.(userId := retryId);
              var second := UserDb.InsertResult(old(storer.users), retried, retryFault);
              stored == retried
              && (second.None? ==>
                    err == first && storer.users == old(storer.users)[retryId := UserDb.InsertedRow(retried, storer.defaults)])
              && (second.Some? ==> err == Some(Wrap("createuserretry: ", second.value)) && storer.users == old(storer.users)))
    {
      stored := user;
      err := storer.CreateUser(stored, insertFault);
      if err.Some? && Is(err.value, ErrUserIDConflict) {
        stored := stored.(userId := retryId);
        var retryErr := storer.CreateUser(stored, retryFault);
        if retryErr.Some? {
          err := Some(Wrap("createuserretry: ", retryErr.value));
        }
      }
    }

    /** The insert step as evidently intended: a successful retry is a success,
        and the row is stored under the retried id. */
    method InsertUserRetrying(user: User, retryId: Uuid, insertFault: Option<Error>, retryFault: Option<Error>)
      returns (stored: User, err: Option<Error>)
      requires storer.Valid()
      modifies storer
      ensures storer.Valid() && storer.tokens == old(storer.tokens) && storer.sessions == old(storer.sessions)
      ensures err.None? ==> storer.users == old(storer.users)[stored.userId := UserDb.InsertedRow(stored, storer.defaults)]
      ensures err.Some? ==> storer.users == old(storer.users)
      ensures var first := UserDb.InsertResult(old(storer.users), user, insertFault);
        && (first.None? ==> err.None? && stored == user)
        && (first.Some? && !Is(first.value, ErrUserIDConflict) ==> err == first)
        && (first.Some? && Is(first.value, ErrUserIDConflict) ==>
              var retried := user.(userId := retryId);
              var second := UserDb.InsertResult(old(storer.users), retried, retryFault);
              stored == retried
              && (second.None? <==> err.None?)
              && (second.Some? ==> err == Some(Wrap("createuserretry: ", second.value))))
    {
      stored := user;
      err := storer.CreateUser(stored, insertFault);
      if err.Some? && Is(err.value, ErrUserIDConflict) {
        stored := stored.(userId := retryId);
        var retryErr := storer.CreateUser(stored, retryFault);
        err := if retryErr.Some? then Some(Wrap("createuserretry: ", retryErr.value)) else None;
      }
    }

    /** The work CreateUser runs inside its transaction: the insert step, then a
        90-second activation code for the stored id, then the code's row. */
    method CreateUserWork(user: User, retryId: Uuid, draw: Result<nat>, now: Time, f: CreateUserFaults)
      returns (stored: User, token: Option<Token>, fnErr: Option<Error>)
      requires draw.Ok? ==> draw.value < 1000000
      requires storer.Valid()
      modifies storer
      ensures storer.Valid() && storer.sessions == old(storer.sessions)
      ensures token.Some? <==> fnErr.None?
      ensures var first := UserDb.InsertResult(old(storer.users), user, f.insert);
        && (fnErr.None? <==> first.None? && draw.Ok? && f.token.None?)
        && (fnErr.None? ==>
              stored == user && storer.users == old(storer.users)[user.userId := UserDb.InsertedRow(user, storer.defaults)]
              && token.value == GenerateOTP(user.userId, ActivationTtl, ActivationToken, draw, now, sha256).value
              && storer.tokens == old(storer.tokens) + [TokenRowOf(token.value)])
        && (first == Some(ErrEmailAlreadyExists) || first == Some(ErrPhoneNumberExists) ==> fnErr == first)
    {
      token := None;
      stored, fnErr := InsertUser(user, retryId, f.insert, f.retry);
      if fnErr.None? {
        var t := GenerateOTP(stored.userId, ActivationTtl, ActivationToken, draw, now, sha256);
        if t.Fail? {
          fnErr := Some(Wrap("generateOTP: ", t.error));
        } else {
          var tokenErr := storer.CreateToken(t.value, f.token);
          if tokenErr.Some? {
            fnErr := Some(Wrap("createOTP: ", tokenErr.value));
          } else {
            token := Some(t.value);
          }
        }
      }
    }

    /** UserBusiness.CreateUser: a validated user and its 90-second activation
        code are stored in one transaction, or nothing is. */
    method CreateUser(info: UserCreate, freshId: Uuid, retryId: Uuid, draw: Result<nat>, now: Time,
                      f: CreateUserFaults)
      returns (created: Option<(User, Token)>, err: Option<Error>)
      requires info.password.None?
      requires draw.Ok? ==> draw.value < 1000000
      requires storer.Valid()
      modifies storer
      ensures storer.Valid() && storer.sessions == old(storer.sessions)
      ensures created.Some? <==> err.None?
      ensures err.Some? ==> storer.users == old(storer.users) && storer.tokens == old(storer.tokens)
      ensures NewUserFieldErrors(info, validators) != [] ==>
                err == Some(NewDomainError(InvalidArgument, Fields(NewUserFieldErrors(info, validators))))
      ensures NewUserFieldErrors(info, validators) == [] ==>
        var u := NewUserValue(info, freshId, validators.parseEmail(info.email).value,
                              validators.validatePhone(info.phoneNumber, info.country).value);
        var first := UserDb.InsertResult(old(storer.users), u, f.insert);
        && (err.None? <==> f.tx.begin.None? && first.None? && draw.Ok? && f.token.None? && f.tx.commit.None?)
        && (err.None? ==>
              created.value.0 == u && storer.users == old(storer.users)[freshId := UserDb.InsertedRow(u, storer.defaults)]
              && created.value.1 == GenerateOTP(freshId, ActivationTtl, ActivationToken, draw, now, sha256).value
              && storer.tokens == old(storer.tokens) + [TokenRowOf(created.value.1)])
        && (f.tx.begin.None? && (first == Some(ErrEmailAlreadyExists) || first == Some(ErrPhoneNumberExists)) ==>
              AsDomain(err.value).Some? && AsDomain(err.value).value.0 == AlreadyExists)
        && (f.tx.begin.Some? ==> err == Some(Wrap("createuser-trx: ", ErrCreateTransaction)))
    {
      var user, fieldErr := NewUser(info, freshId, validators);
      if fieldErr.Some? {
        return None, Some(NewDomainError(InvalidArgument, fieldErr.value));
      }
      var token: Option<Token> := None;
      var trxErr: Option<Error>;
      if f.tx.begin.Some? {
        trxErr := Some(ErrCreateTransaction);
      } else {
        var users0, tokens0, sessions0 := storer.users, storer.tokens, storer.sessions;
        var fnErr: Option<Error>;
        user, token, fnErr := CreateUserWork(user, retryId, draw, now, f);
        var settled := Settle(f.tx, fnErr);
        if fnErr.Some? {
          SettleKeepsWorkError(f.tx, fnErr.value, ErrEmailAlreadyExists);
          SettleKeepsWorkError(f.tx, fnErr.value, ErrPhoneNumberExists);
        }
        if !settled.committed {
          storer.Restore(users0, tokens0, sessions0);
        }
        trxErr := settled.err;
      }
      if trxErr.Some? {
        if Is(trxErr.value, ErrEmailAlreadyExists) || Is(trxErr.value, ErrPhoneNumberExists) {
          return None, Some(NewDomainError(AlreadyExists, trxErr.value));
        }
        return None, Some(Wrap("createuser-trx: ", trxErr.value));
      }
      created, err := Some((user, token.value)), None;
    }

    // ---- ActivateUser ----

    /** UserBusiness.ActivateUser: the code's owner must be `usrID`; then the user
        is verified and the code deleted in one transaction. */
    method ActivateUser(usrID: Uuid, token: string, now: Time, lookupFault: Option<Error>, tx: TxFaults,
                        verifyFault: Option<Error>, deleteFault: Option<Error>)
      returns (err: Option<Error>)
      requires storer.Valid()
      modifies storer
      ensures storer.Valid() && storer.sessions == old(storer.sessions)
      ensures err.Some? ==> storer.users == old(storer.users) && storer.tokens == old(storer.tokens)
      ensures err.None? ==>
                usrID in old(storer.users)
                && storer.users == old(storer.users)[usrID := old(storer.users)[usrID].(isVerified := true)]
                && storer.tokens == WithoutMatching(old(storer.tokens), sha256(token), ActivationScope)
                && exists i :: 0 <= i < |old(storer.tokens)| && TokenMatches(old(storer.tokens)[i], sha256(token), ActivationScope)
                     && old(storer.tokens)[i].userId == usrID && now <= old(storer.tokens)[i].expiry
      ensures lookupFault.None? &&
              (forall i :: 0 <= i < |old(storer.tokens)| && TokenMatches(old(storer.tokens)[i], sha256(token), ActivationScope)
                 ==> old(storer.tokens)[i].userId != usrID || now > old(storer.tokens)[i].expiry)
              ==> err == Some(InvalidToken)
      ensures lookupFault.Some? && Is(lookupFault.value, Pgx.ErrNoRows) ==> err == Some(InvalidToken)
      ensures lookupFault.Some? && !Is(lookupFault.value, Pgx.ErrNoRows) ==>
                err == Some(Wrap("getuseridbytoken: ", UserDb.TokenLookupError(lookupFault.value)))
      ensures err.Some? && err != Some(InvalidToken) && err != Some(InvalidOtp) ==> Is(err.value, ErrDatabase)
      ensures lookupFault.None? && tx.begin.None? && tx.commit.None? && verifyFault.None? && deleteFault.None?
              && usrID in old(storer.users) && CountMatching(old(storer.tokens), sha256(token), ActivationScope) != 0
              && (forall i :: 0 <= i < |old(storer.tokens)| && TokenMatches(old(storer.tokens)[i], sha256(token), ActivationScope)
                    ==> old(storer.tokens)[i].userId == usrID && now <= old(storer.tokens)[i].expiry)
              ==> err.None?
    {
      var sha := sha256(token);
      var id, lookupErr := storer.GetUserIDByToken(sha, ActivationScope, now, lookupFault);
      if lookupErr.Some? {
        if Is(lookupErr.value, ErrDatabase) {
          return Some(Wrap("getuseridbytoken: ", lookupErr.value));
        }
        return Some(InvalidToken);
      }
      if id != usrID {
        return Some(InvalidToken);
      }
      var trxErr: Option<Error>;
      if tx.begin.Some? {
        trxErr := Some(ErrCreateTransaction);
      } else {
        var users0, tokens0, sessions0 := storer.users, storer.tokens, storer.sessions;
        var fnErr := storer.VerifyUser(id, verifyFault);
        if fnErr.None? {
          fnErr := storer.DeleteToken(sha, ActivationScope, deleteFault);
        }
        var settled := Settle(tx, fnErr);
        if !settled.committed {
          storer.Restore(users0, tokens0, sessions0);
        }
        trxErr := settled.err;
      }
      if trxErr.Some? {
        if Is(trxErr.value, ErrDatabase) {
          return Some(Wrap("activateuser-trx: ", trxErr.value));
        }
        return Some(InvalidOtp);
      }
      err := None;
    }

    // ---- ResendActivationToken ----

    /** UserBusiness.ResendActivationToken: a fresh 90-second activation code for
        an unverified user, stored outside any transaction. */
    method ResendActivationToken(userID: Uuid, draw: Result<nat>, now: Time, lookupFault: Option<Error>,
                                 tokenFault: Option<Error>)
      returns (result: Option<(User, Token)>, err: Option<Error>)
      requires draw.Ok? ==> draw.value < 1000000
      requires storer.Valid()
      modifies storer
      ensures storer.Valid() && storer.users == old(storer.users) && storer.sessions == old(storer.sessions)
      ensures result.Some? <==> err.None?
      ensures err.Some? ==> storer.tokens == old(storer.tokens)
      ensures lookupFault.None? && userID !in old(storer.users) ==>
                err == Some(NewDomainError(InvalidArgument, ErrUserNotFound))
      ensures lookupFault.None? && userID in old(storer.users) && old(storer.users)[userID].isVerified
              && UserDb.LoadUser("getuserbyid", old(storer.users)[userID], validators).Ok? ==>
                err == Some(AlreadyVerified)
      ensures err.None? ==>
                userID in old(storer.users)
                && UserDb.LoadUser("getuserbyid", old(storer.users)[userID], validators) == Ok(result.value.0)
                && !result.value.0.isVerified && draw.Ok?
                && result.value.1 == GenerateOTP(userID, ActivationTtl, ActivationToken, draw, now, sha256).value
                && storer.tokens == old(storer.tokens) + [TokenRowOf(result.value.1)]
      ensures lookupFault.None? && userID in old(storer.users) && !old(storer.users)[userID].isVerified
              && UserDb.LoadUser("getuserbyid", old(storer.users)[userID], validators).Ok?
              && draw.Ok? && tokenFault.None?
              ==> err.None?
    {
      var u, lookupErr := storer.GetUserByID(userID, lookupFault, validators);
      if lookupErr.Some? {
        if Is(lookupErr.value, ErrUserNotFound) {
          return None, Some(NewDomainError(InvalidArgument, lookupErr.value));
        }
        return None, Some(Wrap("getuserbyid:", lookupErr.value));
      }
      if u.value.isVerified {
        return None, Some(AlreadyVerified);
      }
      var t := GenerateOTP(userID, ActivationTtl, ActivationToken, draw, now, sha256);
      if t.Fail? {
        return None, Some(Wrap("generateotp: ", t.error));
      }
      var tokenErr := storer.CreateToken(t.value, tokenFault);
      if tokenErr.Some? {
        return None, Some(Wrap("createotp: ", tokenErr.value));
      }
      result, err := Some((u.value, t.value)), None;
    }

    // ---- Authenticate ----

    /** UserBusiness.Authenticate: an unknown address is "invalid credentials", an
        empty stored digest "invalid user data". Otherwise the outcome is
        ComparePassword's, which always fails: no login succeeds, and the
        failure is "comparepassword: " around bcrypt's refusal of the hash. */
    method Authenticate(email: string, password: string, lookupFault: Option<Error>)
      returns (user: Option<User>, err: Option<Error>)
      ensures user.None? && err.Some?
      ensures lookupFault.None? && !UserDb.HasEmail(storer.users, email) ==> err == Some(InvalidCredentials)
      ensures lookupFault.None? && UserDb.HasEmail(storer.users, email) &&
              (forall id :: id in storer.users && storer.users[id].email == email ==>
                 UserDb.LoadUser("getuserbyemail", storer.users[id], validators).Ok? && storer.users[id].passwordHash != [])
              ==> exists id :: id in storer.users && storer.users[id].email == email
                    && err == Some(Wrap("comparepassword: ",
                                        ComparePassword(storer.users[id].passwordHash, password, sha256, bcrypt).value))
      ensures lookupFault.None? && UserDb.HasEmail(storer.users, email) &&
              (forall id :: id in storer.users && storer.users[id].email == email ==>
                 UserDb.LoadUser("getuserbyemail", storer.users[id], validators).Ok? && storer.users[id].passwordHash == [])
              ==> err == Some(InvalidUserData)
      ensures lookupFault.Some? && !Is(lookupFault.value, Pgx.ErrNoRows) && !Is(lookupFault.value, ErrUserNotFound) ==>
                err == Some(Wrap("getinguserbyemail: ", UserDb.LookupError("getuserbyemail: ", lookupFault.value)))
    {
      var u, lookupErr := storer.GetUserByEmail(email, lookupFault, validators);
      assert !Is(ErrDatabase, ErrUserNotFound);
      if lookupErr.Some? {
        if Is(lookupErr.value, ErrUserNotFound) {
          return None, Some(InvalidCredentials);
        }
        return None, Some(Wrap("getinguserbyemail: ", lookupErr.value));
      }
      if |u.value.passwordHash| == 0 {
        return None, Some(InvalidUserData);
      }
      var compareErr := ComparePassword(u.value.passwordHash, password, sha256, bcrypt);
      if compareErr.None? || Is(compareErr.value, ErrInvalidPassword) {
        // The source's success and "invalid credentials" outcomes: never reached.
        assert false;
      }
      user, err := None, Some(Wrap("comparepassword: ", compareErr.value));
    }

    // ---- UpdateUser ----

    /** UserBusiness.UpdateUser: the loaded user with the update applied is written
        back, outside any transaction. A new password must first pass
        ComparePassword against the stored digest, which it never does, so an
        update that sets a password always fails and writes nothing. The loaded
        user is never enabled and the adapter does not write is_enabled, so the
        user returned is enabled only when the update says so, whatever is
        stored. */
    method UpdateUser(userID: Uuid, uu: UserUpdate, lookupFault: Option<Error>, updateFault: Option<Error>)
      returns (user: Option<User>, err: Option<Error>)
      requires storer.Valid()
      modifies storer
      ensures storer.Valid() && storer.tokens == old(storer.tokens) && storer.sessions == old(storer.sessions)
      ensures user.Some? <==> err.None?
      ensures err.Some? ==> storer.users == old(storer.users)
      ensures uu.password.Some? ==> err.Some?
      ensures lookupFault.None? && userID !in old(storer.users) ==> err == Some(Wrap("get user: ", ErrUserNotFound))
      ensures lookupFault.None? && userID in old(storer.users)
              && UserDb.LoadUser("getuserbyid", old(storer.users)[userID], validators).Ok? && uu.password.Some? ==>
                err == Some(Wrap("comparepassword: ",
                                 ComparePassword(old(storer.users)[userID].passwordHash, uu.password.value, sha256, bcrypt).value))
      ensures err.None? ==>
                userID in old(storer.users)
                && UserDb.LoadUser("getuserbyid", old(storer.users)[userID], validators).Ok?
                && user.value == ApplyUpdate(UserDb.LoadUser("getuserbyid", old(storer.users)[userID], validators).value,
                                             uu, [])
                && storer.users == old(storer.users)[userID := UserDb.UpdatedRow(old(storer.users)[userID], user.value)]
                && storer.users[userID].isEnabled == old(storer.users)[userID].isEnabled
                && user.value.isEnabled == uu.isEnabled.GetOr(false)
      ensures lookupFault.None? && userID in old(storer.users)
              && UserDb.LoadUser("getuserbyid", old(storer.users)[userID], validators).Ok?
              && uu.password.None? && updateFault.None?
              && UpdateViolation(old(storer.users),
                   ApplyUpdate(UserDb.LoadUser("getuserbyid", old(storer.users)[userID], validators).value, uu, [])).None?
              ==> err.None?
    {
      var usr, lookupErr := storer.GetUserByID(userID, lookupFault, validators);
      if lookupErr.Some? {
        return None, Some(Wrap("get user: ", lookupErr.value));
      }
      if uu.password.Some? {
        var compareErr := ComparePassword(usr.value.passwordHash, uu.password.value, sha256, bcrypt);
        if compareErr.None? {
          // The source goes on to hash the new password: never reached.
          assert false;
        }
        return None, Some(Wrap("comparepassword: ", compareErr.value));
      }
      var updated := ApplyUpdate(usr.value, uu, []);
      var updateErr := storer.UpdateUser(updated, updateFault);
      if updateErr.Some? {
        return None, Some(Wrap("update user: ", updateErr.value));
      }
      user, err := Some(updated), None;
    }

    // ---- CreateSession ----

    /** UserBusiness.CreateSession: a 30-minute access token and a 24-hour refresh
        token; both cache entries are set (the refresh key to the access token),
        then the session row keyed by the refresh token's id is stored with the
        refresh token's digest. Cache writes are not undone when a later step
        fails. As written, the cache TTL is the expiry's second-of-minute in
        nanoseconds: each entry lives one second, and when `now` falls on a
        whole minute the first SETEX is refused and the session fails. */
    method CreateSession(user: User, userAgent: string, clientIP: string, now: Time,
                         accessId: Result<Uuid>, refreshId: Result<Uuid>,
                         setAccessFault: Option<Error>, setRefreshFault: Option<Error>, sessionFault: Option<Error>)
      returns (data: Option<SessionData>, err: Option<Error>)
      requires cache != null && storer.Valid()
      modifies storer, cache
      ensures storer.Valid() && storer.users == old(storer.users) && storer.tokens == old(storer.tokens)
      ensures data.Some? <==> err.None?
      ensures err.Some? ==> storer.sessions == old(storer.sessions)
      ensures var role := Roles.String(user.role);
        var access := MintToken(JwtData(AccessTtl, user.userId, role, serviceName), accessId, now, sign);
        var refresh := MintToken(JwtData(RefreshTtl, user.userId, role, serviceName), refreshId, now, sign);
        && (access.Fail? ==> err == Some(Wrap("generatetoken: ", access.error)) && cache.entries == old(cache.entries))
        && (access.Ok? && refresh.Fail? ==>
              err == Some(Wrap("generatetoken: ", refresh.error)) && cache.entries == old(cache.entries))
        && (access.Ok? && refresh.Ok? && setAccessFault.Some? ==>
              err == Some(Wrap("setcache: ", Wrap("redis setex: ", setAccessFault.value))) && cache.entries == old(cache.entries))
        && (access.Ok? && refresh.Ok? && setAccessFault.None? && now % 60 == 0 ==>
              err == Some(Wrap("setcache: ", Wrap("redis setex: ", ErrInvalidExpireTime)))
              && cache.entries == old(cache.entries))
        && (err.None? ==>
              access.Ok? && refresh.Ok? && now % 60 != 0
              && data.value == SessionData(access.value.0, now + AccessTtl, refresh.value.0, now + RefreshTtl)
              && cache.entries == old(cache.entries)
                   [SessionAccessKeys(user.userId) := Entry(access.value.0, 1)]
                   [SessionRefreshKeys(user.userId) := Entry(access.value.0, 1)]
              && storer.sessions == old(storer.sessions)[refreshId.value :=
                   Session(refreshId.value, user.userId, sha256(refresh.value.0), userAgent, clientIP, false,
                           now + RefreshTtl)])
        && (access.Ok? && refresh.Ok? && setAccessFault.None? && setRefreshFault.None? && now % 60 != 0 ==>
              (err.None? <==> sessionFault.None? && refreshId.value !in old(storer.sessions)))
    {
      SessionTtlAsWritten(now);
      var role := Roles.String(user.role);
      var access := MintToken(JwtData(AccessTtl, user.userId, role, serviceName), accessId, now, sign);
      if access.Fail? {
        return None, Some(Wrap("generatetoken: ", access.error));
      }
      var refresh := MintToken(JwtData(RefreshTtl, user.userId, role, serviceName), refreshId, now, sign);
      if refresh.Fail? {
        return None, Some(Wrap("generatetoken: ", refresh.error));
      }
      var (accessToken, accessPayload) := access.value;
      var (refreshToken, refreshPayload) := refresh.value;
      var setErr := cache.Set(SessionAccessKeys(user.userId), accessToken, CacheTtl(accessPayload.expiresAt),
                              setAccessFault);
      if setErr.Some? {
        return None, Some(Wrap("setcache: ", setErr.value));
      }
      setErr := cache.Set(SessionRefreshKeys(user.userId), accessToken, CacheTtl(refreshPayload.expiresAt),
                          setRefreshFault);
      if setErr.Some? {
        return None, Some(Wrap("setcache: ", setErr.value));
      }
      var session := Session(Uuid(refreshPayload.id), user.userId, sha256(refreshToken), userAgent, clientIP,
                             false, refreshPayload.expiresAt);
      var sessionErr := storer.CreateSession(session, sessionFault);
      if sessionErr.Some? {
        return None, Some(Wrap("createsession: ", sessionErr.value));
      }
      data := Some(SessionData(accessToken, accessPayload.expiresAt, refreshToken, refreshPayload.expiresAt));
      err := None;
    }

    // ---- ForgetPassword ----

    /** UserBusiness.ForgetPassword: a 15-minute reset token for a known address;
        an unknown address is not an error and writes nothing. The plaintext of a
        generated token is printed to standard output before its row is
        inserted, so it is printed even when the insert fails; `printed` is the
        lines written there. */
    method ForgetPassword(email: string, lookupFault: Option<Error>, random: Result<seq<Byte>>, now: Time,
                          tokenFault: Option<Error>)
      returns (result: Option<(User, Token)>, err: Option<Error>, printed: seq<string>)
      requires random.Ok? ==> |random.value| == 16
      requires storer.Valid()
      modifies storer
      ensures storer.Valid() && storer.users == old(storer.users) && storer.sessions == old(storer.sessions)
      ensures result.Some? ==> err.None?
      ensures result.None? ==> storer.tokens == old(storer.tokens)
      ensures lookupFault.None? && !UserDb.HasEmail(old(storer.users), email) ==> result.None? && err.None?
      ensures result.Some? ==>
                (exists id :: id in old(storer.users) && old(storer.users)[id].email == email
                   && UserDb.LoadUser("getuserbyemail", old(storer.users)[id], validators) == Ok(result.value.0))
                && random.Ok?
                && result.value.1 == GenerateToken(result.value.0.userId, ResetTtl, Users.PasswordReset, random, now, sha256).value
                && storer.tokens == old(storer.tokens) + [TokenRowOf(result.value.1)]
      ensures lookupFault.None? && UserDb.HasEmail(old(storer.users), email) && random.Ok? && tokenFault.None?
              && (forall id :: id in old(storer.users) && old(storer.users)[id].email == email ==>
                    UserDb.LoadUser("getuserbyemail", old(storer.users)[id], validators).Ok?)
              ==> result.Some?
      ensures |printed| <= 1 && (printed != [] ==> random.Ok?)
      ensures result.Some? ==> printed == [result.value.1.plaintext]
      ensures printed == [] ==> result.None? && storer.tokens == old(storer.tokens)
      ensures printed != [] && result.None? ==> tokenFault.Some? && err.Some?
      ensures lookupFault.None? && UserDb.HasEmail(old(storer.users), email) && random.Ok?
              && (forall id :: id in old(storer.users) && old(storer.users)[id].email == email ==>
                    UserDb.LoadUser("getuserbyemail", old(storer.users)[id], validators).Ok?)
              ==> |printed| == 1
    {
      printed := [];
      var user, lookupErr := storer.GetUserByEmail(email, lookupFault, validators);
      if lookupErr.Some? {
        if Is(lookupErr.value, ErrUserNotFound) {
          return None, None, printed;
        }
        return None, Some(Wrap("getuserbyemail: ", lookupErr.value)), printed;
      }
      var token := GenerateToken(user.value.userId, ResetTtl, Users.PasswordReset, random, now, sha256);
      if token.Fail? {
        return None, Some(Wrap("generatetoken: ", token.error)), printed;
      }
      printed := printed + [token.value.plaintext];
      var tokenErr := storer.CreateToken(token.value, tokenFault);
      if tokenErr.Some? {
        return None, Some(Wrap("createtoken: ", tokenErr.value)), printed;
      }
      result, err := Some((user.value, token.value)), None;
    }

    // ---- PasswordReset ----

    /** The work PasswordReset runs inside its transaction: look the token up,
        delete it, store the new digest for its owner. */
    method PasswordResetWork(sha: Digest, now: Time, newHash: Digest, lookupFault: Option<Error>,
                             deleteFault: Option<Error>, updateFault: Option<Error>)
      returns (userId: Uuid, fnErr: Option<Error>)
      requires storer.Valid()
      modifies storer
      ensures storer.Valid() && storer.sessions == old(storer.sessions)
      ensures fnErr.None? ==>
                userId in old(storer.users)
                && storer.users == old(storer.users)[userId := old(storer.users)[userId].(passwordHash := newHash)]
                && storer.tokens == WithoutMatching(old(storer.tokens), sha, ResetScope)
                && exists i :: 0 <= i < |old(storer.tokens)| && TokenMatches(old(storer.tokens)[i], sha, ResetScope)
                     && old(storer.tokens)[i].userId == userId && now <= old(storer.tokens)[i].expiry
      ensures lookupFault.None? &&
              (forall i :: 0 <= i < |old(storer.tokens)| && TokenMatches(old(storer.tokens)[i], sha, ResetScope)
                 ==> now > old(storer.tokens)[i].expiry)
              ==> fnErr.Some? && !Is(fnErr.value, ErrDatabase)
      ensures lookupFault.None? && deleteFault.None? && updateFault.None? && CountMatching(old(storer.tokens), sha, ResetScope) != 0
              && (forall i :: 0 <= i < |old(storer.tokens)| && TokenMatches(old(storer.tokens)[i], sha, ResetScope)
                    ==> old(storer.tokens)[i].userId in old(storer.users) && now <= old(storer.tokens)[i].expiry)
              ==> fnErr.None?
    {
      var lookupErr;
      userId, lookupErr := storer.GetUserIDByToken(sha, ResetScope, now, lookupFault);
      if lookupErr.Some? {
        return userId, Some(Wrap("getuseridbytoken: ", lookupErr.value));
      }
      var deleteErr := storer.DeleteToken(sha, ResetScope, deleteFault);
      if deleteErr.Some? {
        return userId, Some(Wrap("deletetoken: ", deleteErr.value));
      }
      var updateErr := storer.UpdatePassword(userId, newHash, updateFault);
      if updateErr.Some? {
        return userId, Some(Wrap("updatepassword: ", updateErr.value));
      }
      fnErr := None;
    }

    /** UserBusiness.PasswordReset: the new password is hashed with HashPassword
        before the transaction opens; every failure not tagged ErrDatabase is
        reported as an expired or invalid link. On success the stored digest is
        one the corrected comparison accepts for the new password, whenever
        bcrypt's hashing and comparison agree. */
    method PasswordReset(token: string, now: Time, newPass: string, generate: string -> Result<Digest>,
                         tx: TxFaults, lookupFault: Option<Error>, deleteFault: Option<Error>,
                         updateFault: Option<Error>)
      returns (userId: Uuid, err: Option<Error>)
      requires storer.Valid()
      modifies storer
      ensures storer.Valid() && storer.sessions == old(storer.sessions)
      ensures err.Some? ==> userId == NilUuid && storer.users == old(storer.users) && storer.tokens == old(storer.tokens)
      ensures var newHash := HashPassword(newPass, sha256, generate);
        && (newHash.Fail? ==> err == Some(Wrap("hashpassword: ", newHash.error)))
        && (newHash.Ok? && tx.begin.Some? ==> err == Some(LinkExpired))
        && (newHash.Ok? && err.Some? ==> err == Some(LinkExpired) || Is(err.value, ErrDatabase))
        && (newHash.Ok? && tx.begin.None? && lookupFault.None? &&
            (forall i :: 0 <= i < |old(storer.tokens)| && TokenMatches(old(storer.tokens)[i], sha256(token), ResetScope)
               ==> now > old(storer.tokens)[i].expiry)
            ==> err == Some(LinkExpired))
        && (err.None? ==>
              newHash.Ok? && userId in old(storer.users)
              && storer.users == old(storer.users)[userId := old(storer.users)[userId].(passwordHash := newHash.value)]
              && storer.tokens == WithoutMatching(old(storer.tokens), sha256(token), ResetScope)
              && exists i :: 0 <= i < |old(storer.tokens)| && TokenMatches(old(storer.tokens)[i], sha256(token), ResetScope)
                   && old(storer.tokens)[i].userId == userId && now <= old(storer.tokens)[i].expiry)
      ensures HashPassword(newPass, sha256, generate).Ok? && tx.begin.None? && tx.commit.None?
              && lookupFault.None? && deleteFault.None? && updateFault.None?
              && CountMatching(old(storer.tokens), sha256(token), ResetScope) != 0
              && (forall i :: 0 <= i < |old(storer.tokens)| && TokenMatches(old(storer.tokens)[i], sha256(token), ResetScope)
                    ==> old(storer.tokens)[i].userId in old(storer.users) && now <= old(storer.tokens)[i].expiry)
              ==> err.None?
      ensures err.None? && BcryptAgrees(generate, bcrypt) ==>
                ComparePasswordFixed(storer.users[userId].passwordHash, newPass, sha256, bcrypt).None?
    {
      var newHash := HashPassword(newPass, sha256, generate);
      if newHash.Fail? {
        return NilUuid, Some(Wrap("hashpassword: ", newHash.error));
      }
      var sha := sha256(token);
      var trxErr: Option<Error>;
      if tx.begin.Some? {
        trxErr := Some(ErrCreateTransaction);
      } else {
        var users0, tokens0, sessions0 := storer.users, storer.tokens, storer.sessions;
        var fnErr;
        userId, fnErr := PasswordResetWork(sha, now, newHash.value, lookupFault, deleteFault, updateFault);
        var settled := Settle(tx, fnErr);
        if fnErr.Some? {
          SettleKeepsWorkError(tx, fnErr.value, ErrDatabase);
        }
        if !settled.committed {
          storer.Restore(users0, tokens0, sessions0);
        }
        trxErr := settled.err;
      }
      if trxErr.Some? {
        if Is(trxErr.value, ErrDatabase) {
          return NilUuid, Some(Wrap("dbtransaction: ", trxErr.value));
        }
        return NilUuid, Some(LinkExpired);
      }
      if BcryptAgrees(generate, bcrypt) {
        HashThenCompare(newPass, sha256, generate, bcrypt);
      }
      err := None;
    }

    // ---- ChangePassword ----

    /** The work ChangePassword runs inside its transaction. ComparePassword never
        accepts the old password, so the work stops there for every user that
        loads: the hashing and the update that follow in the source are never
        reached, and nothing is written. */
    method ChangePasswordWork(userId: Uuid, oldPass: string, lookupFault: Option<Error>)
      returns (user: Option<User>, fnErr: Option<Error>)
      ensures user.None? && fnErr.Some?
      ensures lookupFault.Some? ==> fnErr == Some(Wrap("getuserbyid: ", UserDb.LookupError("getuserbyid: ", lookupFault.value)))
      ensures lookupFault.None? && userId !in storer.users ==> fnErr == Some(Wrap("getuserbyid: ", ErrUserNotFound))
      ensures lookupFault.None? && userId in storer.users
              && UserDb.LoadUser("getuserbyid", storer.users[userId], validators).Ok? ==>
                fnErr == Some(Wrap("comparePassword: ",
                                   ComparePassword(storer.users[userId].passwordHash, oldPass, sha256, bcrypt).value))
    {
      var userValue, lookupErr := storer.GetUserByID(userId, lookupFault, validators);
      if lookupErr.Some? {
        return None, Some(Wrap("getuserbyid: ", lookupErr.value));
      }
      var compareErr := ComparePassword(userValue.value.passwordHash, oldPass, sha256, bcrypt);
      if compareErr.None? {
        assert false;
      }
      user, fnErr := None, Some(Wrap("comparePassword: ", compareErr.value));
    }

    /** UserBusiness.ChangePassword: check the old password and store the new
        digest in one transaction. The comparison as written never passes, so no change
        succeeds: a user that loads gets "dbtransaction : comparePassword: "
        around bcrypt's refusal, never "password incorrect". */
    method ChangePassword(userId: Uuid, oldPass: string, tx: TxFaults, lookupFault: Option<Error>)
      returns (user: Option<User>, err: Option<Error>)
      requires storer.Valid()
      modifies storer
      ensures storer.Valid() && storer.tokens == old(storer.tokens) && storer.sessions == old(storer.sessions)
      ensures user.None? && err.Some? && storer.users == old(storer.users)
      ensures tx.begin.Some? ==> err == Some(Wrap("dbtransaction : ", ErrCreateTransaction))
      ensures tx.begin.None? && tx.rollback.None? && lookupFault.None? && userId in old(storer.users)
              && UserDb.LoadUser("getuserbyid", old(storer.users)[userId], validators).Ok? ==>
                err == Some(Wrap("dbtransaction : ", Wrap("comparePassword: ",
                                 ComparePassword(old(storer.users)[userId].passwordHash, oldPass, sha256, bcrypt).value)))
      ensures tx.begin.None? && lookupFault.None? && userId in old(storer.users)
              && UserDb.LoadUser("getuserbyid", old(storer.users)[userId], validators).Ok? ==>
                err != Some(PasswordIncorrect)
    {
      var trxErr: Option<Error>;
      if tx.begin.Some? {
        trxErr := Some(ErrCreateTransaction);
      } else {
        var users0, tokens0, sessions0 := storer.users, storer.tokens, storer.sessions;
        var fnErr;
        user, fnErr := ChangePasswordWork(userId, oldPass, lookupFault);
        var settled := Settle(tx, fnErr);
        SettleKeepsWorkError(tx, fnErr.value, ErrInvalidPassword);
        if !settled.committed {
          storer.Restore(users0, tokens0, sessions0);
        }
        trxErr := settled.err;
      }
      if trxErr.None? {
        // The source's success: never reached.
        assert false;
      }
      if Is(trxErr.value, ErrInvalidPassword) {
        return None, Some(PasswordIncorrect);
      }
      return None, Some(Wrap("dbtransaction : ", trxErr.value));
    }

    // ---- RenewAccessToken ----

    /** UserBusiness.RenewAccessToken: a 15-minute access token for the owner of
        the refresh token's session. The blocked check comes before the owner
        check; the session's expiry is not checked, and nothing is written. */
    method RenewAccessToken(payload: Payload, now: Time, sessionFault: Option<Error>, freshId: Result<Uuid>)
      returns (data: Option<TokenData>, err: Option<Error>)
      ensures data.Some? <==> err.None?
      ensures sessionFault.None? && Uuid(payload.id) !in storer.sessions ==> err == Some(InvalidRefresh)
      ensures sessionFault.Some? && Is(sessionFault.value, Pgx.ErrNoRows) ==> err == Some(InvalidRefresh)
      ensures sessionFault.None? && Uuid(payload.id) in storer.sessions && storer.sessions[Uuid(payload.id)].isBlocked ==>
                err == Some(SessionBlocked)
      ensures sessionFault.None? && Uuid(payload.id) in storer.sessions && !storer.sessions[Uuid(payload.id)].isBlocked
              && storer.sessions[Uuid(payload.id)].userId != payload.userId ==>
                err == Some(SessionUserMismatch)
      ensures err.None? ==>
                Uuid(payload.id) in storer.sessions
                && var s := storer.sessions[Uuid(payload.id)];
                var minted := MintToken(JwtData(RenewedAccessTtl, s.userId, payload.roleId, serviceName), freshId, now, sign);
                !s.isBlocked && s.userId == payload.userId && minted.Ok?
                && data.value == TokenData(minted.value.0, now + RenewedAccessTtl, s.userId)
      ensures sessionFault.None? && Uuid(payload.id) in storer.sessions && !storer.sessions[Uuid(payload.id)].isBlocked
              && storer.sessions[Uuid(payload.id)].userId == payload.userId
              && MintToken(JwtData(RenewedAccessTtl, payload.userId, payload.roleId, serviceName), freshId, now, sign).Ok? ==>
                err.None?
    {
      var session, lookupErr := storer.GetSession(payload.id, sessionFault);
      if lookupErr.Some? {
        if Is(lookupErr.value, ErrSessionNotFound) {
          return None, Some(InvalidRefresh);
        }
        return None, Some(Wrap("getsession: ", lookupErr.value));
      }
      if session.value.isBlocked {
        return None, Some(SessionBlocked);
      }
      if payload.userId != session.value.userId {
        return None, Some(SessionUserMismatch);
      }
      var minted := MintToken(JwtData(RenewedAccessTtl, session.value.userId, payload.roleId, serviceName),
                              freshId, now, sign);
      if minted.Fail? {
        return None, Some(Wrap("generatetoken: ", minted.error));
      }
      data := Some(TokenData(minted.value.0, minted.value.1.expiresAt, session.value.userId));
      err := None;
    }

    // ---- BlockSession ----

    /** UserBusiness.BlockSession as written: both cache deletions use the access
        key, so the refresh entry stays; then the session is blocked. */
    method BlockSession(userID: Uuid, refreshToken: string, accessFault: Option<Error>,
                        secondFault: Option<Error>, blockFault: Option<Error>)
      returns (err: Option<Error>)
      requires cache != null && storer.Valid()
      modifies storer, cache
      ensures storer.Valid() && storer.users == old(storer.users) && storer.tokens == old(storer.tokens)
      ensures SessionRefreshKeys(userID) in old(cache.entries) ==>
                SessionRefreshKeys(userID) in cache.entries
                && cache.entries[SessionRefreshKeys(userID)] == old(cache.entries)[SessionRefreshKeys(userID)]
      ensures accessFault.Some? ==> err == Some(Wrap("deletesession: ", Wrap("redis del: ", accessFault.value)))
                                    && cache.entries == old(cache.entries) && storer.sessions == old(storer.sessions)
      ensures accessFault.None? ==> cache.entries == old(cache.entries) - {SessionAccessKeys(userID)}
      ensures accessFault.None? && secondFault.Some? ==>
                err == Some(Wrap("deletesession: ", Wrap("redis del: ", secondFault.value))) && storer.sessions == old(storer.sessions)
      ensures accessFault.None? && secondFault.None? && blockFault.Some? ==>
                storer.sessions == old(storer.sessions)
                && (Is(blockFault.value, ErrSessionNotFound) ==>
                      err == Some(NewDomainError(Unauthenticated, UserDb.DbError("", blockFault.value))))
                && (!Is(UserDb.DbError("", blockFault.value), ErrSessionNotFound) ==>
                      err == Some(Wrap("blocksession: ", UserDb.DbError("", blockFault.value))))
      ensures accessFault.None? && secondFault.None? && blockFault.None? ==>
                storer.sessions == BlockAll(old(storer.sessions), sha256(refreshToken))
                && (err.None? <==> HasActiveSession(old(storer.sessions), sha256(refreshToken)))
                && (err.Some? ==> err == Some(NewDomainError(Unauthenticated, ErrSessionNotFound)))
    {
      var sha := sha256(refreshToken);
      var accessKey := SessionAccessKeys(userID);
      var deleteErr := cache.Delete(accessKey, accessFault);
      if deleteErr.Some? {
        return Some(Wrap("deletesession: ", deleteErr.value));
      }
      var refreshKey := SessionAccessKeys(userID);
      deleteErr := cache.Delete(refreshKey, secondFault);
      if deleteErr.Some? {
        return Some(Wrap("deletesession: ", deleteErr.value));
      }
      var blockErr := storer.BlockSession(sha, blockFault);
      if blockErr.Some? {
        if Is(blockErr.value, ErrSessionNotFound) {
          return Some(NewDomainError(Unauthenticated, blockErr.value));
        }
        return Some(Wrap("blocksession: ", blockErr.value));
      }
      err := None;
    }

    /** BlockSession as evidently intended: the second deletion removes the
        refresh key, so neither session entry survives a successful logout. */
    method BlockSessionFixed(userID: Uuid, refreshToken: string, accessFault: Option<Error>,
                             refreshFault: Option<Error>, blockFault: Option<Error>)
      returns (err: Option<Error>)
      requires cache != null && storer.Valid()
      modifies storer, cache
      ensures storer.Valid() && storer.users == old(storer.users) && storer.tokens == old(storer.tokens)
      ensures accessFault.None? && refreshFault.None? ==>
                cache.entries == old(cache.entries) - {SessionAccessKeys(userID), SessionRefreshKeys(userID)}
                && SessionAccessKeys(userID) !in cache.entries && SessionRefreshKeys(userID) !in cache.entries
      ensures accessFault.Some? ==> err == Some(Wrap("deletesession: ", Wrap("redis del: ", accessFault.value)))
                                    && cache.entries == old(cache.entries) && storer.sessions == old(storer.sessions)
      ensures accessFault.None? && refreshFault.Some? ==>
                err == Some(Wrap("deletesession: ", Wrap("redis del: ", refreshFault.value))) && storer.sessions == old(storer.sessions)
      ensures accessFault.None? && refreshFault.None? && blockFault.Some? ==>
                storer.sessions == old(storer.sessions)
                && (Is(blockFault.value, ErrSessionNotFound) ==>
                      err == Some(NewDomainError(Unauthenticated, UserDb.DbError("", blockFault.value))))
                && (!Is(UserDb.DbError("", blockFault.value), ErrSessionNotFound) ==>
                      err == Some(Wrap("blocksession: ", UserDb.DbError("", blockFault.value))))
      ensures accessFault.None? && refreshFault.None? && blockFault.None? ==>
                storer.sessions == BlockAll(old(storer.sessions), sha256(refreshToken))
                && (err.None? <==> HasActiveSession(old(storer.sessions), sha256(refreshToken)))
                && (err.Some? ==> err == Some(NewDomainError(Unauthenticated, ErrSessionNotFound)))
    {
      var sha := sha256(refreshToken);
      var deleteErr := cache.Delete(SessionAccessKeys(userID), accessFault);
      if deleteErr.Some? {
        return Some(Wrap("deletesession: ", deleteErr.value));
      }
      deleteErr := cache.Delete(SessionRefreshKeys(userID), refreshFault);
      if deleteErr.Some? {
        return Some(Wrap("deletesession: ", deleteErr.value));
      }
      var blockErr := storer.BlockSession(sha, blockFault);
      if blockErr.Some? {
        if Is(blockErr.value, ErrSessionNotFound) {
          return Some(NewDomainError(Unauthenticated, blockErr.value));
        }
        return Some(Wrap("blocksession: ", blockErr.value));
      }
      err := None;
    }
  }
}
