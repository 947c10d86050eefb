/**
 * The three tables both repository adapters work on (users, one-time tokens,
 * sessions), the row each insert writes, and what the database itself enforces:
 * the unique constraints of the users table and the rows an UPDATE or DELETE
 * reaches.
 */
module Tables {
  import opened Wrappers
  import opened Errs
  import opened Users
  import Roles
  import Pgx

  // ---- tokens ----

  /** A row of the tokens table. The plaintext is not a column. */
  datatype TokenRow = TokenRow(hash: Digest, userId: Uuid, expiry: Time, scope: string)

  /** The row CreateToken inserts for a token. */
  function TokenRowOf(t: Token): TokenRow {
    TokenRow(t.tokenHash, t.userId, t.expiry, ScopeText(t.scope))
  }

  /** Only the digest, owner, expiry and scope reach the table: two tokens that
      differ only in their plaintext give the same row, and the row determines
      the digest the lookups use. */
  lemma PlaintextNotStored(t: Token, other: string)
    ensures TokenRowOf(t.(plaintext := other)) == TokenRowOf(t)
    ensures TokenRowOf(t).hash == t.tokenHash && TokenRowOf(t).scope == ScopeText(t.scope)
  {
  }

  /** `WHERE hash = $1 AND scope = $2`. */
  predicate TokenMatches(r: TokenRow, hash: Digest, scope: string) {
    r.hash == hash && r.scope == scope
  }

  /** How many rows a DELETE with that filter reaches. */
  function CountMatching(rows: seq<TokenRow>, hash: Digest, scope: string): (n: nat)
    ensures n <= |rows|
    ensures n == 0 <==> forall i :: 0 <= i < |rows| ==> !TokenMatches(rows[i], hash, scope)
  {
    if rows == [] then 0
    else (if TokenMatches(rows[0], hash, scope) then 1 else 0) + CountMatching(rows[1..], hash, scope)
  }

  /** The table after `DELETE ... WHERE hash = $1 AND scope = $2`: the other rows,
      in their order. */
  function WithoutMatching(rows: seq<TokenRow>, hash: Digest, scope: string): (r: seq<TokenRow>)
    ensures |r| + CountMatching(rows, hash, scope) == |rows|
    ensures forall x :: x in r <==> x in rows && !TokenMatches(x, hash, scope)
  {
    if rows == [] then []
    else if TokenMatches(rows[0], hash, scope) then WithoutMatching(rows[1..], hash, scope)
    else [rows[0]] + WithoutMatching(rows[1..], hash, scope)
  }

  /** Rows for other digests or scopes are never touched by a delete, and a delete
      that reaches nothing leaves the table as it was. */
  lemma {:induction false} WithoutMatchingKeepsOthers(rows: seq<TokenRow>, hash: Digest, scope: string)
    ensures CountMatching(rows, hash, scope) == 0 ==> WithoutMatching(rows, hash, scope) == rows
    ensures WithoutMatching(WithoutMatching(rows, hash, scope), hash, scope) == WithoutMatching(rows, hash, scope)
  {
    if rows != [] {
      WithoutMatchingKeepsOthers(rows[1..], hash, scope);
    }
  }

  // ---- sessions ----

  /** Some session row carries this refresh-token digest. */
  predicate HasSession(sessions: map<Uuid, Session>, token: Digest) {
    exists id :: id in sessions && sessions[id].refreshToken == token
  }

  /** Some session row carries this digest and is not blocked yet. */
  predicate HasActiveSession(sessions: map<Uuid, Session>, token: Digest) {
    exists id :: id in sessions && sessions[id].refreshToken == token && !sessions[id].isBlocked
  }

  /** The sessions after `SET is_blocked = true WHERE refresh_token = $1` (with or
      without `AND NOT is_blocked`: rows already blocked stay blocked either way). */
  function BlockAll(sessions: map<Uuid, Session>, token: Digest): (r: map<Uuid, Session>)
    ensures r.Keys == sessions.Keys
    ensures forall id :: id in r ==>
      r[id] == (if sessions[id].refreshToken == token then sessions[id].(isBlocked := true) else sessions[id])
  {
    map id | id in sessions :: if sessions[id].refreshToken == token then sessions[id].(isBlocked := true) else sessions[id]
  }

  /** After blocking a digest no session with it is active, but the rows are all
      still there. */
  lemma BlockAllBlocks(sessions: map<Uuid, Session>, token: Digest)
    ensures !HasActiveSession(BlockAll(sessions, token), token)
    ensures HasSession(BlockAll(sessions, token), token) <==> HasSession(sessions, token)
  {
    var r := BlockAll(sessions, token);
    if HasSession(sessions, token) {
      var id :| id in sessions && sessions[id].refreshToken == token;
      assert r[id].refreshToken == token;
    }
  }

  // ---- users ----

  /** The users table as the database keeps it: rows keyed by user_id, and the
      unique constraints users_email_uq, users_phone_number_uq and
      users_provider_id_uq (NULL provider ids never collide). */
  predicate UsersValid(users: map<Uuid, User>) {
    (forall id :: id in users ==> users[id].userId == id)
    && (forall a, b :: a in users && b in users && a != b ==>
          users[a].email != users[b].email
          && users[a].phoneNumber != users[b].phoneNumber
          && (users[a].providerId.Some? ==> users[a].providerId != users[b].providerId))
  }

  predicate EmailTaken(users: map<Uuid, User>, email: string, except: Uuid) {
    exists id :: id in users && id != except && users[id].email == email
  }

  predicate PhoneTaken(users: map<Uuid, User>, phone: string, except: Uuid) {
    exists id :: id in users && id != except && users[id].phoneNumber == phone
  }

  predicate ProviderIdTaken(users: map<Uuid, User>, providerId: Option<string>, except: Uuid) {
    providerId.Some? && exists id :: id in users && id != except && users[id].providerId == providerId
  }

  /** The unique constraint an INSERT of `u` violates, if any. When several are
      violated the one reported is taken in the order the adapters list them. */
  function InsertViolation(users: map<Uuid, User>, u: User): (r: Option<string>)
    ensures r.None? <==>
      !EmailTaken(users, u.email, u.userId) && u.userId !in users
      && !ProviderIdTaken(users, u.providerId, u.userId) && !PhoneTaken(users, u.phoneNumber, u.userId)
  {
    if EmailTaken(users, u.email, u.userId) then Some("users_email_uq")
    else if u.userId in users then
      (if users[u.userId].email == u.email then Some("users_email_uq") else Some("users_user_id_uq"))
    else if ProviderIdTaken(users, u.providerId, u.userId) then Some("users_provider_id_uq")
    else if PhoneTaken(users, u.phoneNumber, u.userId) then Some("users_phone_number_uq")
    else None
  }

  /** The unique constraint an UPDATE of row `u.userId` to the values of `u`
      violates against the other rows, if any. */
  function UpdateViolation(users: map<Uuid, User>, u: User): (r: Option<string>)
    ensures r.None? <==>
      !EmailTaken(users, u.email, u.userId) && !ProviderIdTaken(users, u.providerId, u.userId)
      && !PhoneTaken(users, u.phoneNumber, u.userId)
  {
    if EmailTaken(users, u.email, u.userId) then Some("users_email_uq")
    else if ProviderIdTaken(users, u.providerId, u.userId) then Some("users_provider_id_uq")
    else if PhoneTaken(users, u.phoneNumber, u.userId) then Some("users_phone_number_uq")
    else None
  }

  /** The values the database gives the users columns an INSERT leaves out: the
      table's column defaults, which are not part of this model. */
  datatype ColumnDefaults = ColumnDefaults(role: Roles.Role, isVerified: bool, isEnabled: bool,
                                           isStoreCreated: bool, numOfStore: int)

  /** The unique constraints only read the key columns: two rows that agree on
      them violate the same constraint. */
  lemma InsertViolationOfKeys(users: map<Uuid, User>, u: User, v: User)
    requires u.userId == v.userId && u.email == v.email
    requires u.phoneNumber == v.phoneNumber && u.providerId == v.providerId
    ensures InsertViolation(users, u) == InsertViolation(users, v)
  {
  }

  /** An insert the constraints accept keeps the table valid. */
  lemma InsertKeepsValid(users: map<Uuid, User>, u: User)
    requires UsersValid(users) && InsertViolation(users, u).None?
    ensures UsersValid(users[u.userId := u])
  {
  }

  /** Replacing the row `id` by one with the same key, which the constraints
      accept, keeps the table valid. */
  lemma ReplaceKeepsValid(users: map<Uuid, User>, u: User)
    requires UsersValid(users) && u.userId in users && UpdateViolation(users, u).None?
    ensures UsersValid(users[u.userId := u])
  {
  }

  /** An update that touches no unique column keeps the table valid. */
  lemma SameKeysKeepValid(users: map<Uuid, User>, id: Uuid, u: User)
    requires UsersValid(users) && id in users && u.userId == id
    requires u.email == users[id].email && u.phoneNumber == users[id].phoneNumber
    requires u.providerId == users[id].providerId
    ensures UsersValid(users[id := u])
  {
  }

  /** With a valid table, at most one row has a given e-mail address. */
  lemma EmailIdentifiesRow(users: map<Uuid, User>, a: Uuid, b: Uuid)
    requires UsersValid(users) && a in users && b in users
    requires users[a].email == users[b].email
    ensures a == b
  {
  }
}
