# merchcore identity, tenant and edge core in Dafny

This project models the core of merchcore, a multi-tenant commerce backend
written in Go, and proves properties of that model.

**Identity and sessions.** The main part is the users domain:
- the `UserBusiness` commands: register, activate, resend activation,
  authenticate, update, create session, renew access token, block session, and
  forgot/reset/change password;
- the token generators they use;
- the two repository adapters (`userdb`, the current one, and `userstore`, the
  older one) over the users, one-time-token and session tables;
- the commit-or-rollback transaction coordinator;
- the session cache and its keys.

The adapters are classes whose fields are the tables. Each command is a method
on `UserCommands.UserBusiness`, verified against them: its contract states the
error it returns and exactly how the tables and the cache change.

A command's inputs include every failure it can meet:
- driver faults;
- the coordinator's begin, rollback and commit faults;
- cache faults;
- random draws and fresh UUIDs;
- bcrypt's hashing and its verdict on a well-formed hash;
- the current time.

SHA-256, JWT signing and token verification are functions the service is given.

**Around it:**
- the closed-set parsers: tenant status, plan, business mode, business
  category, payment status, role and address type;
- the two address-list packages;
- the validating constructors for users, tenant profiles, customer profiles and
  products;
- tenant creation with its schema provisioning;
- the error taxonomy: codes, the HTTP status table, domain errors and field
  errors, with Go's `errors.Is` / `errors.As` over wrap chains;
- middleware chaining;
- client-IP selection with private-range filtering (section 3 of RFC 1918);
- the two generations of response-writer wrappers, CORS and Bearer
  authentication (section 2.1 of RFC 6750) middlewares;
- the flat-to-nested configuration key rewrite and observability config
  validation.

Each Go package becomes one Dafny module. A value type becomes a datatype. An
object that the source mutates becomes a class with `modifies` clauses. A slice
that the source updates in place becomes an `array`. Loops remain loops, with
their invariants.

## Model

| member | source | states |
|---|---|---|
| Errs.Ordinal | internal/sdk/errs/code.go:9-30 | each code's `iota` value is below 20 |
| Errs.FromOrdinal | internal/sdk/errs/code.go:9-30 | the conversion from an integer is defined exactly for 0..19 |
| Errs.OrdinalsConsecutive | internal/sdk/errs/code.go:9-30 | the codes are exactly the consecutive values 0..19: value-of and code-of are inverse |
| Errs.NameKeyOfName | internal/sdk/errs/code.go:33-54 | every code name is non-empty, and its length and first letter are the key NameKey lists |
| Errs.NameKeyInjective | internal/sdk/errs/code.go:33-54 | no two codes share a name's length and first letter |
| Errs.CodeNamesDistinct | internal/sdk/errs/code.go:33-54 | the CodeNames table is injective: two codes with the same name are the same code |
| Errs.HTTPStatus | internal/sdk/errs/code.go:57-78 | every code has an entry, and every status lies in 200..599 |
| Errs.HTTPStatusFacts | internal/sdk/errs/code.go:57-78 | InvalidArgument 400, NotFound 404, AlreadyExists 409, Unauthenticated 401, Internal 500; the table is not injective (Canceled and DeadlineExceeded share 504) |
| Errs.HTTPStatusClasses | internal/sdk/errs/code.go:57-78 | a status is 2xx exactly for None and NoContent; every other code gives 400 or above |
| Errs.Wrap | internal/sdk/errs/errs.go:72-75 | `fmt.Errorf(prefix+"%w", e)` has message prefix + e's message and still matches every sentinel e matches |
| Errs.WrapIs | internal/sdk/errs/errs.go:72-75 | errors.Is through a `%w` wrap holds exactly when it holds for the wrapped error |
| Errs.NewDomainError | internal/sdk/errs/errs.go:72-75 | errors.As finds the DomainError with its code and the `%w`-wrapped message |
| Errs.NewDomainErrorKeeps | internal/sdk/errs/errs.go:59-75 | a DomainError's text is the original message and it matches exactly the sentinels the original matches |
| Errs.IsDomainErrorThroughWraps | internal/sdk/errs/errs.go:77-83 | IsDomainError finds the code and message under any number of `%w` wraps |
| Errs.New | internal/sdk/errs/errs.go:26-46 | the code is HTTPStatus[code]; a non-empty FieldErrors anywhere in the chain gives "Validation failed" with those fields, anything else gives err.Error() and no fields |
| Errs.Newf | internal/sdk/errs/errs.go:48-57 | the code is HTTPStatus[code], the message the formatted text, and there are no fields |
| Errs.NewfIsNewOfPlain | internal/sdk/errs/errs.go:48-57 | Newf with a formatted text is the same application error as New with an error of that text |
| Errs.NewSeesFieldsThroughDomainError | internal/sdk/errs/errs.go:26-46 | a FieldErrors list inside a DomainError still reaches the client as "Validation failed" with its fields |
| Errs.FieldErrors.constructor | internal/sdk/errs/errs.go:92-94 | a new list is empty |
| Errs.FieldErrors.AddFieldError | internal/sdk/errs/errs.go:96-101 | appends (field, err.Error()) after the earlier entries |
| Errs.FieldErrors.ToError | internal/sdk/errs/errs.go:103-116 | nil exactly when the list is empty; otherwise an error errors.As finds with the same entries, whose text is the list's JSON |
| Roles.String | internal/domain/types/role/role.go:25 | the role's text |
| Roles.Parse | internal/domain/types/role/role.go:27-33 | succeeds exactly for the five registered names, giving that role; otherwise the zero Role and `invalid role: "<v>"` |
| Roles.ParseString | internal/domain/types/role/role.go:5-33 | Parse(String(r)) == r for every registered role |
| Roles.RegisteredRoles | internal/domain/types/role/role.go:5-11 | exactly system_admin, admin, store_owner, staff and guest parse |
| Roles.RejectedNames | internal/domain/types/role/role.go:13-33 | lookups are exact: "customer", "store_admin", "Admin" and "GUEST" are rejected |
| Payment.ParsePaymentStatus | internal/domain/payment/types.go:23-29 | succeeds exactly for the five registered names, giving the status with that text; otherwise "" and "invalid payment status: <v>" |
| Payment.ParseStatusText | internal/domain/payment/types.go:7-29 | every status parses back from its text; the lookup is case-sensitive |
| Payment.FiveStatuses | internal/domain/payment/types.go:7-13 | five names are registered, one per status |
| Category.Lookup | internal/domain/tenant/category.go:39-45 | the map lookup: a hit is a registered category with that text; a miss means no category has it |
| Category.ParseBusinessCategory | internal/domain/tenant/category.go:39-45 | succeeds exactly when a registered category has the given text; otherwise "" and "invalid businesscategory: <v>" |
| Category.CategoryTextInjective | internal/domain/tenant/category.go:10-29 | no two categories share a text |
| Category.ParseCategoryText | internal/domain/tenant/category.go:10-45 | every registered category parses back from its text |
| Category.CaseSensitive | internal/domain/tenant/category.go:33-45 | the key is lower-cased at registration but not at lookup, so "Fashion" is rejected |
| Category.NamesStartLower | internal/domain/tenant/category.go:10-37 | every registered name starts with a lower-case letter, so lowering at registration changes nothing |
| Category.EighteenCategories | internal/domain/tenant/category.go:10-31 | eighteen distinct categories are registered |
| Category.AllBusinessCategories | internal/domain/tenant/category.go:47-53 | returns every registered category exactly once, in some order |
| CacheKeys.KeyPrefixes | internal/domain/users/cachekeys.go:5-18 | each key is its prefix ("access:", "refresh:", "user:profile:", "tenant:settings:") followed by the id |
| CacheKeys.KeysInjective | internal/domain/users/cachekeys.go:5-18 | within each family, different ids give different keys |
| CacheKeys.AccessNeverRefresh | internal/domain/users/cachekeys.go:5-10 | an access key never equals a refresh key |
| CacheKeys.FamiliesDisjoint | internal/domain/users/cachekeys.go:5-18 | keys of different families never collide |
| Users.SentinelsDistinct | internal/domain/users/repository.go:10-22 | the sentinel errors the commands tell apart with errors.Is are distinct values |
| Users.SessionPredicates | internal/domain/users/model.go:36-46 | IsSessionBlocked is the flag; UserIDCheck is true exactly for a different user id (so false for the owner); a session is expired only strictly after ExpiresAt and stays expired |
| Users.NewUser | internal/domain/users/user.go:41-96 | every field check runs before deciding: an error exactly when some check fails, then the zero User and the FieldErrors list; otherwise a user with the fresh id, the trimmed names, the parsed address, the phone in the E.164 form the validator returns, and the provider pair only when a provider id is given |
| Users.CheckUserFields | internal/domain/users/user.go:49-68 | the collected field errors are the name, phone and e-mail failures in that order; the phone result is the validator's E.164 number |
| Users.NewUserValueFacts | internal/domain/users/user.go:44-95 | a built user is unverified, has no password hash, has non-empty names with no white space at either end, and a provider only with a provider id |
| Users.NameLabelsSwapped | internal/domain/users/user.go:49-57 | an empty first name is reported under "last_name" ("cannot be emtpy") and an empty last name under "fist_name" |
| Users.FieldErrorsCountChecks | internal/domain/users/user.go:49-68 | one field error per failed check, no more |
| Users.SanitizedIdempotent | internal/domain/users/models.go:24-41 | sanitizing twice is sanitizing once |
| Users.SanitizedIsTrimmed | internal/domain/users/models.go:24-41 | every string field ends up trimmed, and a nil provider or provider id stays nil while a set one is trimmed |
| Users.UserCreateForm.constructor | internal/domain/users/models.go:13-22 | the form holds the given fields |
| Users.UserCreateForm.Sanitize | internal/domain/users/models.go:24-41 | replaces the fields, in place, by their sanitized values |
| Tables.PlaintextNotStored | internal/domain/users/userdb/session.go:42-54 | the tokens row holds the hash, user id, expiry and scope text; the plaintext never reaches the table |
| Tables.CountMatching | internal/domain/users/userdb/session.go:83-98 | the rows a `WHERE hash = $1 AND scope = $2` statement affects: none exactly when no row matches |
| Tables.WithoutMatching | internal/domain/users/userdb/session.go:83-98 | the DELETE keeps exactly the rows that do not match, and removes as many rows as match |
| Tables.WithoutMatchingKeepsOthers | internal/domain/users/userdb/session.go:83-98 | deleting when nothing matches changes nothing, and deleting twice is deleting once |
| Tables.BlockAll | internal/domain/users/userdb/session.go:100-119 | every session with the refresh token is blocked; every other session and the set of ids are unchanged |
| Tables.BlockAllBlocks | internal/domain/users/userdb/session.go:100-119 | afterwards no unblocked session holds the token, and the sessions holding it are the same ones |
| Tables.InsertViolation | internal/domain/users/userdb/users.go:29-76 | an INSERT is refused exactly when the id, e-mail, provider id or phone number is already taken by another row |
| Tables.UpdateViolation | internal/domain/users/userdb/users.go:159-219 | an UPDATE is refused exactly when the e-mail, provider id or phone number is taken by another row |
| Tables.InsertKeepsValid | internal/domain/users/userdb/users.go:29-76 | an accepted INSERT keeps the unique constraints of the users table |
| Tables.InsertViolationOfKeys | internal/domain/users/userdb/users.go:29-76 | the unique constraints read only id, e-mail, phone and provider id, so rows agreeing on those violate the same constraint |
| Tables.ReplaceKeepsValid | internal/domain/users/userdb/users.go:159-219 | an accepted UPDATE keeps the unique constraints |
| Tables.SameKeysKeepValid | internal/domain/users/userdb/users.go:288-328 | a change that leaves e-mail, phone and provider id alone keeps the unique constraints |
| Tables.EmailIdentifiesRow | internal/domain/users/userdb/users.go:78-142 | under the unique constraints an e-mail names at most one row |
| Pgx.AsPg | internal/domain/users/userdb/users.go:56-59 | errors.As(err, &*pgconn.PgError) finds the SQLSTATE, constraint and message of a PostgreSQL error and nothing in a sentinel, plain or field error |
| Pgx.UniqueViolation | internal/domain/users/userdb/users.go:56-71 | a unique violation is a PgError with SQLSTATE 23505 naming the constraint |
| Pgx.AsPgThroughWraps | internal/domain/users/userdb/users.go:56-59 | the PgError is found under any number of `%w` wraps |
| UserDb.DbError | internal/domain/users/userdb/users.go:72 | `fmt.Errorf("%w: %w", ErrDatabase, err)` matches ErrDatabase and every sentinel err matches |
| UserDb.ConstraintNames | internal/domain/users/userdb/users.go:56-71 | each named constraint maps to its sentinel, in CreateUser and in UpdateUser |
| UserDb.UnknownFailures | internal/domain/users/userdb/users.go:56-72 | an unknown failure is reported as a database error by CreateUser; UpdateUser reports an unknown constraint as "unhandled db constraint", not as ErrDatabase |
| UserDb.LoadUserFacts | internal/domain/users/userdb/users.go:78-142 | a stored row loads exactly when its e-mail parses, its contact validates and its role is registered, and then carries the parsed address and the E.164 number, with the enabled flag false because the SELECT does not read is_enabled; a bad e-mail or contact is an ErrDatabase error |
| UserDb.InsertedRow | internal/domain/users/userdb/users.go:29-47 | the row the INSERT writes keeps the caller's key columns and is the caller's user exactly when its is_verified and is_enabled already equal the column defaults |
| UserDb.UpdatedRowFacts | internal/domain/users/userdb/users.go:159-192 | the UPDATE writes every listed column but keeps the id, is_verified and is_enabled of the stored row |
| UserDb.UserDb.constructor | internal/domain/users/userdb/users.go:24-28 | an empty database with the given column defaults |
| UserDb.UserDb.Restore | internal/infra/database/transaction.go:46-66 | the tables become the given snapshot (a transaction rollback) |
| UserDb.UserDb.CreateUser | internal/domain/users/userdb/users.go:29-76 | inserts exactly when there is no driver failure and no unique violation, storing the user with is_verified and is_enabled taken from the column defaults; a violation maps to its sentinel, anything else to ErrDatabase, and the tables are then unchanged |
| UserDb.UserDb.GetUserByEmail | internal/domain/users/userdb/users.go:78-142 | a row with the e-mail is loaded and validated, never enabled; no row gives ErrUserNotFound; a driver failure a database error |
| UserDb.UserDb.GetUserByID | internal/domain/users/userdb/users.go:221-285 | the row with the id is loaded and validated, never enabled; no row gives ErrUserNotFound; a driver failure a database error |
| UserDb.UserDb.GetUserPhoneNumber | internal/domain/users/userdb/users.go:144-157 | nil exactly when no row has the number, ErrPhoneNumberExists when one has; no rows from the driver is nil, other failures a database error |
| UserDb.UserDb.UpdateUser | internal/domain/users/userdb/users.go:159-219 | writes the row; a violation maps to its sentinel; an id with no row is reported as success and changes nothing |
| UserDb.UserDb.UpdateUserChecked | internal/domain/users/userdb/users.go:159-219 | as UpdateUser, but an id with no row gives ErrUserNotFound |
| UserDb.UserDb.VerifyUser | internal/domain/users/userdb/users.go:288-307 | sets is_verified on an existing row only; no row gives ErrUserNotFound |
| UserDb.UserDb.UpdatePassword | internal/domain/users/userdb/users.go:309-328 | replaces the password hash of an existing row only; no row gives ErrUserNotFound |
| UserDb.UserDb.CreateSession | internal/domain/users/userdb/session.go:16-40 | adds the session unless its id is taken or the driver fails, which is a database error |
| UserDb.UserDb.CreateToken | internal/domain/users/userdb/session.go:42-54 | appends the token row unless the driver fails |
| UserDb.UserDb.GetUserIDByToken | internal/domain/users/userdb/session.go:56-81 | a matching unexpired row gives its user id; an expired one ErrTokenExpired; no match ErrUserNotFound |
| UserDb.UserDb.DeleteToken | internal/domain/users/userdb/session.go:83-98 | removes every matching row; ErrTokenNotFound exactly when none matched |
| UserDb.UserDb.BlockSession | internal/domain/users/userdb/session.go:100-119 | blocks every session with the token; ErrSessionNotFound exactly when no unblocked session had it |
| UserDb.UserDb.GetSession | internal/domain/users/userdb/session.go:120-148 | the session with that id, or ErrSessionNotFound; a driver failure is a database error |
| UserDb.InsertResult | internal/domain/users/userdb/users.go:29-76 | the INSERT's outcome: nil exactly without driver failure and violation |
| UserDb.IdConflictOnInsert | internal/domain/users/userdb/users.go:62-63 | ErrUserIDConflict is reported exactly when the id is taken and the e-mail is free |
| UserDb.TokenLookupError | internal/domain/users/userdb/session.go:68-74 | no rows becomes ErrUserNotFound; any other failure a database error |
| UserDb.SessionLookupError | internal/domain/users/userdb/session.go:140-145 | no rows becomes ErrSessionNotFound; any other failure a database error |
| UserDb.LookupError | internal/domain/users/userdb/users.go:116-121 | no rows becomes ErrUserNotFound; any other failure a database error |
| UserStore.ConstraintNames | internal/domain/users/userstore/users.go:50-63 | this adapter maps users_user_id_uq to ErrUserAlreadyExists (not ErrUserIDConflict), and the other constraints to their sentinels |
| UserStore.UpdateFailuresUntagged | internal/domain/users/userstore/users.go:148-164 | an unknown UpdateUser failure reads "database error: ..." but does not match ErrDatabase |
| UserStore.UpdatedRowKeepsRole | internal/domain/users/userstore/users.go:119-147 | this UPDATE writes e-mail, names, hash, provider, phone and country but keeps the stored role and store count |
| UserStore.UserStore.constructor | internal/domain/users/userstore/users.go:21-24 | an empty database with the given column defaults |
| UserStore.InsertedRow | internal/domain/users/userstore/users.go:26-48 | the row the nine-column INSERT writes keeps the caller's key columns and reads back through ScannedColumns exactly as the caller's user does |
| UserStore.UserStore.CreateUser | internal/domain/users/userstore/users.go:26-70 | inserts exactly when there is no driver failure and no unique violation, storing the nine written columns with the column defaults for role, flags and store fields; a violation maps to its sentinel and the tables are unchanged |
| UserStore.UserStore.FindUserByEmail | internal/domain/users/userstore/users.go:72-102 | the scanned columns of a row with that e-mail: role, verified, enabled, store-created and store count are not selected and stay zero; no row gives ErrUserNotFound; other failures match ErrDatabase |
| UserStore.UserStore.FindUserByID | internal/domain/users/userstore/users.go:169-199 | the scanned columns of the row with that id, with role, flags and store count zero; no row gives ErrUserNotFound; other failures match ErrDatabase |
| UserStore.UserStore.FindUserPhoneNumber | internal/domain/users/userstore/users.go:104-117 | ErrPhoneNumberExists exactly when a row has the number; no rows is nil; other failures are "database error: ..." |
| UserStore.UserStore.UpdateUser | internal/domain/users/userstore/users.go:119-167 | writes the row; a violation maps to its sentinel; an id with no row is reported as success and changes nothing |
| UserStore.UserStore.VerifyUser | internal/domain/users/userstore/users.go:201-220 | sets is_verified on an existing row only; no row gives ErrUserNotFound |
| UserStore.UserStore.UpdatePassword | internal/domain/users/userstore/users.go:222-241 | replaces the hash of an existing row only; no row gives ErrUserNotFound |
| UserStore.UserStore.CreateSession | internal/domain/users/userstore/session.go:16-39 | the database picks the session id; the session is stored under it unless the driver fails ("insert session: ...") |
| UserStore.UserStore.CreateToken | internal/domain/users/userstore/session.go:41-53 | appends the token row unless the driver fails ("insert otp: ...") |
| UserStore.UserStore.GetUserIDByToken | internal/domain/users/userstore/session.go:55-80 | a matching unexpired row gives its user id; an expired one ErrTokenExpired; no match ErrUserNotFound |
| UserStore.UserStore.DeleteToken | internal/domain/users/userstore/session.go:82-98 | removes every matching row; ErrTokenNotFound exactly when none matched |
| UserStore.UserStore.BlockSession | internal/domain/users/userstore/session.go:100-119 | as written: never succeeds; a token no session has gives ErrSessionNotFound and blocks nothing; a token some session has blocks every such session, already blocked ones included, and then fails with ErrDatabase around the error of scanning the uuid id into an int64 |
| UserStore.UserStore.BlockSessionFixed | internal/domain/users/userstore/session.go:100-119 | corrected, with the id scanned into a uuid: blocks every session with the token, already blocked ones included; ErrSessionNotFound exactly when none has it |
| UserStore.UserStore.GetSession | internal/domain/users/userstore/session.go:121-149 | the session with that id, or ErrSessionNotFound; other failures are "get session: ..." |
| UserStore.ReBlockSucceeds | internal/domain/users/userstore/session.go:100-119 | under the corrected BlockSessionFixed, blocking a token a second time finds the session again and succeeds, unlike the other adapter |
| UserStore.FindError | internal/domain/users/userstore/users.go:95-100 | no rows becomes ErrUserNotFound; any other failure matches ErrDatabase |
| KeyValueCache.Cache.constructor | internal/infra/redis/redis.go:27-34 | an empty cache |
| KeyValueCache.Cache.Set | internal/infra/redis/redis.go:36-45 | succeeds exactly when the client does not fail and the duration is positive, and then stores the value for its whole seconds (at least one); a client failure or a duration the server refuses comes back as "redis setex: ..." and changes nothing |
| KeyValueCache.Cache.Delete | internal/infra/redis/redis.go:61-66 | removes the key, present or not; a client failure comes back as "redis del: ..." and changes nothing |
| Base32.Symbol | internal/domain/users/cmd_token.go:63 | every 5-bit value has a symbol of the standard alphabet |
| Base32.SymbolValue | internal/domain/users/cmd_token.go:63 | every symbol has the value whose symbol it is |
| Base32.SymbolValueOfSymbol | internal/domain/users/cmd_token.go:63 | symbol and value are inverse |
| Base32.PadBits | internal/domain/users/cmd_token.go:63 | the bits are padded with fewer than five zero bits to a multiple of five, keeping the original bits as a prefix |
| Base32.EncodeGroups | internal/domain/users/cmd_token.go:63 | one symbol per five bits |
| Base32.EncodeNoPad | internal/domain/users/cmd_token.go:63 | unpadded standard base32: ceil(8n/5) symbols of the alphabet |
| Base32.ValueBitsOfValue | internal/domain/users/cmd_token.go:63 | reading a bit group as a number and writing it back gives the group |
| Base32.ValueOfValueBits | internal/domain/users/cmd_token.go:63 | writing a number as bits and reading them back gives the number |
| Base32.DecodeEncodeGroups | internal/domain/users/cmd_token.go:63 | decoding the symbols gives back the padded bits |
| Base32.ByteBitsValue | internal/domain/users/cmd_token.go:63 | a byte's eight bits, most significant first, read back as the byte |
| Base32.BytesOfBits | internal/domain/users/cmd_token.go:63 | fewer than eight padding bits are dropped when regrouping into bytes |
| Base32.DecodeEncode | internal/domain/users/cmd_token.go:63 | decoding the encoding gives back the bytes, so the token text carries all the random bytes |
| Base32.SixteenBytes | internal/domain/users/cmd_token.go:57-63 | sixteen random bytes give a 26-character token |
| Tokens.GenerateOTP | internal/domain/users/cmd_token.go:33-48 | fails exactly when the random draw fails, with its error; otherwise six decimal digits spelling the draw (zero-padded), its SHA-256, the user, the scope and expiry now + ttl |
| Tokens.OtpDeterminesDraw | internal/domain/users/cmd_token.go:34-38 | two draws give the same code exactly when they are equal |
| Tokens.GenerateToken | internal/domain/users/cmd_token.go:50-68 | fails exactly when reading random bytes fails ("generatetoken: ..."); otherwise 26 base32 symbols, their SHA-256, the user, the scope and expiry now + ttl |
| Tokens.TokenKeepsRandomBytes | internal/domain/users/cmd_token.go:57-63 | the token text decodes back to the random bytes |
| Tokens.ComparePassword | internal/domain/users/passwords.go:29-41 | as written, bcrypt is given the hex SHA-256 of the stored hash as the hash, so every comparison fails, never as the invalid-password error: with a 32-byte digest it is always the "must start with '$'" error for the hex text's first digit |
| Tokens.ComparePasswordFixed | internal/domain/users/passwords.go:29-41 | corrected: the stored hash is compared with the hex SHA-256 of the password; nil exactly on a match, a mismatch reads "incorrect password: " and is found as the invalid-password error, any other bcrypt failure is passed on unchanged |
| Tokens.HashPassword | internal/domain/users/passwords.go:14-27 | bcrypt is run on the hex SHA-256 of the password, and its hash is returned exactly when it succeeds; a too-short failure is wrapped "hash too short: ", any other is passed on |
| Tokens.HashThenCompare | internal/domain/users/passwords.go:14-41 | for a bcrypt whose hashes begin with '$', are long enough and match their own secret, a hash HashPassword made compares as a match under the corrected comparison and fails under the comparison as written |
| Tokens.NewPayload | internal/sdk/authz/tok_jwt.go:36-54 | fails exactly when the id generator fails; otherwise issued now, expiring after the duration, with the fresh id, user, role and issuer |
| Tokens.MintToken | internal/sdk/authz/tok_jwt.go:66-78 | succeeds exactly when the id and the signing succeed, giving the signed text and its payload; the failures read "generate token: ..." and "signed jwt token: ..." |
| Transaction.SetTXContext | internal/infra/database/transaction.go:16-18 | the context carries the transaction |
| Transaction.GetTXFromContext | internal/infra/database/transaction.go:20-26 | the transaction in the context, else the default connection |
| Transaction.GetAfterSet | internal/infra/database/transaction.go:16-26 | the transaction last stored is the one found; a context without one gives the default connection |
| Transaction.Settle | internal/infra/database/transaction.go:52-66 | the work is committed exactly when it and the commit succeed, and the result is nil exactly then |
| Transaction.SettleKeepsWorkError | internal/infra/database/transaction.go:54-59 | a failing work's error is returned as it is, or inside "rollback: <rb> : original <err>" when the rollback also fails; errors.Is sees the same sentinels either way |
| Transaction.SettleCommitFailure | internal/infra/database/transaction.go:61-64 | a failing commit is "commit:<err>" and nothing is committed |
| UserCommands.ApplyUpdate | internal/domain/users/cmd_user.go:86-112 | the written user takes first name, email, role, enabled flag and (when a password is given) the new digest from the update, and keeps id, last name, phone, store count, store flag and verification |
| UserCommands.CacheTtl | internal/domain/users/cmd_user.go:221-226 | as written, the cache lifetime is the expiry's second-of-minute read as nanoseconds, so always below 60 ns |
| UserCommands.SessionTtlAsWritten | internal/domain/users/cmd_user.go:221-226 | both lifetimes are whole minutes, so both entries get now's second-of-minute: one second of life, or a refused SETEX when now falls on a whole minute |
| UserCommands.CacheTtlFixed | internal/domain/users/cmd_user.go:221-226 | corrected: the time left until the expiry; for a future expiry it is positive and SETEX gets exactly the seconds left |
| UserCommands.SessionTtlFixed | internal/domain/users/cmd_user.go:221-226 | with the corrected lifetime the access entry lives 30 minutes and the refresh entry 24 hours, whatever the time |
| UserCommands.UserBusiness.constructor | internal/domain/users/cmd_user.go:28-35 | the service holds the given store, validators, digest, service name and signer, and no cache yet |
| UserCommands.UserBusiness.InsertUser | internal/domain/users/cmd_user.go:45-54 | as written: an insert that fails with the id conflict is retried once under a fresh id, but even when the retry stores the user the original conflict error is returned; any other failure is returned unchanged and stores nothing; a stored row takes the column defaults the INSERT leaves out |
| UserCommands.UserBusiness.InsertUserRetrying | internal/domain/users/cmd_user.go:45-54 | corrected: the retry's success is a success (the user is stored under the retry id), its failure is wrapped "createuserretry: "; a store change happens exactly when no error is returned |
| UserCommands.UserBusiness.CreateUserWork | internal/domain/users/cmd_user.go:44-66 | the transaction body succeeds exactly when the insert, the code draw and the token insert succeed, and then the user and exactly one activation token row of 90 seconds are added; duplicate email and phone errors come back unchanged |
| UserCommands.UserBusiness.CreateUser | internal/domain/users/cmd_user.go:37-78 | invalid fields give InvalidArgument over the field list; otherwise the user and its activation code are stored together or neither is, success exactly when begin, insert, code, token insert and commit all succeed; duplicate email or phone gives AlreadyExists, a failed begin is wrapped "createuser-trx: " |
| UserCommands.UserBusiness.ActivateUser | internal/domain/users/cmd_user.go:123-153 | success only when an unexpired activation token with this digest belongs to usrID, and then exactly that user becomes verified and the matching tokens are deleted; no such token, or no row, gives InvalidToken; other lookup errors are wrapped; any failure leaves users and tokens unchanged; conversely, with no faults, usrID stored, and at least one matching token, every one owned by usrID and unexpired, the activation succeeds |
| UserCommands.UserBusiness.ResendActivationToken | internal/domain/users/cmd_user.go:155-177 | an unknown user gives InvalidArgument over user-not-found, a verified one AlreadyVerified; on success the user was unverified and one new 90-second activation token is appended, users unchanged; conversely a stored, loadable, unverified user with a successful draw and no lookup or insert fault always gets the new code |
| UserCommands.UserBusiness.Authenticate | internal/domain/users/cmd_user.go:179-198 | never succeeds: no such email gives InvalidCredentials, an empty digest InvalidUserData, other lookup errors are wrapped "getinguserbyemail: "; for a loaded row with a digest the error is "comparepassword: " over the as-written comparison's failure |
| UserCommands.UserBusiness.UpdateUser | internal/domain/users/cmd_user.go:80-121 | a missing user gives "get user: " over user-not-found; an update that carries a password always fails, with "comparepassword: " over the as-written comparison's failure; otherwise on success the row is replaced by the update applied to the loaded user, its enabled flag is not written, and the user returned is enabled only when the update sets it; conversely, a loadable user, an update with no password, no fault and no unique-key conflict of the updated row always succeeds |
| UserCommands.UserBusiness.CreateSession | internal/domain/users/cmd_user.go:207-252 | mints an access (30 min) and a refresh (24 h) token; the cache refuses the first SETEX when now falls on a whole minute; on success both cache keys hold the access token for one second and exactly one unblocked session keyed by the refresh id, with the refresh token's digest, is added; each failing step's error is wrapped as the source does and stops the rest |
| UserCommands.UserBusiness.ForgetPassword | internal/domain/users/cmd_user.go:254-275 | an unknown email is no error and no token; a known, loadable email with working randomness and token insert always yields one new 15-minute reset token for that user, appended to the tokens; the token's plaintext is printed once to standard output before the insert, so also when the insert fails |
| UserCommands.UserBusiness.PasswordResetWork | internal/domain/users/cmd_user.go:283-304 | success only when an unexpired reset token with this digest exists, and then exactly its owner's digest is replaced and the matching tokens deleted; with no unexpired token the failure is not a database error; conversely, with no faults and at least one matching token, every one unexpired and owned by a stored user, the work succeeds |
| UserCommands.UserBusiness.PasswordReset | internal/domain/users/cmd_user.go:277-310 | the new password goes through HashPassword first, and its failure is wrapped "hashpassword: "; every other failure is LinkExpired or a database error and changes nothing; on success the owner of an unexpired matching reset token gets the new digest, which the corrected comparison accepts for the new password when bcrypt agrees with itself, and the matching tokens are gone; conversely, when hashing succeeds and there are no transaction or store faults, a live link (at least one matching token, every one unexpired and owned by a stored user) always resets the password |
| UserCommands.UserBusiness.ChangePasswordWork | internal/domain/users/cmd_user.go:318-340 | never succeeds and writes nothing: a lookup failure is "getuserbyid: ", a missing user user-not-found, and a loaded user "comparePassword: " over the as-written comparison's failure |
| UserCommands.UserBusiness.ChangePassword | internal/domain/users/cmd_user.go:312-347 | never succeeds and never changes the users: a failed begin is "dbtransaction : ", and after a rollback the error is "dbtransaction : " over the work's error; for a loaded user it is never PasswordIncorrect |
| UserCommands.UserBusiness.RenewAccessToken | internal/domain/users/cmd_token.go:76-105 | a missing session gives InvalidRefresh, a blocked one SessionBlocked, one of another user SessionUserMismatch; otherwise a renewed 15-minute access token is minted for the session's user, and success is exactly these checks plus a successful mint; nothing is written |
| UserCommands.UserBusiness.BlockSession | internal/domain/users/cmd_token.go:107-130 | as written: the access key is deleted twice and the refresh key is left in the cache unchanged; the sessions with the token's digest are blocked, and success is exactly that an active one existed; a cache failure stops before the store, a store session-not-found becomes Unauthenticated and any other store failure is wrapped "blocksession: " |
| UserCommands.UserBusiness.BlockSessionFixed | internal/domain/users/cmd_token.go:107-130 | corrected: both the access and the refresh key are gone from the cache, everything else as BlockSession |
| TenantTypes.ParseTenantStatus | internal/domain/tenant/types.go:10-31 | succeeds exactly when the lower-cased text is one of the four registered statuses, and then yields the status spelled that way; otherwise the empty status and "invalid tenant status: " with the input |
| TenantTypes.ParseStatusText | internal/domain/tenant/types.go:18-31 | every registered status parses back from its own text |
| TenantTypes.StatusTextIsLower | internal/domain/tenant/types.go:12-23 | the registered spellings are already lower case, so the registry keys are the spellings |
| TenantTypes.ParseStatusIgnoresCase | internal/domain/tenant/types.go:25-31 | parsing a text and its lower-cased form give the same status and the same verdict |
| TenantTypes.ParsePlanType | internal/domain/tenant/types.go:35-56 | succeeds exactly for the four registered plans, in any ASCII case; otherwise the empty plan and "invalid plan type: " with the input |
| TenantTypes.ParsePlanText | internal/domain/tenant/types.go:43-56 | every registered plan parses back from its own text |
| TenantTypes.ParsePlanIgnoresCase | internal/domain/tenant/types.go:50-56 | parsing ignores ASCII case |
| TenantTypes.ParseBusinessMode | internal/domain/tenant/types.go:60-79 | succeeds exactly for "online" and "hybrid", in any ASCII case; otherwise the empty mode and "invalid business mode: " with the input |
| TenantTypes.ParseModeText | internal/domain/tenant/types.go:68-79 | every registered mode parses back from its own text |
| TenantTypes.ParseModeIgnoresCase | internal/domain/tenant/types.go:73-79 | parsing ignores ASCII case |
| TenantTypes.MixedCaseAccepted | internal/domain/tenant/types.go:73-79 | "Hybrid" is accepted as the hybrid mode |
| Tenants.DerivedSubdomain | internal/domain/tenant/tenant.go:50-55 | a derived subdomain always ends in ".merchcore.com" |
| Tenants.DerivedSubdomainShape | internal/domain/tenant/tenant.go:50-55 | before the suffix a derived subdomain has no space and no upper-case ASCII letter, and names differing only in spaces and ASCII case derive the same subdomain |
| Tenants.FieldErrorsEmptyIffParts | internal/domain/tenant/tenant.go:36-97 | the collected field errors are empty exactly when each check (name, description, plan, mode, business address, billing address) adds none |
| Tenants.NoFieldErrorsIffAcceptable | internal/domain/tenant/tenant.go:36-97 | no field error is collected exactly when the name and description are non-blank after trimming, the description has at most 255 characters, plan and mode parse, a hybrid mode has a valid business address and a non-free plan (an unparsable one included) has a valid billing address |
| Tenants.CheckText | internal/domain/tenant/tenant.go:38-48 | the trimmed name and description are returned and exactly their field errors are appended, in order |
| Tenants.CheckEnums | internal/domain/tenant/tenant.go:57-65 | the parsed plan and mode are returned and exactly their field errors are appended |
| Tenants.CheckAddresses | internal/domain/tenant/tenant.go:67-93 | exactly the business-address and then the billing-address field errors are appended |
| Tenants.NewTenantProfile | internal/domain/tenant/tenant.go:35-126 | fails exactly when a field error was collected, with all of them; otherwise the profile has the fresh id, trimmed name and description, the given or derived subdomain, maintenance status, the parsed plan and mode, an empty address list, and a trial from now that ends fifteen days later only on the free plan |
| TenantDb.CreateTenantError | internal/domain/tenant/tenantdb/tenant.go:56-72 | the domain and subdomain unique constraints map to their sentinels; an invalid enum value (22P02) becomes database-error joined with invalid-enum; anything else is database-error ": " the driver error |
| TenantDb.CreateTenantErrorKinds | internal/domain/tenant/tenantdb/tenant.go:56-72 | the two named constraints are not database errors; any other unique violation is a database error and not an enum error |
| TenantDb.TenantViolation | internal/domain/tenant/tenantdb/tenant.go:31-54 | the insert meets no violation exactly when the id is new, a given domain is unused and the subdomain is unused |
| TenantDb.SchemaName | internal/domain/tenant/tenantdb/tenant.go:79 | the schema name is "tenant_" followed by the user id's text |
| TenantDb.QuoteIdentifier | internal/domain/tenant/tenantdb/tenant.go:80 | a quoted identifier starts and ends with a double quote |
| TenantDb.BeforeNul | internal/domain/tenant/tenantdb/tenant.go:80 | the identifier is cut at its first NUL, and a NUL-free name is kept whole |
| TenantDb.UnescapeEscape | internal/domain/tenant/tenantdb/tenant.go:80 | doubling the double quotes is undone by halving them |
| TenantDb.QuotedSchemaNamesSchema | internal/domain/tenant/tenantdb/tenant.go:79-80 | the quoted schema name, unquoted, is the schema name again |
| TenantDb.FormatUniform | internal/domain/tenant/tenantdb/tenant.go:87-94 | filling every placeholder with the same argument joins the template's pieces with it |
| TenantDb.JoinWithFront | internal/domain/tenant/tenantdb/tenant.go:94 | a join is the first piece, the separator and the join of the rest |
| TenantDb.FillArgs | internal/domain/tenant/tenantdb/tenant.go:87-92 | a fresh array of 53 arguments, each the quoted schema name |
| TenantDb.TenantStore.constructor | internal/domain/tenant/tenantdb/tenant.go:22-26 | an empty database |
| TenantDb.TenantStore.Restore | internal/infra/database/transaction.go:46-66 | a rollback puts back the tenants, schemas and schema contents |
| TenantDb.TenantStore.CreateTenant | internal/domain/tenant/tenantdb/tenant.go:28-74 | the row is added exactly when the driver does not fail and no violation is met, and then nothing else changes; a failure or violation is mapped as CreateTenantError says and changes nothing |
| TenantDb.TenantStore.CreateTenantSchema | internal/domain/tenant/tenantdb/tenant.go:76-101 | success exactly when both statements succeed; the schema is created before the initialisation, a failed create is wrapped "create schema: ", a failed initialisation names the schema, and on success the schema holds the template filled with the quoted name |
| TenantDb.TenantStore.CheckSubdomainAvailability | internal/domain/tenant/tenantdb/tenant.go:103-113 | without a fault the answer is exactly whether a stored tenant has this subdomain; a fault is database-error ": " the driver error and answers false |
| TenantCommands.FirstFailureWins | internal/domain/tenant/cmd_tenant.go:21-25 | the first option that fails decides the error, whatever follows |
| TenantCommands.ConfigureSplits | internal/domain/tenant/cmd_tenant.go:21-25 | applying a list of options is applying its first part and then the rest to the result |
| TenantCommands.TenantBusiness.constructor | internal/domain/tenant/cmd_tenant.go:20 | no repository and no transaction manager |
| TenantCommands.TenantBusiness.Apply | internal/domain/tenant/cmd_tenant.go:35-47 | a repository option sets only the repository, a transactor option only the transaction manager, and neither fails |
| TenantCommands.NewTenantBusiness | internal/domain/tenant/cmd_tenant.go:19-33 | the first failing option's error, else "tenant repository is required" or "transaction manager is required" when one is missing; a service is returned exactly when none of these applies, and it holds what the options set |
| TenantCommands.TenantBusiness.CreateValidTenant | internal/domain/tenant/cmd_tenant.go:55-82 | a taken subdomain gives AlreadyExists over the subdomain error; a lookup fault is wrapped "checksubdomainavailability: "; a failed begin is wrapped "tenantcreate-trx: "; a used domain gives AlreadyExists and an invalid enum value InvalidArgument; on success the tenant, its schema and its contents are stored together, and a failure stores none of them |
| TenantCommands.CreateTenantInTx | internal/domain/tenant/cmd_tenant.go:63-71 | the insert and the schema creation commit together or are rolled back together; a failed insert's error keeps its domain, subdomain and enum matches through the rollback |
| TenantCommands.CreateTenantWork | internal/domain/tenant/cmd_tenant.go:63-70 | the transaction body succeeds exactly when the insert meets no fault or violation and both schema statements succeed; a failed insert returns the mapped driver error and stops |
| TenantCommands.TenantBusiness.CreateTenant | internal/domain/tenant/cmd_tenant.go:49-83 | field errors give InvalidArgument over them; otherwise as CreateValidTenant, and on success the returned profile is the one NewTenantProfile describes, stored with its schema |
| Addresses.ParseAddress | internal/domain/types/address/address.go:12-32 | succeeds exactly when the lower-cased text is "business", "billing" or "shipping", yielding that type; otherwise the empty type and "invalid addresstype: " with the input |
| Addresses.ParseTypeText | internal/domain/types/address/address.go:12-32 | every registered type parses back from its own text |
| Addresses.ParseTypeIgnoresCase | internal/domain/types/address/address.go:26-32 | parsing ignores ASCII case |
| Addresses.NewAddress | internal/domain/types/address/address.go:46-59 | the record has the fresh id and exactly the given fields, and the getters read them back |
| Addresses.AddAddresses | internal/domain/types/address/address.go:75-78 | the result is the receiver's elements followed by the new address |
| Addresses.Replaced | internal/domain/types/address/address.go:80-86 | same length; each element with the old id becomes the new address, the others stay |
| Addresses.ReplacedIdempotent | internal/domain/types/address/address.go:80-86 | an update whose new address keeps the id, done twice, is the same as once |
| Addresses.UpdateAddress | internal/domain/types/address/address.go:80-86 | the shared array is overwritten in place exactly where the id matches |
| Addresses.GetDefaultAddress | internal/domain/types/address/address.go:88-95 | the first default element when there is one, else the zero address |
| Addresses.GetDefaultShippigAddress | internal/domain/types/address/address.go:97-106 | the first element that is default and of shipping type when there is one, else the zero address |
| SharedAddress.GettersReadFields | internal/domain/shared/address/address.go:16-26 | each getter reads back the field the record was built with |
| SharedAddress.AddAddresses | internal/domain/shared/address/address.go:30-33 | the receiver's elements followed by the new address |
| SharedAddress.Replaced | internal/domain/shared/address/address.go:35-41 | same length; each element with the old id becomes the new address |
| SharedAddress.UpdateAddress | internal/domain/shared/address/address.go:35-41 | the shared array is overwritten in place exactly where the id matches |
| SharedAddress.ReplacedAbsent | internal/domain/shared/address/address.go:35-41 | an id that no element has leaves the list unchanged |
| SharedAddress.GetDefaultAdress | internal/domain/shared/address/address.go:43-50 | the first default element when there is one, else the zero address |
| StoreCustomer.NewCustomerProfile | internal/domain/store/customer/customer.go:27-46 | succeeds exactly when both trimmed names are non-empty; a blank first name is reported with the last-name message and a blank last name with the first-name message; a profile holds the trimmed names, the fresh id, the organisation, no addresses and no points |
| StoreCustomer.ProfileRecreates | internal/domain/store/customer/customer.go:27-46 | building from a profile's own names gives the same profile back |
| StoreUsers.NewCustomerProfile | internal/domain/store/users/customer.go:27-46 | the same rules and messages as the customer package, over the newer address type |
| StoreUsers.AgreesWithStoreCustomer | internal/domain/store/users/customer.go:27-46 | both packages accept and refuse the same names, with the same messages and the same profile fields |
| StoreUsers.PaddingIgnored | internal/domain/store/users/customer.go:29-35 | white space around the names changes nothing |
| Catalog.NewProduct | internal/domain/store/catalog/storecatalog/model.go:25-44 | succeeds exactly when the name is non-empty and the price not negative, the name checked first; a product is active, has no images, the fresh id and creation time, and the given tenant, name, description and price |
| Catalog.WellFormedIsConstructed | internal/domain/store/catalog/storecatalog/model.go:25-44 | every well-formed product is what the constructor builds from its own fields |
| Catalog.BlankNameAccepted | internal/domain/store/catalog/storecatalog/model.go:26 | a name of spaces only is not refused, since the name is not trimmed |
| SdkBase.Chain | internal/sdk/base/chain.go:9-14 | the loop from the last middleware to the first computes the chained handler |
| SdkBase.ChainedAppend | internal/sdk/base/chain.go:9-14 | a middleware appended to the list is applied first, innermost |
| SdkBase.ChainOrder | internal/sdk/base/chain.go:9-14 | the first middleware listed is the outermost: chaining tagging middlewares puts the tags in list order before the handler's |
| SdkBase.PrivateBlocksAreRanges | internal/sdk/base/netutil.go:15-33 | an address lies in one of the eight CIDR blocks exactly when it lies in the stated private, loopback or link-local ranges |
| SdkBase.PrivateV4 | internal/sdk/base/netutil.go:17-21 | the five IPv4 blocks are exactly 10/8, 172.16-31, 192.168/16, 127/8 and 169.254/16 by octets |
| SdkBase.PrivateV6 | internal/sdk/base/netutil.go:23-25 | the three IPv6 blocks are exactly ::1, fc00::/7 and fe80::/10 by bytes |
| SdkBase.IsPrivate | internal/sdk/base/netutil.go:10-34 | true exactly when the text parses and the address lies in a private block; an unparsable text is not private |
| SdkBase.FirstPublic | internal/sdk/base/netutil.go:48-54 | the first trimmed, non-empty, non-private entry of the forwarded list, and none exactly when every entry is blank or private |
| SdkBase.GetClientIP | internal/sdk/base/netutil.go:45-68 | the forwarded list's first public entry, else a public X-Real-IP, else a public host of the remote address, else the empty string |
| SdkBase.ClientIPNotPrivate | internal/sdk/base/netutil.go:45-68 | a non-empty answer is never a private address |
| SdkBase.UnparsableEntryReported | internal/sdk/base/netutil.go:48-53 | a lone forwarded entry that is not an address at all is still returned as the client address, since an unparsable text counts as not private |
| Middleware.FirstEventWins | internal/sdk/middleware/mid_log.go:30-46 | a new wrapper that sees no call records status 0 and not written; otherwise it records the first call's code (200 for a body write) and keeps it |
| Middleware.ResponseWriter.constructor | internal/sdk/middleware/mid_log.go:24-28 | wraps the given writer with status 0, not written |
| Middleware.ResponseWriter.Write | internal/sdk/middleware/mid_log.go:30-37 | the first write records 200, a recorded code is kept, and the bytes and the fault pass straight to the wrapped writer |
| Middleware.ResponseWriter.WriteHeader | internal/sdk/middleware/mid_log.go:39-46 | every code is passed on to the wrapped writer, while only the first code is recorded |
| Middleware.ResponseWriter.Unwrap | internal/sdk/middleware/mid_log.go:48-50 | the wrapped writer, which Serve shows is the writer every call reaches |
| Middleware.Serve | internal/sdk/middleware/mid_log.go:24-50 | a wrapper driven through any calls unwraps to the real writer, records the first call's status, and the real writer receives every status and every body byte in order, with its header unchanged |
| Middleware.RequestLogger | internal/sdk/middleware/mid_log.go:52-86 | the request id is the X-Request-ID header or else a fresh id; the logged status is the wrapper's first recorded code (0 when the handler wrote nothing), at error level exactly from 500 up; the entry carries the id, method, path, query, user agent and client address; the handler's writes reach the real writer unchanged |
| Middleware.LoggedStatusIsFirst | internal/sdk/middleware/mid_log.go:63-81 | the logged status is 0 when nothing was written, else the first call's code |
| Middleware.CorsHeader | internal/sdk/middleware/cors.go:14-30 | the three Vary values are always appended; the allow-origin header is the origin exactly when it matched; a preflight also sets the allowed methods, headers and max age; no other header changes |
| Middleware.EnableCorsWith | internal/sdk/middleware/cors.go:11-39 | an origin matching a trimmed configured origin is allowed; a matched preflight is answered 204 without calling the next handler; every other request calls the next handler exactly once and returns its error |
| Middleware.EnableCors | internal/sdk/middleware/cors.go:11-39 | EnableCorsWith under this package's policy: Vary on Access-Control-Request-Method, headers "Authorization, Content-Type", max age 1800 |
| Middleware.Credentials | internal/sdk/middleware/mid_auth.go:31-37 | a header is accepted exactly when it has two space-separated fields and the first is "Bearer", and then the token is the second, non-empty and space-free |
| Middleware.CredentialsOfBearer | internal/sdk/middleware/mid_auth.go:31-37 | "scheme token" yields the token exactly when the scheme is Bearer |
| Middleware.CheckBearer | internal/sdk/middleware/mid_auth.go:25-42 | no header, a malformed header, a token the verifier refuses, or the verifier's payload, each exactly in its own case |
| Middleware.AuthBearer | internal/sdk/middleware/mid_auth.go:22-48 | every refusal is Unauthenticated with "no auth header", "malformed auth header" or "invalid token" exactly in its case; the next handler is called exactly when the token verifies, with the verifier's payload |
| Midd.ForwardsOnlyFirstStatus | internal/sdk/midd/mid_log.go:23-40 | over any calls the wrapped writer receives at most one status, and only when the first call is a WriteHeader |
| Midd.ResponseWriter.constructor | internal/sdk/midd/mid_log.go:17-21 | wraps the given writer with status 0, not written |
| Midd.ResponseWriter.Write | internal/sdk/midd/mid_log.go:23-30 | the first write records 200, a recorded code is kept, and the bytes pass straight to the wrapped writer |
| Midd.ResponseWriter.WriteHeader | internal/sdk/midd/mid_log.go:32-40 | after the first status every further code is dropped; the first is recorded and passed on |
| Midd.ResponseWriter.Unwrap | internal/sdk/midd/mid_log.go:42-44 | the wrapped writer, which Serve shows is the writer every call reaches |
| Midd.Serve | internal/sdk/midd/mid_log.go:17-44 | a wrapper driven through any calls unwraps to the real writer, records the first call's status; the real writer receives only the status of a leading WriteHeader and every body byte in order, with its header unchanged |
| Midd.EnableCors | internal/sdk/midd/cors.go:12-40 | the same behaviour as the other package's, under this policy: Vary on the misspelt "Access-Control-Request-Methods", headers "Accept, Authorization, Content-Type", max age 300 |
| Midd.AuthBearer | internal/sdk/midd/mid_auth.go:21-46 | a verified bearer token calls the next handler once with its payload and returns its error; any refusal sets WWW-Authenticate to Bearer, calls nothing and returns an Unauthenticated error with "missing authorization header", "malformed authorization header" or "invalid or expired token", and nothing is written |
| Config.SplitN2 | internal/config/config.go:87-90 | splitting at the first separator gives two parts exactly when the separator occurs, and the parts rebuild the key with no separator in the first |
| Config.NestedKey | internal/config/config.go:92-95 | the nested key contains a dot |
| Config.FlatOfNestedKey | internal/config/config.go:87-95 | for a flat key, turning the nested key's first dot back into an underscore gives the flat key again, so no two flat keys share a nested key |
| Config.NestedKeyOfParts | internal/config/config.go:87-95 | a key "section_rest" with no underscore in the section becomes "section.rest" |
| Config.Applied | internal/config/config.go:82-99 | rewriting never drops a setting |
| Config.RewritesLast | internal/config/config.go:82-99 | a key is produced by a list of keys exactly when the list's front or its last key produces it |
| Config.AppliedKeys | internal/config/config.go:82-99 | after the pass the settings are exactly the old ones plus the nested key of each flat key |
| Config.AppliedKeeps | internal/config/config.go:82-99 | a setting that no flat key rewrites keeps its value |
| Config.AppliedCopies | internal/config/config.go:82-99 | the nested key of every flat key holds that flat key's value |
| Config.CopiedAfterLast | internal/config/config.go:82-99 | the copy survives the pass's last step |
| Config.Store.constructor | internal/config/config.go:102-115 | the settings read from the file |
| Config.Store.AllKeys | internal/config/config.go:80 | the listed keys are exactly the settings' keys |
| Config.Store.TransformFlatToNested | internal/config/config.go:79-100 | keys containing a dot or no underscore are skipped; every other key is copied to its nested form "section.rest" split at the first underscore, the flat key stays, and untouched settings keep their values |
| Config.DefaultObservabilityConfig | internal/config/observability.go:35-56 | no service name, development, info level with a 100 ms slow-query threshold, New Relic forwarding and tracing on and debug off, health checks of database and redis every 30 s with a 5 s timeout |
| Config.Validate | internal/config/observability.go:58-77 | valid exactly when the service name is set, the level is one of debug, info, warn, error and the threshold is not negative; each failure has its own message, checked in that order |
| Config.GetLogLevel | internal/config/observability.go:79-81 | the configured logging level, unchecked |
| Config.ValidatedLevel | internal/config/observability.go:58-81 | after a successful Validate the level GetLogLevel reports is one of debug, info, warn and error; the defaults' level is info |
| Config.IsProduction | internal/config/observability.go:83-85 | true exactly for the "production" environment |
| Config.EnvironmentNotValidated | internal/config/observability.go:58-85 | Validate never looks at the environment, and only the exact lower-case "production" counts: "Production" does not |
| Config.DefaultsNeedServiceName | internal/config/observability.go:35-77 | the defaults fail validation only for the missing service name, are not production, and pass once a name is set |

## Left out

- **HTTP handlers and transport** are not part of this model: the app packages, router, server, JSON writer, context helpers and panic recovery. Middleware.AuthBearer returns the code and message that the JSON error writer would send.
- **Password hashing** (passwords.go): bcrypt's hashing is a `Result<Digest>` parameter and its comparison of a well-formed hash a `CompareOutcome` parameter. Only the two checks bcrypt's CompareHashAndPassword makes before comparing are modelled: a hash shorter than 59 bytes is ErrHashTooShort, and one not starting with '$' is the prefix error. Their texts are those of golang.org/x/crypto/bcrypt, which is not part of this model.
- **Users.ErrInvalidPassword** and **Users.ErrUserIDConflict** are used by the package but declared nowhere in it. The model declares them: ErrUserIDConflict with a text of its own choosing, and ErrInvalidPassword as bcrypt's mismatch error, the error ComparePassword wraps for a wrong password. No statement here depends on the chosen text.
- **Hashing, signing and verification**: SHA-256 is a function the service is given. JWT signing is a `sign` function over the payload. Token verification is a `verify` function. The signing and claims internals are not modelled.
- **Randomness**: the six-digit draw, the 16 random bytes and every `uuid.New` are parameters.
- **Time**: the current time is a parameter in whole seconds, so sub-second precision is not modelled. Row timestamps (created_at, updated_at) and the logger's latency are not modelled.
- **Library parsing** is passed in as functions: `net/mail` address parsing, phone validation, `net.ParseIP`, `net.SplitHostPort` and the validator package. Only their verdicts are modelled.
- **Case folding**: `strings.ToLower` is modelled for ASCII letters only. Non-ASCII case folding is not modelled.
- **HTTP header keys** are looked up exactly. MIME canonicalisation of the keys is not modelled.
- **The cache**:
  - it is a map from key to value and the whole seconds the entry was set to live;
  - that lifetime is stored but never elapses;
  - the rounding of a sub-second duration up to one second (go-redis) and the refusal of a lifetime below one second (the Redis server) are modelled from those libraries, which are not part of this model;
  - gob encoding and Get are not modelled.
- **CreateSession and BlockSession require a cache**. The source's constructor never sets one, and without one these commands would call through a nil interface. The option setters in cfgs.go are not part of this model.
- **Crash sites that become requires**:
  - **Users.NewUser** and **UserCommands.UserBusiness.CreateUser** require that no password is given, because the source then writes through a nil provider field.
  - **Tenants.NewTenantProfile** and **TenantCommands.TenantBusiness.CreateTenant** require a logo URL on the success path, because the source dereferences it.
- **Token table**:
  - duplicate token rows are allowed, as the source declares no key;
  - GetUserIDByToken returns the owner of some matching row.
- **Unique-constraint order**: when several unique constraints fail at once, the model reports them in a fixed order, whereas the database picks one.
- **Concurrency and isolation levels** are not modelled. Each command runs alone.
- **Tenant rows**: the number_of_employees column of the tenant insert is not modelled, because the profile struct has no such field.
- **The schema DDL** (schema.go) is a parameter: a template of 54 pieces around its 53 placeholders.
- **TenantDb.TenantStore.CheckSubdomainAvailability** queries outside any ambient transaction. The model calls it before the transaction opens, so the difference is not observable here.
- **TenantCommands.TenantOption** models an arbitrary option function only by the error it returns.
- **Configuration loading**: viper's file reading, environment binding and Unmarshal are not modelled. Settings are a map from key to string, and AllKeys lists them in an unspecified order.
- **Money** amounts are `real`. Decimal formatting is not modelled.
- **The scan error of UserStore.UserStore.BlockSession**: its text is pgx's, and pgx is not part of this model; the model relies only on its not being ErrNoRows. That the sessions id is a uuid is read from GetSession in both adapters, which bind and scan that column as a uuid.UUID, since the migrations are not part of this model.
- **Column defaults**: the users table's defaults for the columns an INSERT leaves out are a parameter of each adapter (UserDb.UserDb.CreateUser, UserStore.UserStore.CreateUser), since the migrations that declare them are not part of this model.
- **Other packages** are not part of this model: background jobs, mailer, logger setup, migrations, the catalog repository, seed data and the dashboard stub.
- **UserCommands.UserBusiness.ForgetPassword** and **UserCommands.UserBusiness.ResendActivationToken** do not state the wrapped messages of their lookup, generation and insert failures. They state only that such a failure returns no token and stores nothing.
- **UserCommands.UserBusiness.Authenticate** states its comparison failure only for stored rows that load without error and carry a digest. It states that it never succeeds for every input.
- **The commands that compare passwords** (Authenticate, UpdateUser with a password, ChangePassword) use ComparePassword as written, so they always fail. ComparePasswordFixed is the corrected comparison, stated on its own with its round trip against HashPassword.
- **UserCommands.UserBusiness.CreateSession** keeps the cache lifetimes as written (CacheTtl). CacheTtlFixed is the corrected lifetime, stated on its own.
- **UserCommands.UserBusiness.CreateUser** keeps the insert step as written (InsertUser). InsertUserRetrying is the corrected step, stated on its own.

## Findings

| source | as written | input that shows it | evidently intended | confidence | as-written member | corrected member |
|---|---|---|---|---|---|---|
| internal/domain/users/cmd_user.go:45-54 | after an id conflict the insert is retried under a new id, but the closure returns the original conflict error even when the retry succeeds, so the transaction rolls back and registration fails | a first insert that meets users_user_id_uq and a retried insert that succeeds | a successful retry continues with the activation code; only a failed retry is an error ("createuserretry: ") | not executed | UserCommands.UserBusiness.InsertUser | UserCommands.UserBusiness.InsertUserRetrying |
| internal/domain/users/cmd_token.go:110-120 | both cache deletions use SessionAccessKeys, so the "refresh:" entry is never deleted on logout | any logout of a user whose refresh entry is cached: afterwards the entry is still there, unchanged | the second deletion uses SessionRefreshKeys, so neither entry survives a successful logout | not executed | UserCommands.UserBusiness.BlockSession | UserCommands.UserBusiness.BlockSessionFixed |
| internal/domain/users/userdb/users.go:194-218 | the ErrNoRows check runs only when Exec returned no error, where it can never hold, so an update of a missing user reports success | UpdateUser of a user id with no row and no driver fault: returns nil and changes nothing | an update that reaches no row returns ErrUserNotFound | not executed | UserDb.UserDb.UpdateUser | UserDb.UserDb.UpdateUserChecked |
| internal/domain/users/passwords.go:29-41 | the stored bcrypt hash is itself hashed with SHA-256 and its hex text is passed to bcrypt as the hash, with the plain password as the secret; hex text never starts with '$', so bcrypt always refuses it | any stored hash and any password, including the right one: the error is bcrypt's "must start with '$'" error, never nil and never the mismatch error | the stored hash is compared with the hex SHA-256 of the password, the secret HashPassword gave bcrypt, so a password matches its own hash | not executed | Tokens.ComparePassword | Tokens.ComparePasswordFixed |
| internal/domain/users/cmd_user.go:221-229 | the cache lifetime is time.Duration(ExpiresAt.Second()): the expiry's second-of-minute read as nanoseconds | a session created at a time 0 s past a whole minute: SETEX gets 0 s and Redis refuses it, so the session fails; at any other time both entries live one second | each entry lives until its token expires (time.Until(ExpiresAt)): 30 minutes and 24 hours | not executed | UserCommands.SessionTtlAsWritten | UserCommands.SessionTtlFixed |
| internal/domain/users/userstore/session.go:103-116 | the UPDATE's RETURNING id, the sessions table's uuid key (GetSession scans the same column into a uuid.UUID), is scanned into an int64, so Scan fails on every row found, after the UPDATE has blocked the rows | BlockSession of a refresh-token digest that some session carries, with no driver fault: the sessions are blocked and the result is ErrDatabase around the scan error, never nil | the id is scanned into a uuid, so a found session is blocked and the call succeeds | not executed | UserStore.UserStore.BlockSession | UserStore.UserStore.BlockSessionFixed |
