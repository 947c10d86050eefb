/**
 * The users domain: sentinel errors, users, one-time tokens and sessions, the
 * sign-up input with its sanitiser, and the validating NewUser constructor.
 */
module Users {
  import opened Wrappers
  import opened Errs
  import Text
  import Roles

  /** A SHA-256 digest or a bcrypt hash: raw bytes. */
  type Digest = seq<Byte>

  // ---- Sentinel errors of the users package ----

  const ErrUserNotFound: Error := Sentinel("users", "user not found")
  const ErrEmailAlreadyExists: Error := Sentinel("users", "email already exists")
  const ErrPhoneNumberExists: Error := Sentinel("users", "phone number already exists")
  const ErrUserAlreadyExists: Error := Sentinel("users", "user with this ID already exists")
  const ErrProviderIDExists: Error := Sentinel("users", "provider ID already exists")
  const ErrProviderFieldsCheck: Error := Sentinel("users", "invalid fields for provider type")
  const ErrPasswordHashFailed: Error := Sentinel("users", "failed to hash password")
  const ErrDatabase: Error := Sentinel("users", "database error")
  const ErrTokenNotFound: Error := Sentinel("users", "otp not found")
  const ErrTokenExpired: Error := Sentinel("users", "otp is expired")
  const ErrSessionNotFound: Error := Sentinel("users", "user session not found")
  /** Used by the commands and the current adapter but not declared with the others;
      declared here with a text of our choosing. */
  const ErrUserIDConflict: Error := Sentinel("users", "user id conflict")
  /** bcrypt.ErrMismatchedHashAndPassword. */
  const ErrMismatchedHashAndPassword: Error :=
    Sentinel("bcrypt", "crypto/bcrypt: hashedPassword is not the hash of the given password")
  /** Used by the commands but declared nowhere; taken to be bcrypt's mismatch
      error, the one ComparePassword wraps when the password is wrong. */
  const ErrInvalidPassword: Error := ErrMismatchedHashAndPassword

  /** The sentinels are pairwise distinct errors. */
  lemma SentinelsDistinct()
    ensures ErrDatabase != ErrUserNotFound && ErrDatabase != ErrTokenNotFound
    ensures ErrDatabase != ErrTokenExpired && ErrDatabase != ErrSessionNotFound
    ensures ErrUserNotFound != ErrTokenNotFound && ErrUserIDConflict != ErrUserAlreadyExists
    ensures ErrEmailAlreadyExists != ErrPhoneNumberExists && ErrInvalidPassword != ErrDatabase
  {
  }

  // ---- Tokens and sessions ----

  /** The scope of a one-time token. */
  datatype Scope = ActivationToken | PasswordReset

  function ScopeText(s: Scope): string {
    match s
    case ActivationToken => "activationToken"
    case PasswordReset => "passwordReset"
  }

  /** A one-time token: the plaintext goes to the user, only the digest is stored. */
  datatype Token = Token(plaintext: string, tokenHash: Digest, userId: Uuid, expiry: Time, scope: Scope)

  /** A login session; `refreshToken` is the SHA-256 digest of the refresh JWT. The
      creation time, filled in by the database, is not modelled. */
  datatype Session = Session(
    id: Uuid, userId: Uuid, refreshToken: Digest, userAgent: string, clientIp: string,
    isBlocked: bool, expiresAt: Time)

  /** Session.IsSessionBlocked. */
  predicate IsSessionBlocked(s: Session) {
    s.isBlocked
  }

  /** Session.UserIDCheck: true when `id` is NOT the session's owner. */
  predicate UserIDCheck(s: Session, id: Uuid) {
    s.userId != id
  }

  /** Session.IsSessionExpired, with the clock reading passed in: now.After(ExpiresAt). */
  predicate IsSessionExpired(s: Session, now: Time) {
    now > s.expiresAt
  }

  /** What the three predicates mean: the blocked flag, "someone else", and strictly
      past the expiry (not yet expired at the expiry instant itself). */
  lemma SessionPredicates(s: Session, id: Uuid, now: Time)
    ensures IsSessionBlocked(s) <==> s.isBlocked
    ensures !UserIDCheck(s, s.userId)
    ensures UserIDCheck(s, id) <==> id != s.userId
    ensures !IsSessionExpired(s, s.expiresAt) && IsSessionExpired(s, s.expiresAt + 1)
    ensures IsSessionExpired(s, now) ==> forall later: Time :: later >= now ==> IsSessionExpired(s, later)
  {
  }

  // ---- Users ----

  /** A user as the commands and the adapters see it. Timestamps are not modelled. */
  datatype User = User(
    userId: Uuid, passwordHash: Digest, email: string, firstName: string, lastName: string,
    phoneNumber: string, country: string, provider: Option<string>, providerId: Option<string>,
    role: Roles.Role, isVerified: bool, isEnabled: bool, isStoreCreated: bool, numOfStore: int)

  /** Go's zero User. */
  const ZeroUser: User := User(NilUuid, [], "", "", "", "", "", None, None, Roles.Role(""), false, false, false, 0)

  /** The sign-up input of users/model.go (the password is optional). */
  datatype UserCreate = UserCreate(
    password: Option<string>, firstName: string, lastName: string, email: string,
    phoneNumber: string, country: string, provider: Option<string>, providerId: Option<string>)

  /** Library validators NewUser calls: phone-number validation for a region
      (nil on success) and RFC 5322 address parsing (the bare address on success). */
  datatype Validators = Validators(
    validatePhone: (string, string) -> Result<string>,
    parseEmail: string -> Result<string>)

  /** The field errors NewUser reports for an input, in the order it checks them.
      The first-name and last-name labels are swapped in the source. */
  function NewUserFieldErrors(info: UserCreate, v: Validators): seq<FieldError> {
    FirstNameErrors(info) + LastNameErrors(info) + PhoneErrors(info, v) + EmailErrors(info, v)
  }

  function FirstNameErrors(info: UserCreate): seq<FieldError> {
    if Text.TrimSpace(info.firstName) == "" then [FieldError("last_name", "cannot be emtpy")] else []
  }

  function LastNameErrors(info: UserCreate): seq<FieldError> {
    if Text.TrimSpace(info.lastName) == "" then [FieldError("fist_name", "cannot be empty")] else []
  }

  function PhoneErrors(info: UserCreate, v: Validators): seq<FieldError> {
    match v.validatePhone(info.phoneNumber, info.country)
    case Fail(e) => [FieldError("phone_number", "invalid: " + Message(e))]
    case Ok(_) => []
  }

  function EmailErrors(info: UserCreate, v: Validators): seq<FieldError> {
    match v.parseEmail(info.email)
    case Fail(e) => [FieldError("email", "invalid: " + Message(e))]
    case Ok(_) => []
  }

  /**
   * NewUser: validates the input, collecting every field error before deciding.
   * Any error gives the zero User with the FieldErrors list; otherwise the user
   * has the fresh id, is unverified, has the trimmed names, the parsed e-mail
   * address, and provider fields only when a provider id was given.
   * A non-nil password makes the source dereference a nil provider, so the
   * model requires its absence.
   */
  method NewUser(info: UserCreate, freshId: Uuid, v: Validators) returns (user: User, err: Option<Error>)
    requires info.password.None?
    ensures err.Some? <==> NewUserFieldErrors(info, v) != []
    ensures err.Some? ==> user == ZeroUser && err.value == Fields(NewUserFieldErrors(info, v))
    ensures err.None? ==> v.parseEmail(info.email).Ok? && v.validatePhone(info.phoneNumber, info.country).Ok?
                          && user == NewUserValue(info, freshId, v.parseEmail(info.email).value,
                                                  v.validatePhone(info.phoneNumber, info.country).value)
  {
    var fieldErrs, cleanFirstName, cleanLastName, phone, email := CheckUserFields(info, v);
    var fe := fieldErrs.ToError();
    if fe.Some? {
      return ZeroUser, fe;
    }
    var provider, providerId := None, None;
    if info.providerId.Some? {
      provider, providerId := info.provider, info.providerId;
    }
    user := User(freshId, [], email.value, cleanFirstName, cleanLastName, phone.value, info.country,
                 provider, providerId, ZeroUser.role, false, false, false, 0);
    err := None;
  }

  /** The checks at the head of NewUser: the trimmed names, the phone number
      ValidateNumber rewrites to E.164, the parsed e-mail address and the
      FieldErrors list they leave. */
  method CheckUserFields(info: UserCreate, v: Validators)
    returns (fieldErrs: FieldErrors, cleanFirstName: string, cleanLastName: string, phone: Result<string>,
             email: Result<string>)
    ensures fresh(fieldErrs) && fieldErrs.entries == NewUserFieldErrors(info, v)
    ensures cleanFirstName == Text.TrimSpace(info.firstName) && cleanLastName == Text.TrimSpace(info.lastName)
    ensures phone == v.validatePhone(info.phoneNumber, info.country) && email == v.parseEmail(info.email)
  {
    fieldErrs := new FieldErrors();
    cleanFirstName := Text.TrimSpace(info.firstName);
    if cleanFirstName == [] {
      fieldErrs.AddFieldError("last_name", Plain("cannot be emtpy"));
    }
    assert fieldErrs.entries == FirstNameErrors(info);
    cleanLastName := Text.TrimSpace(info.lastName);
    if cleanLastName == [] {
      fieldErrs.AddFieldError("fist_name", Plain("cannot be empty"));
    }
    assert fieldErrs.entries == FirstNameErrors(info) + LastNameErrors(info);
    phone := v.validatePhone(info.phoneNumber, info.country);
    if phone.Fail? {
      fieldErrs.AddFieldError("phone_number", Wrap("invalid: ", phone.error));
    }
    assert fieldErrs.entries == FirstNameErrors(info) + LastNameErrors(info) + PhoneErrors(info, v);
    email := v.parseEmail(info.email);
    if email.Fail? {
      fieldErrs.AddFieldError("email", Wrap("invalid: ", email.error));
    }
  }

  /** The user NewUser builds from a valid input, its parsed address and its
      phone number in E.164 form. */
  function NewUserValue(info: UserCreate, freshId: Uuid, address: string, phone: string): User {
    User(freshId, [], address, Text.TrimSpace(info.firstName), Text.TrimSpace(info.lastName),
         phone, info.country, if info.providerId.Some? then info.provider else None,
         info.providerId, ZeroUser.role, false, false, false, 0)
  }

  /** What a successfully built user looks like: fresh id, unverified, trimmed and
      non-empty names, provider fields only together with a provider id. */
  lemma NewUserValueFacts(info: UserCreate, freshId: Uuid, address: string, phone: string)
    requires Text.TrimSpace(info.firstName) != "" && Text.TrimSpace(info.lastName) != ""
    ensures var u := NewUserValue(info, freshId, address, phone);
      u.userId == freshId && !u.isVerified && u.passwordHash == [] && u.email == address
      && u.phoneNumber == phone && u.country == info.country
      && u.firstName != [] && u.lastName != []
      && !Text.IsSpace(u.firstName[0]) && !Text.IsSpace(u.firstName[|u.firstName| - 1])
      && (u.providerId.None? ==> u.provider.None?)
      && (u.providerId.Some? ==> u.provider == info.provider && u.providerId == info.providerId)
  {
  }

  /** An empty first name is reported under "last_name" and an empty last name
      under "fist_name"; with both names blank and the contact data valid, those
      are the only two errors, in that order. */
  lemma NameLabelsSwapped(info: UserCreate, v: Validators)
    requires Text.TrimSpace(info.firstName) == "" && Text.TrimSpace(info.lastName) == ""
    requires v.validatePhone(info.phoneNumber, info.country).Ok? && v.parseEmail(info.email).Ok?
    ensures NewUserFieldErrors(info, v) ==
      [FieldError("last_name", "cannot be emtpy"), FieldError("fist_name", "cannot be empty")]
  {
  }

  /** Every failed check contributes exactly one entry, so the list is empty exactly
      when all four checks pass. */
  lemma FieldErrorsCountChecks(info: UserCreate, v: Validators)
    ensures |NewUserFieldErrors(info, v)| ==
      (if Text.TrimSpace(info.firstName) == "" then 1 else 0)
      + (if Text.TrimSpace(info.lastName) == "" then 1 else 0)
      + (if v.validatePhone(info.phoneNumber, info.country).Fail? then 1 else 0)
      + (if v.parseEmail(info.email).Fail? then 1 else 0)
  {
  }

  // ---- The sign-up input of users/models.go and its sanitiser ----

  /** The field values of a users/models.go UserCreate (the password is a plain string). */
  datatype UserCreateFields = UserCreateFields(
    password: string, firstName: string, lastName: string, email: string,
    phoneNumber: string, country: string, provider: Option<string>, providerId: Option<string>)

  function TrimOption(o: Option<string>): Option<string> {
    match o
    case Some(s) => Some(Text.TrimSpace(s))
    case None => None
  }

  /** The input after Sanitize. */
  function Sanitized(u: UserCreateFields): UserCreateFields
  {
    UserCreateFields(
      Text.TrimSpace(u.password), Text.TrimSpace(u.firstName), Text.TrimSpace(u.lastName),
      Text.TrimSpace(u.email), Text.TrimSpace(u.phoneNumber), Text.TrimSpace(u.country),
      TrimOption(u.provider), TrimOption(u.providerId))
  }

  /** Sanitising twice is sanitising once. */
  lemma SanitizedIdempotent(u: UserCreateFields)
    ensures Sanitized(Sanitized(u)) == Sanitized(u)
  {
    Text.TrimSpaceIdempotent(u.password);
    Text.TrimSpaceIdempotent(u.firstName);
    Text.TrimSpaceIdempotent(u.lastName);
    Text.TrimSpaceIdempotent(u.email);
    Text.TrimSpaceIdempotent(u.phoneNumber);
    Text.TrimSpaceIdempotent(u.country);
    if u.provider.Some? { Text.TrimSpaceIdempotent(u.provider.value); }
    if u.providerId.Some? { Text.TrimSpaceIdempotent(u.providerId.value); }
  }

  /** After sanitising, no string field starts or ends with white space, and an
      absent provider field stays absent. */
  lemma SanitizedIsTrimmed(u: UserCreateFields)
    ensures var r := Sanitized(u);
      Trimmed(r.password) && Trimmed(r.firstName) && Trimmed(r.lastName) && Trimmed(r.email)
      && Trimmed(r.phoneNumber) && Trimmed(r.country)
      && (r.provider.None? <==> u.provider.None?) && (r.providerId.None? <==> u.providerId.None?)
      && (r.provider.Some? ==> Trimmed(r.provider.value))
      && (r.providerId.Some? ==> Trimmed(r.providerId.value))
  {
    TrimSpaceTrimmed(u.password);
    TrimSpaceTrimmed(u.firstName);
    TrimSpaceTrimmed(u.lastName);
    TrimSpaceTrimmed(u.email);
    TrimSpaceTrimmed(u.phoneNumber);
    TrimSpaceTrimmed(u.country);
    if u.provider.Some? { TrimSpaceTrimmed(u.provider.value); }
    if u.providerId.Some? { TrimSpaceTrimmed(u.providerId.value); }
  }

  lemma TrimSpaceTrimmed(s: string)
    ensures Trimmed(Text.TrimSpace(s))
  {
  }

  predicate Trimmed(s: string) {
    s == [] || (!Text.IsSpace(s[0]) && !Text.IsSpace(s[|s| - 1]))
  }

  /** The mutable users/models.go UserCreate. */
  class UserCreateForm {
    var password: string
    var firstName: string
    var lastName: string
    var email: string
    var phoneNumber: string
    var country: string
    var provider: Option<string>
    var providerId: Option<string>

    constructor (u: UserCreateFields)
      ensures Fields() == u
    {
      password, firstName, lastName, email := u.password, u.firstName, u.lastName, u.email;
      phoneNumber, country, provider, providerId := u.phoneNumber, u.country, u.provider, u.providerId;
    }

    function Fields(): UserCreateFields
      reads this
    {
      UserCreateFields(password, firstName, lastName, email, phoneNumber, country, provider, providerId)
    }

    /** UserCreate.Sanitize: trims every field in place; nil provider fields stay nil. */
    method Sanitize()
      modifies this
      ensures Fields() == Sanitized(old(Fields()))
    {
      var r := Sanitized(Fields());
      password, firstName, lastName, email := r.password, r.firstName, r.lastName, r.email;
      phoneNumber, country, provider, providerId := r.phoneNumber, r.country, r.provider, r.providerId;
    }
  }
}
