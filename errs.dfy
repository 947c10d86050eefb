/**
 * The application's error taxonomy: the twenty error codes with their names and
 * HTTP statuses, Go error values with their wrap chains (so that `errors.Is` and
 * `errors.As` can be stated), the DomainError that carries a code, the
 * accumulating FieldErrors list and the AppErr sent to clients.
 */
module Errs {
  import W = Wrappers
  import Text

  /** The error codes, in declaration order (their Go values are 0..19); `CodeNone`
      is the Go constant `None`. */
  datatype ErrCode =
    | CodeNone | NoContent | Canceled | Unknown | InvalidArgument | DeadlineExceeded
    | NotFound | AlreadyExists | PermissionDenied | ResourceExhausted
    | FailedPrecondition | Aborted | OutOfRange | Unimplemented | Internal
    | Unavailable | DataLoss | Unauthenticated | TooManyRequests | InternalOnlyLog

  /** The integer value `iota` gives each code. */
  function Ordinal(c: ErrCode): (n: nat)
    ensures n < 20
  {
    match c
    case CodeNone => 0 case NoContent => 1 case Canceled => 2 case Unknown => 3
    case InvalidArgument => 4 case DeadlineExceeded => 5 case NotFound => 6
    case AlreadyExists => 7 case PermissionDenied => 8 case ResourceExhausted => 9
    case FailedPrecondition => 10 case Aborted => 11 case OutOfRange => 12
    case Unimplemented => 13 case Internal => 14 case Unavailable => 15
    case DataLoss => 16 case Unauthenticated => 17 case TooManyRequests => 18
    case InternalOnlyLog => 19
  }

  /** The code with a given integer value, if any. */
  function FromOrdinal(n: int): (c: W.Option<ErrCode>)
    ensures c.Some? <==> 0 <= n < 20
  {
    if n == 0 then W.Some(CodeNone) else if n == 1 then W.Some(NoContent)
    else if n == 2 then W.Some(Canceled) else if n == 3 then W.Some(Unknown)
    else if n == 4 then W.Some(InvalidArgument) else if n == 5 then W.Some(DeadlineExceeded)
    else if n == 6 then W.Some(NotFound) else if n == 7 then W.Some(AlreadyExists)
    else if n == 8 then W.Some(PermissionDenied) else if n == 9 then W.Some(ResourceExhausted)
    else if n == 10 then W.Some(FailedPrecondition) else if n == 11 then W.Some(Aborted)
    else if n == 12 then W.Some(OutOfRange) else if n == 13 then W.Some(Unimplemented)
    else if n == 14 then W.Some(Internal) else if n == 15 then W.Some(Unavailable)
    else if n == 16 then W.Some(DataLoss) else if n == 17 then W.Some(Unauthenticated)
    else if n == 18 then W.Some(TooManyRequests) else if n == 19 then W.Some(InternalOnlyLog)
    else W.None
  }

  /** The codes are exactly the consecutive values 0..19: the two conversions are inverse. */
  lemma OrdinalsConsecutive(c: ErrCode, n: int)
    ensures FromOrdinal(Ordinal(c)) == W.Some(c)
    ensures 0 <= n < 20 ==> Ordinal(FromOrdinal(n).value) == n
  {
  }

  /** The CodeNames table; it has an entry for every code. */
  function CodeName(c: ErrCode): string {
    match c
    case CodeNone => "ok" case NoContent => "no_content" case Canceled => "canceled"
    case Unknown => "unknown" case InvalidArgument => "invalid_argument"
    case DeadlineExceeded => "deadline_exceeded" case NotFound => "not_found"
    case AlreadyExists => "already_exists" case PermissionDenied => "permission_denied"
    case ResourceExhausted => "resource_exhausted" case FailedPrecondition => "failed_precondition"
    case Aborted => "aborted" case OutOfRange => "out_of_range"
    case Unimplemented => "unimplemented" case Internal => "internal"
    case Unavailable => "unavailable" case DataLoss => "data_loss"
    case Unauthenticated => "unauthenticated" case TooManyRequests => "too_many_requests"
    case InternalOnlyLog => "internal_only_log"
  }

  /** The length and first letter of each code's name, which already tell the
      twenty names apart. */
  function NameKey(c: ErrCode): (int, char) {
    match c
    case CodeNone => (2, 'o') case NoContent => (10, 'n') case Canceled => (8, 'c')
    case Unknown => (7, 'u') case InvalidArgument => (16, 'i') case DeadlineExceeded => (17, 'd')
    case NotFound => (9, 'n') case AlreadyExists => (14, 'a') case PermissionDenied => (17, 'p')
    case ResourceExhausted => (18, 'r') case FailedPrecondition => (19, 'f') case Aborted => (7, 'a')
    case OutOfRange => (12, 'o') case Unimplemented => (13, 'u') case Internal => (8, 'i')
    case Unavailable => (11, 'u') case DataLoss => (9, 'd') case Unauthenticated => (15, 'u')
    case TooManyRequests => (17, 't') case InternalOnlyLog => (17, 'i')
  }

  lemma NameKeyOfName(c: ErrCode)
    ensures |CodeName(c)| > 0 && NameKey(c) == (|CodeName(c)|, CodeName(c)[0])
  {
  }

  lemma NameKeyInjective(a: ErrCode, b: ErrCode)
    requires NameKey(a) == NameKey(b)
    ensures a == b
  {
  }

  /** All twenty code names are distinct: the CodeNames table is injective. */
  lemma CodeNamesDistinct(a: ErrCode, b: ErrCode)
    requires CodeName(a) == CodeName(b)
    ensures a == b
  {
    NameKeyOfName(a);
    NameKeyOfName(b);
    NameKeyInjective(a, b);
  }

  /** The HTTPStatus table; it has an entry for every code. */
  function HTTPStatus(c: ErrCode): (status: int)
    ensures 200 <= status < 600
  {
    match c
    case CodeNone => 200 case NoContent => 204 case Canceled => 504 case Unknown => 500
    case InvalidArgument => 400 case DeadlineExceeded => 504 case NotFound => 404
    case AlreadyExists => 409 case PermissionDenied => 403 case ResourceExhausted => 429
    case FailedPrecondition => 400 case Aborted => 409 case OutOfRange => 400
    case Unimplemented => 501 case Internal => 500 case Unavailable => 503
    case DataLoss => 500 case Unauthenticated => 401 case TooManyRequests => 429
    case InternalOnlyLog => 500
  }

  /** The statuses the command layer relies on, and the fact that the table is not
      injective (two pairs of codes share a status). */
  lemma HTTPStatusFacts()
    ensures HTTPStatus(InvalidArgument) == 400 && HTTPStatus(NotFound) == 404
    ensures HTTPStatus(AlreadyExists) == 409 && HTTPStatus(Unauthenticated) == 401
    ensures HTTPStatus(Internal) == 500
    ensures HTTPStatus(Canceled) == HTTPStatus(DeadlineExceeded) == 504
    ensures HTTPStatus(AlreadyExists) == HTTPStatus(Aborted) == 409
    ensures exists a, b :: a != b && HTTPStatus(a) == HTTPStatus(b)
  {
    assert Canceled != DeadlineExceeded && HTTPStatus(Canceled) == HTTPStatus(DeadlineExceeded);
  }

  /** Only CodeNone and NoContent map to a 2xx status; every other code maps to an
      error status. */
  lemma HTTPStatusClasses(c: ErrCode)
    ensures HTTPStatus(c) < 300 <==> c == CodeNone || c == NoContent
    ensures c != CodeNone && c != NoContent ==> HTTPStatus(c) >= 400
  {
  }

  /** One entry of a FieldErrors list: a field name and its message. */
  datatype FieldError = FieldError(field: string, err: string)

  /**
   * A Go `error` value. `Sentinel` is a package-level `errors.New` variable (two
   * sentinels are the same error exactly when package and text agree); `Plain` an
   * unwrappable error; `Wrapped` a `fmt.Errorf` with one `%w` between the two text
   * pieces; `Joined` a `fmt.Errorf` with two `%w` verbs or an `errors.Join`;
   * `Domain` a *DomainError; `Fields` a *FieldErrors; `Pg` a *pgconn.PgError
   * reported by PostgreSQL (SQLSTATE code, constraint name, message).
   */
  datatype Error =
    | Sentinel(pkg: string, text: string)
    | Plain(text: string)
    | Wrapped(prefix: string, inner: Error, suffix: string)
    | Joined(prefix: string, first: Error, sep: string, second: Error)
    | Domain(code: ErrCode, msg: Error)
    | Fields(entries: seq<FieldError>)
    | Pg(sqlState: string, constraint: string, detail: string)

  /** `err.Error()`. */
  function Message(e: Error): string {
    match e
    case Sentinel(_, text) => text
    case Plain(text) => text
    case Wrapped(p, inner, s) => p + Message(inner) + s
    case Joined(p, a, sep, b) => p + Message(a) + sep + Message(b)
    case Domain(_, msg) => Message(msg)
    case Fields(entries) => FieldsJson(entries)
    case Pg(code, _, detail) => "ERROR: " + detail + " (SQLSTATE " + code + ")"
  }

  /** errors.Is(e, target) for a sentinel target: the target is reached by
      following Unwrap (one or several children) from e. */
  predicate Is(e: Error, target: Error)
    requires target.Sentinel?
  {
    e == target ||
    match e
    case Wrapped(_, inner, _) => Is(inner, target)
    case Joined(_, a, _, b) => Is(a, target) || Is(b, target)
    case Domain(_, msg) => Is(msg, target)
    case _ => false
  }

  /** errors.As(e, &*DomainError): the first DomainError met by a depth-first walk of
      the wrap chain, as (code, message). */
  function AsDomain(e: Error): W.Option<(ErrCode, Error)> {
    match e
    case Domain(code, msg) => W.Some((code, msg))
    case Wrapped(_, inner, _) => AsDomain(inner)
    case Joined(_, a, _, b) => if AsDomain(a).Some? then AsDomain(a) else AsDomain(b)
    case _ => W.None
  }

  /** errors.As(e, &*FieldErrors). */
  function AsFields(e: Error): W.Option<seq<FieldError>> {
    match e
    case Fields(entries) => W.Some(entries)
    case Wrapped(_, inner, _) => AsFields(inner)
    case Joined(_, a, _, b) => if AsFields(a).Some? then AsFields(a) else AsFields(b)
    case Domain(_, msg) => AsFields(msg)
    case _ => W.None
  }

  /** `fmt.Errorf(prefix + "%w", inner)`. */
  function Wrap(prefix: string, inner: Error): (e: Error)
    ensures Message(e) == prefix + Message(inner)
    ensures forall t: Error :: t.Sentinel? && Is(inner, t) ==> Is(e, t)
  {
    Wrapped(prefix, inner, "")
  }

  /** A sentinel is found in a chain exactly when it is found in the wrapped error. */
  lemma WrapIs(prefix: string, inner: Error, t: Error)
    requires t.Sentinel?
    ensures Is(Wrap(prefix, inner), t) <==> Is(inner, t)
  {
  }

  /** NewDomainError(code, msg): a DomainError whose message is `fmt.Errorf("%w", msg)`. */
  function NewDomainError(code: ErrCode, msg: Error): (e: Error)
    ensures AsDomain(e) == W.Some((code, Wrapped("", msg, "")))
  {
    Domain(code, Wrapped("", msg, ""))
  }

  /** NewDomainError keeps the code, its text is the original message, and every
      sentinel the original matched is still matched through Unwrap. */
  lemma NewDomainErrorKeeps(code: ErrCode, msg: Error, t: Error)
    requires t.Sentinel?
    ensures Message(NewDomainError(code, msg)) == Message(msg)
    ensures Is(NewDomainError(code, msg), t) <==> Is(msg, t)
  {
    var w := Wrapped("", msg, "");
    assert NewDomainError(code, msg) == Domain(code, w);
    assert Message(w) == "" + Message(msg) + "";
    assert "" + Message(msg) + "" == Message(msg);
    assert Is(Domain(code, w), t) == Is(w, t);
    assert Is(w, t) == Is(msg, t);
  }

  /** IsDomainError finds a DomainError at any depth of a chain of single wraps. */
  lemma {:induction false} IsDomainErrorThroughWraps(prefixes: seq<string>, code: ErrCode, msg: Error)
    ensures AsDomain(WrapAll(prefixes, NewDomainError(code, msg))) == W.Some((code, Wrapped("", msg, "")))
  {
    if prefixes != [] {
      IsDomainErrorThroughWraps(prefixes[1..], code, msg);
    }
  }

  /** The error obtained by wrapping `e` with each prefix in turn, innermost first. */
  function WrapAll(prefixes: seq<string>, e: Error): Error {
    if prefixes == [] then e else Wrap(prefixes[0], WrapAll(prefixes[1..], e))
  }

  /** The HTTP payload the API returns (FuncName/FileName, taken from the runtime
      call stack, are not modelled). */
  datatype AppErr = AppErr(code: int, message: string, fields: seq<FieldError>)

  /** errs.New: a non-empty FieldErrors in the chain becomes "Validation failed"
      with those fields; otherwise the message is err.Error(). */
  function New(code: ErrCode, err: Error): (r: AppErr)
    ensures r.code == HTTPStatus(code)
    ensures AsFields(err).Some? && AsFields(err).value != [] ==>
              r.message == "Validation failed" && r.fields == AsFields(err).value
    ensures !(AsFields(err).Some? && AsFields(err).value != []) ==>
              r.message == Message(err) && r.fields == []
  {
    match AsFields(err)
    case Some(fields) =>
      if |fields| > 0 then AppErr(HTTPStatus(code), "Validation failed", fields)
      else AppErr(HTTPStatus(code), Message(err), [])
    case None => AppErr(HTTPStatus(code), Message(err), [])
  }

  /** errs.Newf with the format already applied to its arguments. */
  function Newf(code: ErrCode, formatted: string): (r: AppErr)
    ensures r.code == HTTPStatus(code) && r.message == formatted && r.fields == []
  {
    AppErr(HTTPStatus(code), formatted, [])
  }

  /** Newf is New over an error whose text is the formatted message: the same
      status and message, and never a field list. */
  lemma NewfIsNewOfPlain(code: ErrCode, formatted: string)
    ensures Newf(code, formatted) == New(code, Plain(formatted))
  {
  }

  /** A validation failure reported through a DomainError still reaches the client
      as "Validation failed" with its fields. */
  lemma NewSeesFieldsThroughDomainError(code: ErrCode, domainCode: ErrCode, fields: seq<FieldError>)
    requires fields != []
    ensures New(code, NewDomainError(domainCode, Fields(fields))) ==
            AppErr(HTTPStatus(code), "Validation failed", fields)
  {
    var e := NewDomainError(domainCode, Fields(fields));
    assert AsFields(Wrapped("", Fields(fields), "")) == W.Some(fields);
    assert AsFields(e) == W.Some(fields);
  }

  /** The mutable field-error accumulator. */
  class FieldErrors {
    var entries: seq<FieldError>

    constructor ()
      ensures entries == []
    {
      entries := [];
    }

    /** Appends (field, err.Error()) after the earlier entries. */
    method AddFieldError(field: string, err: Error)
      modifies this
      ensures entries == old(entries) + [FieldError(field, Message(err))]
    {
      entries := entries + [FieldError(field, Message(err))];
    }

    /** nil when nothing was added, otherwise the list itself as an error. */
    function ToError(): (r: W.Option<Error>)
      reads this
      ensures r.None? <==> entries == []
      ensures r.Some? ==> AsFields(r.value) == W.Some(entries) && Message(r.value) == FieldsJson(entries)
    {
      if |entries| != 0 then W.Some(Fields(entries)) else W.None
    }
  }

  // ---- JSON text of a FieldErrors list (encoding/json with HTML escaping) ----

  /** One rune as encoding/json writes it inside a string literal. */
  function JsonRune(c: char): string {
    if c == '"' then "\\\"" else if c == '\\' then "\\\\"
    else if c == '\n' then "\\n" else if c == '\r' then "\\r" else if c == '\t' then "\\t"
    else if c == '\U{0008}' then "\\b" else if c == '\U{000C}' then "\\f"
    else if c < ' ' || c == '<' || c == '>' || c == '&' then
      "\\u00" + [Text.LowerHex[c as int / 16], Text.LowerHex[c as int % 16]]
    else if c == '\U{2028}' then "\\u2028" else if c == '\U{2029}' then "\\u2029"
    else [c]
  }

  function JsonChars(s: string): string {
    if s == [] then [] else JsonRune(s[0]) + JsonChars(s[1..])
  }

  /** A JSON string literal. */
  function JsonString(s: string): string {
    "\"" + JsonChars(s) + "\""
  }

  function FieldJson(f: FieldError): string {
    "{\"field\":" + JsonString(f.field) + ",\"error\":" + JsonString(f.err) + "}"
  }

  function FieldItemsJson(fs: seq<FieldError>): string {
    if fs == [] then []
    else if |fs| == 1 then FieldJson(fs[0])
    else FieldJson(fs[0]) + "," + FieldItemsJson(fs[1..])
  }

  /** `(*FieldErrors).Error()`: the list marshalled as a JSON array. */
  function FieldsJson(fs: seq<FieldError>): string {
    "[" + FieldItemsJson(fs) + "]"
  }

  /** Result of an operation that returns a value or an error. */
  datatype Result<T> = Ok(value: T) | Fail(error: Error)
}
