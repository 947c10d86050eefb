/**
 * The parts of the PostgreSQL driver (pgx) the adapters react to: the "no rows"
 * sentinel, errors.As(err, &*pgconn.PgError), and the errors PostgreSQL raises for
 * a violated unique or check constraint and for an invalid enum text.
 */
module Pgx {
  import opened Wrappers
  import opened Errs

  /** pgx.ErrNoRows. */
  const ErrNoRows: Error := Sentinel("pgx", "no rows in result set")

  /** What Scan reports when a uuid column is scanned into an int64 (pgx's own
      text). */
  const ErrScanUuidIntoInt64: Error :=
    Plain("can't scan into dest[0]: cannot scan uuid (OID 2950) in binary format into *int64")

  /** The fields of a PgError the adapters read. */
  datatype PgInfo = PgInfo(code: string, constraint: string, detail: string)

  /** errors.As(err, &pgErr): the first PgError met by a depth-first walk of the
      wrap chain. */
  function AsPg(e: Error): (r: Option<PgInfo>)
    ensures e.Pg? ==> r == Some(PgInfo(e.sqlState, e.constraint, e.detail))
    ensures e.Sentinel? || e.Plain? || e.Fields? ==> r.None?
  {
    match e
    case Pg(code, constraint, detail) => Some(PgInfo(code, constraint, detail))
    case Wrapped(_, inner, _) => AsPg(inner)
    case Joined(_, a, _, b) => if AsPg(a).Some? then AsPg(a) else AsPg(b)
    case Domain(_, msg) => AsPg(msg)
    case _ => None
  }

  /** SQLSTATE 23505, raised when an insert or update would duplicate a key. */
  function UniqueViolation(constraint: string): (e: Error)
    ensures AsPg(e).Some? && AsPg(e).value.code == "23505" && AsPg(e).value.constraint == constraint
  {
    Pg("23505", constraint, "duplicate key value violates unique constraint \"" + constraint + "\"")
  }

  /** A PgError is found through any number of single wraps. */
  lemma {:induction false} AsPgThroughWraps(prefixes: seq<string>, e: Error)
    ensures AsPg(WrapAll(prefixes, e)) == AsPg(e)
  {
    if prefixes != [] {
      AsPgThroughWraps(prefixes[1..], e);
    }
  }
}
