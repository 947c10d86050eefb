/**
 * The newer sdk middlewares (sdk/midd): a response writer that forwards only
 * the first WriteHeader (mid_log.go), CORS with its own constants (cors.go),
 * and a Bearer check that returns an errs.AppErr and sets the RFC 6750
 * challenge header (mid_auth.go). The status recording rule and the header
 * checks are the ones of sdk/middleware, reused from there.
 */
module Midd {
  import opened Wrappers
  import opened Errs
  import opened HttpModel
  import Middleware

  // -------------------------------------------------------------- mid_log.go

  /** One call on the wrapper: the fields it leaves, and the codes it passes
      on to the wrapped writer's WriteHeader. */
  function Step(r: Middleware.Recorded, e: Middleware.WriterEvent): (Middleware.Recorded, seq<int>) {
    (Middleware.Record(r, Middleware.CodeOf(e)), if e.Status? && !r.headerWritten then [e.code] else [])
  }

  /** Every code forwarded over a whole sequence of calls on a new wrapper. */
  function Forwarded(events: seq<Middleware.WriterEvent>): seq<int>
    decreases |events|
  {
    if events == [] then []
    else
      var init := events[..|events| - 1];
      Forwarded(init) + Step(Middleware.Replay(init), events[|events| - 1]).1
  }

  /** At most one status is ever forwarded, and only when the first call is a
      WriteHeader; a Write first means the wrapped writer never sees a code. */
  lemma {:induction false} ForwardsOnlyFirstStatus(events: seq<Middleware.WriterEvent>)
    ensures Forwarded(events) == (if events != [] && events[0].Status? then [events[0].code] else [])
    decreases |events|
  {
    if events != [] {
      var init := events[..|events| - 1];
      if init != [] {
        assert init[0] == events[0];
        ForwardsOnlyFirstStatus(init);
        Middleware.FirstEventWins(init);
      }
    }
  }

  /** ResponseWriter: StatusCode and HeaderWritten over the embedded writer. */
  class ResponseWriter {
    const inner: Downstream
    var statusCode: int
    var headerWritten: bool

    function State(): Middleware.Recorded
      reads this
    {
      Middleware.Recorded(statusCode, headerWritten)
    }

    /** NewResponseWriter. */
    constructor (w: Downstream)
      ensures inner == w && State() == Middleware.Unwritten
    {
      inner := w;
      statusCode := 0;
      headerWritten := false;
    }

    /** Write: records 200 unless a status is already recorded, then forwards the
        bytes. */
    method Write(b: seq<Byte>, fault: Option<Error>) returns (n: int, err: Option<Error>)
      modifies this, inner
      ensures State() == Step(old(State()), Middleware.Body(b)).0
      ensures old(headerWritten) ==> statusCode == old(statusCode)
      ensures fault.None? ==> n == |b| && err.None? && inner.body == old(inner.body) + b
      ensures fault.Some? ==> n == 0 && err == fault && inner.body == old(inner.body)
      ensures inner.header == old(inner.header) && inner.statuses == old(inner.statuses)
    {
      if !headerWritten {
        statusCode := 200;
        headerWritten := true;
      }
      n, err := inner.Write(b, fault);
    }

    /** WriteHeader: once the header is written it is a no-op; otherwise it
        records the code and forwards it. */
    method WriteHeader(code: int)
      modifies this, inner
      ensures State() == Step(old(State()), Middleware.Status(code)).0
      ensures inner.statuses == old(inner.statuses) + Step(old(State()), Middleware.Status(code)).1
      ensures old(headerWritten) ==> statusCode == old(statusCode) && inner.statuses == old(inner.statuses)
      ensures inner.header == old(inner.header) && inner.body == old(inner.body)
    {
      if headerWritten {
        return;
      }
      statusCode := code;
      headerWritten := true;
      inner.WriteHeader(code);
    }

    /** Unwrap: the embedded writer. */
    function Unwrap(): (w: Downstream)
      ensures w == inner
    {
      inner
    }
  }

  /**
   * The handler's calls `events` made, in order, through a new wrapper around
   * `w`. Afterwards the wrapper holds the first call's status, Unwrap still
   * gives `w`, and `w` has received the bytes of every call but at most the
   * one status Forwarded names.
   */
  method Serve(w: Downstream, events: seq<Middleware.WriterEvent>) returns (rw: ResponseWriter)
    modifies w
    ensures fresh(rw) && rw.Unwrap() == w && rw.State() == Middleware.Replay(events)
    ensures w.statuses == old(w.statuses) + Forwarded(events)
    ensures w.body == old(w.body) + Middleware.BodyOf(events) && w.header == old(w.header)
  {
    rw := new ResponseWriter(w);
    for i := 0 to |events|
      invariant rw.Unwrap() == w && fresh(rw)
      invariant rw.State() == Middleware.Replay(events[..i])
      invariant w.statuses == old(w.statuses) + Forwarded(events[..i])
      invariant w.body == old(w.body) + Middleware.BodyOf(events[..i]) && w.header == old(w.header)
    {
      assert events[..i + 1][..i] == events[..i];
      match events[i]
      case Body(b) =>
        var _, _ := rw.Write(b, None);
      case Status(code) =>
        rw.WriteHeader(code);
    }
    assert events[..|events|] == events;
  }

  // ----------------------------------------------------------------- cors.go

  /** The sdk/midd constants: max-age 300, "Accept" among the allowed headers,
      and the second Vary value spelled "Access-Control-Request-Methods". */
  const Policy: Middleware.CorsPolicy :=
    Middleware.CorsPolicy("Access-Control-Request-Methods", "Accept, Authorization, Content-Type", "300")

  method EnableCors(allowed: seq<string>, req: Request, w: Downstream, nextErr: Option<Error>)
    returns (err: Option<Error>, nextCalls: nat)
    modifies w
    ensures var origin := Get(req.header, "Origin");
      var matched := origin != "" && Middleware.OriginAllowed(allowed, origin);
      var answered := matched && Middleware.Preflight(req);
      w.header == Middleware.CorsHeader(old(w.header), Policy, origin, matched, answered)
      && w.statuses == old(w.statuses) + (if answered then [204] else [])
      && w.body == old(w.body)
      && (answered ==> nextCalls == 0 && err.None?)
      && (!answered ==> nextCalls == 1 && err == nextErr)
  {
    err, nextCalls := Middleware.EnableCorsWith(Policy, allowed, req, w, nextErr);
  }

  // ------------------------------------------------------------- mid_auth.go

  /** What a handler of this package returns: an AppErr built by errs.New, or
      whatever next returned. */
  datatype HandlerError = AppError(app: AppErr) | NextError(err: Error)

  /** The message for each way the bearer check can fail. */
  function Rejection<P>(c: Middleware.BearerCheck<P>): (message: string)
    requires !c.Verified?
  {
    match c
    case NoHeader => "missing authorization header"
    case Malformed => "malformed authorization header"
    case BadToken => "invalid or expired token"
  }

  /**
   * AuthBearer: each failure sets "WWW-Authenticate: Bearer" and returns an
   * Unauthenticated AppErr with its message; success calls next once with the
   * payload and returns next's error, leaving the header alone.
   */
  method AuthBearer<P>(req: Request, verify: string -> Option<P>, w: Downstream, nextErr: Option<Error>)
    returns (err: Option<HandlerError>, payload: Option<P>, nextCalls: nat)
    modifies w
    ensures var c := Middleware.CheckBearer(req.header, verify);
      (c.Verified? ==> w.header == old(w.header) && nextCalls == 1 && payload == Some(c.payload)
                       && err == (if nextErr.Some? then Some(NextError(nextErr.value)) else None))
      && (!c.Verified? ==> w.header == Replaced(old(w.header), "WWW-Authenticate", "Bearer")
                           && nextCalls == 0 && payload.None?
                           && err == Some(AppError(AppErr(HTTPStatus(Unauthenticated), Rejection(c), []))))
    ensures w.statuses == old(w.statuses) && w.body == old(w.body)
  {
    var c := Middleware.CheckBearer(req.header, verify);
    if !c.Verified? {
      w.Set("WWW-Authenticate", "Bearer");
      return Some(AppError(New(Unauthenticated, Plain(Rejection(c))))), None, 0;
    }
    if nextErr.Some? {
      return Some(NextError(nextErr.value)), Some(c.payload), 1;
    }
    return None, Some(c.payload), 1;
  }
}
