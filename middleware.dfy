/**
 * The older sdk middlewares (sdk/middleware): the status-recording response
 * writer and the request logger (mid_log.go), CORS (cors.go) and the Bearer
 * authentication check (mid_auth.go). A downstream handler is modelled by
 * what it does to the writer it is given (a sequence of calls) and by the
 * error it returns; token verification is the parameter `verify`.
 */
module Middleware {
  import opened Wrappers
  import opened Errs
  import Text
  import opened HttpModel
  import SdkBase

  // -------------------------------------------------------------- mid_log.go

  /** The two fields the wrapper keeps: the status it saw and whether the
      header has gone out. */
  datatype Recorded = Recorded(statusCode: int, headerWritten: bool)

  const Unwritten: Recorded := Recorded(0, false)

  /** The recording rule: only the first status sticks. */
  function Record(r: Recorded, code: int): Recorded {
    if r.headerWritten then r else Recorded(code, true)
  }

  /** A handler's call on the writer: Write(b), or WriteHeader(code). */
  datatype WriterEvent = Body(b: seq<Byte>) | Status(code: int)

  /** The status a call implies: a body write before any header means 200. */
  function CodeOf(e: WriterEvent): int {
    match e
    case Body(_) => 200
    case Status(c) => c
  }

  /** The fields after a whole sequence of calls on a new wrapper. */
  function Replay(events: seq<WriterEvent>): Recorded
    decreases |events|
  {
    if events == [] then Unwritten
    else Record(Replay(events[..|events| - 1]), CodeOf(events[|events| - 1]))
  }

  /** The first call decides the recorded status for good; no call leaves it
      at zero. */
  lemma {:induction false} FirstEventWins(events: seq<WriterEvent>)
    ensures events == [] ==> Replay(events) == Unwritten
    ensures events != [] ==> Replay(events) == Recorded(CodeOf(events[0]), true)
    decreases |events|
  {
    if |events| > 1 {
      var init := events[..|events| - 1];
      assert init[0] == events[0];
      FirstEventWins(init);
    }
  }

  /** newResponseWriter: embeds the downstream writer and records the status. */
  class ResponseWriter {
    const inner: Downstream
    var statusCode: int
    var headerWritten: bool

    function State(): Recorded
      reads this
    {
      Recorded(statusCode, headerWritten)
    }

    /** NewResponseWriter. */
    constructor (w: Downstream)
      ensures inner == w && State() == Unwritten
    {
      inner := w;
      statusCode := 0;
      headerWritten := false;
    }

    /** Write: records 200 unless a status is already recorded, then forwards
        the bytes and returns the downstream result. */
    method Write(b: seq<Byte>, fault: Option<Error>) returns (n: int, err: Option<Error>)
      modifies this, inner
      ensures State() == Record(old(State()), 200)
      ensures old(headerWritten) ==> statusCode == old(statusCode)
      ensures fault.None? ==> n == |b| && err.None? && inner.body == old(inner.body) + b
      ensures fault.Some? ==> n == 0 && err == fault && inner.body == old(inner.body)
      ensures inner.header == old(inner.header) && inner.statuses == old(inner.statuses)
    {
      if !headerWritten {
        statusCode := 200;
        headerWritten := true;
      }
      n, err := inner.Write(b, fault);
    }

    /** WriteHeader: forwards every call, records only the first status. */
    method WriteHeader(code: int)
      modifies this, inner
      ensures inner.statuses == old(inner.statuses) + [code]
      ensures State() == Record(old(State()), code)
      ensures old(headerWritten) ==> statusCode == old(statusCode)
      ensures inner.header == old(inner.header) && inner.body == old(inner.body)
    {
      inner.WriteHeader(code);
      if !headerWritten {
        statusCode := code;
        headerWritten := true;
      }
    }

    /** Unwrap: the embedded writer. */
    function Unwrap(): (w: Downstream)
      ensures w == inner
    {
      inner
    }
  }

  /** The status codes a sequence of calls passes to WriteHeader, in order. */
  function StatusesOf(events: seq<WriterEvent>): seq<int>
    decreases |events|
  {
    if events == [] then []
    else
      var last := events[|events| - 1];
      StatusesOf(events[..|events| - 1]) + (if last.Status? then [last.code] else [])
  }

  /** The bytes a sequence of calls writes, in order. */
  function BodyOf(events: seq<WriterEvent>): seq<Byte>
    decreases |events|
  {
    if events == [] then []
    else
      var last := events[|events| - 1];
      BodyOf(events[..|events| - 1]) + (if last.Body? then last.b else [])
  }

  datatype LogLevel = InfoLevel | ErrorLevel

  /** The fields of the "incoming request" log line (latency is left out). */
  datatype LogEntry = LogEntry(
    level: LogLevel, requestId: string, verb: string, url: string, query: string,
    clientIp: string, userAgent: string, statusCode: int)

  /**
   * RequestLogger: picks the request id (the X-Request-ID header, else the
   * fresh id), runs the handler's calls `events` on a new recording wrapper,
   * and logs at error level exactly when the recorded status is 500 or more.
   * It returns the id the handler finds in its context and the log entry.
   */
  method RequestLogger(req: Request, freshId: Uuid, events: seq<WriterEvent>, w: Downstream,
                       parse: string -> Option<SdkBase.IP>, splitHost: string -> Option<string>)
    returns (requestId: string, entry: LogEntry)
    modifies w
    ensures requestId == (if Get(req.header, "X-Request-ID") != "" then Get(req.header, "X-Request-ID") else freshId.text)
    ensures entry.statusCode == Replay(events).statusCode
    ensures entry.level == (if entry.statusCode >= 500 then ErrorLevel else InfoLevel)
    ensures entry.requestId == requestId && entry.verb == req.verb && entry.url == req.path
            && entry.query == req.rawQuery && entry.userAgent == req.userAgent
    ensures entry.clientIp == SdkBase.ClientIP(req, parse, splitHost)
    ensures w.statuses == old(w.statuses) + StatusesOf(events)
    ensures w.body == old(w.body) + BodyOf(events) && w.header == old(w.header)
  {
    requestId := Get(req.header, "X-Request-ID");
    if requestId == "" {
      requestId := freshId.text;
    }
    var nwr := Serve(w, events);
    var ip := SdkBase.GetClientIP(req, parse, splitHost);
    var level := InfoLevel;
    if nwr.statusCode >= 500 {
      level := ErrorLevel;
    }
    entry := LogEntry(level, requestId, req.verb, req.path, req.rawQuery, ip, req.userAgent, nwr.statusCode);
  }

  /**
   * The handler's calls `events` made, in order, through a new wrapper around
   * `w`. Afterwards the wrapper holds Replay(events), and Unwrap still gives
   * `w`, which has received every status and every byte of the calls.
   */
  method Serve(w: Downstream, events: seq<WriterEvent>) returns (rw: ResponseWriter)
    modifies w
    ensures fresh(rw) && rw.Unwrap() == w && rw.State() == Replay(events)
    ensures w.statuses == old(w.statuses) + StatusesOf(events)
    ensures w.body == old(w.body) + BodyOf(events) && w.header == old(w.header)
  {
    rw := new ResponseWriter(w);
    for i := 0 to |events|
      invariant rw.Unwrap() == w && fresh(rw)
      invariant rw.State() == Replay(events[..i])
      invariant w.statuses == old(w.statuses) + StatusesOf(events[..i])
      invariant w.body == old(w.body) + BodyOf(events[..i]) && w.header == old(w.header)
    {
      assert events[..i + 1][..i] == events[..i];
      match events[i]
      case Body(b) =>
        var _, _ := rw.Write(b, None);
      case Status(code) =>
        rw.WriteHeader(code);
    }
    assert events[..|events|] == events;
  }

  /** The logged status is the first call's: the first WriteHeader code, or 200
      when the body came first, or 0 when the handler wrote nothing. */
  lemma LoggedStatusIsFirst(events: seq<WriterEvent>)
    ensures Replay(events).statusCode == (if events == [] then 0 else CodeOf(events[0]))
  {
    FirstEventWins(events);
  }

  // ----------------------------------------------------------------- cors.go

  /** The constants that differ between the two CORS middlewares. */
  datatype CorsPolicy = CorsPolicy(varyMethod: string, allowHeaders: string, maxAge: string)

  const Policy: CorsPolicy :=
    CorsPolicy("Access-Control-Request-Method", "Authorization, Content-Type", "1800")

  const AllowMethods: string := "OPTIONS, POST, GET, PUT, PATCH, DELETE"

  /** Some configured origin, trimmed, is exactly the request's origin. */
  predicate OriginAllowed(allowed: seq<string>, origin: string) {
    exists i :: 0 <= i < |allowed| && Text.TrimSpace(allowed[i]) == origin
  }

  /** A CORS preflight: OPTIONS carrying Access-Control-Request-Method. */
  predicate Preflight(req: Request) {
    req.verb == "OPTIONS" && Get(req.header, "Access-Control-Request-Method") != ""
  }

  function VaryAdded(h: Header, policy: CorsPolicy): Header {
    Added(Added(Added(h, "Vary", "Origin"), "Vary", policy.varyMethod), "Vary", "Access-Control-Request-Headers")
  }

  /** The response header EnableCors leaves: three Vary values always, the
      allowed origin when matched, and the preflight answer's three headers. */
  function CorsHeader(h: Header, policy: CorsPolicy, origin: string, matched: bool, preflight: bool): (r: Header)
    requires preflight ==> matched
    ensures Values(r, "Vary") == Values(h, "Vary") + ["Origin", policy.varyMethod, "Access-Control-Request-Headers"]
    ensures matched ==> Values(r, "Access-Control-Allow-Origin") == [origin]
    ensures !matched ==> Values(r, "Access-Control-Allow-Origin") == Values(h, "Access-Control-Allow-Origin")
    ensures preflight ==> (Get(r, "Access-Control-Allow-Methods") == AllowMethods
                           && Get(r, "Access-Control-Allow-Headers") == policy.allowHeaders
                           && Get(r, "Access-Control-Max-Age") == policy.maxAge)
    ensures forall k :: k !in {"Vary", "Access-Control-Allow-Origin", "Access-Control-Allow-Methods",
                               "Access-Control-Allow-Headers", "Access-Control-Max-Age"}
              ==> Values(r, k) == Values(h, k)
  {
    var v := VaryAdded(h, policy);
    var o := if matched then Replaced(v, "Access-Control-Allow-Origin", origin) else v;
    if preflight then
      Replaced(Replaced(Replaced(o, "Access-Control-Allow-Methods", AllowMethods),
                        "Access-Control-Allow-Headers", policy.allowHeaders),
               "Access-Control-Max-Age", policy.maxAge)
    else o
  }

  /**
   * The CORS decision with its constants as a parameter: a matched preflight
   * is answered with 204 and next is not called; every other request reaches
   * next exactly once and gets next's error. `nextErr` is what next returns.
   */
  method EnableCorsWith(policy: CorsPolicy, allowed: seq<string>, req: Request, w: Downstream, nextErr: Option<Error>)
    returns (err: Option<Error>, nextCalls: nat)
    modifies w
    ensures var origin := Get(req.header, "Origin");
      var matched := origin != "" && OriginAllowed(allowed, origin);
      var answered := matched && Preflight(req);
      w.header == CorsHeader(old(w.header), policy, origin, matched, answered)
      && w.statuses == old(w.statuses) + (if answered then [204] else [])
      && w.body == old(w.body)
      && (answered ==> nextCalls == 0 && err.None?)
      && (!answered ==> nextCalls == 1 && err == nextErr)
  {
    w.Add("Vary", "Origin");
    w.Add("Vary", policy.varyMethod);
    w.Add("Vary", "Access-Control-Request-Headers");
    var origin := Get(req.header, "Origin");
    if origin != "" {
      var i := 0;
      while i < |allowed|
        invariant 0 <= i <= |allowed|
        invariant forall j :: 0 <= j < i ==> Text.TrimSpace(allowed[j]) != origin
        invariant w.header == VaryAdded(old(w.header), policy)
        invariant w.statuses == old(w.statuses) && w.body == old(w.body)
      {
        if Text.TrimSpace(allowed[i]) == origin {
          w.Set("Access-Control-Allow-Origin", origin);
          if req.verb == "OPTIONS" && Get(req.header, "Access-Control-Request-Method") != "" {
            w.Set("Access-Control-Allow-Methods", AllowMethods);
            w.Set("Access-Control-Allow-Headers", policy.allowHeaders);
            w.Set("Access-Control-Max-Age", policy.maxAge);
            w.WriteHeader(204);
            return None, 0;
          }
          break;
        }
        i := i + 1;
      }
    }
    return nextErr, 1;
  }

  /** EnableCors of sdk/middleware: max-age 1800, the request-method Vary value
      spelled as the Fetch standard names the header. */
  method EnableCors(allowed: seq<string>, req: Request, w: Downstream, nextErr: Option<Error>)
    returns (err: Option<Error>, nextCalls: nat)
    modifies w
    ensures var origin := Get(req.header, "Origin");
      var matched := origin != "" && OriginAllowed(allowed, origin);
      var answered := matched && Preflight(req);
      w.header == CorsHeader(old(w.header), Policy, origin, matched, answered)
      && w.statuses == old(w.statuses) + (if answered then [204] else [])
      && w.body == old(w.body)
      && (answered ==> nextCalls == 0 && err.None?)
      && (!answered ==> nextCalls == 1 && err == nextErr)
  {
    err, nextCalls := EnableCorsWith(Policy, allowed, req, w, nextErr);
  }

  // ------------------------------------------------------------- mid_auth.go

  /** The token of an Authorization value that is exactly "Bearer" and one more
      white-space-separated field; the scheme is matched case-sensitively. */
  function Credentials(value: string): (token: Option<string>)
    ensures token.Some? <==> |Text.Fields(value)| == 2 && Text.Fields(value)[0] == "Bearer"
    ensures token.Some? ==> token.value != "" && Text.NoSpace(token.value)
  {
    var fields := Text.Fields(value);
    if |fields| == 2 && fields[0] == "Bearer" then Some(fields[1]) else None
  }

  /** "Bearer " followed by a token gives that token back; any other spelling of
      the scheme is refused. */
  lemma CredentialsOfBearer(token: string, scheme: string)
    requires token != "" && Text.NoSpace(token)
    requires scheme != "" && Text.NoSpace(scheme)
    ensures Credentials(scheme + " " + token) == (if scheme == "Bearer" then Some(token) else None)
  {
    Text.FieldsOfTwoWords(scheme, token);
  }

  /** How the Bearer check ends. */
  datatype BearerCheck<P> = NoHeader | Malformed | BadToken | Verified(payload: P)

  /** The header checks both AuthBearer middlewares make, in their order. */
  function CheckBearer<P>(header: Header, verify: string -> Option<P>): (c: BearerCheck<P>)
    ensures c.NoHeader? <==> Get(header, "Authorization") == ""
    ensures c.Malformed? <==> Get(header, "Authorization") != "" && Credentials(Get(header, "Authorization")).None?
    ensures c.BadToken? || c.Verified? ==> Credentials(Get(header, "Authorization")).Some?
    ensures c.Verified? <==>
              Get(header, "Authorization") != "" && Credentials(Get(header, "Authorization")).Some?
              && verify(Credentials(Get(header, "Authorization")).value).Some?
    ensures c.Verified? ==> c.payload == verify(Credentials(Get(header, "Authorization")).value).value
  {
    var value := Get(header, "Authorization");
    if value == "" then NoHeader
    else match Credentials(value)
      case None => Malformed
      case Some(token) =>
        match verify(token)
        case None => BadToken
        case Some(p) => Verified(p)
  }

  /** What the sdk/middleware AuthBearer does: answer with an error, or call
      next with the payload in the context. */
  datatype AuthOutcome<P> = Respond(code: ErrCode, message: string) | CallNext(payload: P)

  function AuthBearer<P>(header: Header, verify: string -> Option<P>): (r: AuthOutcome<P>)
    ensures r.Respond? ==> r.code == Unauthenticated
    ensures Get(header, "Authorization") == "" <==> r == Respond(Unauthenticated, "no auth header")
    ensures CheckBearer(header, verify).Malformed? <==> r == Respond(Unauthenticated, "malformed auth header")
    ensures CheckBearer(header, verify).BadToken? <==> r == Respond(Unauthenticated, "invalid token")
    ensures r.CallNext? <==> CheckBearer(header, verify).Verified?
    ensures r.CallNext? ==> r.payload == verify(Credentials(Get(header, "Authorization")).value).value
  {
    match CheckBearer(header, verify)
    case NoHeader => Respond(Unauthenticated, "no auth header")
    case Malformed => Respond(Unauthenticated, "malformed auth header")
    case BadToken => Respond(Unauthenticated, "invalid token")
    case Verified(p) => CallNext(p)
  }
}
