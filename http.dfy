/**
 * The slice of net/http the sdk middlewares touch: header maps, the request
 * fields they read, and the response writer they wrap. Header names are looked
 * up exactly as written: "X-Request-Id" and "X-Request-ID" are different keys.
 */
module HttpModel {
  import opened Wrappers
  import opened Errs

  /** http.Header: every name maps to its values, in the order they were added. */
  type Header = map<string, seq<string>>

  function Values(h: Header, key: string): seq<string> {
    if key in h then h[key] else []
  }

  /** Header.Get: the first value under `key`, or "" when there is none. */
  function Get(h: Header, key: string): (v: string)
    ensures Values(h, key) != [] ==> v == Values(h, key)[0]
    ensures Values(h, key) == [] ==> v == ""
  {
    if key in h && h[key] != [] then h[key][0] else ""
  }

  /** Header.Add appends a value; Header.Set replaces all values by one. */
  function Added(h: Header, key: string, value: string): (r: Header)
    ensures Values(r, key) == Values(h, key) + [value]
    ensures forall k :: k != key ==> Values(r, k) == Values(h, k)
  {
    h[key := Values(h, key) + [value]]
  }

  function Replaced(h: Header, key: string, value: string): (r: Header)
    ensures Get(r, key) == value && Values(r, key) == [value]
    ensures forall k :: k != key ==> Values(r, k) == Values(h, k)
  {
    h[key := [value]]
  }

  /** The parts of *http.Request the middlewares read. */
  datatype Request = Request(
    verb: string, path: string, rawQuery: string, header: Header,
    remoteAddr: string, userAgent: string)

  /**
   * The http.ResponseWriter a middleware wraps: its header map, every status
   * code passed to its WriteHeader, and the body bytes written so far. A
   * failing Write is the parameter `fault`.
   */
  class Downstream {
    var header: Header
    var statuses: seq<int>
    var body: seq<Byte>

    constructor ()
      ensures header == map[] && statuses == [] && body == []
    {
      header := map[];
      statuses := [];
      body := [];
    }

    method Add(key: string, value: string)
      modifies this
      ensures header == Added(old(header), key, value)
      ensures statuses == old(statuses) && body == old(body)
    {
      header := Added(header, key, value);
    }

    method Set(key: string, value: string)
      modifies this
      ensures header == Replaced(old(header), key, value)
      ensures statuses == old(statuses) && body == old(body)
    {
      header := Replaced(header, key, value);
    }

    method WriteHeader(code: int)
      modifies this
      ensures statuses == old(statuses) + [code]
      ensures header == old(header) && body == old(body)
    {
      statuses := statuses + [code];
    }

    method Write(b: seq<Byte>, fault: Option<Error>) returns (n: int, err: Option<Error>)
      modifies this
      ensures fault.None? ==> n == |b| && err.None? && body == old(body) + b
      ensures fault.Some? ==> n == 0 && err == fault && body == old(body)
      ensures header == old(header) && statuses == old(statuses)
    {
      if fault.None? {
        body := body + b;
        return |b|, None;
      }
      return 0, fault;
    }
  }
}
