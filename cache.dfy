/**
 * The key/value cache the users commands write session entries to (the Cache
 * interface of the redis package): a map from key to value and the whole
 * seconds it is to live. Set sends SETEX, whose client rounds a positive
 * duration below one second up to one second and whose server refuses any
 * other duration below one second. Expiry itself is not modelled. A failure
 * of the client is passed in as `fault`; the adapter wraps it with the name of
 * the command. The gob encoding of the value is not modelled: a string always
 * encodes.
 */
module KeyValueCache {
  import opened Wrappers
  import opened Errs

  /** A cached value and the seconds it was set to live. */
  datatype Entry = Entry(value: string, ttl: int)

  /** One second, as a time.Duration in nanoseconds. */
  const Second: int := 1000000000

  /** The seconds SETEX is sent for a time.Duration: whole seconds, truncated
      toward zero, except that a positive duration below one second becomes one
      second. */
  function ExpireSeconds(ttl: int): (secs: int)
    ensures secs > 0 <==> ttl > 0
    ensures ttl >= Second ==> secs * Second <= ttl < (secs + 1) * Second
  {
    if 0 < ttl < Second then 1
    else if ttl >= 0 then ttl / Second
    else -((-ttl) / Second)
  }

  /** The server's reply to a SETEX whose time is not positive. */
  const ErrInvalidExpireTime: Error := Plain("ERR invalid expire time in 'setex' command")

  class Cache {
    var entries: map<string, Entry>

    constructor ()
      ensures entries == map[]
    {
      entries := map[];
    }

    /** Set: stores the value under the key for ExpireSeconds(ttl) seconds,
        replacing any earlier one; a duration that is not positive is refused by
        the server and stores nothing. */
    method Set(key: string, value: string, ttl: int, fault: Option<Error>) returns (err: Option<Error>)
      modifies this
      ensures err.None? <==> fault.None? && ttl > 0
      ensures err.None? ==> entries == old(entries)[key := Entry(value, ExpireSeconds(ttl))]
      ensures err.Some? ==> entries == old(entries)
      ensures fault.Some? ==> err == Some(Wrap("redis setex: ", fault.value))
      ensures fault.None? && ttl <= 0 ==> err == Some(Wrap("redis setex: ", ErrInvalidExpireTime))
    {
      if fault.Some? {
        return Some(Wrap("redis setex: ", fault.value));
      }
      var secs := ExpireSeconds(ttl);
      if secs <= 0 {
        return Some(Wrap("redis setex: ", ErrInvalidExpireTime));
      }
      entries := entries[key := Entry(value, secs)];
      err := None;
    }

    /** Delete: removes the key; a missing key is not an error. */
    method Delete(key: string, fault: Option<Error>) returns (err: Option<Error>)
      modifies this
      ensures fault.None? ==> err.None? && entries == old(entries) - {key}
      ensures fault.Some? ==> err == Some(Wrap("redis del: ", fault.value))
      ensures fault.Some? ==> entries == old(entries)
    {
      if fault.Some? {
        return Some(Wrap("redis del: ", fault.value));
      }
      entries := entries - {key};
      err := None;
    }
  }
}
