/**
 * Configuration loading (config/config.go) and the observability settings
 * (config/observability.go). Viper's global key store is a class over a map
 * from lower-case key to value; values are kept as the text the env file
 * gives. Durations are whole nanoseconds, as time.Duration counts them.
 */
module Config {
  import opened Wrappers
  import opened Errs
  import Text

  // --------------------------------------------------------------- config.go

  /** strings.SplitN(s, sep, 2): the text before the first separator and the
      rest, or the whole string when there is no separator. */
  function SplitN2(s: string, sep: char): (parts: seq<string>)
    ensures |parts| == 2 <==> sep in s
    ensures |parts| == 1 <==> sep !in s
    ensures |parts| == 2 ==> s == parts[0] + [sep] + parts[1] && sep !in parts[0]
    ensures |parts| == 1 ==> parts[0] == s
  {
    match Text.IndexOf(s, sep)
    case None => [s]
    case Some(i) =>
      assert s == s[..i] + [sep] + s[i + 1..];
      [s[..i], s[i + 1..]]
  }

  /** The keys transformFlatToNested rewrites: no dot, at least one underscore. */
  predicate Flat(k: string) {
    '.' !in k && '_' in k
  }

  /** Two positions that both hold the first occurrence of `c` are one. */
  lemma FirstIndexUnique(s: string, c: char, x: nat, y: nat)
    requires x < |s| && y < |s| && s[x] == c && s[y] == c
    requires c !in s[..x] && c !in s[..y]
    ensures x == y
  {
  }

  /** A nested key turned back: its first dot becomes an underscore. */
  function FlatOf(n: string): string {
    match Text.IndexOf(n, '.')
    case None => n
    case Some(i) => n[..i] + "_" + n[i + 1..]
  }

  /** The nested key of a flat key: its first underscore becomes a dot. */
  function NestedKey(k: string): (n: string)
    requires '_' in k
    ensures '.' in n
  {
    var parts := SplitN2(k, '_');
    assert (parts[0] + "." + parts[1])[|parts[0]|] == '.';
    parts[0] + "." + parts[1]
  }

  /** FlatOf turns a nested key back into its flat key, so no two flat keys
      share a nested key. */
  lemma FlatOfNestedKey(k: string)
    requires Flat(k)
    ensures FlatOf(NestedKey(k)) == k
  {
    var parts := SplitN2(k, '_');
    var n := NestedKey(k);
    var x := |parts[0]|;
    assert n == parts[0] + "." + parts[1];
    assert n[x] == '.';
    assert k[..x] == parts[0] && k[x + 1..] == parts[1];
    assert n[..x] == parts[0];
    assert '.' !in parts[0] by {
      forall j | 0 <= j < x ensures parts[0][j] != '.' { assert parts[0][j] == k[j]; }
    }
    var r := Text.IndexOf(n, '.');
    FirstIndexUnique(n, '.', r.value, x);
    assert n[x + 1..] == parts[1];
  }

  /** The split is at the first underscore only. */
  lemma NestedKeyOfParts(section: string, rest: string)
    requires '_' !in section
    ensures NestedKey(section + "_" + rest) == section + "." + rest
  {
    var k := section + "_" + rest;
    assert k[|section|] == '_';
    assert k[..|section|] == section;
    var parts := SplitN2(k, '_');
    var x := |parts[0]|;
    assert k[..x] == parts[0];
    FirstIndexUnique(k, '_', x, |section|);
    assert k[|section| + 1..] == rest;
  }

  /** The store after processing the keys `ks` in order: a flat key's current
      value is copied to its nested key. */
  function Applied(m: map<string, string>, ks: seq<string>): (r: map<string, string>)
    ensures m.Keys <= r.Keys
    decreases |ks|
  {
    if ks == [] then m
    else
      var p := Applied(m, ks[..|ks| - 1]);
      var k := ks[|ks| - 1];
      if Flat(k) && k in p then p[NestedKey(k) := p[k]] else p
  }

  /** Some flat key among `ks` rewrites to `key`. */
  predicate Rewrites(ks: seq<string>, key: string) {
    exists j :: 0 <= j < |ks| && RewritesTo(ks[j], key)
  }

  /** `k` is a flat key whose nested key is `key`. */
  predicate RewritesTo(k: string, key: string) {
    Flat(k) && NestedKey(k) == key
  }

  /** Some flat key of `m` rewrites to `key`. */
  predicate Rewritten(m: map<string, string>, key: string) {
    exists k :: k in m && Flat(k) && NestedKey(k) == key
  }

  /** A key is rewritten by a non-empty list exactly when the earlier keys or the
      last one rewrite to it. */
  lemma {:induction false} RewritesLast(ks: seq<string>, key: string)
    requires ks != []
    ensures Rewrites(ks, key) <==> Rewrites(ks[..|ks| - 1], key) || RewritesTo(ks[|ks| - 1], key)
  {
    SomeAtSplit(ks, ks[..|ks| - 1], k => RewritesTo(k, key));
  }

  /** Some element satisfies `p` exactly when some element of the front or the
      last one does. */
  lemma SomeAtSplit(ks: seq<string>, init: seq<string>, p: string -> bool)
    requires ks != [] && init == ks[..|ks| - 1]
    ensures (exists j :: 0 <= j < |ks| && p(ks[j])) <==>
      (exists j :: 0 <= j < |init| && p(init[j])) || p(ks[|ks| - 1])
  {
    if exists j :: 0 <= j < |ks| && p(ks[j]) {
      var j :| 0 <= j < |ks| && p(ks[j]);
      if j < |init| {
        assert init[j] == ks[j];
      }
    }
    if exists j :: 0 <= j < |init| && p(init[j]) {
      var j :| 0 <= j < |init| && p(init[j]);
      assert ks[j] == init[j];
    }
  }

  /** Processing keys of the store adds exactly their nested keys. */
  lemma {:induction false} AppliedKeys(m: map<string, string>, ks: seq<string>)
    requires forall j :: 0 <= j < |ks| ==> ks[j] in m
    ensures forall key :: key in Applied(m, ks) <==> key in m || Rewrites(ks, key)
    decreases |ks|
  {
    if ks != [] {
      var init := ks[..|ks| - 1];
      var k := ks[|ks| - 1];
      assert forall j :: 0 <= j < |init| ==> init[j] == ks[j];
      AppliedKeys(m, init);
      var p := Applied(m, init);
      assert k in p;
      forall key ensures key in Applied(m, ks) <==> key in m || Rewrites(ks, key) {
        RewritesLast(ks, key);
      }
    }
  }

  /** A key no processed flat key rewrites to keeps its value. */
  lemma {:induction false} AppliedKeeps(m: map<string, string>, ks: seq<string>)
    ensures forall key :: key in m && !Rewrites(ks, key) ==> key in Applied(m, ks) && Applied(m, ks)[key] == m[key]
    decreases |ks|
  {
    if ks != [] {
      var init := ks[..|ks| - 1];
      AppliedKeeps(m, init);
      forall key | key in m && !Rewrites(ks, key) ensures key in Applied(m, ks) && Applied(m, ks)[key] == m[key] {
        RewritesLast(ks, key);
      }
    }
  }

  /** The nested key of every processed flat key holds that key's value. */
  lemma {:induction false} AppliedCopies(m: map<string, string>, ks: seq<string>)
    requires forall j :: 0 <= j < |ks| ==> ks[j] in m
    ensures forall j :: 0 <= j < |ks| && Flat(ks[j]) ==>
              NestedKey(ks[j]) in Applied(m, ks) && Applied(m, ks)[NestedKey(ks[j])] == m[ks[j]]
    decreases |ks|
  {
    if ks != [] {
      var init := ks[..|ks| - 1];
      assert forall j :: 0 <= j < |init| ==> init[j] == ks[j];
      AppliedCopies(m, init);
      forall j | 0 <= j < |ks| && Flat(ks[j])
        ensures NestedKey(ks[j]) in Applied(m, ks) && Applied(m, ks)[NestedKey(ks[j])] == m[ks[j]]
      {
        CopiedAfterLast(m, ks, j);
      }
    }
  }

  /** One step of AppliedCopies: processing the last key keeps the copies the
      earlier keys made and adds its own. */
  lemma CopiedAfterLast(m: map<string, string>, ks: seq<string>, j: int)
    requires ks != [] && 0 <= j < |ks| && Flat(ks[j])
    requires forall i :: 0 <= i < |ks| ==> ks[i] in m
    requires forall i :: 0 <= i < |ks| - 1 && Flat(ks[i]) ==>
               NestedKey(ks[i]) in Applied(m, ks[..|ks| - 1])
               && Applied(m, ks[..|ks| - 1])[NestedKey(ks[i])] == m[ks[i]]
    ensures NestedKey(ks[j]) in Applied(m, ks) && Applied(m, ks)[NestedKey(ks[j])] == m[ks[j]]
  {
    var init := ks[..|ks| - 1];
    var k := ks[|ks| - 1];
    var p := Applied(m, init);
    assert k in p;
    var r := Applied(m, ks);
    assert r == if Flat(k) then p[NestedKey(k) := p[k]] else p;
    var nk := NestedKey(ks[j]);
    if Flat(k) {
      AppliedKeeps(m, init);
      assert !Rewrites(init, k) by {
        forall i | 0 <= i < |init| && Flat(init[i]) ensures NestedKey(init[i]) != k {
          assert '.' in NestedKey(init[i]);
        }
      }
      assert p[k] == m[k];
    }
    if j < |ks| - 1 && Flat(k) && nk == NestedKey(k) {
      FlatOfNestedKey(ks[j]);
      FlatOfNestedKey(k);
    }
  }

  /** Viper's global key-value store. */
  class Store {
    var settings: map<string, string>

    constructor (initial: map<string, string>)
      ensures settings == initial
    {
      settings := initial;
    }

    /** viper.AllKeys: every key of the store. */
    method AllKeys() returns (keys: seq<string>)
      ensures forall k :: k in keys <==> k in settings
    {
      keys := [];
      var rest := settings.Keys;
      while rest != {}
        invariant forall k :: k in settings <==> k in keys || k in rest
        invariant rest <= settings.Keys
        decreases rest
      {
        var k :| k in rest;
        keys := keys + [k];
        rest := rest - {k};
      }
    }

    /**
     * transformFlatToNested: for every flat key (no dot, an underscore) the
     * nested key, its first underscore turned into a dot, gets the flat key's
     * value; the flat key stays, and every key no flat key rewrites to keeps its
     * value.
     */
    method TransformFlatToNested()
      modifies this
      ensures forall key :: key in settings <==> key in old(settings) || Rewritten(old(settings), key)
      ensures forall k :: k in old(settings) && Flat(k) ==> NestedKey(k) in settings && settings[NestedKey(k)] == old(settings)[k]
      ensures forall key :: key in old(settings) && !Rewritten(old(settings), key) ==> settings[key] == old(settings)[key]
    {
      var keys := AllKeys();
      ghost var before := settings;
      for i := 0 to |keys|
        invariant settings == Applied(before, keys[..i])
      {
        var k := keys[i];
        assert keys[..i + 1][..i] == keys[..i];
        if '.' in k || '_' !in k {
          continue;
        }
        var parts := SplitN2(k, '_');
        if |parts| != 2 {
          continue;
        }
        var nestedKey := parts[0] + "." + parts[1];
        var val := settings[k];
        settings := settings[nestedKey := val];
      }
      assert keys[..|keys|] == keys;
      AppliedKeys(before, keys);
      AppliedKeeps(before, keys);
      AppliedCopies(before, keys);
      forall key ensures Rewrites(keys, key) <==> Rewritten(before, key) {
        if Rewritten(before, key) {
          var k :| k in before && Flat(k) && NestedKey(k) == key;
          var j :| 0 <= j < |keys| && keys[j] == k;
        }
      }
      forall k | k in before && Flat(k) ensures settings[NestedKey(k)] == before[k] {
        var j :| 0 <= j < |keys| && keys[j] == k;
      }
    }
  }

  // -------------------------------------------------------- observability.go

  datatype HealthChecksConfig = HealthChecksConfig(checks: seq<string>, interval: int, timeout: int, enabled: bool)

  datatype LoggingConfig = LoggingConfig(level: string, slowQueryThreshold: int)

  datatype NewRelicConfig = NewRelicConfig(
    licenseKey: string, appLogForwardingEnabled: bool, distributedTracingEnabled: bool, debugLogging: bool)

  datatype ObservabilityConfig = ObservabilityConfig(
    healthChecks: HealthChecksConfig, logging: LoggingConfig, newRelic: NewRelicConfig,
    serviceName: string, environment: string)

  const Millisecond: int := 1000000
  const Second: int := 1000000000

  /** DefaultObservabilityConfig: development, info level, a 100 ms slow-query
      threshold, New Relic forwarding and tracing on, health checks every 30 s. */
  function DefaultObservabilityConfig(): (c: ObservabilityConfig)
    ensures c.serviceName == "" && c.environment == "development"
    ensures c.logging == LoggingConfig("info", 100 * Millisecond)
    ensures c.newRelic == NewRelicConfig("", true, true, false)
    ensures c.healthChecks == HealthChecksConfig(["database", "redis"], 30 * Second, 5 * Second, true)
  {
    ObservabilityConfig(
      HealthChecksConfig(["database", "redis"], 30 * Second, 5 * Second, true),
      LoggingConfig("info", 100 * Millisecond),
      NewRelicConfig("", true, true, false),
      "", "development")
  }

  const ValidLevels: set<string> := {"debug", "info", "warn", "error"}

  /** Validate: the service name first, then the level, then the threshold. */
  function Validate(c: ObservabilityConfig): (err: Option<Error>)
    ensures err.None? <==> c.serviceName != "" && c.logging.level in ValidLevels && c.logging.slowQueryThreshold >= 0
    ensures c.serviceName == "" ==> err == Some(Plain("service_name is required"))
    ensures c.serviceName != "" && c.logging.level !in ValidLevels ==>
              err == Some(Plain("invalid logging level: " + c.logging.level + " (must be one of: debug, info, warn, error)"))
    ensures c.serviceName != "" && c.logging.level in ValidLevels && c.logging.slowQueryThreshold < 0 ==>
              err == Some(Plain("logging slow_query_threshold must be non-negative"))
  {
    if c.serviceName == "" then Some(Plain("service_name is required"))
    else if c.logging.level !in ValidLevels then
      Some(Plain("invalid logging level: " + c.logging.level + " (must be one of: debug, info, warn, error)"))
    else if c.logging.slowQueryThreshold < 0 then Some(Plain("logging slow_query_threshold must be non-negative"))
    else None
  }

  /** GetLogLevel: the configured level, as the logger reads it. */
  function GetLogLevel(c: ObservabilityConfig): (level: string)
    ensures level == c.logging.level
  {
    c.logging.level
  }

  /** IsProduction: the environment is exactly "production". */
  function IsProduction(c: ObservabilityConfig): (b: bool)
    ensures b <==> c.environment == "production"
  {
    c.environment == "production"
  }

  /** A configuration that validates hands the logger one of the four level
      names, and the defaults hand it "info". */
  lemma ValidatedLevel(c: ObservabilityConfig)
    ensures Validate(c).None? ==> GetLogLevel(c) in ValidLevels
    ensures GetLogLevel(DefaultObservabilityConfig()) == "info"
  {
  }

  /** Validation does not look at the environment, so a configuration is valid
      in production exactly when it is valid elsewhere; only the exact lower-case
      name "production" counts as production. */
  lemma EnvironmentNotValidated(c: ObservabilityConfig, env: string)
    ensures Validate(c.(environment := env)) == Validate(c)
    ensures IsProduction(c.(environment := env)) <==> env == "production"
    ensures !IsProduction(c.(environment := "Production"))
  {
  }

  /** The defaults do not validate until a service name is given, and they
      describe a development deployment. */
  lemma DefaultsNeedServiceName(name: string)
    ensures Validate(DefaultObservabilityConfig()) == Some(Plain("service_name is required"))
    ensures !IsProduction(DefaultObservabilityConfig())
    ensures name != "" ==> Validate(DefaultObservabilityConfig().(serviceName := name)).None?
  {
  }
}
