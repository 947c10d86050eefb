/**
 * The tenant repository adapter (tenantdb/tenant.go): the tenants table as a
 * map from id to profile, the schemas created for tenants, and the error
 * mapping of an insert. A driver failure of a statement is passed in as a
 * fault; unique violations follow from the table's contents.
 */
module TenantDb {
  import opened Wrappers
  import opened Errs
  import opened Tenants
  import Pgx

  /** CreateTenant's error mapping: a violated domain or subdomain constraint is
      the matching sentinel; SQLSTATE 22P02 (an invalid enum text) matches both
      ErrDatabase and ErrInvalidEnumValue; anything else is ErrDatabase around
      the driver error. The constraint name is looked at first. */
  function CreateTenantError(err: Error): (r: Error)
    ensures Pgx.AsPg(err).Some? && Pgx.AsPg(err).value.constraint == "domain_uq" ==> r == ErrDomain
    ensures Pgx.AsPg(err).Some? && Pgx.AsPg(err).value.constraint == "subdomain_uq" ==> r == ErrSubDomain
    ensures Pgx.AsPg(err).Some? && Pgx.AsPg(err).value.constraint !in {"domain_uq", "subdomain_uq"}
            && Pgx.AsPg(err).value.code == "22P02" ==>
              Is(r, ErrDatabase) && Is(r, ErrInvalidEnumValue)
              && Message(r) == Message(ErrDatabase) + ":" + Message(ErrInvalidEnumValue)
    ensures (Pgx.AsPg(err).None? || (Pgx.AsPg(err).value.constraint !in {"domain_uq", "subdomain_uq"}
                                     && Pgx.AsPg(err).value.code != "22P02")) ==>
              Is(r, ErrDatabase) && Message(r) == Message(ErrDatabase) + ": " + Message(err)
  {
    match Pgx.AsPg(err)
    case Some(pg) =>
      if pg.constraint == "domain_uq" then ErrDomain
      else if pg.constraint == "subdomain_uq" then ErrSubDomain
      else if pg.code == "22P02" then Joined("", ErrDatabase, ":", ErrInvalidEnumValue)
      else Joined("", ErrDatabase, ": ", err)
    case None => Joined("", ErrDatabase, ": ", err)
  }

  /** Neither uniqueness sentinel is tagged ErrDatabase, and only the 22P02
      mapping matches ErrInvalidEnumValue among driver errors that do not carry it
      already. */
  lemma CreateTenantErrorKinds()
    ensures !Is(CreateTenantError(Pgx.UniqueViolation("domain_uq")), ErrDatabase)
    ensures !Is(CreateTenantError(Pgx.UniqueViolation("subdomain_uq")), ErrDatabase)
    ensures Is(CreateTenantError(Pgx.UniqueViolation("tenants_pkey")), ErrDatabase)
    ensures !Is(CreateTenantError(Pgx.UniqueViolation("tenants_pkey")), ErrInvalidEnumValue)
  {
  }

  /** The unique constraint an insert of `t` violates, if any. Null domains do
      not collide. */
  function TenantViolation(tenants: map<Uuid, TenantProfile>, t: TenantProfile): (r: Option<string>)
    ensures r.None? <==>
      t.id !in tenants
      && (t.domain.Some? ==> forall id :: id in tenants ==> tenants[id].domain != t.domain)
      && (forall id :: id in tenants ==> tenants[id].subdomain != t.subdomain)
  {
    if t.id in tenants then Some("tenants_pkey")
    else if t.domain.Some? && exists id :: id in tenants && tenants[id].domain == t.domain then Some("domain_uq")
    else if exists id :: id in tenants && tenants[id].subdomain == t.subdomain then Some("subdomain_uq")
    else None
  }

  // ---- the tenant schema ----

  /** The schema a tenant's objects live in: "tenant_" and the user id. */
  function SchemaName(userId: Uuid): (r: string)
    ensures |r| == |"tenant_"| + |userId.text| && r[..7] == "tenant_"
  {
    "tenant_" + userId.text
  }

  /** pq.QuoteIdentifier: the name cut at its first NUL, every `"` doubled, the
      whole between double quotes. */
  function QuoteIdentifier(name: string): (r: string)
    ensures |r| >= 2 && r[0] == '"' && r[|r| - 1] == '"'
  {
    "\"" + EscapeQuotes(BeforeNul(name)) + "\""
  }

  function BeforeNul(s: string): (r: string)
    ensures |r| <= |s| && '\0' !in r
    ensures '\0' !in s ==> r == s
  {
    if s == [] || s[0] == '\0' then [] else [s[0]] + BeforeNul(s[1..])
  }

  function EscapeQuotes(s: string): string {
    if s == [] then [] else (if s[0] == '"' then "\"\"" else [s[0]]) + EscapeQuotes(s[1..])
  }

  /** The reading PostgreSQL gives a quoted identifier's inside: `""` is one `"`. */
  function UnescapeQuotes(t: string): string {
    if t == [] then []
    else if |t| >= 2 && t[0] == '"' && t[1] == '"' then "\"" + UnescapeQuotes(t[2..])
    else [t[0]] + UnescapeQuotes(t[1..])
  }

  lemma {:induction false} UnescapeEscape(s: string)
    ensures UnescapeQuotes(EscapeQuotes(s)) == s
  {
    if s != [] {
      UnescapeEscape(s[1..]);
      var head := if s[0] == '"' then "\"\"" else [s[0]];
      var e := head + EscapeQuotes(s[1..]);
      assert EscapeQuotes(s) == e;
      if s[0] == '"' {
        assert e[2..] == EscapeQuotes(s[1..]);
      } else {
        assert e[1..] == EscapeQuotes(s[1..]);
      }
      assert s == [s[0]] + s[1..];
    }
  }

  /** The quoted identifier names exactly the schema: PostgreSQL reads the name
      back from it (no schema name holds a NUL). */
  lemma QuotedSchemaNamesSchema(userId: Uuid)
    requires '\0' !in userId.text
    ensures var q := QuoteIdentifier(SchemaName(userId));
      UnescapeQuotes(q[1..|q| - 1]) == SchemaName(userId)
  {
    var name := SchemaName(userId);
    assert '\0' !in name by {
      assert forall i :: 0 <= i < |name| ==> name[i] == if i < 7 then "tenant_"[i] else userId.text[i - 7];
    }
    var q := QuoteIdentifier(name);
    assert q[1..|q| - 1] == EscapeQuotes(name);
    UnescapeEscape(name);
  }

  /** The number of `%s` verbs in the tenant schema template (schema.go), and so
      the number of arguments CreateTenantSchema passes. */
  const PlaceholderCount: nat := 53

  /** fmt.Sprintf of a template given as the text between its `%s` verbs, with
      one argument per verb. */
  function Format(pieces: seq<string>, args: seq<string>): string
    requires |pieces| == |args| + 1
  {
    if args == [] then pieces[0] else pieces[0] + args[0] + Format(pieces[1..], args[1..])
  }

  /** The template's pieces with `sep` between each two. */
  function JoinWith(pieces: seq<string>, sep: string): string
    requires |pieces| >= 1
  {
    if |pieces| == 1 then pieces[0] else JoinWith(pieces[..|pieces| - 1], sep) + sep + pieces[|pieces| - 1]
  }

  /** With every argument the same text, formatting puts that text at every
      placeholder. */
  lemma {:induction false} FormatUniform(pieces: seq<string>, q: string)
    requires |pieces| >= 1
    ensures Format(pieces, seq(|pieces| - 1, _ => q)) == JoinWith(pieces, q)
    decreases |pieces|
  {
    if |pieces| > 1 {
      var args := seq(|pieces| - 1, _ => q);
      FormatUniform(pieces[1..], q);
      assert args[1..] == seq(|pieces| - 2, _ => q);
      JoinWithFront(pieces, q);
    }
  }

  /** JoinWith seen from the front. */
  lemma {:induction false} JoinWithFront(pieces: seq<string>, sep: string)
    requires |pieces| >= 2
    ensures JoinWith(pieces, sep) == pieces[0] + sep + JoinWith(pieces[1..], sep)
    decreases |pieces|
  {
    if |pieces| > 2 {
      var front := pieces[..|pieces| - 1];
      JoinWithFront(front, sep);
      assert front[1..] == pieces[1..][..|pieces| - 2];
    } else {
      assert pieces[1..] == [pieces[1]];
    }
  }

  /** The argument list CreateTenantSchema builds: the quoted schema name in
      every one of the 53 slots. */
  method FillArgs(quotedSchema: string) returns (args: array<string>)
    ensures fresh(args) && args.Length == PlaceholderCount
    ensures args[..] == seq(PlaceholderCount, _ => quotedSchema)
  {
    args := new string[PlaceholderCount];
    var i := 0;
    while i < args.Length
      invariant 0 <= i <= args.Length
      invariant forall k :: 0 <= k < i ==> args[k] == quotedSchema
    {
      args[i] := quotedSchema;
      i := i + 1;
    }
  }

  class TenantStore {
    /** The tenants table. */
    var tenants: map<Uuid, TenantProfile>
    /** The schemas that exist, by name. */
    var schemas: set<string>
    /** The objects script run in each initialized schema. */
    var initialized: map<string, string>

    constructor ()
      ensures tenants == map[] && schemas == {} && initialized == map[]
    {
      tenants, schemas, initialized := map[], {}, map[];
    }

    /** Puts back the state a rolled-back transaction started from. */
    method Restore(t: map<Uuid, TenantProfile>, s: set<string>, i: map<string, string>)
      modifies this
      ensures tenants == t && schemas == s && initialized == i
    {
      tenants, schemas, initialized := t, s, i;
    }

    /** tenantStore.CreateTenant: inserts the profile; a violated constraint or a
        driver failure is mapped by CreateTenantError and nothing is written. */
    method CreateTenant(t: TenantProfile, fault: Option<Error>) returns (err: Option<Error>)
      modifies this
      ensures schemas == old(schemas) && initialized == old(initialized)
      ensures err.None? <==> fault.None? && TenantViolation(old(tenants), t).None?
      ensures err.None? ==> tenants == old(tenants)[t.id := t]
      ensures err.Some? ==> tenants == old(tenants)
      ensures fault.Some? ==> err == Some(CreateTenantError(fault.value))
      ensures fault.None? && TenantViolation(old(tenants), t).Some? ==>
                err == Some(CreateTenantError(Pgx.UniqueViolation(TenantViolation(old(tenants), t).value)))
    {
      if fault.Some? {
        return Some(CreateTenantError(fault.value));
      }
      var violation := TenantViolation(tenants, t);
      if violation.Some? {
        return Some(CreateTenantError(Pgx.UniqueViolation(violation.value)));
      }
      tenants := tenants[t.id := t];
      err := None;
    }

    /** tenantStore.CreateTenantSchema: creates the schema "tenant_<user id>" if
        missing, then runs the template with the quoted schema name at all 53
        placeholders. `template` is schema.go's text cut at its `%s` verbs. */
    method CreateTenantSchema(userId: Uuid, template: seq<string>, createFault: Option<Error>,
                              initFault: Option<Error>)
      returns (err: Option<Error>)
      requires |template| == PlaceholderCount + 1
      modifies this
      ensures tenants == old(tenants)
      ensures err.None? <==> createFault.None? && initFault.None?
      ensures createFault.Some? ==>
                err == Some(Wrap("create schema: ", createFault.value))
                && schemas == old(schemas) && initialized == old(initialized)
      ensures createFault.None? ==> schemas == old(schemas) + {SchemaName(userId)}
      ensures createFault.None? && initFault.Some? ==>
                err == Some(Wrap("initialize schema objects for tenant " + SchemaName(userId) + ": ", initFault.value))
                && initialized == old(initialized)
      ensures err.None? ==>
                initialized == old(initialized)[SchemaName(userId) :=
                                 JoinWith(template, QuoteIdentifier(SchemaName(userId)))]
    {
      var schemaName := SchemaName(userId);
      var quotedSchema := QuoteIdentifier(schemaName);
      if createFault.Some? {
        return Some(Wrap("create schema: ", createFault.value));
      }
      schemas := schemas + {schemaName};
      var args := FillArgs(quotedSchema);
      var ddl := Format(template, args[..]);
      FormatUniform(template, quotedSchema);
      if initFault.Some? {
        return Some(Wrap("initialize schema objects for tenant " + schemaName + ": ", initFault.value));
      }
      initialized := initialized[schemaName := ddl];
      err := None;
    }

    /** tenantStore.CheckSubdomainAvailability: whether some tenant already has
        the subdomain (despite its name, true means taken). It reads through the
        pool, never through an ambient transaction. */
    method CheckSubdomainAvailability(subdomain: string, fault: Option<Error>)
      returns (taken: bool, err: Option<Error>)
      ensures fault.Some? ==> !taken && err == Some(Joined("", ErrDatabase, ": ", fault.value))
      ensures fault.None? ==> err.None? && (taken <==> exists id :: id in tenants && tenants[id].subdomain == subdomain)
    {
      if fault.Some? {
        return false, Some(Joined("", ErrDatabase, ": ", fault.value));
      }
      taken := exists id :: id in tenants && tenants[id].subdomain == subdomain;
      err := None;
    }
  }
}
