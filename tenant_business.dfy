/**
 * The tenant commands (tenant/cmd_tenant.go): building a TenantBusiness from
 * options, and CreateTenant, which validates the request, checks the subdomain,
 * and writes the tenant row and the tenant schema in one transaction.
 */
module TenantCommands {
  import opened Wrappers
  import opened Errs
  import opened Tenants
  import opened TenantDb
  import opened Transaction
  import Text
  import SharedAddress
  import Pgx

  /** A configuration option: the two the package offers, and one of a caller's
      own, which fails with `err` when that is set and otherwise changes nothing. */
  datatype TenantOption =
    | WithTenantRepository(store: TenantStore?)
    | WithTransactor(present: bool)
    | CustomOption(err: Option<Error>)

  /** The options applied from the first to the last, stopping at the first that
      fails: its error (if any), then the repository and the transactor set. */
  function Configure(cfgs: seq<TenantOption>, store: TenantStore?, trx: bool)
    : (r: (Option<Error>, TenantStore?, bool))
    decreases |cfgs|
  {
    if cfgs == [] then (None, store, trx)
    else match cfgs[0]
      case WithTenantRepository(s) => Configure(cfgs[1..], s, trx)
      case WithTransactor(p) => Configure(cfgs[1..], store, p)
      case CustomOption(e) => if e.Some? then (e, store, trx) else Configure(cfgs[1..], store, trx)
  }

  /** The first failing option decides the error, whatever follows it. */
  lemma {:induction false} FirstFailureWins(cfgs: seq<TenantOption>, i: nat, store: TenantStore?, trx: bool)
    requires i < |cfgs| && cfgs[i].CustomOption? && cfgs[i].err.Some?
    requires forall j :: 0 <= j < i ==> !(cfgs[j].CustomOption? && cfgs[j].err.Some?)
    ensures Configure(cfgs, store, trx).0 == cfgs[i].err
    decreases i
  {
    if i > 0 {
      var s' := if cfgs[0].WithTenantRepository? then cfgs[0].store else store;
      var t' := if cfgs[0].WithTransactor? then cfgs[0].present else trx;
      FirstFailureWins(cfgs[1..], i - 1, s', t');
    }
  }

  /** Without a failing option, the repository is the one the last repository
      option set (or the starting one), and an option list can be split anywhere. */
  lemma {:induction false} ConfigureSplits(a: seq<TenantOption>, b: seq<TenantOption>, store: TenantStore?, trx: bool)
    requires Configure(a, store, trx).0.None?
    ensures Configure(a + b, store, trx) == Configure(b, Configure(a, store, trx).1, Configure(a, store, trx).2)
    decreases |a|
  {
    if a == [] {
      assert a + b == b;
    } else {
      assert (a + b)[1..] == a[1..] + b;
      var s' := if a[0].WithTenantRepository? then a[0].store else store;
      var t' := if a[0].WithTransactor? then a[0].present else trx;
      ConfigureSplits(a[1..], b, s', t');
    }
  }

  class TenantBusiness {
    var storer: TenantStore?
    /** Whether a transaction manager is set. */
    var hasTransactor: bool

    constructor ()
      ensures storer == null && !hasTransactor
    {
      storer, hasTransactor := null, false;
    }

    /** Runs one option against this business. */
    method Apply(opt: TenantOption) returns (err: Option<Error>)
      modifies this
      ensures err == (if opt.CustomOption? then opt.err else None)
      ensures storer == (if opt.WithTenantRepository? then opt.store else old(storer))
      ensures hasTransactor == (if opt.WithTransactor? then opt.present else old(hasTransactor))
    {
      match opt
      case WithTenantRepository(s) => storer := s; err := None;
      case WithTransactor(p) => hasTransactor := p; err := None;
      case CustomOption(e) => err := e;
    }

    /**
     * TenantBusiness.CreateTenant. An invalid request is InvalidArgument and a
     * taken subdomain AlreadyExists, both before any write. The row and the
     * schema are written in one transaction; a failure there matching ErrDomain
     * or ErrSubDomain is AlreadyExists, one matching ErrInvalidEnumValue is
     * InvalidArgument, and anything else is wrapped with "tenantcreate-trx: ".
     */
    method CreateTenant(input: CreateTenantInput, freshId: Uuid, now: Time,
                        newAddress: AddressInput -> Result<SharedAddress.Address>, template: seq<string>,
                        checkFault: Option<Error>, tx: TxFaults, insertFault: Option<Error>,
                        createFault: Option<Error>, initFault: Option<Error>)
      returns (profile: Option<TenantProfile>, err: Option<Error>)
      requires storer != null && hasTransactor
      requires |template| == PlaceholderCount + 1
      requires ProfileFieldErrors(input, newAddress) == [] ==> input.logoUrl.Some?
      modifies storer
      ensures profile.Some? <==> err.None?
      ensures err.Some? ==>
                storer.tenants == old(storer.tenants) && storer.schemas == old(storer.schemas)
                && storer.initialized == old(storer.initialized)
      ensures ProfileFieldErrors(input, newAddress) != [] ==>
                err == Some(NewDomainError(InvalidArgument, Fields(ProfileFieldErrors(input, newAddress))))
      ensures ProfileFieldErrors(input, newAddress) == [] && checkFault.Some? ==>
                err == Some(Wrap("checksubdomainavailability: ", Joined("", ErrDatabase, ": ", checkFault.value)))
      ensures ProfileFieldErrors(input, newAddress) == [] && checkFault.None?
              && SubdomainTaken(old(storer.tenants), RequestedSubdomain(input)) ==>
                err == Some(NewDomainError(AlreadyExists, ErrSubDomain))
      ensures ProfileFieldErrors(input, newAddress) == [] && checkFault.None?
              && !SubdomainTaken(old(storer.tenants), RequestedSubdomain(input)) && tx.begin.Some? ==>
                err == Some(Wrap("tenantcreate-trx: ", ErrCreateTransaction))
      ensures ProfileFieldErrors(input, newAddress) == [] && checkFault.None? && tx.begin.None?
              && !SubdomainTaken(old(storer.tenants), RequestedSubdomain(input))
              && insertFault.None? && freshId !in old(storer.tenants) && input.domain.Some?
              && (exists id :: id in old(storer.tenants) && old(storer.tenants)[id].domain == input.domain) ==>
                err.Some? && err.value.Domain? && err.value.code == AlreadyExists && Is(err.value, ErrDomain)
      ensures ProfileFieldErrors(input, newAddress) == [] && checkFault.None? && tx.begin.None?
              && !SubdomainTaken(old(storer.tenants), RequestedSubdomain(input))
              && insertFault.Some? && EnumFault(insertFault.value) ==>
                err.Some? && err.value.Domain? && err.value.code == InvalidArgument && Is(err.value, ErrInvalidEnumValue)
      ensures err.None? ==>
                ProfileFacts(profile.value, input, freshId, now)
                && storer.tenants == old(storer.tenants)[freshId := profile.value]
                && storer.schemas == old(storer.schemas) + {SchemaName(input.userId)}
                && storer.initialized == old(storer.initialized)[SchemaName(input.userId) :=
                     JoinWith(template, QuoteIdentifier(SchemaName(input.userId)))]
    {
      var p, validationErr := NewTenantProfile(input, freshId, now, newAddress);
      if validationErr.Some? {
        return None, Some(NewDomainError(InvalidArgument, validationErr.value));
      }
      err := CreateValidTenant(p.value, template, checkFault, tx, insertFault, createFault, initFault);
      profile := if err.None? then p else None;
    }

    /** CreateTenant once the profile is valid: the subdomain check, then the
        transaction, then the mapping of its error. */
    method CreateValidTenant(p: TenantProfile, template: seq<string>, checkFault: Option<Error>, tx: TxFaults,
                             insertFault: Option<Error>, createFault: Option<Error>, initFault: Option<Error>)
      returns (err: Option<Error>)
      requires storer != null
      requires |template| == PlaceholderCount + 1
      modifies storer
      ensures err.Some? ==>
                storer.tenants == old(storer.tenants) && storer.schemas == old(storer.schemas)
                && storer.initialized == old(storer.initialized)
      ensures checkFault.Some? ==>
                err == Some(Wrap("checksubdomainavailability: ", Joined("", ErrDatabase, ": ", checkFault.value)))
      ensures checkFault.None? && SubdomainTaken(old(storer.tenants), p.subdomain) ==>
                err == Some(NewDomainError(AlreadyExists, ErrSubDomain))
      ensures checkFault.None? && !SubdomainTaken(old(storer.tenants), p.subdomain) && tx.begin.Some? ==>
                err == Some(Wrap("tenantcreate-trx: ", ErrCreateTransaction))
      ensures checkFault.None? && !SubdomainTaken(old(storer.tenants), p.subdomain) && tx.begin.None?
              && insertFault.None? && TenantViolation(old(storer.tenants), p) == Some("domain_uq") ==>
                err.Some? && err.value.Domain? && err.value.code == AlreadyExists && Is(err.value, ErrDomain)
      ensures checkFault.None? && !SubdomainTaken(old(storer.tenants), p.subdomain) && tx.begin.None?
              && insertFault.Some? && EnumFault(insertFault.value) ==>
                err.Some? && err.value.Domain? && err.value.code == InvalidArgument && Is(err.value, ErrInvalidEnumValue)
      ensures err.None? ==>
                storer.tenants == old(storer.tenants)[p.id := p]
                && storer.schemas == old(storer.schemas) + {SchemaName(p.userId)}
                && storer.initialized == old(storer.initialized)[SchemaName(p.userId) :=
                     JoinWith(template, QuoteIdentifier(SchemaName(p.userId)))]
    {
      var store := storer;
      var taken, checkErr := store.CheckSubdomainAvailability(p.subdomain, checkFault);
      if checkErr.Some? {
        return Some(Wrap("checksubdomainavailability: ", checkErr.value));
      }
      if taken {
        return Some(NewDomainError(AlreadyExists, ErrSubDomain));
      }
      var trxErr := CreateTenantInTx(store, p, template, tx, insertFault, createFault, initFault);
      if insertFault.Some? && EnumFault(insertFault.value) {
        EnumFaultMapped(insertFault.value);
      }
      if trxErr.Some? {
        if Is(trxErr.value, ErrDomain) || Is(trxErr.value, ErrSubDomain) {
          return Some(NewDomainError(AlreadyExists, trxErr.value));
        }
        if Is(trxErr.value, ErrInvalidEnumValue) {
          return Some(NewDomainError(InvalidArgument, trxErr.value));
        }
        return Some(Wrap("tenantcreate-trx: ", trxErr.value));
      }
      err := None;
    }
  }

  /** A driver failure the tenant insert reports as an invalid enum value
      (SQLSTATE 22P02 not naming either unique constraint). */
  predicate EnumFault(e: Error) {
    Pgx.AsPg(e).Some? && Pgx.AsPg(e).value.code == "22P02"
    && Pgx.AsPg(e).value.constraint !in {"domain_uq", "subdomain_uq"}
  }

  /** An enum fault is reported as an invalid enum value and as neither unique
      constraint. */
  lemma EnumFaultMapped(e: Error)
    requires EnumFault(e)
    ensures Is(CreateTenantError(e), ErrInvalidEnumValue)
    ensures !Is(CreateTenantError(e), ErrDomain) && !Is(CreateTenantError(e), ErrSubDomain)
  {
  }

  /** The subdomain a valid request ends up with. */
  function RequestedSubdomain(input: CreateTenantInput): string {
    if input.subdomain.None? then DerivedSubdomain(Text.TrimSpace(input.businessName)) else input.subdomain.value
  }

  predicate SubdomainTaken(tenants: map<Uuid, TenantProfile>, subdomain: string) {
    exists id :: id in tenants && tenants[id].subdomain == subdomain
  }

  /** WithTransaction around CreateTenantWork: a begin failure runs nothing; a
      failed work or commit leaves the tables as they were. */
  method CreateTenantInTx(store: TenantStore, p: TenantProfile, template: seq<string>, tx: TxFaults,
                          insertFault: Option<Error>, createFault: Option<Error>, initFault: Option<Error>)
    returns (trxErr: Option<Error>)
    requires |template| == PlaceholderCount + 1
    modifies store
    ensures tx.begin.Some? ==> trxErr == Some(ErrCreateTransaction)
    ensures trxErr.Some? ==>
              store.tenants == old(store.tenants) && store.schemas == old(store.schemas)
              && store.initialized == old(store.initialized)
    ensures tx.begin.None? && insertFault.None? && TenantViolation(old(store.tenants), p) == Some("domain_uq") ==>
              trxErr.Some? && Is(trxErr.value, ErrDomain)
    ensures tx.begin.None? && insertFault.Some? ==>
              trxErr.Some? && (Is(trxErr.value, ErrInvalidEnumValue) <==> Is(CreateTenantError(insertFault.value), ErrInvalidEnumValue))
              && (Is(trxErr.value, ErrDomain) <==> Is(CreateTenantError(insertFault.value), ErrDomain))
              && (Is(trxErr.value, ErrSubDomain) <==> Is(CreateTenantError(insertFault.value), ErrSubDomain))
    ensures trxErr.None? ==>
              store.tenants == old(store.tenants)[p.id := p]
              && store.schemas == old(store.schemas) + {SchemaName(p.userId)}
              && store.initialized == old(store.initialized)[SchemaName(p.userId) :=
                   JoinWith(template, QuoteIdentifier(SchemaName(p.userId)))]
  {
    if tx.begin.Some? {
      return Some(ErrCreateTransaction);
    }
    var t0, s0, i0 := store.tenants, store.schemas, store.initialized;
    var fnErr := CreateTenantWork(store, p, template, insertFault, createFault, initFault);
    var settled := Settle(tx, fnErr);
    if fnErr.Some? {
      SettleKeepsWorkError(tx, fnErr.value, ErrDomain);
      SettleKeepsWorkError(tx, fnErr.value, ErrSubDomain);
      SettleKeepsWorkError(tx, fnErr.value, ErrInvalidEnumValue);
    }
    if !settled.committed {
      store.Restore(t0, s0, i0);
    }
    trxErr := settled.err;
  }

  /** The work CreateTenant runs inside its transaction: the row, then the
      schema. */
  method CreateTenantWork(store: TenantStore, p: TenantProfile, template: seq<string>, insertFault: Option<Error>,
                          createFault: Option<Error>, initFault: Option<Error>)
    returns (fnErr: Option<Error>)
    requires |template| == PlaceholderCount + 1
    modifies store
    ensures fnErr.None? <==> insertFault.None? && TenantViolation(old(store.tenants), p).None?
                             && createFault.None? && initFault.None?
    ensures insertFault.None? && TenantViolation(old(store.tenants), p).Some? ==>
              fnErr == Some(CreateTenantError(Pgx.UniqueViolation(TenantViolation(old(store.tenants), p).value)))
    ensures insertFault.Some? ==> fnErr == Some(CreateTenantError(insertFault.value))
    ensures fnErr.None? ==>
              store.tenants == old(store.tenants)[p.id := p]
              && store.schemas == old(store.schemas) + {SchemaName(p.userId)}
              && store.initialized == old(store.initialized)[SchemaName(p.userId) :=
                   JoinWith(template, QuoteIdentifier(SchemaName(p.userId)))]
  {
    fnErr := store.CreateTenant(p, insertFault);
    if fnErr.Some? {
      return;
    }
    fnErr := store.CreateTenantSchema(p.userId, template, createFault, initFault);
  }

  /** NewTenantBusiness: the options run in order and the first failure is
      returned; then a missing repository and a missing transaction manager are
      errors, checked in that order. */
  method NewTenantBusiness(cfgs: seq<TenantOption>) returns (tb: TenantBusiness?, err: Option<Error>)
    ensures tb == null <==> err.Some?
    ensures Configure(cfgs, null, false).0.Some? ==> err == Configure(cfgs, null, false).0
    ensures Configure(cfgs, null, false).0.None? && Configure(cfgs, null, false).1 == null ==>
              err == Some(Plain("tenant repository is required"))
    ensures Configure(cfgs, null, false).0.None? && Configure(cfgs, null, false).1 != null
            && !Configure(cfgs, null, false).2 ==>
              err == Some(Plain("transaction manager is required"))
    ensures tb != null ==>
              Configure(cfgs, null, false) == (None, tb.storer, true) && tb.storer != null && tb.hasTransactor
  {
    var b := new TenantBusiness();
    var i := 0;
    while i < |cfgs|
      invariant 0 <= i <= |cfgs|
      invariant Configure(cfgs, null, false) == Configure(cfgs[i..], b.storer, b.hasTransactor)
    {
      assert cfgs[i..][0] == cfgs[i] && cfgs[i..][1..] == cfgs[i + 1..];
      var e := b.Apply(cfgs[i]);
      if e.Some? {
        return null, e;
      }
      i := i + 1;
    }
    if b.storer == null {
      return null, Some(Plain("tenant repository is required"));
    }
    if !b.hasTransactor {
      return null, Some(Plain("transaction manager is required"));
    }
    tb, err := b, None;
  }
}
