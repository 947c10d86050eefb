/**
 * The tenant profile of the tenant package (tenant/tenant.go): the validating
 * constructor NewTenantProfile and the errors the tenant repository reports
 * (tenant/repository.go). The clock and uuid.New are parameters, and the
 * package's own NewAddress, whose source is not part of this model, is the
 * parameter `newAddress`.
 */
module Tenants {
  import opened Wrappers
  import opened Errs
  import Text
  import opened TenantTypes
  import SharedAddress

  const ErrDomain: Error := Sentinel("tenant", "domain already exists")
  const ErrSubDomain: Error := Sentinel("tenant", "subdomain already exists")
  const ErrInvalidUser: Error := Sentinel("tenant", "invalid or non-existent user")
  const ErrInvalidEnumValue: Error := Sentinel("tenant", "invalid value for enum field")
  const ErrDatabase: Error := Sentinel("tenant", "database error")

  /** The address fields a request carries; NewAddress checks and converts them. */
  datatype AddressInput = AddressInput(street: string, city: string, state: string, postalCode: string, country: string)

  /** The request NewTenantProfile reads. */
  datatype CreateTenantInput = CreateTenantInput(
    userId: Uuid, businessName: string, description: string, subdomain: Option<string>,
    domain: Option<string>, logoUrl: Option<string>, plan: string, businessMode: string,
    businessAddress: Option<AddressInput>, billingAddress: Option<AddressInput>)

  datatype TenantProfile = TenantProfile(
    id: Uuid, userId: Uuid, businessName: string, description: string, subdomain: string,
    domain: Option<string>, logoUrl: string, status: TenantStatus, plan: PlanType,
    businessMode: BusinessMode, addresses: seq<SharedAddress.Address>,
    trialStartAt: Time, trialEndAt: Option<Time>, createdAt: Time, updatedAt: Time)

  /** The free plan's trial, fifteen days in seconds. */
  const TrialLength: int := 15 * 24 * 60 * 60

  const MaxDescription: nat := 255

  const SubdomainSuffix: string := ".merchcore.com"

  /** The subdomain derived from a business name: spaces removed, ASCII letters
      lowered, the platform's domain appended. */
  function DerivedSubdomain(businessName: string): (r: string)
    ensures |r| >= |SubdomainSuffix| && r[|r| - |SubdomainSuffix|..] == SubdomainSuffix
  {
    var r := Text.ToLower(Text.RemoveAll(businessName, ' ')) + SubdomainSuffix;
    assert r[|r| - |SubdomainSuffix|..] == SubdomainSuffix;
    r
  }

  /** A derived subdomain has no space and no upper-case ASCII letter before the
      suffix, and names that differ only in spaces and ASCII case derive the same
      subdomain. */
  lemma DerivedSubdomainShape(businessName: string, other: string)
    ensures var r := DerivedSubdomain(businessName);
      forall i :: 0 <= i < |r| - |SubdomainSuffix| ==> r[i] != ' ' && !('A' <= r[i] <= 'Z')
    ensures Text.ToLower(Text.RemoveAll(other, ' ')) == Text.ToLower(Text.RemoveAll(businessName, ' ')) ==>
              DerivedSubdomain(other) == DerivedSubdomain(businessName)
  {
    var stripped := Text.RemoveAll(businessName, ' ');
    var lowered := Text.ToLower(stripped);
    var r := DerivedSubdomain(businessName);
    assert r == lowered + SubdomainSuffix;
    forall i | 0 <= i < |r| - |SubdomainSuffix|
      ensures r[i] != ' ' && !('A' <= r[i] <= 'Z')
    {
      assert r[i] == lowered[i] == Text.LowerChar(stripped[i]);
      assert stripped[i] in stripped;
    }
  }

  // ---- the field checks, in the order NewTenantProfile makes them ----

  function NameErrors(info: CreateTenantInput): seq<FieldError> {
    if Text.TrimSpace(info.businessName) == "" then [FieldError("business_name", "business name required")] else []
  }

  function DescriptionErrors(info: CreateTenantInput): seq<FieldError> {
    var d := Text.TrimSpace(info.description);
    if d == "" then [FieldError("description", "description required")]
    else if |d| > MaxDescription then [FieldError("description", "cannot be more than 255 characters")]
    else []
  }

  function PlanErrors(info: CreateTenantInput): seq<FieldError> {
    if ParsePlanType(info.plan).1.Some? then [FieldError("plan", "invalid plan")] else []
  }

  function ModeErrors(info: CreateTenantInput): seq<FieldError> {
    if ParseBusinessMode(info.businessMode).1.Some? then [FieldError("business_mode", "invalid business mode")] else []
  }

  function BusinessAddressErrors(info: CreateTenantInput, newAddress: AddressInput -> Result<SharedAddress.Address>)
    : seq<FieldError>
  {
    if ParseBusinessMode(info.businessMode).0 != Hybrid then []
    else match info.businessAddress
      case None => [FieldError("business_address", "business address required for hybrid mode")]
      case Some(a) =>
        match newAddress(a)
        case Fail(e) => [FieldError("business_address", Message(e))]
        case Ok(_) => []
  }

  function BillingAddressErrors(info: CreateTenantInput, newAddress: AddressInput -> Result<SharedAddress.Address>)
    : seq<FieldError>
  {
    if ParsePlanType(info.plan).0 == Free then []
    else match info.billingAddress
      case None => [FieldError("billing_address", "billing address required for paid plans")]
      case Some(a) =>
        match newAddress(a)
        case Fail(e) => [FieldError("billing_address", Message(e))]
        case Ok(_) => []
  }

  /** Every field error NewTenantProfile collects, in order. */
  function ProfileFieldErrors(info: CreateTenantInput, newAddress: AddressInput -> Result<SharedAddress.Address>)
    : seq<FieldError>
  {
    NameErrors(info) + DescriptionErrors(info) + PlanErrors(info) + ModeErrors(info)
    + BusinessAddressErrors(info, newAddress) + BillingAddressErrors(info, newAddress)
  }

  /** The collected list is empty exactly when every check added nothing. */
  lemma FieldErrorsEmptyIffParts(info: CreateTenantInput, newAddress: AddressInput -> Result<SharedAddress.Address>)
    ensures ProfileFieldErrors(info, newAddress) == [] <==>
              NameErrors(info) == [] && DescriptionErrors(info) == [] && PlanErrors(info) == []
              && ModeErrors(info) == [] && BusinessAddressErrors(info, newAddress) == []
              && BillingAddressErrors(info, newAddress) == []
  {
    assert |ProfileFieldErrors(info, newAddress)| ==
           |NameErrors(info)| + |DescriptionErrors(info)| + |PlanErrors(info)| + |ModeErrors(info)|
           + |BusinessAddressErrors(info, newAddress)| + |BillingAddressErrors(info, newAddress)|;
  }

  /** The rules a request must meet, stated on their own. */
  predicate AcceptableRequest(info: CreateTenantInput, newAddress: AddressInput -> Result<SharedAddress.Address>) {
    && Text.TrimSpace(info.businessName) != ""
    && Text.TrimSpace(info.description) != "" && |Text.TrimSpace(info.description)| <= MaxDescription
    && Text.ToLower(info.plan) in PlanNames
    && Text.ToLower(info.businessMode) in ModeNames
    && (Text.ToLower(info.businessMode) == "hybrid" ==>
          info.businessAddress.Some? && newAddress(info.businessAddress.value).Ok?)
    && (Text.ToLower(info.plan) != "free" ==>
          info.billingAddress.Some? && newAddress(info.billingAddress.value).Ok?)
  }

  /** No field error is collected exactly when the request meets the rules: in
      particular an unparsable plan counts as paid and needs a billing address. */
  lemma NoFieldErrorsIffAcceptable(info: CreateTenantInput, newAddress: AddressInput -> Result<SharedAddress.Address>)
    ensures ProfileFieldErrors(info, newAddress) == [] <==> AcceptableRequest(info, newAddress)
  {
    FieldErrorsEmptyIffParts(info, newAddress);
    var plan := ParsePlanType(info.plan);
    var mode := ParseBusinessMode(info.businessMode);
    assert plan.1.None? ==> (plan.0 == Free <==> Text.ToLower(info.plan) == "free");
    assert mode.1.None? ==> (mode.0 == Hybrid <==> Text.ToLower(info.businessMode) == "hybrid");
  }

  /**
   * NewTenantProfile: collects every field error before deciding. On success the
   * profile has the fresh id, the trimmed name and description, the given or the
   * derived subdomain, maintenance status, and a trial starting now that ends
   * fifteen days later on the free plan and never otherwise. The addresses the
   * checks build are appended to a copy that is then dropped, so the profile's
   * address list is always empty. The source dereferences the logo URL on
   * success, so the model requires it there.
   */
  method NewTenantProfile(info: CreateTenantInput, freshId: Uuid, now: Time,
                          newAddress: AddressInput -> Result<SharedAddress.Address>)
    returns (profile: Option<TenantProfile>, err: Option<Error>)
    requires ProfileFieldErrors(info, newAddress) == [] ==> info.logoUrl.Some?
    ensures err.Some? <==> ProfileFieldErrors(info, newAddress) != []
    ensures err.Some? ==> profile.None? && err.value == Fields(ProfileFieldErrors(info, newAddress))
    ensures err.None? ==> profile.Some? && ProfileFacts(profile.value, info, freshId, now)
  {
    var fieldErrs := new FieldErrors();
    var businessName, description := CheckText(fieldErrs, info);
    assert [] + NameErrors(info) == NameErrors(info);
    var subdomain: string;
    if info.subdomain.None? {
      subdomain := Text.ToLower(Text.RemoveAll(businessName, ' ')) + SubdomainSuffix;
    } else {
      subdomain := info.subdomain.value;
    }
    var plan, mode := CheckEnums(fieldErrs, info);
    CheckAddresses(fieldErrs, info, plan, mode, newAddress);
    assert fieldErrs.entries == ProfileFieldErrors(info, newAddress);

    var fe := fieldErrs.ToError();
    if fe.Some? {
      return None, fe;
    }
    FieldErrorsEmptyIffParts(info, newAddress);
    var trialEnd: Option<Time> := None;
    if plan == Free {
      trialEnd := Some(now + TrialLength);
    }
    profile := Some(TenantProfile(freshId, info.userId, businessName, description, subdomain, info.domain,
                                  info.logoUrl.value, Maintenance, plan, mode, [], now, trialEnd, now, now));
    err := None;
  }

  /** The name and description checks of NewTenantProfile. */
  method CheckText(fieldErrs: FieldErrors, info: CreateTenantInput) returns (businessName: string, description: string)
    modifies fieldErrs
    ensures businessName == Text.TrimSpace(info.businessName) && description == Text.TrimSpace(info.description)
    ensures fieldErrs.entries == old(fieldErrs.entries) + NameErrors(info) + DescriptionErrors(info)
  {
    businessName := Text.TrimSpace(info.businessName);
    if businessName == "" {
      fieldErrs.AddFieldError("business_name", Plain("business name required"));
    }
    description := Text.TrimSpace(info.description);
    if description == "" {
      fieldErrs.AddFieldError("description", Plain("description required"));
    } else if |description| > MaxDescription {
      fieldErrs.AddFieldError("description", Plain("cannot be more than 255 characters"));
    }
  }

  /** The plan and business-mode checks of NewTenantProfile; a failed parse
      leaves the empty value. */
  method CheckEnums(fieldErrs: FieldErrors, info: CreateTenantInput) returns (plan: PlanType, mode: BusinessMode)
    modifies fieldErrs
    ensures plan == ParsePlanType(info.plan).0 && mode == ParseBusinessMode(info.businessMode).0
    ensures fieldErrs.entries == old(fieldErrs.entries) + PlanErrors(info) + ModeErrors(info)
  {
    var planErr, modeErr;
    plan, planErr := ParsePlanType(info.plan).0, ParsePlanType(info.plan).1;
    if planErr.Some? {
      fieldErrs.AddFieldError("plan", Plain("invalid plan"));
    }
    mode, modeErr := ParseBusinessMode(info.businessMode).0, ParseBusinessMode(info.businessMode).1;
    if modeErr.Some? {
      fieldErrs.AddFieldError("business_mode", Plain("invalid business mode"));
    }
  }

  /** The address checks of NewTenantProfile: a hybrid business needs a valid
      business address, any plan but the free one a valid billing address. Each
      address built is appended to a local copy of the list that nothing reads. */
  method CheckAddresses(fieldErrs: FieldErrors, info: CreateTenantInput, plan: PlanType, mode: BusinessMode,
                        newAddress: AddressInput -> Result<SharedAddress.Address>)
    requires plan == ParsePlanType(info.plan).0 && mode == ParseBusinessMode(info.businessMode).0
    modifies fieldErrs
    ensures fieldErrs.entries == old(fieldErrs.entries) + BusinessAddressErrors(info, newAddress)
                                 + BillingAddressErrors(info, newAddress)
  {
    var addresses: seq<SharedAddress.Address> := [];
    if mode == Hybrid {
      if info.businessAddress.None? {
        fieldErrs.AddFieldError("business_address", Plain("business address required for hybrid mode"));
      } else {
        var addr := newAddress(info.businessAddress.value);
        if addr.Fail? {
          fieldErrs.AddFieldError("business_address", addr.error);
        } else {
          var _ := SharedAddress.AddAddresses(addresses, addr.value);
        }
      }
    }
    assert fieldErrs.entries == old(fieldErrs.entries) + BusinessAddressErrors(info, newAddress);
    if plan != Free {
      if info.billingAddress.None? {
        fieldErrs.AddFieldError("billing_address", Plain("billing address required for paid plans"));
      } else {
        var addr := newAddress(info.billingAddress.value);
        if addr.Fail? {
          fieldErrs.AddFieldError("billing_address", addr.error);
        } else {
          var _ := SharedAddress.AddAddresses(addresses, addr.value);
        }
      }
    }
  }

  /** What a profile built from a valid request holds. */
  predicate ProfileFacts(p: TenantProfile, info: CreateTenantInput, freshId: Uuid, now: Time) {
    && p.id == freshId && p.userId == info.userId
    && p.businessName == Text.TrimSpace(info.businessName) && p.businessName != ""
    && p.description == Text.TrimSpace(info.description) && p.description != ""
    && |p.description| <= MaxDescription
    && p.subdomain == (if info.subdomain.None? then DerivedSubdomain(p.businessName) else info.subdomain.value)
    && p.domain == info.domain && info.logoUrl.Some? && p.logoUrl == info.logoUrl.value
    && p.status == Maintenance
    && (p.plan, None) == ParsePlanType(info.plan) && (p.businessMode, None) == ParseBusinessMode(info.businessMode)
    && p.addresses == []
    && p.trialStartAt == now && p.createdAt == now && p.updatedAt == now
    && p.trialEndAt == (if p.plan == Free then Some(now + TrialLength) else None)
  }
}
