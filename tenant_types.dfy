/**
 * Tenant status, plan and business mode (tenant/types.go): registries keyed by the
 * lower-cased name, looked up with the lower-cased input.
 */
module TenantTypes {
  import opened Wrappers
  import opened Errs
  import Text

  /** `NoStatus` is the empty string Go returns on a failed parse. */
  datatype TenantStatus = Active | Maintenance | Suspended | Archived | NoStatus

  function StatusText(s: TenantStatus): string {
    match s
    case Active => "active"
    case Maintenance => "maintenance"
    case Suspended => "suspended"
    case Archived => "archived"
    case NoStatus => ""
  }

  const StatusNames: set<string> := {"active", "maintenance", "suspended", "archived"}

  /** ParseTenantStatus: looks up strings.ToLower(v). */
  function ParseTenantStatus(v: string): (r: (TenantStatus, Option<Error>))
    ensures r.1.None? <==> Text.ToLower(v) in StatusNames
    ensures r.1.None? ==> StatusText(r.0) == Text.ToLower(v) && r.0 != NoStatus
    ensures r.1.Some? ==> r.0 == NoStatus && Message(r.1.value) == "invalid tenant status: " + v
  {
    var k := Text.ToLower(v);
    if k == "active" then (Active, None)
    else if k == "maintenance" then (Maintenance, None)
    else if k == "suspended" then (Suspended, None)
    else if k == "archived" then (Archived, None)
    else (NoStatus, Some(Plain("invalid tenant status: " + v)))
  }

  /** Every registered status parses back from its own text. */
  lemma ParseStatusText(s: TenantStatus)
    requires s != NoStatus
    ensures ParseTenantStatus(StatusText(s)) == (s, None)
  {
    StatusTextIsLower(s);
  }

  lemma StatusTextIsLower(s: TenantStatus)
    ensures Text.ToLower(StatusText(s)) == StatusText(s)
  {
    match s
    case Active => Text.ToLowerOfLower("active");
    case Maintenance => Text.ToLowerOfLower("maintenance");
    case Suspended => Text.ToLowerOfLower("suspended");
    case Archived => Text.ToLowerOfLower("archived");
    case NoStatus =>
  }

  /** The lookup ignores ASCII case: the input and its lower-case form give the same
      value and the same success (the error text quotes the input as given). */
  lemma ParseStatusIgnoresCase(v: string)
    ensures ParseTenantStatus(v).0 == ParseTenantStatus(Text.ToLower(v)).0
    ensures ParseTenantStatus(v).1.None? == ParseTenantStatus(Text.ToLower(v)).1.None?
  {
    Text.ToLowerIdempotent(v);
  }

  /** `NoPlan` is the empty string Go returns on a failed parse. */
  datatype PlanType = Free | Core | Pro | Enterprise | NoPlan

  function PlanText(p: PlanType): string {
    match p
    case Free => "free"
    case Core => "core"
    case Pro => "pro"
    case Enterprise => "enterprise"
    case NoPlan => ""
  }

  const PlanNames: set<string> := {"free", "core", "pro", "enterprise"}

  /** ParsePlanType: looks up strings.ToLower(v). */
  function ParsePlanType(v: string): (r: (PlanType, Option<Error>))
    ensures r.1.None? <==> Text.ToLower(v) in PlanNames
    ensures r.1.None? ==> PlanText(r.0) == Text.ToLower(v) && r.0 != NoPlan
    ensures r.1.Some? ==> r.0 == NoPlan && Message(r.1.value) == "invalid plan type: " + v
  {
    var k := Text.ToLower(v);
    if k == "free" then (Free, None)
    else if k == "core" then (Core, None)
    else if k == "pro" then (Pro, None)
    else if k == "enterprise" then (Enterprise, None)
    else (NoPlan, Some(Plain("invalid plan type: " + v)))
  }

  lemma ParsePlanText(p: PlanType)
    requires p != NoPlan
    ensures ParsePlanType(PlanText(p)) == (p, None)
  {
    match p
    case Free => Text.ToLowerOfLower("free");
    case Core => Text.ToLowerOfLower("core");
    case Pro => Text.ToLowerOfLower("pro");
    case Enterprise => Text.ToLowerOfLower("enterprise");
  }

  lemma ParsePlanIgnoresCase(v: string)
    ensures ParsePlanType(v).0 == ParsePlanType(Text.ToLower(v)).0
    ensures ParsePlanType(v).1.None? == ParsePlanType(Text.ToLower(v)).1.None?
  {
    Text.ToLowerIdempotent(v);
  }

  /** `NoMode` is the empty string Go returns on a failed parse. */
  datatype BusinessMode = Online | Hybrid | NoMode

  function ModeText(m: BusinessMode): string {
    match m
    case Online => "online"
    case Hybrid => "hybrid"
    case NoMode => ""
  }

  const ModeNames: set<string> := {"online", "hybrid"}

  /** ParseBusinessMode: looks up strings.ToLower(v). */
  function ParseBusinessMode(v: string): (r: (BusinessMode, Option<Error>))
    ensures r.1.None? <==> Text.ToLower(v) in ModeNames
    ensures r.1.None? ==> ModeText(r.0) == Text.ToLower(v) && r.0 != NoMode
    ensures r.1.Some? ==> r.0 == NoMode && Message(r.1.value) == "invalid business mode: " + v
  {
    var k := Text.ToLower(v);
    if k == "online" then (Online, None)
    else if k == "hybrid" then (Hybrid, None)
    else (NoMode, Some(Plain("invalid business mode: " + v)))
  }

  lemma ParseModeText(m: BusinessMode)
    requires m != NoMode
    ensures ParseBusinessMode(ModeText(m)) == (m, None)
  {
    match m
    case Online => Text.ToLowerOfLower("online");
    case Hybrid => Text.ToLowerOfLower("hybrid");
  }

  lemma ParseModeIgnoresCase(v: string)
    ensures ParseBusinessMode(v).0 == ParseBusinessMode(Text.ToLower(v)).0
    ensures ParseBusinessMode(v).1.None? == ParseBusinessMode(Text.ToLower(v)).1.None?
  {
    Text.ToLowerIdempotent(v);
  }

  /** A mixed-case spelling is accepted. */
  lemma MixedCaseAccepted()
    ensures ParseBusinessMode("Hybrid") == (Hybrid, None)
  {
    var v := "Hybrid";
    assert Text.ToLower(v) == "hybrid" by {
      assert Text.ToLower(v)[0] == 'h';
    }
  }
}
