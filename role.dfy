/** Platform roles (types/role): a closed registry of five role names. */
module Roles {
  import opened Wrappers
  import opened Errs
  import Text

  /** A role; `Role("")` is Go's zero value `Role{}`. */
  datatype Role = Role(value: string)

  const SystemAdmin := Role("system_admin")
  const Admin := Role("admin")
  const StoreOwner := Role("store_owner")
  const Staff := Role("staff")
  const Guest := Role("guest")

  /** The names registered at package initialisation. */
  const RoleNames: set<string> := {"system_admin", "admin", "store_owner", "staff", "guest"}

  predicate Registered(r: Role) {
    r.value in RoleNames
  }

  /** Role.String. */
  function String(r: Role): (s: string)
    ensures s == r.value
  {
    r.value
  }

  /** role.Parse: an exact, case-sensitive lookup; anything else gives the zero
      Role and the error `invalid role: %q`. */
  function Parse(v: string): (r: (Role, Option<Error>))
    ensures r.1.None? <==> v in RoleNames
    ensures r.1.None? ==> r.0 == Role(v) && Registered(r.0)
    ensures r.1.Some? ==> r.0 == Role("") && Message(r.1.value) == "invalid role: " + Text.Quote(v)
  {
    if v in RoleNames then (Role(v), None) else (Role(""), Some(Plain("invalid role: " + Text.Quote(v))))
  }

  /** Parsing a registered role's name gives the role back. */
  lemma ParseString(r: Role)
    requires Registered(r)
    ensures Parse(String(r)) == (r, None)
  {
  }

  /** Exactly five roles are registered. */
  lemma RegisteredRoles(v: string)
    ensures Parse(v).1.None? <==>
      v == "system_admin" || v == "admin" || v == "store_owner" || v == "staff" || v == "guest"
  {
  }

  /** The seed names "customer" and "store_admin" and any change of case are rejected. */
  lemma RejectedNames()
    ensures "customer" !in RoleNames && "store_admin" !in RoleNames
    ensures "Admin" !in RoleNames && "GUEST" !in RoleNames
  {
  }
}
