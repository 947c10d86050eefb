/**
 * Customer profiles of the store (store/customer/customer.go): the create
 * request, the profile record and its constructor. The customer id comes from
 * uuid.New, which is the parameter `freshId`.
 */
module StoreCustomer {
  import opened Wrappers
  import opened Errs
  import Text
  import SharedAddress

  datatype CustomerProfileCreate = CustomerProfileCreate(
    firstName: string, lastName: string, orgId: Uuid, addresses: seq<string>)

  datatype CustomerProfile = CustomerProfile(
    customerId: Uuid, orgId: Uuid, firstName: string, lastName: string,
    addresses: seq<SharedAddress.Address>, loyaltyPoints: int)

  /** CustomerProfile{}: what a rejected request returns beside its error. */
  const ZeroProfile: CustomerProfile := CustomerProfile(NilUuid, NilUuid, "", "", [], 0)

  /** A name as the profile keeps it: non-empty, no white space at either end. */
  predicate CleanName(s: string) {
    s != [] && !Text.IsSpace(s[0]) && !Text.IsSpace(s[|s| - 1])
  }

  /**
   * NewCustomerProfile: both names are trimmed; an empty first name is reported
   * first, with the message that names the last name, and an empty last name
   * with the message that names the first. The accepted profile holds the
   * trimmed names, the organisation and the fresh id, no addresses and no
   * loyalty points.
   */
  function NewCustomerProfile(info: CustomerProfileCreate, freshId: Uuid): (r: (CustomerProfile, Option<Error>))
    ensures r.1.None? <==> Text.TrimSpace(info.firstName) != [] && Text.TrimSpace(info.lastName) != []
    ensures Text.TrimSpace(info.firstName) == [] ==>
              r == (ZeroProfile, Some(Plain("last-name cannot be emtpy")))
    ensures Text.TrimSpace(info.firstName) != [] && Text.TrimSpace(info.lastName) == [] ==>
              r == (ZeroProfile, Some(Plain("first-name cannot be empty")))
    ensures r.1.None? ==>
              CleanName(r.0.firstName) && CleanName(r.0.lastName)
              && r.0.firstName == Text.TrimSpace(info.firstName) && r.0.lastName == Text.TrimSpace(info.lastName)
              && r.0.customerId == freshId && r.0.orgId == info.orgId
              && r.0.addresses == [] && r.0.loyaltyPoints == 0
  {
    var first := Text.TrimSpace(info.firstName);
    if first == "" then (ZeroProfile, Some(Plain("last-name cannot be emtpy")))
    else
      var last := Text.TrimSpace(info.lastName);
      if last == "" then (ZeroProfile, Some(Plain("first-name cannot be empty")))
      else (CustomerProfile(freshId, info.orgId, first, last, [], 0), None)
  }

  /** An accepted profile is a fixed point: asking again with its own names and
      organisation gives back the same profile. */
  lemma {:induction false} ProfileRecreates(info: CustomerProfileCreate, freshId: Uuid)
    requires NewCustomerProfile(info, freshId).1.None?
    ensures var p := NewCustomerProfile(info, freshId).0;
      NewCustomerProfile(CustomerProfileCreate(p.firstName, p.lastName, p.orgId, []), freshId) == (p, None)
  {
    Text.TrimSpaceIdempotent(info.firstName);
    Text.TrimSpaceIdempotent(info.lastName);
  }
}

/**
 * The same constructor in the store's users package (store/users/customer.go),
 * whose profile lists the names first and keeps typed addresses.
 */
module StoreUsers {
  import opened Wrappers
  import opened Errs
  import Text
  import Addresses
  import StoreCustomer

  datatype CustomerProfileCreate = CustomerProfileCreate(
    firstName: string, lastName: string, orgId: Uuid, addresses: seq<string>)

  datatype CustomerProfile = CustomerProfile(
    firstName: string, lastName: string, customerId: Uuid, orgId: Uuid,
    addresses: seq<Addresses.Address>, loyaltyPoints: int)

  const ZeroProfile: CustomerProfile := CustomerProfile("", "", NilUuid, NilUuid, [], 0)

  /** NewCustomerProfile: the same checks, in the same order and with the same
      messages, as the store/customer constructor. */
  function NewCustomerProfile(info: CustomerProfileCreate, freshId: Uuid): (r: (CustomerProfile, Option<Error>))
    ensures r.1.None? <==> Text.TrimSpace(info.firstName) != [] && Text.TrimSpace(info.lastName) != []
    ensures r.1.Some? ==> r.0 == ZeroProfile
    ensures Text.TrimSpace(info.firstName) == [] ==> r.1 == Some(Plain("last-name cannot be emtpy"))
    ensures Text.TrimSpace(info.firstName) != [] && Text.TrimSpace(info.lastName) == [] ==>
              r.1 == Some(Plain("first-name cannot be empty"))
    ensures r.1.None? ==>
              r.0.firstName == Text.TrimSpace(info.firstName) && r.0.lastName == Text.TrimSpace(info.lastName)
              && r.0.customerId == freshId && r.0.orgId == info.orgId
              && r.0.addresses == [] && r.0.loyaltyPoints == 0
  {
    var cleanFirst := Text.TrimSpace(info.firstName);
    var cleanLast := Text.TrimSpace(info.lastName);
    if cleanFirst == "" then (ZeroProfile, Some(Plain("last-name cannot be emtpy")))
    else if cleanLast == "" then (ZeroProfile, Some(Plain("first-name cannot be empty")))
    else (CustomerProfile(cleanFirst, cleanLast, freshId, info.orgId, [], 0), None)
  }

  /** Both packages accept and reject the same requests, with the same names,
      organisation and message. */
  lemma AgreesWithStoreCustomer(first: string, last: string, org: Uuid, freshId: Uuid)
    ensures var u := NewCustomerProfile(CustomerProfileCreate(first, last, org, []), freshId);
      var c := StoreCustomer.NewCustomerProfile(StoreCustomer.CustomerProfileCreate(first, last, org, []), freshId);
      u.1 == c.1 && (u.1.None? ==> u.0.firstName == c.0.firstName && u.0.lastName == c.0.lastName
                                   && u.0.customerId == c.0.customerId && u.0.orgId == c.0.orgId)
  {
  }

  /** Padding either name with white space does not change the outcome. */
  lemma {:induction false} PaddingIgnored(info: CustomerProfileCreate, freshId: Uuid)
    ensures var padded := info.(firstName := " " + info.firstName + "\t", lastName := "\n" + info.lastName + " ");
      NewCustomerProfile(padded, freshId) == NewCustomerProfile(info, freshId)
  {
    Text.TrimSpacePadded(" ", info.firstName, "\t");
    Text.TrimSpacePadded("\n", info.lastName, " ");
  }
}
