/**
 * Postal addresses of the types package (types/address/address.go): the address
 * type registry, the record and its constructor, and the list operations. A Go
 * slice shares its backing array with the caller, so UpdateAddress works on an
 * `array`; AddAddresses returns a new list.
 */
module Addresses {
  import opened Wrappers
  import opened Errs
  import Text

  /** `NoType` is the empty string Go returns on a failed parse. */
  datatype AddressType = Business | Billing | Shipping | NoType

  function TypeText(t: AddressType): string {
    match t
    case Business => "business"
    case Billing => "billing"
    case Shipping => "shipping"
    case NoType => ""
  }

  const TypeNames: set<string> := {"business", "billing", "shipping"}

  /** ParseAddress: looks up strings.ToLower(a) among the registered types. */
  function ParseAddress(a: string): (r: (AddressType, Option<Error>))
    ensures r.1.None? <==> Text.ToLower(a) in TypeNames
    ensures r.1.None? ==> TypeText(r.0) == Text.ToLower(a) && r.0 != NoType
    ensures r.1.Some? ==> r.0 == NoType && Message(r.1.value) == "invalid addresstype: " + a
  {
    var k := Text.ToLower(a);
    if k == "business" then (Business, None)
    else if k == "billing" then (Billing, None)
    else if k == "shipping" then (Shipping, None)
    else (NoType, Some(Plain("invalid addresstype: " + a)))
  }

  /** Every registered type parses back from its own text. */
  lemma ParseTypeText(t: AddressType)
    requires t != NoType
    ensures ParseAddress(TypeText(t)) == (t, None)
  {
    match t
    case Business => Text.ToLowerOfLower("business");
    case Billing => Text.ToLowerOfLower("billing");
    case Shipping => Text.ToLowerOfLower("shipping");
  }

  /** The lookup ignores ASCII case. */
  lemma ParseTypeIgnoresCase(a: string)
    ensures ParseAddress(a).0 == ParseAddress(Text.ToLower(a)).0
    ensures ParseAddress(a).1.None? == ParseAddress(Text.ToLower(a)).1.None?
  {
    Text.ToLowerIdempotent(a);
  }

  datatype Address = Address(
    id: Uuid, userId: Uuid, street: string, city: string, state: string,
    postalCode: string, country: string, isDefault: bool, addressType: AddressType)

  /** The zero Address the lookups return when nothing matches. */
  const ZeroAddress: Address := Address(NilUuid, NilUuid, "", "", "", "", "", false, NoType)

  /** NewAddress: every argument is copied into the record, which gets the fresh
      id `freshId` (uuid.New is a parameter). */
  function NewAddress(freshId: Uuid, userId: Uuid, street: string, city: string, state: string,
                      postalCode: string, country: string, isDefault: bool, addressType: AddressType)
    : (r: Address)
    ensures r.id == freshId
    ensures GetUserID(r) == userId && GetPostalCode(r) == postalCode && GetStreet(r) == street
    ensures r.city == city && r.state == state && r.country == country
    ensures r.isDefault == isDefault && r.addressType == addressType
  {
    Address(freshId, userId, street, city, state, postalCode, country, isDefault, addressType)
  }

  function GetUserID(ad: Address): Uuid { ad.userId }
  function GetPostalCode(ad: Address): string { ad.postalCode }
  function GetStreet(ad: Address): string { ad.street }

  /** AddAddresses: the receiver's elements, then `addr`. */
  function AddAddresses(u: seq<Address>, addr: Address): (r: seq<Address>)
    ensures |r| == |u| + 1 && r[..|u|] == u && r[|u|] == addr
  {
    u + [addr]
  }

  /** The list UpdateAddress leaves: every element with the old address's id
      replaced by the new address. */
  function Replaced(u: seq<Address>, oldId: Uuid, newAddr: Address): (r: seq<Address>)
    ensures |r| == |u|
    ensures forall i :: 0 <= i < |u| ==> r[i] == (if u[i].id == oldId then newAddr else u[i])
  {
    seq(|u|, i requires 0 <= i < |u| => if u[i].id == oldId then newAddr else u[i])
  }

  /** Replacing twice with the same pair changes nothing more, as long as the new
      address keeps the id. */
  lemma ReplacedIdempotent(u: seq<Address>, oldId: Uuid, newAddr: Address)
    requires newAddr.id == oldId
    ensures Replaced(Replaced(u, oldId, newAddr), oldId, newAddr) == Replaced(u, oldId, newAddr)
  {
  }

  /** UpdateAddress: overwrites, in place, every element whose id is the old
      address's id. */
  method UpdateAddress(u: array<Address>, oldAddr: Address, newAddr: Address)
    modifies u
    ensures u[..] == Replaced(old(u[..]), oldAddr.id, newAddr)
  {
    ghost var before := u[..];
    var i := 0;
    while i < u.Length
      invariant 0 <= i <= u.Length
      invariant forall k :: 0 <= k < i ==> u[k] == (if before[k].id == oldAddr.id then newAddr else before[k])
      invariant forall k :: i <= k < u.Length ==> u[k] == before[k]
    {
      if u[i].id == oldAddr.id {
        u[i] := newAddr;
      }
      i := i + 1;
    }
  }

  /** GetDefaultAddress: the first default element, else the zero Address. */
  method GetDefaultAddress(u: seq<Address>) returns (r: Address)
    ensures (exists i :: 0 <= i < |u| && u[i].isDefault) ==>
              exists i :: 0 <= i < |u| && u[i].isDefault && r == u[i] && forall j :: 0 <= j < i ==> !u[j].isDefault
    ensures (forall i :: 0 <= i < |u| ==> !u[i].isDefault) ==> r == ZeroAddress
  {
    var i := 0;
    while i < |u|
      invariant 0 <= i <= |u|
      invariant forall j :: 0 <= j < i ==> !u[j].isDefault
    {
      if u[i].isDefault {
        return u[i];
      }
      i := i + 1;
    }
    return ZeroAddress;
  }

  /** GetDefaultShippigAddress: the first element that is both default and of
      shipping type, else the zero Address. */
  method GetDefaultShippigAddress(u: seq<Address>) returns (r: Address)
    ensures (exists i :: 0 <= i < |u| && u[i].isDefault && u[i].addressType == Shipping) ==>
              exists i :: 0 <= i < |u| && u[i].isDefault && u[i].addressType == Shipping && r == u[i]
                && forall j :: 0 <= j < i ==> !(u[j].isDefault && u[j].addressType == Shipping)
    ensures (forall i :: 0 <= i < |u| ==> !(u[i].isDefault && u[i].addressType == Shipping)) ==> r == ZeroAddress
  {
    var i := 0;
    while i < |u|
      invariant 0 <= i <= |u|
      invariant forall j :: 0 <= j < i ==> !(u[j].isDefault && u[j].addressType == Shipping)
    {
      if u[i].isDefault {
        if u[i].addressType == Shipping {
          return u[i];
        }
      }
      i := i + 1;
    }
    return ZeroAddress;
  }
}

/**
 * The older address package (shared/address/address.go): string ids, no type,
 * and the same list operations.
 */
module SharedAddress {
  import opened Wrappers

  datatype Address = Address(
    userId: Uuid, id: string, street: string, city: string, state: string,
    postalCode: string, country: string, isDefault: bool)

  const ZeroAddress: Address := Address(NilUuid, "", "", "", "", "", "", false)

  function GetUserID(ad: Address): Uuid { ad.userId }

  function GetPostalCode(ad: Address): string { ad.postalCode }
  function GetStreet(ad: Address): string { ad.street }

  /** Each getter reads back what the record was built with. */
  lemma GettersReadFields(userId: Uuid, id: string, street: string, city: string, state: string,
                          postalCode: string, country: string, isDefault: bool)
    ensures var a := Address(userId, id, street, city, state, postalCode, country, isDefault);
      GetUserID(a) == userId && GetPostalCode(a) == postalCode && GetStreet(a) == street
  {
  }

  /** AddAddresses: the receiver's elements, then `addr`, one element longer. */
  function AddAddresses(u: seq<Address>, addr: Address): (r: seq<Address>)
    ensures |r| == |u| + 1 && r[..|u|] == u && r[|u|] == addr
  {
    u + [addr]
  }

  function Replaced(u: seq<Address>, oldId: string, newAddr: Address): (r: seq<Address>)
    ensures |r| == |u|
    ensures forall i :: 0 <= i < |u| ==> r[i] == (if u[i].id == oldId then newAddr else u[i])
  {
    seq(|u|, i requires 0 <= i < |u| => if u[i].id == oldId then newAddr else u[i])
  }

  /** UpdateAddress: overwrites, in place, every element with the old address's
      id; the others stay. */
  method UpdateAddress(u: array<Address>, oldAddr: Address, newAddr: Address)
    modifies u
    ensures u[..] == Replaced(old(u[..]), oldAddr.id, newAddr)
  {
    ghost var before := u[..];
    var i := 0;
    while i < u.Length
      invariant 0 <= i <= u.Length
      invariant forall k :: 0 <= k < i ==> u[k] == (if before[k].id == oldAddr.id then newAddr else before[k])
      invariant forall k :: i <= k < u.Length ==> u[k] == before[k]
    {
      if u[i].id == oldAddr.id {
        u[i] := newAddr;
      }
      i := i + 1;
    }
  }

  /** An update whose old id is in no element leaves the list as it is. */
  lemma ReplacedAbsent(u: seq<Address>, oldId: string, newAddr: Address)
    requires forall i :: 0 <= i < |u| ==> u[i].id != oldId
    ensures Replaced(u, oldId, newAddr) == u
  {
  }

  /** GetDefaultAdress: the first default element, else the zero Address. */
  method GetDefaultAdress(u: seq<Address>) returns (r: Address)
    ensures (exists i :: 0 <= i < |u| && u[i].isDefault) ==>
              exists i :: 0 <= i < |u| && u[i].isDefault && r == u[i] && forall j :: 0 <= j < i ==> !u[j].isDefault
    ensures (forall i :: 0 <= i < |u| ==> !u[i].isDefault) ==> r == ZeroAddress
  {
    var i := 0;
    while i < |u|
      invariant 0 <= i <= |u|
      invariant forall j :: 0 <= j < i ==> !u[j].isDefault
    {
      if u[i].isDefault {
        return u[i];
      }
      i := i + 1;
    }
    return ZeroAddress;
  }
}
