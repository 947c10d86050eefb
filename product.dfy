/**
 * Catalogue products (store/catalog/storecatalog/model.go): the product record
 * and its constructor. A price is a decimal amount in a currency; the amount is
 * a Dafny `real`, which is exact as decimal.Decimal is. uuid.New and time.Now
 * are the parameters `freshId` and `now`.
 */
module Catalog {
  import opened Wrappers
  import opened Errs

  /** money.Money: an amount and a currency code such as "USD". */
  datatype Money = Money(amount: real, currency: string)

  datatype Product = Product(
    id: Uuid, tenantId: Uuid, name: string, description: string, price: Money,
    active: bool, images: seq<string>, createdAt: Time, updatedAt: Time)

  /** What every product NewProduct hands out satisfies. */
  predicate WellFormed(p: Product) {
    p.name != "" && p.price.amount >= 0.0 && p.active && p.images == [] && p.createdAt == p.updatedAt
  }

  /**
   * NewProduct: an empty name is refused first, then a negative price; the
   * name is not trimmed and a zero price is accepted. An accepted product is
   * active, has no images, and copies the tenant, name, description and price.
   */
  function NewProduct(tenantId: Uuid, name: string, description: string, price: Money,
                      freshId: Uuid, now: Time): (r: (Option<Product>, Option<Error>))
    ensures r.0.Some? <==> r.1.None?
    ensures r.1.None? <==> name != "" && price.amount >= 0.0
    ensures name == "" ==> r.1 == Some(Plain("product name cannot be empty"))
    ensures name != "" && price.amount < 0.0 ==> r.1 == Some(Plain("product price cannot be negative"))
    ensures r.0.Some? ==>
              WellFormed(r.0.value) && r.0.value.id == freshId && r.0.value.createdAt == now
              && r.0.value.tenantId == tenantId && r.0.value.name == name
              && r.0.value.description == description && r.0.value.price == price
  {
    if name == "" then (None, Some(Plain("product name cannot be empty")))
    else if price.amount < 0.0 then (None, Some(Plain("product price cannot be negative")))
    else (Some(Product(freshId, tenantId, name, description, price, true, [], now, now)), None)
  }

  /** Every well-formed product is what NewProduct builds from its own fields. */
  lemma WellFormedIsConstructed(p: Product)
    requires WellFormed(p)
    ensures NewProduct(p.tenantId, p.name, p.description, p.price, p.id, p.createdAt) == (Some(p), None)
  {
  }

  /** Only the name's emptiness matters: a name of blanks is accepted. */
  lemma BlankNameAccepted(tenantId: Uuid, description: string, price: Money, freshId: Uuid, now: Time)
    requires price.amount >= 0.0
    ensures NewProduct(tenantId, "  ", description, price, freshId, now).1.None?
  {
  }
}
