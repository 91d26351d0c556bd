/**
 * The three persisted entities, the mutation inputs and the uniform
 * mutation payload. Money is two-decimal fixed point, kept as integer cents.
 */
module Entities {
  import opened Wrappers

  /** A two-decimal amount as a whole number of cents (1234 is 12.34). */
  type Cents = int

  /** Creation and order timestamps, as an abstract totally ordered instant. */
  type Instant = int

  datatype Customer = Customer(name: string, email: string, phone: Option<string>, createdAt: Instant)

  /** `stock` is a positive-integer field, so it is never negative. */
  datatype Product = Product(name: string, price: Cents, stock: nat, createdAt: Instant)

  /** `products` is a many-to-many association: a set of product ids. */
  datatype Order = Order(customer: int, products: set<int>, orderDate: Instant, totalAmount: Cents, createdAt: Instant)

  /** A stored row: the id the store assigned and the record. */
  datatype Saved<T> = Saved(id: int, value: T)

  datatype CustomerInput = CustomerInput(name: string, email: string, phone: Option<string>)

  datatype ProductInput = ProductInput(name: string, price: Cents, stock: Option<int>)

  datatype OrderInput = OrderInput(customerId: int, productIds: seq<int>, orderDate: Option<Instant>)

  /** What every single-entity mutation returns instead of raising. */
  datatype Payload<T> = Payload(entity: Option<Saved<T>>, message: string, success: bool)

  /** The default of an order's total before any product is attached (0.00). */
  const DefaultTotal: Cents := 0

  /** The default stock of a product. */
  const DefaultStock: nat := 0

  const PriceMessage := "Price must be positive"

  /** `Product.clean`: a product whose price is not positive is refused. */
  function CleanProduct(p: Product): (r: Option<string>)
    ensures r.None? <==> p.price > 0
    ensures r.Some? ==> r.value == PriceMessage
  {
    if p.price <= 0 then Some(PriceMessage) else None
  }
}
