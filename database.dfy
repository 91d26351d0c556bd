/**
 * The entity store as a value: three tables keyed by id, each with the next
 * id its auto-increment key will hand out, and the integrity rules the
 * mutations of this core keep.
 */
module Database {
  import opened Wrappers
  import opened Phone
  import opened Entities
  import opened Totals
  import opened Validation

  datatype Db = Db(
    customers: map<int, Customer>,
    products: map<int, Product>,
    orders: map<int, Order>,
    nextCustomerId: int,
    nextProductId: int,
    nextOrderId: int)

  /** Every key of `m` was handed out by an auto-increment counter now at `next`. */
  ghost predicate IdsBelow<T>(m: map<int, T>, next: int) {
    1 <= next && forall id :: id in m ==> 1 <= id < next
  }

  /** The unique constraint on the customer email column. */
  ghost predicate EmailsUnique(customers: map<int, Customer>) {
    forall a, b :: a in customers && b in customers && customers[a].email == customers[b].email ==> a == b
  }

  /**
   * What the mutations of this core let into the phone column: null, or a
   * non-empty string that passes at least the single-customer pattern.
   */
  ghost predicate StoredPhoneOk(phone: Option<string>) {
    phone.None? || (phone.value != "" && AcceptedByCreateCustomer(phone.value))
  }

  ghost predicate CustomersOk(customers: map<int, Customer>, next: int) {
    && IdsBelow(customers, next)
    && EmailsUnique(customers)
    && forall id :: id in customers ==> StoredPhoneOk(customers[id].phone)
  }

  ghost predicate ProductsOk(products: map<int, Product>, next: int) {
    && IdsBelow(products, next)
    && forall id :: id in products ==> products[id].price > 0
  }

  /** An order refers to a stored customer and only to stored products. */
  ghost predicate OrderRefsOk(o: Order, db: Db) {
    o.customer in db.customers && o.products <= db.products.Keys
  }

  /** Everything but the totals: the state in the middle of an order's creation. */
  ghost predicate Core(db: Db) {
    && CustomersOk(db.customers, db.nextCustomerId)
    && ProductsOk(db.products, db.nextProductId)
    && IdsBelow(db.orders, db.nextOrderId)
    && forall id :: id in db.orders ==> OrderRefsOk(db.orders[id], db)
  }

  /** The denormalised total of an order equals the sum of its products' prices. */
  ghost predicate TotalOk(o: Order, db: Db)
    requires o.products <= db.products.Keys
  {
    o.totalAmount == SumPrices(o.products, db.products)
  }

  ghost predicate Consistent(db: Db) {
    && Core(db)
    && forall id :: id in db.orders ==> TotalOk(db.orders[id], db)
  }

  /** Consistent except, perhaps, for the total of order `oid`. */
  ghost predicate ConsistentExcept(db: Db, oid: int) {
    && Core(db)
    && forall id :: id in db.orders && id != oid ==> TotalOk(db.orders[id], db)
  }

  function EmptyDb(): (db: Db)
    ensures Consistent(db)
    ensures db.customers == map[] && db.products == map[] && db.orders == map[]
  {
    Db(map[], map[], map[], 1, 1, 1)
  }

  /** Every stored product passes `Product.clean`. */
  lemma StoredProductsAreClean(db: Db, id: int)
    requires Consistent(db) && id in db.products
    ensures CleanProduct(db.products[id]).None?
  {
  }

  /** Every stored order that has a product has a positive total. */
  lemma StoredTotalPositive(db: Db, id: int)
    requires Consistent(db) && id in db.orders
    ensures db.orders[id].totalAmount >= 0
    ensures db.orders[id].totalAmount > 0 <==> db.orders[id].products != {}
  {
    SumPricesPositive(db.orders[id].products, db.products);
  }

  /** Storing a customer under the next id keeps the store consistent. */
  lemma AddCustomerKeepsConsistent(db: Db, c: Customer)
    requires Consistent(db)
    requires !EmailTaken(db.customers, c.email) && StoredPhoneOk(c.phone)
    ensures Consistent(db.(customers := db.customers[db.nextCustomerId := c], nextCustomerId := db.nextCustomerId + 1))
  {
  }

  /** Storing a product with a positive price under the next id keeps the store consistent. */
  lemma AddProductKeepsConsistent(db: Db, p: Product)
    requires Consistent(db) && p.price > 0
    ensures Consistent(db.(products := db.products[db.nextProductId := p], nextProductId := db.nextProductId + 1))
  {
    var db' := db.(products := db.products[db.nextProductId := p], nextProductId := db.nextProductId + 1);
    forall id | id in db'.orders
      ensures TotalOk(db'.orders[id], db')
    {
      SumPricesFrame(db.orders[id].products, db.products, db'.products);
    }
  }
}
