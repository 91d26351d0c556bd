/**
 * The read side of the schema: single-row lookups that answer null for an
 * unknown id, whole-table listings, and the filtered listings that apply a
 * filter set and then an optional `order_by` to a table of a store
 * snapshot.
 */
module Resolvers {
  import opened Wrappers
  import opened Entities
  import opened Database
  import opened Query
  import opened Filters
  import opened Text

  // ------------------------------------------------------------ single rows

  /** `resolve_customer`: the customer with that id, or null when there is none. */
  function ResolveCustomer(db: Db, id: int): (r: Option<Saved<Customer>>)
    ensures r.None? <==> id !in db.customers
    ensures r.Some? ==> r.value.id == id && r.value.value == db.customers[id]
  {
    if id in db.customers then Some(Saved(id, db.customers[id])) else None
  }

  /** `resolve_product`: the product with that id, or null when there is none. */
  function ResolveProduct(db: Db, id: int): (r: Option<Saved<Product>>)
    ensures r.None? <==> id !in db.products
    ensures r.Some? ==> r.value.id == id && r.value.value == db.products[id]
  {
    if id in db.products then Some(Saved(id, db.products[id])) else None
  }

  /** `resolve_order`: the order with that id, or null when there is none. */
  function ResolveOrder(db: Db, id: int): (r: Option<Saved<Order>>)
    ensures r.None? <==> id !in db.orders
    ensures r.Some? ==> r.value.id == id && r.value.value == db.orders[id]
  {
    if id in db.orders then Some(Saved(id, db.orders[id])) else None
  }

  // ---------------------------------------------------------------- order_by

  /** An `order_by` argument split into its field name and direction. */
  datatype Ordering = Ordering(field: string, descending: bool)

  /** A leading '-' asks for descending order. */
  function ParseOrderBy(s: string): (o: Ordering)
    ensures o.descending <==> |s| > 0 && s[0] == '-'
    ensures (if o.descending then "-" else "") + o.field == s
  {
    if |s| > 0 && s[0] == '-' then Ordering(s[1..], true) else Ordering(s, false)
  }

  /** The error the ORM raises for an `order_by` naming no field of the model. */
  function UnknownFieldMessage(field: string): string {
    "Cannot resolve keyword '" + field + "' into field."
  }

  /** The sort key of each orderable customer field, `pk` being the id. */
  function CustomerSortKey(field: string): Option<Saved<Customer> -> Key> {
    if field == "id" || field == "pk" then Some((c: Saved<Customer>) => NumKey(c.id))
    else if field == "name" then Some((c: Saved<Customer>) => TextKey(c.value.name))
    else if field == "email" then Some((c: Saved<Customer>) => TextKey(c.value.email))
    else if field == "phone" then
      Some((c: Saved<Customer>) => if c.value.phone.Some? then TextKey(c.value.phone.value) else NullKey)
    else if field == "created_at" then Some((c: Saved<Customer>) => NumKey(c.value.createdAt))
    else None
  }

  function ProductSortKey(field: string): Option<Saved<Product> -> Key> {
    if field == "id" || field == "pk" then Some((p: Saved<Product>) => NumKey(p.id))
    else if field == "name" then Some((p: Saved<Product>) => TextKey(p.value.name))
    else if field == "price" then Some((p: Saved<Product>) => NumKey(p.value.price))
    else if field == "stock" then Some((p: Saved<Product>) => NumKey(p.value.stock))
    else if field == "created_at" then Some((p: Saved<Product>) => NumKey(p.value.createdAt))
    else None
  }

  /** Ordering by the `customer` foreign key orders by the customer's id. */
  function OrderSortKey(field: string): Option<Saved<Order> -> Key> {
    if field == "id" || field == "pk" then Some((o: Saved<Order>) => NumKey(o.id))
    else if field == "customer" || field == "customer_id" then Some((o: Saved<Order>) => NumKey(o.value.customer))
    else if field == "order_date" then Some((o: Saved<Order>) => NumKey(o.value.orderDate))
    else if field == "total_amount" then Some((o: Saved<Order>) => NumKey(o.value.totalAmount))
    else if field == "created_at" then Some((o: Saved<Order>) => NumKey(o.value.createdAt))
    else None
  }

  /** An `order_by` was given: the argument is present and not the empty string. */
  predicate Given(orderBy: Option<string>) {
    orderBy.Some? && orderBy.value != ""
  }

  /**
   * `queryset.order_by(order_by)` when `order_by` is given: the same rows
   * sorted by the named field, or the error for a field the model lacks.
   */
  function ApplyOrderBy<T(!new)>(rows: seq<T>, orderBy: Option<string>, sortKey: string -> Option<T -> Key>): (r: Result<seq<T>, string>)
    ensures !Given(orderBy) ==> r == Success(rows)
    ensures r.Failure? <==> Given(orderBy) && sortKey(ParseOrderBy(orderBy.value).field).None?
    ensures r.Failure? ==> r.error == UnknownFieldMessage(ParseOrderBy(orderBy.value).field)
    ensures r.Success? ==> multiset(r.value) == multiset(rows)
    ensures r.Success? ==> forall x :: x in r.value <==> x in rows
    ensures r.Success? && Given(orderBy) ==>
      var o := ParseOrderBy(orderBy.value);
      SortedBy(r.value, sortKey(o.field).value, o.descending)
  {
    if !Given(orderBy) then Success(rows)
    else
      var o := ParseOrderBy(orderBy.value);
      match sortKey(o.field)
      case None => Failure(UnknownFieldMessage(o.field))
      case Some(key) =>
        var sorted := SortBy(rows, key, o.descending);
        SameMembers(sorted, rows);
        Success(sorted)
  }

  // ----------------------------------------------------------- whole tables

  /** `resolve_customers`: every customer row, each once. */
  function ResolveCustomers(db: Db): (r: seq<Saved<Customer>>)
    ensures forall c :: c in r <==> c.id in db.customers && db.customers[c.id] == c.value
  {
    Rows(db.customers)
  }

  function ResolveProducts(db: Db): (r: seq<Saved<Product>>)
    ensures forall p :: p in r <==> p.id in db.products && db.products[p.id] == p.value
  {
    Rows(db.products)
  }

  function ResolveOrders(db: Db): (r: seq<Saved<Order>>)
    ensures forall o :: o in r <==> o.id in db.orders && db.orders[o.id] == o.value
  {
    Rows(db.orders)
  }

  // -------------------------------------------------------- filtered tables

  /**
   * The `if filter:` step of `resolve_filter_customers`: all customers,
   * narrowed by the filter set when a non-empty filter is given.
   */
  function FilteredCustomers(db: Db, filter: Option<CustomerFilter>): (r: seq<Saved<Customer>>)
    ensures forall c :: c in r <==>
      c.id in db.customers && db.customers[c.id] == c.value && (filter.Some? ==> CustomerMatches(filter.value, c.value))
    ensures multiset(r) <= multiset(ResolveCustomers(db))
  {
    var all := ResolveCustomers(db);
    var f := if filter.Some? then filter.value else NoCustomerFilter;
    FilterCustomersMembers(all, f);
    NoCustomerFilterKeepsAll(all);
    if f != NoCustomerFilter then FilterCustomers(all, f) else all
  }

  /** `resolve_filter_customers`: the filtered customers, then ordered when `order_by` is given. */
  function ResolveFilterCustomers(db: Db, filter: Option<CustomerFilter>, orderBy: Option<string>): (r: Result<seq<Saved<Customer>>, string>)
    ensures r.Failure? <==> Given(orderBy) && CustomerSortKey(ParseOrderBy(orderBy.value).field).None?
    ensures r.Success? ==> forall c :: c in r.value <==>
      c.id in db.customers && db.customers[c.id] == c.value && (filter.Some? ==> CustomerMatches(filter.value, c.value))
    ensures r.Success? ==> multiset(r.value) <= multiset(ResolveCustomers(db))
    ensures r.Success? && Given(orderBy) ==>
      var o := ParseOrderBy(orderBy.value);
      SortedBy(r.value, CustomerSortKey(o.field).value, o.descending)
  {
    ApplyOrderBy(FilteredCustomers(db, filter), orderBy, CustomerSortKey)
  }

  /** The product filter input offers every declared product filter except `stock`. */
  datatype ProductFilterInput = ProductFilterInput(
    name: Option<string>,
    priceGte: Option<Cents>,
    priceLte: Option<Cents>,
    stockGte: Option<int>,
    stockLte: Option<int>,
    lowStock: Option<bool>)

  function ProductFilterOf(input: ProductFilterInput): ProductFilter {
    ProductFilter(input.name, input.priceGte, input.priceLte, None, input.stockGte, input.stockLte, input.lowStock)
  }

  /** The `if filter:` step of `resolve_filter_products`. */
  function FilteredProducts(db: Db, filter: Option<ProductFilterInput>): (r: seq<Saved<Product>>)
    ensures forall p :: p in r <==>
      p.id in db.products && db.products[p.id] == p.value &&
      (filter.Some? ==> ProductMatches(ProductFilterOf(filter.value), p.value))
    ensures multiset(r) <= multiset(ResolveProducts(db))
  {
    var all := ResolveProducts(db);
    var f := if filter.Some? then ProductFilterOf(filter.value) else NoProductFilter;
    FilterProductsMembers(all, f);
    NoProductFilterKeepsAll(all);
    if f != NoProductFilter then FilterProducts(all, f) else all
  }

  /** `resolve_filter_products`: the filtered products, then ordered when `order_by` is given. */
  function ResolveFilterProducts(db: Db, filter: Option<ProductFilterInput>, orderBy: Option<string>): (r: Result<seq<Saved<Product>>, string>)
    ensures r.Failure? <==> Given(orderBy) && ProductSortKey(ParseOrderBy(orderBy.value).field).None?
    ensures r.Success? ==> forall p :: p in r.value <==>
      p.id in db.products && db.products[p.id] == p.value &&
      (filter.Some? ==> ProductMatches(ProductFilterOf(filter.value), p.value))
    ensures r.Success? ==> multiset(r.value) <= multiset(ResolveProducts(db))
    ensures r.Success? && Given(orderBy) ==>
      var o := ParseOrderBy(orderBy.value);
      SortedBy(r.value, ProductSortKey(o.field).value, o.descending)
  {
    ApplyOrderBy(FilteredProducts(db, filter), orderBy, ProductSortKey)
  }

  /** The order filter input offers every declared order filter except `product_count`. */
  datatype OrderFilterInput = OrderFilterInput(
    totalAmountGte: Option<Cents>,
    totalAmountLte: Option<Cents>,
    orderDateGte: Option<Instant>,
    orderDateLte: Option<Instant>,
    customerName: Option<string>,
    customerEmail: Option<string>,
    productName: Option<string>,
    productId: Option<int>,
    highValue: Option<bool>)

  function OrderFilterOf(input: OrderFilterInput): OrderFilter {
    OrderFilter(input.totalAmountGte, input.totalAmountLte, input.orderDateGte, input.orderDateLte,
      input.customerName, input.customerEmail, input.productName, input.productId, None, input.highValue)
  }

  /** The `if filter:` step of `resolve_filter_orders`; related-field filters read the snapshot's other tables. */
  function FilteredOrders(db: Db, filter: Option<OrderFilterInput>): (r: seq<Saved<Order>>)
    ensures forall o :: o in r <==>
      o.id in db.orders && db.orders[o.id] == o.value &&
      (filter.Some? ==> OrderMatches(OrderFilterOf(filter.value), o.value, db.customers, db.products))
    ensures multiset(r) <= multiset(ResolveOrders(db))
  {
    var all := ResolveOrders(db);
    var f := if filter.Some? then OrderFilterOf(filter.value) else NoOrderFilter;
    FilterOrdersMembers(all, f, db.customers, db.products);
    NoOrderFilterKeepsAll(all, db.customers, db.products);
    if f != NoOrderFilter then FilterOrders(all, f, db.customers, db.products) else all
  }

  /** `resolve_filter_orders`: the filtered orders, then ordered when `order_by` is given. */
  function ResolveFilterOrders(db: Db, filter: Option<OrderFilterInput>, orderBy: Option<string>): (r: Result<seq<Saved<Order>>, string>)
    ensures r.Failure? <==> Given(orderBy) && OrderSortKey(ParseOrderBy(orderBy.value).field).None?
    ensures r.Success? ==> forall o :: o in r.value <==>
      o.id in db.orders && db.orders[o.id] == o.value &&
      (filter.Some? ==> OrderMatches(OrderFilterOf(filter.value), o.value, db.customers, db.products))
    ensures r.Success? ==> multiset(r.value) <= multiset(ResolveOrders(db))
    ensures r.Success? && Given(orderBy) ==>
      var o := ParseOrderBy(orderBy.value);
      SortedBy(r.value, OrderSortKey(o.field).value, o.descending)
  {
    ApplyOrderBy(FilteredOrders(db, filter), orderBy, OrderSortKey)
  }

  /** With no filter, or one with no value given, and no `order_by`, every row comes back in table order. */
  lemma UnfilteredListsEverything(db: Db)
    ensures ResolveFilterCustomers(db, None, None) == Success(ResolveCustomers(db))
    ensures ResolveFilterCustomers(db, Some(NoCustomerFilter), Some("")) == Success(ResolveCustomers(db))
    ensures ResolveFilterProducts(db, None, None) == Success(ResolveProducts(db))
    ensures ResolveFilterProducts(db, Some(ProductFilterInput(None, None, None, None, None, None)), Some(""))
            == Success(ResolveProducts(db))
    ensures ResolveFilterOrders(db, None, None) == Success(ResolveOrders(db))
    ensures ResolveFilterOrders(db, Some(OrderFilterInput(None, None, None, None, None, None, None, None, None)), Some(""))
            == Success(ResolveOrders(db))
  {
  }

  /**
   * A customer that `CreateCustomer` has just stored under the next id is
   * found again by filtering on its own email.
   */
  lemma CreatedCustomerFoundByEmail(before: Db, after: Db, c: Customer)
    requires after == before.(customers := before.customers[before.nextCustomerId := c],
                              nextCustomerId := before.nextCustomerId + 1)
    ensures Saved(before.nextCustomerId, c) in FilteredCustomers(after, Some(NoCustomerFilter.(email := Some(c.email))))
  {
    var f := NoCustomerFilter.(email := Some(c.email));
    ContainsIgnoreCaseTrim(c.email);
    assert CustomerMatches(f, c);
    var id := before.nextCustomerId;
    assert id in after.customers && after.customers[id] == c;
    var r := FilteredCustomers(after, Some(f));
    assert Saved(id, c) in r;
  }
}
