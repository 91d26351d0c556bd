/**
 * The three filter sets. Each declared filter is a test on one row that
 * is skipped when its value is absent; the filter set applies them one
 * after the other in declaration order, so a row survives exactly when it
 * passes all of them.
 */
module Filters {
  import opened Wrappers
  import opened Entities
  import opened Text
  import opened Query

  /** The comparison lookups the declared number and date filters use. */
  datatype Lookup = Exact | Gte | Lte | Gt | Lt

  predicate Compare(field: int, lookup: Lookup, value: int) {
    match lookup
    case Exact => field == value
    case Gte => field >= value
    case Lte => field <= value
    case Gt => field > value
    case Lt => field < value
  }

  /**
   * A text filter value the filter framework treats as not given: null, or a
   * string the form field strips to nothing.
   */
  predicate Blank(value: Option<string>) {
    value.None? || Trim(value.value) == ""
  }

  /** A declared text filter with the `icontains` lookup, on the stripped value. */
  predicate TextFilter(value: Option<string>, field: string) {
    Blank(value) || ContainsIgnoreCase(field, Trim(value.value))
  }

  /** A declared number or date filter with a comparison lookup. */
  predicate NumberFilter(value: Option<int>, lookup: Lookup, field: int) {
    value.None? || Compare(field, lookup, value.value)
  }

  /** `filter_phone_pattern`: a null phone never contains the pattern. */
  predicate PhonePattern(value: Option<string>, phone: Option<string>) {
    Blank(value) || (phone.Some? && ContainsIgnoreCase(phone.value, Trim(value.value)))
  }

  /** Products below this stock are low on stock. */
  const LowStockLimit: int := 10

  /** `filter_low_stock`: only a true value narrows; false is no negation. */
  predicate LowStock(value: Option<bool>, stock: nat) {
    value != Some(true) || stock < LowStockLimit
  }

  /** `filter_product_count`: zero is falsy and so, like null, leaves the rows alone. */
  predicate ProductCount(value: Option<int>, count: nat) {
    value.None? || value.value == 0 || count == value.value
  }

  /** Orders above 500.00 are high-value. */
  const HighValueFloor: Cents := 50000

  /** `filter_high_value`: only a true value narrows. */
  predicate HighValue(value: Option<bool>, total: Cents) {
    value != Some(true) || total > HighValueFloor
  }

  // ---------------------------------------------------------------- customers

  datatype CustomerFilter = CustomerFilter(
    name: Option<string>,
    email: Option<string>,
    createdAtGte: Option<Instant>,
    createdAtLte: Option<Instant>,
    phonePattern: Option<string>)

  const NoCustomerFilter := CustomerFilter(None, None, None, None, None)

  /** The declared filters of the customer filter set, in declaration order. */
  function CustomerTests(f: CustomerFilter): seq<Saved<Customer> -> bool> {
    [ (c: Saved<Customer>) => TextFilter(f.name, c.value.name),
      (c: Saved<Customer>) => TextFilter(f.email, c.value.email),
      (c: Saved<Customer>) => NumberFilter(f.createdAtGte, Gte, c.value.createdAt),
      (c: Saved<Customer>) => NumberFilter(f.createdAtLte, Lte, c.value.createdAt),
      (c: Saved<Customer>) => PhonePattern(f.phonePattern, c.value.phone) ]
  }

  /** The filtered queryset of the customer filter set over `rows`. */
  function FilterCustomers(rows: seq<Saved<Customer>>, f: CustomerFilter): seq<Saved<Customer>> {
    Chain(rows, CustomerTests(f))
  }

  /** Which customers the filter set admits, condition by condition. */
  predicate CustomerMatches(f: CustomerFilter, c: Customer) {
    && (!Blank(f.name) ==> ContainsIgnoreCase(c.name, Trim(f.name.value)))
    && (!Blank(f.email) ==> ContainsIgnoreCase(c.email, Trim(f.email.value)))
    && (f.createdAtGte.Some? ==> f.createdAtGte.value <= c.createdAt)
    && (f.createdAtLte.Some? ==> c.createdAt <= f.createdAtLte.value)
    && (!Blank(f.phonePattern) ==> c.phone.Some? && ContainsIgnoreCase(c.phone.value, Trim(f.phonePattern.value)))
  }

  function CustomerKeep(f: CustomerFilter): Saved<Customer> -> bool {
    (c: Saved<Customer>) => CustomerMatches(f, c.value)
  }

  /** The declared customer filters all pass exactly when every condition holds. */
  lemma CustomerTestsAgree(f: CustomerFilter, c: Saved<Customer>)
    ensures AllOf(CustomerTests(f))(c) == CustomerKeep(f)(c)
  {
    var tests := CustomerTests(f);
    assert |tests| == 5;
    assert tests[0](c) == TextFilter(f.name, c.value.name);
    assert tests[1](c) == TextFilter(f.email, c.value.email);
    assert tests[2](c) == NumberFilter(f.createdAtGte, Gte, c.value.createdAt);
    assert tests[3](c) == NumberFilter(f.createdAtLte, Lte, c.value.createdAt);
    assert tests[4](c) == PhonePattern(f.phonePattern, c.value.phone);
  }

  /** The chained filters keep exactly the customers that meet every condition, in order. */
  lemma FilterCustomersMeaning(rows: seq<Saved<Customer>>, f: CustomerFilter)
    ensures FilterCustomers(rows, f) == Narrow(rows, CustomerKeep(f))
  {
    var tests := CustomerTests(f);
    ChainIsConjunction(rows, tests);
    forall k | 0 <= k < |rows| ensures AllOf(tests)(rows[k]) == CustomerKeep(f)(rows[k]) {
      CustomerTestsAgree(f, rows[k]);
    }
    NarrowSame(rows, AllOf(tests), CustomerKeep(f));
  }

  /** A customer is in the result exactly when it is in the input and meets every condition. */
  lemma FilterCustomersMembers(rows: seq<Saved<Customer>>, f: CustomerFilter)
    ensures forall c :: c in FilterCustomers(rows, f) <==> c in rows && CustomerMatches(f, c.value)
    ensures multiset(FilterCustomers(rows, f)) <= multiset(rows)
  {
    FilterCustomersMeaning(rows, f);
    NarrowMembers(rows, CustomerKeep(f));
  }

  /** Filtering the filtered customers again changes nothing. */
  lemma FilterCustomersIdempotent(rows: seq<Saved<Customer>>, f: CustomerFilter)
    ensures FilterCustomers(FilterCustomers(rows, f), f) == FilterCustomers(rows, f)
  {
    FilterCustomersMeaning(rows, f);
    FilterCustomersMeaning(FilterCustomers(rows, f), f);
    NarrowIdempotent(rows, CustomerKeep(f));
  }

  /** A filter set with no value given keeps every customer. */
  lemma NoCustomerFilterKeepsAll(rows: seq<Saved<Customer>>)
    ensures FilterCustomers(rows, NoCustomerFilter) == rows
  {
    FilterCustomersMeaning(rows, NoCustomerFilter);
    forall i | 0 <= i < |rows| ensures CustomerKeep(NoCustomerFilter)(rows[i]) {
      assert CustomerMatches(NoCustomerFilter, rows[i].value);
    }
    NarrowAll(rows, CustomerKeep(NoCustomerFilter));
  }

  /**
   * A phone pattern that strips to nothing (empty or all whitespace) is a
   * no-op; otherwise only customers with a phone containing the stripped
   * pattern remain.
   */
  lemma PhonePatternFilter(rows: seq<Saved<Customer>>, pattern: string)
    ensures Trim(pattern) == "" ==> FilterCustomers(rows, NoCustomerFilter.(phonePattern := Some(pattern))) == rows
    ensures Trim(pattern) != "" ==> forall c ::
      c in FilterCustomers(rows, NoCustomerFilter.(phonePattern := Some(pattern))) <==>
      c in rows && c.value.phone.Some? && ContainsIgnoreCase(c.value.phone.value, Trim(pattern))
  {
    var given := NoCustomerFilter.(phonePattern := Some(pattern));
    if Trim(pattern) == "" {
      FilterCustomersMeaning(rows, given);
      forall i | 0 <= i < |rows| ensures CustomerKeep(given)(rows[i]) {
        assert CustomerMatches(given, rows[i].value);
      }
      NarrowAll(rows, CustomerKeep(given));
    } else {
      FilterCustomersMembers(rows, given);
      assert forall c: Customer ::
        CustomerMatches(given, c) <==> c.phone.Some? && ContainsIgnoreCase(c.phone.value, Trim(pattern));
    }
  }

  /** A pattern of spaces keeps every customer, not only those whose phone holds a space. */
  lemma PhonePatternSpacesSkipped(rows: seq<Saved<Customer>>)
    ensures FilterCustomers(rows, NoCustomerFilter.(phonePattern := Some(" "))) == rows
  {
    TrimBlank(" ");
    PhonePatternFilter(rows, " ");
  }

  /** The creation-date bounds are inclusive at both ends. */
  lemma CreatedAtRangeInclusive(rows: seq<Saved<Customer>>, lo: Instant, hi: Instant)
    ensures forall c ::
      c in FilterCustomers(rows, NoCustomerFilter.(createdAtGte := Some(lo), createdAtLte := Some(hi))) <==>
      c in rows && lo <= c.value.createdAt <= hi
  {
    var range := NoCustomerFilter.(createdAtGte := Some(lo), createdAtLte := Some(hi));
    FilterCustomersMembers(rows, range);
    assert forall c: Customer :: CustomerMatches(range, c) <==> lo <= c.createdAt <= hi;
  }

  // ----------------------------------------------------------------- products

  datatype ProductFilter = ProductFilter(
    name: Option<string>,
    priceGte: Option<Cents>,
    priceLte: Option<Cents>,
    stock: Option<int>,
    stockGte: Option<int>,
    stockLte: Option<int>,
    lowStock: Option<bool>)

  const NoProductFilter := ProductFilter(None, None, None, None, None, None, None)

  /** The declared filters of the product filter set, in declaration order. */
  function ProductTests(f: ProductFilter): seq<Saved<Product> -> bool> {
    [ (p: Saved<Product>) => TextFilter(f.name, p.value.name),
      (p: Saved<Product>) => NumberFilter(f.priceGte, Gte, p.value.price),
      (p: Saved<Product>) => NumberFilter(f.priceLte, Lte, p.value.price),
      (p: Saved<Product>) => NumberFilter(f.stock, Exact, p.value.stock),
      (p: Saved<Product>) => NumberFilter(f.stockGte, Gte, p.value.stock),
      (p: Saved<Product>) => NumberFilter(f.stockLte, Lte, p.value.stock),
      (p: Saved<Product>) => LowStock(f.lowStock, p.value.stock) ]
  }

  function FilterProducts(rows: seq<Saved<Product>>, f: ProductFilter): seq<Saved<Product>> {
    Chain(rows, ProductTests(f))
  }

  /** Which products the filter set admits, condition by condition. */
  predicate ProductMatches(f: ProductFilter, p: Product) {
    && (!Blank(f.name) ==> ContainsIgnoreCase(p.name, Trim(f.name.value)))
    && (f.priceGte.Some? ==> f.priceGte.value <= p.price)
    && (f.priceLte.Some? ==> p.price <= f.priceLte.value)
    && (f.stock.Some? ==> p.stock == f.stock.value)
    && (f.stockGte.Some? ==> f.stockGte.value <= p.stock)
    && (f.stockLte.Some? ==> p.stock <= f.stockLte.value)
    && (f.lowStock == Some(true) ==> p.stock < LowStockLimit)
  }

  function ProductKeep(f: ProductFilter): Saved<Product> -> bool {
    (p: Saved<Product>) => ProductMatches(f, p.value)
  }

  /** The declared product filters all pass exactly when every condition holds. */
  lemma ProductTestsAgree(f: ProductFilter, p: Saved<Product>)
    ensures AllOf(ProductTests(f))(p) == ProductKeep(f)(p)
  {
    var tests := ProductTests(f);
    assert |tests| == 7;
    assert tests[0](p) == TextFilter(f.name, p.value.name);
    assert tests[1](p) == NumberFilter(f.priceGte, Gte, p.value.price);
    assert tests[2](p) == NumberFilter(f.priceLte, Lte, p.value.price);
    assert tests[3](p) == NumberFilter(f.stock, Exact, p.value.stock);
    assert tests[4](p) == NumberFilter(f.stockGte, Gte, p.value.stock);
    assert tests[5](p) == NumberFilter(f.stockLte, Lte, p.value.stock);
    assert tests[6](p) == LowStock(f.lowStock, p.value.stock);
  }

  /** The chained filters keep exactly the products that meet every condition, in order. */
  lemma FilterProductsMeaning(rows: seq<Saved<Product>>, f: ProductFilter)
    ensures FilterProducts(rows, f) == Narrow(rows, ProductKeep(f))
  {
    var tests := ProductTests(f);
    ChainIsConjunction(rows, tests);
    forall k | 0 <= k < |rows| ensures AllOf(tests)(rows[k]) == ProductKeep(f)(rows[k]) {
      ProductTestsAgree(f, rows[k]);
    }
    NarrowSame(rows, AllOf(tests), ProductKeep(f));
  }

  lemma FilterProductsMembers(rows: seq<Saved<Product>>, f: ProductFilter)
    ensures forall p :: p in FilterProducts(rows, f) <==> p in rows && ProductMatches(f, p.value)
    ensures multiset(FilterProducts(rows, f)) <= multiset(rows)
  {
    FilterProductsMeaning(rows, f);
    NarrowMembers(rows, ProductKeep(f));
  }

  lemma FilterProductsIdempotent(rows: seq<Saved<Product>>, f: ProductFilter)
    ensures FilterProducts(FilterProducts(rows, f), f) == FilterProducts(rows, f)
  {
    FilterProductsMeaning(rows, f);
    FilterProductsMeaning(FilterProducts(rows, f), f);
    NarrowIdempotent(rows, ProductKeep(f));
  }

  lemma NoProductFilterKeepsAll(rows: seq<Saved<Product>>)
    ensures FilterProducts(rows, NoProductFilter) == rows
  {
    FilterProductsMeaning(rows, NoProductFilter);
    forall i | 0 <= i < |rows| ensures ProductKeep(NoProductFilter)(rows[i]) {
      assert ProductMatches(NoProductFilter, rows[i].value);
    }
    NarrowAll(rows, ProductKeep(NoProductFilter));
  }
  /** `low_stock=true` keeps exactly the products with fewer than ten in stock. */
  lemma LowStockKeepsExactly(rows: seq<Saved<Product>>)
    ensures forall p ::
      p in FilterProducts(rows, NoProductFilter.(lowStock := Some(true))) <==>
      p in rows && p.value.stock < 10
  {
    var low := NoProductFilter.(lowStock := Some(true));
    FilterProductsMembers(rows, low);
    assert forall p: Product :: ProductMatches(low, p) <==> p.stock < 10;
  }

  /** `low_stock=false` narrows nothing: it is the same as leaving it out, whatever else is given. */
  lemma LowStockFalseIsNoOp(rows: seq<Saved<Product>>, f: ProductFilter)
    ensures FilterProducts(rows, f.(lowStock := Some(false))) == FilterProducts(rows, f.(lowStock := None))
  {
    var no := f.(lowStock := Some(false));
    var absent := f.(lowStock := None);
    FilterProductsMeaning(rows, no);
    FilterProductsMeaning(rows, absent);
    forall i | 0 <= i < |rows| ensures ProductKeep(no)(rows[i]) == ProductKeep(absent)(rows[i]) {
      assert ProductMatches(no, rows[i].value) == ProductMatches(absent, rows[i].value);
    }
    NarrowSame(rows, ProductKeep(no), ProductKeep(absent));
  }

  /** Stock 9 is low, stock 10 is not. */
  lemma LowStockBoundary(nine: Saved<Product>, ten: Saved<Product>)
    requires nine.value.stock == 9 && ten.value.stock == 10
    ensures FilterProducts([nine, ten], NoProductFilter.(lowStock := Some(true))) == [nine]
  {
    var f := NoProductFilter.(lowStock := Some(true));
    FilterProductsMeaning([nine, ten], f);
    var keep := ProductKeep(f);
    assert keep(nine) && !keep(ten);
    assert [nine, ten][1..] == [ten];
    assert [ten][1..] == [];
    assert Narrow([ten], keep) == [] + Narrow([], keep);
    assert Narrow([nine, ten], keep) == [nine] + Narrow([ten], keep);
  }

  /** Price and stock bounds are inclusive; the `stock` filter is equality. */
  lemma PriceAndStockBounds(rows: seq<Saved<Product>>, lo: Cents, hi: Cents, n: int)
    ensures forall p ::
      p in FilterProducts(rows, NoProductFilter.(priceGte := Some(lo), priceLte := Some(hi))) <==>
      p in rows && lo <= p.value.price <= hi
    ensures forall p ::
      p in FilterProducts(rows, NoProductFilter.(stockGte := Some(lo), stockLte := Some(hi))) <==>
      p in rows && lo <= p.value.stock <= hi
    ensures forall p ::
      p in FilterProducts(rows, NoProductFilter.(stock := Some(n))) <==> p in rows && p.value.stock == n
  {
    var byPrice := NoProductFilter.(priceGte := Some(lo), priceLte := Some(hi));
    FilterProductsMembers(rows, byPrice);
    assert forall p: Product :: ProductMatches(byPrice, p) <==> lo <= p.price <= hi;
    var byStock := NoProductFilter.(stockGte := Some(lo), stockLte := Some(hi));
    FilterProductsMembers(rows, byStock);
    assert forall p: Product :: ProductMatches(byStock, p) <==> lo <= p.stock <= hi;
    var exact := NoProductFilter.(stock := Some(n));
    FilterProductsMembers(rows, exact);
    assert forall p: Product :: ProductMatches(exact, p) <==> p.stock == n;
  }

  // ------------------------------------------------------------------- orders

  datatype OrderFilter = OrderFilter(
    totalAmountGte: Option<Cents>,
    totalAmountLte: Option<Cents>,
    orderDateGte: Option<Instant>,
    orderDateLte: Option<Instant>,
    customerName: Option<string>,
    customerEmail: Option<string>,
    productName: Option<string>,
    productId: Option<int>,
    productCount: Option<int>,
    highValue: Option<bool>)

  const NoOrderFilter := OrderFilter(None, None, None, None, None, None, None, None, None, None)

  /** A text filter across the foreign key to the order's customer. */
  predicate CustomerText(value: Option<string>, o: Order, customers: map<int, Customer>, email: bool) {
    Blank(value) ||
    (o.customer in customers &&
     ContainsIgnoreCase(if email then customers[o.customer].email else customers[o.customer].name, Trim(value.value)))
  }

  /** A text filter across the many-to-many association: some associated product matches. */
  predicate ProductText(value: Option<string>, o: Order, products: map<int, Product>) {
    Blank(value) ||
    exists pid :: pid in o.products && pid in products && ContainsIgnoreCase(products[pid].name, Trim(value.value))
  }

  /** `products__id`: the id is one of the order's products. */
  predicate ProductIdFilter(value: Option<int>, o: Order) {
    value.None? || value.value in o.products
  }

  /** The declared filters of the order filter set, in declaration order. */
  function OrderTests(f: OrderFilter, customers: map<int, Customer>, products: map<int, Product>): seq<Saved<Order> -> bool> {
    [ (o: Saved<Order>) => NumberFilter(f.totalAmountGte, Gte, o.value.totalAmount),
      (o: Saved<Order>) => NumberFilter(f.totalAmountLte, Lte, o.value.totalAmount),
      (o: Saved<Order>) => NumberFilter(f.orderDateGte, Gte, o.value.orderDate),
      (o: Saved<Order>) => NumberFilter(f.orderDateLte, Lte, o.value.orderDate),
      (o: Saved<Order>) => CustomerText(f.customerName, o.value, customers, false),
      (o: Saved<Order>) => CustomerText(f.customerEmail, o.value, customers, true),
      (o: Saved<Order>) => ProductText(f.productName, o.value, products),
      (o: Saved<Order>) => ProductIdFilter(f.productId, o.value),
      (o: Saved<Order>) => ProductCount(f.productCount, |o.value.products|),
      (o: Saved<Order>) => HighValue(f.highValue, o.value.totalAmount) ]
  }

  function FilterOrders(rows: seq<Saved<Order>>, f: OrderFilter, customers: map<int, Customer>, products: map<int, Product>): seq<Saved<Order>> {
    Chain(rows, OrderTests(f, customers, products))
  }

  /** Which orders the filter set admits, condition by condition. */
  predicate OrderMatches(f: OrderFilter, o: Order, customers: map<int, Customer>, products: map<int, Product>) {
    && (f.totalAmountGte.Some? ==> f.totalAmountGte.value <= o.totalAmount)
    && (f.totalAmountLte.Some? ==> o.totalAmount <= f.totalAmountLte.value)
    && (f.orderDateGte.Some? ==> f.orderDateGte.value <= o.orderDate)
    && (f.orderDateLte.Some? ==> o.orderDate <= f.orderDateLte.value)
    && (!Blank(f.customerName) ==>
          o.customer in customers && ContainsIgnoreCase(customers[o.customer].name, Trim(f.customerName.value)))
    && (!Blank(f.customerEmail) ==>
          o.customer in customers && ContainsIgnoreCase(customers[o.customer].email, Trim(f.customerEmail.value)))
    && (!Blank(f.productName) ==>
          exists pid :: pid in o.products && pid in products && ContainsIgnoreCase(products[pid].name, Trim(f.productName.value)))
    && (f.productId.Some? ==> f.productId.value in o.products)
    && (f.productCount.Some? && f.productCount.value != 0 ==> |o.products| == f.productCount.value)
    && (f.highValue == Some(true) ==> o.totalAmount > HighValueFloor)
  }

  function OrderKeep(f: OrderFilter, customers: map<int, Customer>, products: map<int, Product>): Saved<Order> -> bool {
    (o: Saved<Order>) => OrderMatches(f, o.value, customers, products)
  }

  /** The declared order filters all pass exactly when every condition holds. */
  lemma OrderTestsAgree(f: OrderFilter, customers: map<int, Customer>, products: map<int, Product>, o: Saved<Order>)
    ensures AllOf(OrderTests(f, customers, products))(o) == OrderKeep(f, customers, products)(o)
  {
    var tests := OrderTests(f, customers, products);
    assert |tests| == 10;
    assert tests[0](o) == NumberFilter(f.totalAmountGte, Gte, o.value.totalAmount);
    assert tests[1](o) == NumberFilter(f.totalAmountLte, Lte, o.value.totalAmount);
    assert tests[2](o) == NumberFilter(f.orderDateGte, Gte, o.value.orderDate);
    assert tests[3](o) == NumberFilter(f.orderDateLte, Lte, o.value.orderDate);
    assert tests[4](o) == CustomerText(f.customerName, o.value, customers, false);
    assert tests[5](o) == CustomerText(f.customerEmail, o.value, customers, true);
    assert tests[6](o) == ProductText(f.productName, o.value, products);
    assert tests[7](o) == ProductIdFilter(f.productId, o.value);
    assert tests[8](o) == ProductCount(f.productCount, |o.value.products|);
    assert tests[9](o) == HighValue(f.highValue, o.value.totalAmount);
  }

  /** The chained filters keep exactly the orders that meet every condition, in order. */
  lemma FilterOrdersMeaning(rows: seq<Saved<Order>>, f: OrderFilter, customers: map<int, Customer>, products: map<int, Product>)
    ensures FilterOrders(rows, f, customers, products) == Narrow(rows, OrderKeep(f, customers, products))
  {
    var tests := OrderTests(f, customers, products);
    ChainIsConjunction(rows, tests);
    forall k | 0 <= k < |rows| ensures AllOf(tests)(rows[k]) == OrderKeep(f, customers, products)(rows[k]) {
      OrderTestsAgree(f, customers, products, rows[k]);
    }
    NarrowSame(rows, AllOf(tests), OrderKeep(f, customers, products));
  }

  lemma FilterOrdersMembers(rows: seq<Saved<Order>>, f: OrderFilter, customers: map<int, Customer>, products: map<int, Product>)
    ensures forall o :: o in FilterOrders(rows, f, customers, products) <==>
      o in rows && OrderMatches(f, o.value, customers, products)
    ensures multiset(FilterOrders(rows, f, customers, products)) <= multiset(rows)
  {
    FilterOrdersMeaning(rows, f, customers, products);
    NarrowMembers(rows, OrderKeep(f, customers, products));
  }

  lemma FilterOrdersIdempotent(rows: seq<Saved<Order>>, f: OrderFilter, customers: map<int, Customer>, products: map<int, Product>)
    ensures FilterOrders(FilterOrders(rows, f, customers, products), f, customers, products) ==
      FilterOrders(rows, f, customers, products)
  {
    FilterOrdersMeaning(rows, f, customers, products);
    FilterOrdersMeaning(FilterOrders(rows, f, customers, products), f, customers, products);
    NarrowIdempotent(rows, OrderKeep(f, customers, products));
  }

  lemma NoOrderFilterKeepsAll(rows: seq<Saved<Order>>, customers: map<int, Customer>, products: map<int, Product>)
    ensures FilterOrders(rows, NoOrderFilter, customers, products) == rows
  {
    FilterOrdersMeaning(rows, NoOrderFilter, customers, products);
    forall i | 0 <= i < |rows| ensures OrderKeep(NoOrderFilter, customers, products)(rows[i]) {
      assert OrderMatches(NoOrderFilter, rows[i].value, customers, products);
    }
    NarrowAll(rows, OrderKeep(NoOrderFilter, customers, products));
  }

  /** `high_value=false` admits what an absent `high_value` admits. */
  lemma HighValueFalseSkipped(f: OrderFilter, o: Order, customers: map<int, Customer>, products: map<int, Product>)
    ensures OrderMatches(f.(highValue := Some(false)), o, customers, products) ==
      OrderMatches(f.(highValue := None), o, customers, products)
  {
  }

  /** `product_count=0` admits what an absent `product_count` admits. */
  lemma ProductCountZeroSkipped(f: OrderFilter, o: Order, customers: map<int, Customer>, products: map<int, Product>)
    ensures OrderMatches(f.(productCount := Some(0)), o, customers, products) ==
      OrderMatches(f.(productCount := None), o, customers, products)
  {
  }

  /** `high_value=true` keeps exactly the orders above 500.00; 500.00 itself is not high-value. */
  lemma HighValueKeepsExactly(rows: seq<Saved<Order>>, customers: map<int, Customer>, products: map<int, Product>)
    ensures forall o ::
      o in FilterOrders(rows, NoOrderFilter.(highValue := Some(true)), customers, products) <==>
      o in rows && o.value.totalAmount > 50000
  {
    var high := NoOrderFilter.(highValue := Some(true));
    FilterOrdersMembers(rows, high, customers, products);
    assert forall o: Order :: OrderMatches(high, o, customers, products) <==> o.totalAmount > 50000;
  }

  /** `high_value=false` narrows nothing. */
  lemma HighValueFalseIsNoOp(rows: seq<Saved<Order>>, f: OrderFilter, customers: map<int, Customer>, products: map<int, Product>)
    ensures FilterOrders(rows, f.(highValue := Some(false)), customers, products) ==
      FilterOrders(rows, f.(highValue := None), customers, products)
  {
    var no := f.(highValue := Some(false));
    var absent := f.(highValue := None);
    FilterOrdersMeaning(rows, no, customers, products);
    FilterOrdersMeaning(rows, absent, customers, products);
    forall i | 0 <= i < |rows|
      ensures OrderKeep(no, customers, products)(rows[i]) == OrderKeep(absent, customers, products)(rows[i])
    {
      HighValueFalseSkipped(f, rows[i].value, customers, products);
    }
    NarrowSame(rows, OrderKeep(no, customers, products), OrderKeep(absent, customers, products));
  }

  /** `product_count=0` is a no-op: zero is falsy, so it is the same as leaving it out. */
  lemma ProductCountZeroIsNoOp(rows: seq<Saved<Order>>, f: OrderFilter, customers: map<int, Customer>, products: map<int, Product>)
    ensures FilterOrders(rows, f.(productCount := Some(0)), customers, products) ==
      FilterOrders(rows, f.(productCount := None), customers, products)
  {
    var zero := f.(productCount := Some(0));
    var absent := f.(productCount := None);
    FilterOrdersMeaning(rows, zero, customers, products);
    FilterOrdersMeaning(rows, absent, customers, products);
    forall i | 0 <= i < |rows|
      ensures OrderKeep(zero, customers, products)(rows[i]) == OrderKeep(absent, customers, products)(rows[i])
    {
      ProductCountZeroSkipped(f, rows[i].value, customers, products);
    }
    NarrowSame(rows, OrderKeep(zero, customers, products), OrderKeep(absent, customers, products));
  }

  /** `product_count=n` with n not 0 keeps exactly the orders with n products. */
  lemma ProductCountKeepsExactly(rows: seq<Saved<Order>>, n: int, customers: map<int, Customer>, products: map<int, Product>)
    requires n != 0
    ensures forall o ::
      o in FilterOrders(rows, NoOrderFilter.(productCount := Some(n)), customers, products) <==>
      o in rows && |o.value.products| == n
  {
    var count := NoOrderFilter.(productCount := Some(n));
    FilterOrdersMembers(rows, count, customers, products);
    assert forall o: Order :: OrderMatches(count, o, customers, products) <==> |o.products| == n;
  }

  /** `product_id=k` keeps exactly the orders whose product set contains k. */
  lemma ProductIdKeepsExactly(rows: seq<Saved<Order>>, k: int, customers: map<int, Customer>, products: map<int, Product>)
    ensures forall o ::
      o in FilterOrders(rows, NoOrderFilter.(productId := Some(k)), customers, products) <==>
      o in rows && k in o.value.products
  {
    var byId := NoOrderFilter.(productId := Some(k));
    FilterOrdersMembers(rows, byId, customers, products);
    assert forall o: Order :: OrderMatches(byId, o, customers, products) <==> k in o.products;
  }

  /** `product_name` keeps an order when any one of its products has a matching name. */
  lemma ProductNameMatchesAny(rows: seq<Saved<Order>>, name: string, customers: map<int, Customer>, products: map<int, Product>)
    ensures Trim(name) == "" ==> FilterOrders(rows, NoOrderFilter.(productName := Some(name)), customers, products) == rows
    ensures Trim(name) != "" ==> forall o ::
      o in FilterOrders(rows, NoOrderFilter.(productName := Some(name)), customers, products) <==>
      o in rows && exists pid :: pid in o.value.products && pid in products && ContainsIgnoreCase(products[pid].name, Trim(name))
  {
    if Trim(name) == "" {
      ProductNameBlankSkipped(rows, name, customers, products);
    } else {
      var byName := NoOrderFilter.(productName := Some(name));
      var t := Trim(name);
      FilterOrdersMembers(rows, byName, customers, products);
      forall o: Saved<Order> ensures OrderMatches(byName, o.value, customers, products) <==>
        exists pid :: pid in o.value.products && pid in products && ContainsIgnoreCase(products[pid].name, t)
      {
        assert !Blank(byName.productName);
      }
    }
  }

  /** A product name that strips to nothing keeps every order. */
  lemma ProductNameBlankSkipped(rows: seq<Saved<Order>>, name: string, customers: map<int, Customer>, products: map<int, Product>)
    requires Trim(name) == ""
    ensures FilterOrders(rows, NoOrderFilter.(productName := Some(name)), customers, products) == rows
  {
    var byName := NoOrderFilter.(productName := Some(name));
    FilterOrdersMeaning(rows, byName, customers, products);
    forall i | 0 <= i < |rows| ensures OrderKeep(byName, customers, products)(rows[i]) {
      assert OrderMatches(byName, rows[i].value, customers, products);
    }
    NarrowAll(rows, OrderKeep(byName, customers, products));
  }

  /** Total-amount bounds are inclusive at both ends. */
  lemma TotalAmountRangeInclusive(rows: seq<Saved<Order>>, lo: Cents, hi: Cents, customers: map<int, Customer>, products: map<int, Product>)
    ensures forall o ::
      o in FilterOrders(rows, NoOrderFilter.(totalAmountGte := Some(lo), totalAmountLte := Some(hi)), customers, products) <==>
      o in rows && lo <= o.value.totalAmount <= hi
  {
    var byTotal := NoOrderFilter.(totalAmountGte := Some(lo), totalAmountLte := Some(hi));
    FilterOrdersMembers(rows, byTotal, customers, products);
    assert forall o: Order :: OrderMatches(byTotal, o, customers, products) <==> lo <= o.totalAmount <= hi;
  }

  /** Order-date bounds are inclusive at both ends. */
  lemma OrderDateRangeInclusive(rows: seq<Saved<Order>>, lo: Instant, hi: Instant, customers: map<int, Customer>, products: map<int, Product>)
    ensures forall o ::
      o in FilterOrders(rows, NoOrderFilter.(orderDateGte := Some(lo), orderDateLte := Some(hi)), customers, products) <==>
      o in rows && lo <= o.value.orderDate <= hi
  {
    var byDate := NoOrderFilter.(orderDateGte := Some(lo), orderDateLte := Some(hi));
    FilterOrdersMembers(rows, byDate, customers, products);
    assert forall o: Order :: OrderMatches(byDate, o, customers, products) <==> lo <= o.orderDate <= hi;
  }
}
