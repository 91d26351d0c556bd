/**
 * The mutations, over an in-memory entity store. Each one checks its rules
 * in a fixed order, reports a failure as a payload with `success` false and
 * leaves the store untouched, or writes its rows and reports success.
 * The order helpers below are the model's own operations that the order
 * mutation runs in one atomic unit: `Order.objects.create`,
 * `order.products.set`, `Order.calculate_total` and the overridden
 * `Order.save`.
 */
module Mutations {
  import opened Wrappers
  import opened Phone
  import opened Entities
  import opened Totals
  import opened Validation
  import opened Database
  import opened Bulk

  class Store {
    var customers: map<int, Customer>
    var products: map<int, Product>
    var orders: map<int, Order>
    var nextCustomerId: int
    var nextProductId: int
    var nextOrderId: int

    /** The store's tables as a value. */
    function Snapshot(): Db
      reads this
    {
      Db(customers, products, orders, nextCustomerId, nextProductId, nextOrderId)
    }

    ghost predicate Valid()
      reads this
    {
      Consistent(Snapshot())
    }

    constructor ()
      ensures Valid() && Snapshot() == EmptyDb()
    {
      customers, products, orders := map[], map[], map[];
      nextCustomerId, nextProductId, nextOrderId := 1, 1, 1;
    }

    /** `CreateCustomer.mutate`: unique email, then the (end-unanchored) phone pattern, then insert. */
    method CreateCustomer(input: CustomerInput, now: Instant) returns (r: Payload<Customer>)
      requires Valid()
      modifies this
      ensures Valid()
      ensures r.success <==> CustomerRejection(old(customers), input).None?
      ensures !r.success ==>
        && r == Payload(None, CustomerRejection(old(customers), input).value, false)
        && Snapshot() == old(Snapshot())
      ensures r.success ==>
        var c := Customer(input.name, input.email, StoredPhone(input.phone), now);
        && r == Payload(Some(Saved(old(nextCustomerId), c)), CustomerCreatedMessage, true)
        && Snapshot() == old(Snapshot()).(customers := old(customers)[old(nextCustomerId) := c],
                                          nextCustomerId := old(nextCustomerId) + 1)
      ensures r.success ==> forall id :: id in customers && customers[id].email == input.email ==> id == old(nextCustomerId)
    {
      if EmailTaken(customers, input.email) {
        return Payload(None, EmailExistsMessage, false);
      }
      if PhoneGiven(input.phone) {
        if !AcceptedByCreateCustomer(input.phone.value) {
          return Payload(None, PhoneFormatMessage, false);
        }
      }
      var id := nextCustomerId;
      var c := Customer(input.name, input.email, StoredPhone(input.phone), now);
      AddCustomerKeepsConsistent(Snapshot(), c);
      customers := customers[id := c];
      nextCustomerId := id + 1;
      r := Payload(Some(Saved(id, c)), CustomerCreatedMessage, true);
    }

    /**
     * `BulkCreateCustomers.mutate`: each item in turn, against the table as
     * the earlier items left it; a failing item adds an error line and the
     * loop goes on.
     */
    method BulkCreateCustomers(inputs: seq<CustomerInput>, now: Instant)
      returns (created: seq<Saved<Customer>>, errors: seq<string>, successCount: int)
      requires Valid()
      modifies this
      ensures Valid()
      ensures var run := BulkRun(BulkState(old(customers), old(nextCustomerId), [], []), inputs, now);
        && created == run.created && errors == run.errors
        && Snapshot() == old(Snapshot()).(customers := run.customers, nextCustomerId := run.nextId)
      ensures successCount == |created|
      ensures successCount + |errors| == |inputs|
    {
      ghost var start := BulkState(customers, nextCustomerId, [], []);
      created, errors := [], [];
      var i := 0;
      while i < |inputs|
        invariant 0 <= i <= |inputs|
        invariant BulkState(customers, nextCustomerId, created, errors) == BulkRun(start, inputs[..i], now)
        invariant Snapshot() == old(Snapshot()).(customers := customers, nextCustomerId := nextCustomerId)
        invariant Valid()
      {
        var item := inputs[i];
        assert inputs[..i + 1][..i] == inputs[..i];
        ghost var before := BulkState(customers, nextCustomerId, created, errors);
        assert BulkRun(start, inputs[..i + 1], now) == BulkStep(before, item, i + 1, now);
        if EmailTaken(customers, item.email) {
          errors := errors + [ItemError(i + 1, DuplicateEmailReason(item.email))];
        } else if PhoneGiven(item.phone) && !ValidPhone(item.phone.value) {
          errors := errors + [ItemError(i + 1, InvalidPhoneReason)];
        } else {
          var id := nextCustomerId;
          var c := Customer(item.name, item.email, StoredPhone(item.phone), now);
          if PhoneGiven(item.phone) { ValidPhoneIsAccepted(item.phone.value); }
          AddCustomerKeepsConsistent(Snapshot(), c);
          customers := customers[id := c];
          nextCustomerId := id + 1;
          created := created + [Saved(id, c)];
        }
        i := i + 1;
      }
      assert inputs[..|inputs|] == inputs;
      BulkAccounting(start, inputs, now);
      successCount := |created|;
    }

    /** `CreateProduct.mutate`: positive price, then the defaulted stock, then insert. */
    method CreateProduct(input: ProductInput, now: Instant) returns (r: Payload<Product>)
      requires Valid()
      modifies this
      ensures Valid()
      ensures r.success <==> ProductRejection(input).None?
      ensures !r.success ==>
        && r == Payload(None, ProductRejection(input).value, false)
        && Snapshot() == old(Snapshot())
      ensures r.success ==>
        var p := Product(input.name, input.price, StockOrDefault(input.stock), now);
        && r == Payload(Some(Saved(old(nextProductId), p)), ProductCreatedMessage, true)
        && Snapshot() == old(Snapshot()).(products := old(products)[old(nextProductId) := p],
                                          nextProductId := old(nextProductId) + 1)
    {
      if input.price <= 0 {
        return Payload(None, PriceMessage, false);
      }
      var stock := StockOrDefault(input.stock);
      if stock < 0 {
        return Payload(None, StockMessage, false);
      }
      var id := nextProductId;
      var p := Product(input.name, input.price, stock, now);
      AddProductKeepsConsistent(Snapshot(), p);
      products := products[id := p];
      nextProductId := id + 1;
      r := Payload(Some(Saved(id, p)), ProductCreatedMessage, true);
    }

    /**
     * `CreateOrder.mutate`: the customer, a non-empty selection and every
     * product id in list order are checked before anything is written; then
     * the order row, its product set and its total are written together.
     */
    method CreateOrder(input: OrderInput, now: Instant) returns (r: Payload<Order>)
      requires Valid()
      modifies this
      ensures Valid()
      ensures r.success <==> OrderRejection(old(customers), old(products), input).None?
      ensures !r.success ==>
        && r == Payload(None, OrderRejection(old(customers), old(products), input).value, false)
        && Snapshot() == old(Snapshot())
      ensures r.success ==>
        && IdSet(input.productIds) <= old(products).Keys
        && var o := Order(input.customerId, IdSet(input.productIds), input.orderDate.GetOr(now),
                          SumPrices(IdSet(input.productIds), old(products)), now);
        && r == Payload(Some(Saved(old(nextOrderId), o)), OrderCreatedMessage, true)
        && Snapshot() == old(Snapshot()).(orders := old(orders)[old(nextOrderId) := o],
                                          nextOrderId := old(nextOrderId) + 1)
        && o.totalAmount == RequestTotal(input.productIds, old(products))
    {
      if input.customerId !in customers {
        return Payload(None, MissingCustomerMessage(input.customerId), false);
      }
      if input.productIds == [] {
        return Payload(None, EmptySelectionMessage, false);
      }
      var ids := input.productIds;
      var found: seq<Saved<Product>> := [];
      var i := 0;
      while i < |ids|
        invariant 0 <= i <= |ids|
        invariant |found| == i
        invariant forall j :: 0 <= j < i ==> ids[j] in products && found[j] == Saved(ids[j], products[ids[j]])
      {
        var pid := ids[i];
        if pid !in products {
          FirstMissingAt(ids, products, i);
          return Payload(None, MissingProductMessage(pid), false);
        }
        found := found + [Saved(pid, products[pid])];
        i := i + 1;
      }
      var selected := set p | p in found :: p.id;
      assert selected == IdSet(ids) by {
        forall x | x in IdSet(ids) ensures x in selected {
          var j :| 0 <= j < |ids| && ids[j] == x;
          assert found[j] in found;
        }
      }
      DuplicatesCollapse(ids, products);
      var oid := PlaceOrder(input.customerId, selected, input.orderDate.GetOr(now), now);
      r := Payload(Some(Saved(oid, orders[oid])), OrderCreatedMessage, true);
    }

    /**
     * The atomic block of the order mutation: create the row, attach the
     * product set, then compute and save the total. Its net effect is one
     * new order whose total is the price sum of its products.
     */
    method PlaceOrder(customer: int, ids: set<int>, orderDate: Instant, now: Instant) returns (oid: int)
      requires Valid() && customer in customers && ids <= products.Keys
      modifies this
      ensures Valid()
      ensures oid == old(nextOrderId)
      ensures Snapshot() == old(Snapshot()).(orders := old(orders)[oid := Order(customer, ids, orderDate,
                                               SumPrices(ids, old(products)), now)],
                                             nextOrderId := oid + 1)
    {
      oid := InsertOrder(customer, orderDate, now);
      SetOrderProducts(oid, ids);
      var _ := CalculateTotal(oid);
      SaveOrder(oid);
    }

    /**
     * `Order.objects.create`: the row is inserted with no products and the
     * default total, and the save hook then recomputes the total over the
     * empty set.
     */
    method InsertOrder(customer: int, orderDate: Instant, now: Instant) returns (oid: int)
      requires Valid() && customer in customers
      modifies this
      ensures Valid()
      ensures oid == old(nextOrderId)
      ensures Snapshot() == old(Snapshot()).(orders := old(orders)[oid := Order(customer, {}, orderDate, 0, now)],
                                             nextOrderId := oid + 1)
    {
      oid := nextOrderId;
      orders := orders[oid := Order(customer, {}, orderDate, DefaultTotal, now)];
      nextOrderId := oid + 1;
      SaveOrder(oid);
    }

    /** `order.products.set(...)`: replaces the order's product set; its total is now stale. */
    method SetOrderProducts(oid: int, ids: set<int>)
      requires Valid() && oid in orders && ids <= products.Keys
      modifies this
      ensures ConsistentExcept(Snapshot(), oid)
      ensures Snapshot() == old(Snapshot()).(orders := old(orders)[oid := old(orders)[oid].(products := ids)])
    {
      orders := orders[oid := orders[oid].(products := ids)];
    }

    /** `Order.calculate_total`: sums the prices of the product set, stores and returns the sum. */
    method CalculateTotal(oid: int) returns (total: Cents)
      requires ConsistentExcept(Snapshot(), oid) && oid in orders
      modifies this
      ensures Snapshot() == old(Snapshot()).(orders := old(orders)[oid := old(orders)[oid].(totalAmount := total)])
      ensures total == SumPrices(old(orders)[oid].products, products)
      ensures Valid()
      ensures TotalOk(old(orders)[oid], old(Snapshot())) ==> Snapshot() == old(Snapshot())
    {
      assert OrderRefsOk(orders[oid], Snapshot());
      var ids := orders[oid].products;
      var remaining := ids;
      total := 0;
      while remaining != {}
        invariant unchanged(this)
        invariant remaining <= ids
        invariant total + SumPrices(remaining, products) == SumPrices(ids, products)
        decreases remaining
      {
        var p :| p in remaining;
        SumPricesRemove(remaining, p, products);
        total := total + products[p].price;
        remaining := remaining - {p};
      }
      orders := orders[oid := orders[oid].(totalAmount := total)];
    }

    /** The overridden `Order.save`: once the row has an id, the total is recomputed and saved. */
    method SaveOrder(oid: int)
      requires ConsistentExcept(Snapshot(), oid) && oid in orders
      modifies this
      ensures old(orders)[oid].products <= old(products).Keys
      ensures Snapshot() == old(Snapshot()).(orders := old(orders)[oid := old(orders)[oid].(totalAmount :=
                                               SumPrices(old(orders)[oid].products, old(products)))])
      ensures Valid()
    {
      var _ := CalculateTotal(oid);
    }
  }
}
