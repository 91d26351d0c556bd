# A verified model of the CRM's GraphQL core

The repository is a Django CRM exposed through a GraphQL schema. It has
three entities:

- **customers**: name, unique email, optional phone;
- **products**: name, price, stock;
- **orders**: a customer, a set of products, an order date and a
  denormalised total.

This project models the rules at the centre of that system.

- **Four mutations.** `CreateCustomer`, `BulkCreateCustomers`,
  `CreateProduct` and `CreateOrder` are methods on a `Store` class over an
  in-memory copy of the three tables. Each checks its rules in the
  source's order. For the three single-entity mutations a failure comes
  back as an `{entity, message, success}` payload and leaves the store
  untouched. The bulk mutation answers with `{customers, errors,
  success_count}`: a rejected item adds an error line and stores nothing.
- **Order totals.** `Order.calculate_total` and the overridden `Order.save`
  set an order's total to the sum of the prices of its product set, so
  duplicate ids in a request count once.
- **Filter sets.** The customer, product and order filter sets are per-row
  tests combined by chaining, and the chain is proved to be their
  conjunction (AND). A text filter value is first stripped of surrounding
  whitespace, as its form field does (`Text.Trim`, Python's `str.strip`),
  and a value that strips to nothing counts as not given.
- **Read resolvers.** Single-row lookups, whole-table listings, and the
  filter-then-`order_by` listings are functions over a snapshot of the
  store.

Money is held as integer cents (two decimal places). Timestamps are
abstract integers. The current time is a parameter `now` of each
operation that stamps a row.

The GraphQL schema exists as two identical files,
`alx_backend_graphql/schema.py` and `alx_backend_graphql_crm/schema.py`.
It is modelled once. The two copies agree line for line, so each row of
the table below that cites one copy cites the same lines of the other.

**Phone patterns diverge.** The single-customer mutation leaves the
`\d{10,15}` alternative of its pattern without an end anchor
(`alx_backend_graphql/schema.py:109`). Because the match is only at the
start, it accepts any string that starts with an optional `+` and ten
digits, whatever follows. The bulk mutation and the model field anchor
both alternatives. The model keeps both patterns:

- `AcceptedByCreateCustomer` is the unanchored pattern;
- `ValidPhone` is the anchored one;
- `Phone.ValidPhoneIsAccepted` proves that everything the anchored pattern
  accepts, the unanchored one accepts too;
- `Phone.TrailingTextDivergence` shows `1234567890x`, which only the
  single-customer mutation accepts.

`objects.create` does not run field validators, so the store invariant
for phones is the looser single-customer pattern.

Modules, one per file:

| module | file |
|---|---|
| `Wrappers` | `wrappers.dfy` |
| `Text` | `text.dfy` |
| `Phone` | `phone.dfy` |
| `Entities` | `entities.dfy` |
| `Ids` | `ids.dfy` |
| `Totals` | `totals.dfy` |
| `Validation` | `validation.dfy` |
| `Database` | `database.dfy` |
| `Bulk` | `bulk.dfy` |
| `Mutations` (the `Store` class) | `store.dfy` |
| `Query` | `query.dfy` |
| `Filters` | `filters.dfy` |
| `Resolvers` | `resolvers.dfy` |

## Model

| member | source | states |
|---|---|---|
| Entities.CleanProduct | crm/models.py:33-35 | a product is refused exactly when its price is not positive, with "Price must be positive" |
| Validation.StoredPhone | alx_backend_graphql/schema.py:121 | `phone or None`: a phone is stored exactly when it is present and non-empty, and then unchanged |
| Validation.CustomerRejection | alx_backend_graphql/schema.py:100-115 | a taken email is reported first; a non-empty phone failing the unanchored pattern comes second; the input passes exactly when neither applies |
| Validation.BulkRejection | alx_backend_graphql/schema.py:154-163 | the per-item checks of the bulk mutation in the same order, with the anchored pattern and the item wording |
| Validation.StockOrDefault | alx_backend_graphql/schema.py:202 | an absent stock becomes 0; a given stock is kept |
| Validation.ProductRejection | alx_backend_graphql/schema.py:194-208 | a non-positive price is reported before a negative defaulted stock; the input passes exactly when price > 0 and stock >= 0 |
| Validation.FirstMissing | alx_backend_graphql/schema.py:260-270 | the first position in list order whose id names no product; None exactly when every id exists |
| Validation.OrderRejection | alx_backend_graphql/schema.py:242-270 | the precedence is: missing customer, then empty selection, then the first missing product; the input passes exactly when none applies |
| Phone.ValidPhoneShape | crm/models.py:16 | an anchored-valid phone has 10 to 16 characters, only digits, `+` and `-`, and ends in a digit |
| Phone.ValidPhoneIsAccepted | alx_backend_graphql/schema.py:160 | every phone the bulk (anchored) pattern accepts is accepted by the single-customer pattern |
| Phone.DocumentedFormats | crm/models.py:17 | both formats named in the message, `+1234567890` and `123-456-7890`, are valid |
| Phone.TrailingTextDivergence | alx_backend_graphql/schema.py:109 | `1234567890x` passes the single-customer pattern and fails the anchored pattern |
| Totals.SumPricesRemove | crm/models.py:50 | the price sum over a set splits at any member, so it does not depend on iteration order |
| Totals.SumPricesPositive | crm/models.py:50 | with positive prices the sum is non-negative, and positive exactly when the set is non-empty |
| Totals.IdSet | alx_backend_graphql/schema.py:280 | the product set of a request holds exactly the requested ids |
| Totals.DuplicatesCollapse | crm/models.py:48-52 | the set sum equals the list total that charges each id only at its first occurrence |
| Database.StoredProductsAreClean | crm/models.py:33-35 | every stored product passes `clean` |
| Database.StoredTotalPositive | crm/models.py:48-52 | a stored order's total is non-negative, and positive exactly when it has products |
| Database.AddCustomerKeepsConsistent | crm/models.py:9 | inserting a customer with a fresh email and an accepted phone keeps emails unique and the store consistent |
| Database.AddProductKeepsConsistent | crm/models.py:54-58 | inserting a product with a positive price leaves every existing order total correct |
| Bulk.BulkAccounting | alx_backend_graphql/schema.py:147-180 | every item yields exactly one outcome, so created + errors = inputs; earlier reports are kept |
| Bulk.BulkErrorsTagged | alx_backend_graphql/schema.py:151-163 | one error line per failing item, in input order, each starting with "Customer k: " for the 1-based position k |
| Bulk.BulkKeepsCustomersOk | alx_backend_graphql/schema.py:154-171 | the batch keeps emails unique and ids below the counter; created ids are consecutive, stored and anchored-valid |
| Bulk.BulkPrefixGrows | alx_backend_graphql/schema.py:151-171 | a later item never removes or changes a customer an earlier item created |
| Bulk.BulkRejectsRepeatedEmail | alx_backend_graphql/schema.py:154-156 | an item repeating the email of an earlier created item of the batch is rejected as a duplicate |
| Bulk.BulkSecondDuplicateExample | alx_backend_graphql/schema.py:151-171 | three items whose second repeats the first email: two are created, and the single error names item 2 |
| Mutations.Store.CreateCustomer | alx_backend_graphql/schema.py:97-128 | succeeds exactly when no check rejects; on failure the store is unchanged and the message is the first rejection; on success one customer is added under the next id, it is the only one with that email, and the store stays consistent |
| Mutations.Store.BulkCreateCustomers | alx_backend_graphql/schema.py:146-180 | the loop ends in the state `BulkRun` specifies; `success_count` equals the number created, and that plus the errors equals the number of inputs |
| Mutations.Store.CreateProduct | alx_backend_graphql/schema.py:191-221 | succeeds exactly when price > 0 and the defaulted stock >= 0; on failure nothing changes; on success one product is added with stock defaulted to 0 |
| Mutations.Store.CreateOrder | alx_backend_graphql/schema.py:239-290 | the rejection precedence of `OrderRejection`, with no write on failure; on success exactly one order is added, with the product set of the given ids, the given date or `now`, and total = sum of the distinct products' prices = the first-occurrence list total |
| Mutations.Store.PlaceOrder | alx_backend_graphql_crm/schema.py:273-284 | the atomic block adds exactly one order under the next id, with the given customer, product set and date and total = sum of its products' prices, and leaves the store consistent |
| Mutations.Store.InsertOrder | alx_backend_graphql/schema.py:274-277 | the order row is created with no products and total 0 (the save hook sums the empty set) |
| Mutations.Store.SetOrderProducts | alx_backend_graphql/schema.py:280 | only that order's product set is replaced; all other totals stay correct |
| Mutations.Store.CalculateTotal | crm/models.py:48-52 | stores and returns the price sum of the order's product set; leaves the store as it was when the total was already right (idempotence) |
| Mutations.Store.SaveOrder | crm/models.py:54-58 | after a save the order's total equals the sum of its current product prices, and the store is consistent |
| Query.Rows | alx_backend_graphql/schema.py:336-343 | a table listing holds every row exactly once, in ascending id order |
| Query.NarrowMembers | crm/filters.py:45 | a queryset filter keeps exactly the rows its predicate accepts, without adding or repeating any |
| Query.ChainIsConjunction | crm/filters.py:48-50 | applying declared filters one after another keeps exactly the rows that pass all of them |
| Query.NarrowIdempotent | crm/filters.py:48-50 | narrowing twice by the same predicate is narrowing once |
| Query.SortBy | alx_backend_graphql/schema.py:373 | `order_by` returns a permutation of its rows, sorted by the key |
| Text.NatToStringRoundTrip | alx_backend_graphql/schema.py:155-162 | the decimal position in a bulk error line reads back as the position itself, so distinct positions give distinct lines |
| Text.TrimMeaning | crm/filters.py:10-21 | a text filter's value, stripped as its form field strips it, is the middle of the typed value with only whitespace around it, and neither starts nor ends with whitespace |
| Text.TrimBlank | crm/filters.py:10-21 | a value strips to nothing exactly when it is all whitespace, so such a value counts as not given |
| Text.TrimIdempotent | crm/filters.py:10-21 | stripping an already stripped value changes nothing |
| Text.TrimExamples | crm/filters.py:10-21 | `" \t"` strips to the empty string and `" a "` to `"a"` |
| Text.ContainsIgnoreCaseTrim | crm/filters.py:10-21 | every string contains its own stripped form under `icontains` |
| Filters.CustomerTestsAgree | crm/filters.py:6-50 | the five customer filters all pass exactly when every condition of `CustomerMatches` holds |
| Filters.FilterCustomersMeaning | crm/filters.py:6-50 | the customer filter set narrows by the conjunction of its conditions |
| Filters.FilterCustomersMembers | crm/filters.py:6-50 | a customer is in the result exactly when it is in the input and matches; the result is a sub-multiset of the input |
| Filters.FilterCustomersIdempotent | crm/filters.py:6-50 | applying the customer filter set twice equals applying it once |
| Filters.NoCustomerFilterKeepsAll | crm/filters.py:6-50 | with no filter value given, every customer is kept in order |
| Filters.PhonePatternFilter | crm/filters.py:37-46 | a pattern that strips to nothing (empty or all whitespace) is a no-op; otherwise only customers with a non-null phone containing the stripped pattern, ignoring case, remain |
| Filters.PhonePatternSpacesSkipped | crm/filters.py:37-46 | a phone pattern of one space keeps every customer |
| Filters.CreatedAtRangeInclusive | crm/filters.py:24-34 | both creation-date bounds are inclusive |
| Filters.ProductTestsAgree | crm/filters.py:53-109 | the seven product filters all pass exactly when every condition of `ProductMatches` holds |
| Filters.FilterProductsMeaning | crm/filters.py:53-109 | the product filter set narrows by the conjunction of its conditions |
| Filters.FilterProductsMembers | crm/filters.py:53-109 | a product is in the result exactly when it is in the input and matches; the result is a sub-multiset |
| Filters.FilterProductsIdempotent | crm/filters.py:53-109 | applying the product filter set twice equals applying it once |
| Filters.NoProductFilterKeepsAll | crm/filters.py:53-109 | with no filter value given, every product is kept |
| Filters.LowStockKeepsExactly | crm/filters.py:101-105 | `low_stock=true` keeps exactly the products with stock < 10 |
| Filters.LowStockFalseIsNoOp | crm/filters.py:101-105 | `low_stock=false` gives the same result as leaving it out, whatever the other filters are |
| Filters.LowStockBoundary | crm/filters.py:96-105 | of products with stock 9 and 10, `low_stock=true` keeps only the first |
| Filters.PriceAndStockBounds | crm/filters.py:64-93 | price and stock bounds are inclusive; the `stock` filter is equality |
| Filters.OrderTestsAgree | crm/filters.py:112-203 | the ten order filters all pass exactly when every condition of `OrderMatches` holds |
| Filters.FilterOrdersMeaning | crm/filters.py:112-203 | the order filter set narrows by the conjunction of its conditions |
| Filters.FilterOrdersMembers | crm/filters.py:112-203 | an order is in the result exactly when it is in the input and matches; the result is a sub-multiset |
| Filters.FilterOrdersIdempotent | crm/filters.py:112-203 | applying the order filter set twice equals applying it once |
| Filters.NoOrderFilterKeepsAll | crm/filters.py:112-203 | with no filter value given, every order is kept |
| Filters.HighValueFalseSkipped | crm/filters.py:189-193 | for one order, `high_value=false` admits what an absent `high_value` admits |
| Filters.ProductCountZeroSkipped | crm/filters.py:181-187 | for one order, `product_count=0` admits what an absent `product_count` admits |
| Filters.HighValueKeepsExactly | crm/filters.py:189-193 | `high_value=true` keeps exactly the orders whose total exceeds 500.00; 500.00 itself is excluded |
| Filters.HighValueFalseIsNoOp | crm/filters.py:189-193 | `high_value=false` gives the same result as leaving it out |
| Filters.ProductCountZeroIsNoOp | crm/filters.py:181-187 | `product_count=0` gives the same result as leaving it out |
| Filters.ProductCountKeepsExactly | crm/filters.py:181-187 | `product_count=n` with n not 0 keeps exactly the orders with n products |
| Filters.ProductIdKeepsExactly | crm/filters.py:163-167 | `product_id=k` keeps exactly the orders whose product set contains k |
| Filters.ProductNameMatchesAny | crm/filters.py:156-160 | a `product_name` that strips to nothing keeps every order; otherwise an order is kept exactly when some product of it has a name containing the stripped value, ignoring case |
| Filters.ProductNameBlankSkipped | crm/filters.py:156-160 | a whitespace-only or empty `product_name` keeps every order |
| Filters.TotalAmountRangeInclusive | crm/filters.py:116-126 | both total-amount bounds are inclusive |
| Filters.OrderDateRangeInclusive | crm/filters.py:129-139 | both order-date bounds are inclusive |
| Resolvers.ResolveCustomer | alx_backend_graphql/schema.py:345-349 | null exactly for an unknown id, otherwise that customer |
| Resolvers.ResolveProduct | alx_backend_graphql/schema.py:351-355 | null exactly for an unknown id, otherwise that product |
| Resolvers.ResolveOrder | alx_backend_graphql_crm/schema.py:357-361 | null exactly for an unknown id, otherwise that order |
| Resolvers.ResolveCustomers | alx_backend_graphql/schema.py:336-337 | lists exactly the stored customers |
| Resolvers.ResolveProducts | alx_backend_graphql/schema.py:339-340 | lists exactly the stored products |
| Resolvers.ResolveOrders | alx_backend_graphql/schema.py:342-343 | lists exactly the stored orders |
| Resolvers.ParseOrderBy | alx_backend_graphql/schema.py:320 | a leading '-' means descending, and the field is the rest; direction plus field rebuild the argument |
| Resolvers.ApplyOrderBy | alx_backend_graphql/schema.py:372-373 | a missing or empty `order_by` changes nothing; an unknown field is the only failure; otherwise the result is a permutation sorted by the field, descending when requested |
| Resolvers.FilteredCustomers | alx_backend_graphql/schema.py:365-370 | exactly the stored customers that match the filter, each once |
| Resolvers.ResolveFilterCustomers | alx_backend_graphql/schema.py:364-375 | fails only for an unknown `order_by` field; otherwise holds exactly the matching stored customers, sorted when `order_by` is given |
| Resolvers.FilteredProducts | alx_backend_graphql/schema.py:378-383 | exactly the stored products that match the filter input, each once |
| Resolvers.ResolveFilterProducts | alx_backend_graphql/schema.py:377-388 | fails only for an unknown `order_by` field; otherwise holds exactly the matching stored products, sorted when asked |
| Resolvers.FilteredOrders | alx_backend_graphql/schema.py:391-396 | exactly the stored orders that match the filter input, related customer and product fields included, each once |
| Resolvers.ResolveFilterOrders | alx_backend_graphql/schema.py:390-401 | fails only for an unknown `order_by` field; otherwise holds exactly the matching stored orders, sorted when asked |
| Resolvers.UnfilteredListsEverything | alx_backend_graphql_crm/schema.py:364-401 | with no filter, or an empty one, and no or an empty `order_by`, each of the three listings returns the whole table |
| Resolvers.CreatedCustomerFoundByEmail | alx_backend_graphql_crm/schema.py:364-375 | the customer `CreateCustomer` has just stored is in `filter_customers` filtered by its own email |

## Left out

- Each mutation's catch-all `except Exception` arm is not modelled. Such an arm turns a database fault into "Error creating …: <exc>", and the model has no faults. This also covers the per-item arm inside the bulk loop.
- Transactions and concurrent writers are not modelled. Each mutation runs alone on the store.
- `order_date` defaults to `timezone.now()` and `created_at` is stamped automatically. Both clocks are the parameter `now`.
- GraphQL IDs are integers in the model. A non-numeric id string makes the ORM raise an error that is not "does not exist", and that path is not modelled.
- Decimal amounts are whole cents. Values with more than two decimals are not modelled, nor is the `max_digits=10` limit. This hides one case: a positive sub-cent price such as 0.004 passes the `price <= 0` check and is stored as 0.00 by the two-decimal column. `Database.ProductsOk` and `Database.StoredProductsAreClean` therefore describe the source only for whole-cent input.
- The field-level `RegexValidator` and `max_length` limits on customer columns are not modelled as checks. `objects.create` does not run them.
- Case-insensitive matching folds ASCII letters only, and `\d` means the ASCII digits. Unicode case folding, Unicode digits and database collation are not modelled.
- Python's `$` also matches just before a trailing newline. The model's anchored pattern rejects that newline.
- SQL join artefacts are not modelled. These include duplicate rows from many-to-many joins and the count that `product_count` annotates after an earlier `products__…` filter, which counts only the joined rows.
- Filters.FilterOrders: `product_count` counts the order's whole product set.
- Query.SortBy: the order among rows with equal keys is not stated, because the database leaves it open.
- Query.SortBy: null phones sort before all others, a choice of the model. Databases differ on where NULL goes.
- Query.Rows: a listing without `order_by` comes in ascending id order. The database promises no order.
- Resolvers.ApplyOrderBy: the ORM's error message also lists the available field names. The model's message stops after "into field.".
- Resolvers.ApplyOrderBy: ordering by related lookups (`customer__name`), by reverse or many-to-many relations, or randomly (`?`) is not modelled. Such an argument is reported as an unknown field.
- The product filter input has no `stock` field, and the order filter input has no `product_count`. The `filter_*` resolvers therefore cannot reach those two filters. They are modelled in the filter sets and reachable only through the Relay connection fields.
- The Relay connection fields (`all_customers`, `all_products`, `all_orders`), pagination and the GraphQL type declarations are framework wiring and are not modelled.
- The cron jobs, Celery tasks, seeding script and the `hello` query are not part of this model. They are HTTP calls, file logging, scheduling and fixed sample data.
