/**
 * The validation rules of the mutations, as pure functions of the proposed
 * values and the stored tables. Each returns the message the mutation
 * reports, or None when the input passes; the order of the checks is the
 * order in which the mutations perform them.
 */
module Validation {
  import opened Wrappers
  import opened Text
  import opened Phone
  import opened Entities

  const EmailExistsMessage := "Email already exists"
  const PhoneFormatMessage := "Phone number must be in format: '+1234567890' or '123-456-7890'"
  const CustomerCreatedMessage := "Customer created successfully"
  const InvalidPhoneReason := "Invalid phone format"
  const StockMessage := "Stock cannot be negative"
  const ProductCreatedMessage := "Product created successfully"
  const EmptySelectionMessage := "At least one product must be selected"
  const OrderCreatedMessage := "Order created successfully"

  function MissingCustomerMessage(id: int): string {
    "Customer with ID " + IntToString(id) + " does not exist"
  }

  function MissingProductMessage(id: int): string {
    "Product with ID " + IntToString(id) + " does not exist"
  }

  /** The bulk mutation's reason for an email that is already stored. */
  function DuplicateEmailReason(email: string): string {
    "Email '" + email + "' already exists"
  }

  /** The bulk mutation's error line for the item at 1-based `position`. */
  function ItemError(position: nat, reason: string): string {
    ItemPrefix(position) + reason
  }

  function ItemPrefix(position: nat): string {
    "Customer " + NatToString(position) + ": "
  }

  /** Some stored customer already has exactly this email. */
  predicate EmailTaken(customers: map<int, Customer>, email: string) {
    exists id :: id in customers && customers[id].email == email
  }

  /** A phone argument that Python treats as true: present and not empty. */
  predicate PhoneGiven(phone: Option<string>) {
    phone.Some? && phone.value != ""
  }

  /** `phone or None`: an empty phone is stored as null. */
  function StoredPhone(phone: Option<string>): (r: Option<string>)
    ensures r.Some? <==> PhoneGiven(phone)
    ensures r.Some? ==> r == phone
  {
    if PhoneGiven(phone) then phone else None
  }

  /** The checks of the single-customer mutation: email uniqueness, then the phone pattern. */
  function CustomerRejection(customers: map<int, Customer>, input: CustomerInput): (r: Option<string>)
    ensures EmailTaken(customers, input.email) ==> r == Some(EmailExistsMessage)
    ensures !EmailTaken(customers, input.email) && PhoneGiven(input.phone) && !AcceptedByCreateCustomer(input.phone.value)
            ==> r == Some(PhoneFormatMessage)
    ensures r.None? <==> !EmailTaken(customers, input.email)
                         && (PhoneGiven(input.phone) ==> AcceptedByCreateCustomer(input.phone.value))
  {
    if EmailTaken(customers, input.email) then Some(EmailExistsMessage)
    else if PhoneGiven(input.phone) && !AcceptedByCreateCustomer(input.phone.value) then Some(PhoneFormatMessage)
    else None
  }

  /** The per-item checks of the bulk mutation: the same order, the anchored pattern, other wording. */
  function BulkRejection(customers: map<int, Customer>, input: CustomerInput): (r: Option<string>)
    ensures EmailTaken(customers, input.email) ==> r == Some(DuplicateEmailReason(input.email))
    ensures !EmailTaken(customers, input.email) && PhoneGiven(input.phone) && !ValidPhone(input.phone.value)
            ==> r == Some(InvalidPhoneReason)
    ensures r.None? <==> !EmailTaken(customers, input.email)
                         && (PhoneGiven(input.phone) ==> ValidPhone(input.phone.value))
  {
    if EmailTaken(customers, input.email) then Some(DuplicateEmailReason(input.email))
    else if PhoneGiven(input.phone) && !ValidPhone(input.phone.value) then Some(InvalidPhoneReason)
    else None
  }

  /** `input.stock if input.stock is not None else 0` */
  function StockOrDefault(stock: Option<int>): (r: int)
    ensures stock.None? ==> r == DefaultStock
    ensures stock.Some? ==> r == stock.value
  {
    stock.GetOr(DefaultStock)
  }

  /** The checks of the product mutation: price first, then the defaulted stock. */
  function ProductRejection(input: ProductInput): (r: Option<string>)
    ensures input.price <= 0 ==> r == Some(PriceMessage)
    ensures input.price > 0 && StockOrDefault(input.stock) < 0 ==> r == Some(StockMessage)
    ensures r.None? <==> input.price > 0 && StockOrDefault(input.stock) >= 0
  {
    if input.price <= 0 then Some(PriceMessage)
    else if StockOrDefault(input.stock) < 0 then Some(StockMessage)
    else None
  }

  /** The position of the first requested id, in list order, that names no stored product. */
  function FirstMissing(ids: seq<int>, products: map<int, Product>): (r: Option<nat>)
    ensures r.None? <==> forall i :: 0 <= i < |ids| ==> ids[i] in products
    ensures r.Some? ==> r.value < |ids| && ids[r.value] !in products
                        && forall i :: 0 <= i < r.value ==> ids[i] in products
    decreases |ids|
  {
    if ids == [] then None
    else if ids[0] !in products then Some(0)
    else match FirstMissing(ids[1..], products)
      case None => None
      case Some(k) => Some(k + 1)
  }

  /** A missing id with every earlier id present is the first missing one. */
  lemma FirstMissingAt(ids: seq<int>, products: map<int, Product>, k: nat)
    requires k < |ids| && ids[k] !in products
    requires forall j :: 0 <= j < k ==> ids[j] in products
    ensures FirstMissing(ids, products) == Some(k)
  {
  }

  /**
   * The checks of the order mutation, in precedence order: the customer,
   * then a non-empty selection, then every product id in list order.
   */
  function OrderRejection(customers: map<int, Customer>, products: map<int, Product>, input: OrderInput): (r: Option<string>)
    ensures input.customerId !in customers ==> r == Some(MissingCustomerMessage(input.customerId))
    ensures input.customerId in customers && input.productIds == [] ==> r == Some(EmptySelectionMessage)
    ensures input.customerId in customers && input.productIds != [] && FirstMissing(input.productIds, products).Some?
            ==> r == Some(MissingProductMessage(input.productIds[FirstMissing(input.productIds, products).value]))
    ensures r.None? <==> input.customerId in customers && input.productIds != []
                         && forall i :: 0 <= i < |input.productIds| ==> input.productIds[i] in products
  {
    if input.customerId !in customers then Some(MissingCustomerMessage(input.customerId))
    else if input.productIds == [] then Some(EmptySelectionMessage)
    else match FirstMissing(input.productIds, products)
      case Some(k) => Some(MissingProductMessage(input.productIds[k]))
      case None => None
  }
}
