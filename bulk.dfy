/**
 * The specification of the bulk customer mutation: the batch is processed
 * item by item against the customer table as the earlier items left it; a
 * failing item adds one error line and the batch goes on.
 */
module Bulk {
  import opened Wrappers
  import opened Phone
  import opened Entities
  import opened Validation
  import opened Database

  /** The customer table and counter, plus what the batch has reported so far. */
  datatype BulkState = BulkState(
    customers: map<int, Customer>,
    nextId: int,
    created: seq<Saved<Customer>>,
    errors: seq<string>)

  /** One item at 1-based `position`: an error line, or a new customer under the next id. */
  function BulkStep(s: BulkState, input: CustomerInput, position: nat, now: Instant): BulkState {
    match BulkRejection(s.customers, input)
    case Some(reason) => s.(errors := s.errors + [ItemError(position, reason)])
    case None =>
      var c := Customer(input.name, input.email, StoredPhone(input.phone), now);
      s.(customers := s.customers[s.nextId := c], nextId := s.nextId + 1,
         created := s.created + [Saved(s.nextId, c)])
  }

  /** The state after the items of `inputs`, in order. */
  function BulkRun(start: BulkState, inputs: seq<CustomerInput>, now: Instant): BulkState
    decreases |inputs|
  {
    if inputs == [] then start
    else BulkStep(BulkRun(start, inputs[..|inputs| - 1], now), inputs[|inputs| - 1], |inputs|, now)
  }

  /** The 1-based positions of the items that were rejected, in input order. */
  function FailedPositions(start: BulkState, inputs: seq<CustomerInput>, now: Instant): seq<nat>
    decreases |inputs|
  {
    if inputs == [] then []
    else
      var prefix := inputs[..|inputs| - 1];
      FailedPositions(start, prefix, now)
      + (if BulkRejection(BulkRun(start, prefix, now).customers, inputs[|inputs| - 1]).Some? then [|inputs|] else [])
  }

  /** `s` begins with `p`. */
  predicate IsPrefix(p: string, s: string) {
    |p| <= |s| && s[..|p|] == p
  }

  /** The phone rule of the bulk path: null, or non-empty and fully anchored. */
  ghost predicate BulkPhoneOk(phone: Option<string>) {
    phone.None? || (phone.value != "" && ValidPhone(phone.value))
  }

  /**
   * Every item yields exactly one outcome: what was created plus the error
   * lines grow by the number of items, and earlier reports are kept.
   */
  lemma {:induction false} BulkAccounting(start: BulkState, inputs: seq<CustomerInput>, now: Instant)
    ensures var r := BulkRun(start, inputs, now);
      && |r.created| + |r.errors| == |start.created| + |start.errors| + |inputs|
      && |start.created| <= |r.created| && |start.errors| <= |r.errors|
      && r.created[..|start.created|] == start.created
      && r.errors[..|start.errors|] == start.errors
    decreases |inputs|
  {
    if inputs != [] {
      BulkAccounting(start, inputs[..|inputs| - 1], now);
    }
  }

  /**
   * The error lines are tagged with the positions of the failing items:
   * one line per failing position, in increasing order, each starting with
   * "Customer k: ".
   */
  lemma {:induction false} BulkErrorsTagged(start: BulkState, inputs: seq<CustomerInput>, now: Instant)
    ensures var r := BulkRun(start, inputs, now);
      var fp := FailedPositions(start, inputs, now);
      && |r.errors| == |start.errors| + |fp|
      && (forall j :: 0 <= j < |fp| ==> 1 <= fp[j] <= |inputs|)
      && (forall j :: 0 < j < |fp| ==> fp[j - 1] < fp[j])
      && (forall j :: 0 <= j < |fp| ==> IsPrefix(ItemPrefix(fp[j]), r.errors[|start.errors| + j]))
    decreases |inputs|
  {
    if inputs != [] {
      var prefix := inputs[..|inputs| - 1];
      BulkErrorsTagged(start, prefix, now);
      BulkAccounting(start, prefix, now);
      var p := BulkRun(start, prefix, now);
      var r := BulkRun(start, inputs, now);
      var fp := FailedPositions(start, inputs, now);
      var fp0 := FailedPositions(start, prefix, now);
      assert r.errors[..|p.errors|] == p.errors;
      forall j | 0 <= j < |fp| ensures IsPrefix(ItemPrefix(fp[j]), r.errors[|start.errors| + j]) {
        if j < |fp0| {
          assert r.errors[|start.errors| + j] == p.errors[|start.errors| + j];
        } else {
          var reason := BulkRejection(p.customers, inputs[|inputs| - 1]).value;
          assert r.errors[|start.errors| + j] == ItemError(|inputs|, reason);
          assert (ItemPrefix(|inputs|) + reason)[..|ItemPrefix(|inputs|)|] == ItemPrefix(|inputs|);
        }
      }
    }
  }

  /**
   * The batch keeps the customer table's rules: ids below the counter,
   * unique emails, and only accepted phones; what it creates also passes the
   * anchored pattern.
   */
  lemma {:induction false} BulkKeepsCustomersOk(start: BulkState, inputs: seq<CustomerInput>, now: Instant)
    requires CustomersOk(start.customers, start.nextId)
    ensures var r := BulkRun(start, inputs, now);
      && CustomersOk(r.customers, r.nextId)
      && r.nextId == start.nextId + |r.created| - |start.created|
      && (forall id :: id in start.customers ==> id in r.customers && r.customers[id] == start.customers[id])
      && (forall id :: id in r.customers ==> id in start.customers || start.nextId <= id < r.nextId)
      && (forall j :: |start.created| <= j < |r.created| ==>
            && r.created[j].id == start.nextId + j - |start.created|
            && r.created[j].id in r.customers
            && r.customers[r.created[j].id] == r.created[j].value
            && r.created[j].value.createdAt == now
            && BulkPhoneOk(r.created[j].value.phone))
    decreases |inputs|
  {
    if inputs != [] {
      var prefix := inputs[..|inputs| - 1];
      var x := inputs[|inputs| - 1];
      BulkKeepsCustomersOk(start, prefix, now);
      BulkAccounting(start, prefix, now);
      var p := BulkRun(start, prefix, now);
      if BulkRejection(p.customers, x).None? {
        var c := Customer(x.name, x.email, StoredPhone(x.phone), now);
        if PhoneGiven(x.phone) { ValidPhoneIsAccepted(x.phone.value); }
        assert StoredPhoneOk(c.phone);
      }
    }
  }

  /** Every row of `a` is in `b`, unchanged. */
  ghost predicate Extends(a: map<int, Customer>, b: map<int, Customer>) {
    forall id :: id in a ==> id in b && b[id] == a[id]
  }

  /** One item never removes or changes a stored customer. */
  lemma BulkStepExtends(s: BulkState, input: CustomerInput, position: nat, now: Instant)
    requires IdsBelow(s.customers, s.nextId)
    ensures Extends(s.customers, BulkStep(s, input, position, now).customers)
  {
  }

  /** The customers of a shorter prefix of the batch are all still there after a longer one. */
  lemma {:induction false} BulkPrefixGrows(start: BulkState, inputs: seq<CustomerInput>, m: nat, n: nat, now: Instant)
    requires CustomersOk(start.customers, start.nextId)
    requires m <= n <= |inputs|
    ensures Extends(BulkRun(start, inputs[..m], now).customers, BulkRun(start, inputs[..n], now).customers)
    decreases n
  {
    if m < n {
      BulkPrefixGrows(start, inputs, m, n - 1, now);
      assert inputs[..n][..n - 1] == inputs[..n - 1];
      var p := BulkRun(start, inputs[..n - 1], now);
      BulkKeepsCustomersOk(start, inputs[..n - 1], now);
      assert IdsBelow(p.customers, p.nextId);
      BulkStepExtends(p, inputs[n - 1], n, now);
      assert BulkRun(start, inputs[..n], now) == BulkStep(p, inputs[n - 1], n, now);
    }
  }

  /**
   * Within one batch, an item that repeats the email of an earlier item that
   * was created is rejected as a duplicate.
   */
  lemma BulkRejectsRepeatedEmail(start: BulkState, inputs: seq<CustomerInput>, i: nat, j: nat, now: Instant)
    requires CustomersOk(start.customers, start.nextId)
    requires i < j < |inputs| && inputs[i].email == inputs[j].email
    requires BulkRejection(BulkRun(start, inputs[..i], now).customers, inputs[i]).None?
    ensures BulkRejection(BulkRun(start, inputs[..j], now).customers, inputs[j])
            == Some(DuplicateEmailReason(inputs[j].email))
  {
    var p := BulkRun(start, inputs[..i], now);
    assert inputs[..i + 1][..i] == inputs[..i];
    var q := BulkRun(start, inputs[..i + 1], now);
    assert p.nextId in q.customers && q.customers[p.nextId].email == inputs[i].email;
    BulkPrefixGrows(start, inputs, i + 1, j, now);
    var b := BulkRun(start, inputs[..j], now).customers;
    assert Extends(q.customers, b);
    assert p.nextId in b && b[p.nextId].email == inputs[j].email;
  }

  /**
   * Three items where the second repeats the first one's email: two
   * customers are created and the one error line names item 2.
   */
  lemma BulkSecondDuplicateExample(e1: string, e2: string, now: Instant)
    requires e1 != e2
    ensures var inputs := [CustomerInput("A", e1, None), CustomerInput("B", e1, None), CustomerInput("C", e2, None)];
      var r := BulkRun(BulkState(map[], 1, [], []), inputs, now);
      && |r.created| == 2
      && r.errors == [ItemError(2, DuplicateEmailReason(e1))]
      && |r.customers| == 2
  {
    var inputs := [CustomerInput("A", e1, None), CustomerInput("B", e1, None), CustomerInput("C", e2, None)];
    var s0 := BulkState(map[], 1, [], []);
    assert inputs[..0] == [];
    assert inputs[..1][..0] == [];
    assert inputs[..2][..1] == inputs[..1];
    assert inputs[..3] == inputs;
    assert inputs[..3][..2] == inputs[..2];
    assert BulkRun(s0, inputs[..1][..0], now) == s0;
    assert !EmailTaken(s0.customers, e1);
    var s1 := BulkStep(s0, inputs[0], 1, now);
    assert BulkRun(s0, inputs[..1], now) == s1;
    assert s1.customers == map[1 := Customer("A", e1, None, now)];
    assert s1.customers[1].email == e1;
    var s2 := BulkStep(s1, inputs[1], 2, now);
    assert BulkRun(s0, inputs[..2], now) == s2;
    assert s2 == s1.(errors := [ItemError(2, DuplicateEmailReason(e1))]);
    assert !EmailTaken(s2.customers, e2);
    var s3 := BulkStep(s2, inputs[2], 3, now);
    assert BulkRun(s0, inputs, now) == s3;
    assert s3.customers == map[1 := Customer("A", e1, None, now), 2 := Customer("C", e2, None, now)];
  }
}
