/** The customers page (app/dashboard/customers/page.tsx): customers are not
    stored; they are derived by grouping the store's orders, newest first, by
    customer email. */
module Customers {
  import opened Common
  import opened Orders
  import opened Grouping

  /** One row of the customers table. */
  datatype Customer = Customer(
    name: string,
    email: string,
    totalOrders: int,
    totalSpent: int,
    lastOrderDate: string)

  /** The grouping key. */
  function Email(o: Order): string { o.customerEmail }

  /** What an order adds to its customer's total spent: cancelled orders add nothing. */
  function Spent(o: Order): int { if o.status == Cancelled then 0 else o.totalAmount }

  /** The row for `email` once all of `s` is processed: name, email and date of
      the first order carrying that email, a count of every order carrying it,
      and the sum of its non-cancelled amounts. */
  function CustomerFor(s: seq<Order>, email: string): (c: Customer)
    requires email in FirstKeys(s, Email)
    ensures c.email == email
    ensures c.totalOrders >= 1
  {
    FirstKeysMember(s, Email, email);
    var p := FirstIndex(s, Email, email);
    var first := s[p];
    SumKeyAtLeastOne(s, email, p);
    Customer(first.customerName, first.customerEmail, SumKey(s, Email, email, One),
             SumKey(s, Email, email, Spent), first.createdAt)
  }

  /** An email carried by the order at `p` is counted at least once. */
  lemma {:induction false} SumKeyAtLeastOne(s: seq<Order>, email: string, p: nat)
    requires p < |s| && s[p].customerEmail == email
    ensures SumKey(s, Email, email, One) >= 1
  {
    var q := s[..|s| - 1];
    if p < |s| - 1 {
      SumKeyAtLeastOne(q, email, p);
    } else {
      SumKeyNonNegative(q, email);
    }
  }

  lemma {:induction false} SumKeyNonNegative(s: seq<Order>, email: string)
    ensures SumKey(s, Email, email, One) >= 0
  {
    if s != [] {
      SumKeyNonNegative(s[..|s| - 1], email);
    }
  }

  /** `keys` (in insertion order) and `byEmail` hold exactly the rows for the orders `s`. */
  ghost predicate Grouped(keys: seq<string>, byEmail: map<string, Customer>, s: seq<Order>)
  {
    && keys == FirstKeys(s, Email)
    && (forall k :: k in byEmail <==> k in keys)
    && forall k :: k in keys ==> byEmail[k] == CustomerFor(s, k)
  }

  /** The `customersMap` loop followed by `Array.from(customersMap.values())`;
      `null` orders give no customers. */
  method GroupCustomers(orders: Option<seq<Order>>) returns (customers: seq<Customer>)
    ensures orders.None? ==> customers == []
    ensures orders.Some? ==>
      var ks := FirstKeys(orders.value, Email);
      && |customers| == |ks|
      && forall j :: 0 <= j < |ks| ==> customers[j] == CustomerFor(orders.value, ks[j])
  {
    customers := [];
    if orders.Some? {
      var keys, byEmail := CustomersMap(orders.value);
      customers := seq(|keys|, j requires 0 <= j < |keys| => byEmail[keys[j]]);
    }
  }

  /** The `forEach` over the orders that fills `customersMap`. A JavaScript
      `Map` is modelled by its key list in insertion order and a Dafny map from
      key to entry; the entry of the order's email is created on first sight
      and then has its counters updated. */
  method CustomersMap(s: seq<Order>) returns (keys: seq<string>, byEmail: map<string, Customer>)
    ensures keys == FirstKeys(s, Email)
    ensures forall j :: 0 <= j < |keys| ==> keys[j] in byEmail && byEmail[keys[j]] == CustomerFor(s, keys[j])
  {
    keys, byEmail := [], map[];
    for i := 0 to |s|
      invariant Grouped(keys, byEmail, s[..i])
    {
      var order := s[i];
      ghost var keys0, byEmail0 := keys, byEmail;
      if order.customerEmail !in byEmail {
        byEmail := byEmail[order.customerEmail := Customer(order.customerName, order.customerEmail, 0, 0, order.createdAt)];
        keys := keys + [order.customerEmail];
      }
      ghost var created := byEmail;
      var customer := byEmail[order.customerEmail];
      customer := customer.(totalOrders := customer.totalOrders + 1);
      if order.status != Cancelled {
        customer := customer.(totalSpent := customer.totalSpent + order.totalAmount);
      }
      assert customer == Counted(created[order.customerEmail], order);
      byEmail := byEmail[order.customerEmail := customer];
      GroupedStep(keys0, byEmail0, s[..i], order, keys, created, byEmail);
      assert s[..i + 1] == s[..i] + [order];
    }
    GroupedRows(keys, byEmail, s);
  }

  /** Once every order is processed, the map's values in key order are the rows. */
  lemma GroupedRows(keys: seq<string>, byEmail: map<string, Customer>, s: seq<Order>)
    requires Grouped(keys, byEmail, s[..|s|])
    ensures keys == FirstKeys(s, Email)
    ensures forall j :: 0 <= j < |keys| ==> keys[j] in byEmail && byEmail[keys[j]] == CustomerFor(s, keys[j])
  {
    assert s[..|s|] == s;
  }

  /** A customer's row after one more of their orders: one more order, and
      its amount added unless it is cancelled. */
  function Counted(c: Customer, o: Order): (c': Customer)
    ensures c'.totalOrders == c.totalOrders + 1
    ensures c'.totalSpent == c.totalSpent + (if o.status == Cancelled then 0 else o.totalAmount)
    ensures c'.name == c.name && c'.email == c.email && c'.lastOrderDate == c.lastOrderDate
  {
    c.(totalOrders := c.totalOrders + 1, totalSpent := c.totalSpent + Spent(o))
  }

  /** One pass of the loop body keeps `Grouped`: the entry for the order's
      email is created if missing (giving `created`), then counted. */
  lemma GroupedStep(keys: seq<string>, byEmail: map<string, Customer>, p: seq<Order>, o: Order,
                    keys': seq<string>, created: map<string, Customer>, byEmail': map<string, Customer>)
    requires Grouped(keys, byEmail, p)
    requires var e := o.customerEmail;
      && (e in byEmail ==> keys' == keys && created == byEmail)
      && (e !in byEmail ==> keys' == keys + [e] && created == byEmail[e := Customer(o.customerName, e, 0, 0, o.createdAt)])
      && e in created
      && byEmail' == created[e := Counted(created[e], o)]
    ensures Grouped(keys', byEmail', p + [o])
  {
    var s := p + [o];
    assert s[..|s| - 1] == p;
    assert keys' == FirstKeys(s, Email);
    forall k | k in keys' ensures k in byEmail' && byEmail'[k] == CustomerFor(s, k) {
      StepRow(keys, byEmail, p, o, keys', created, byEmail', k);
    }
    forall k ensures k in byEmail' <==> k in keys' {
      assert k in byEmail' <==> k in created;
    }
  }

  /** The row for one key after a pass of the loop body. */
  lemma StepRow(keys: seq<string>, byEmail: map<string, Customer>, p: seq<Order>, o: Order,
                keys': seq<string>, created: map<string, Customer>, byEmail': map<string, Customer>, k: string)
    requires Grouped(keys, byEmail, p)
    requires var e := o.customerEmail;
      && (e in byEmail ==> keys' == keys && created == byEmail)
      && (e !in byEmail ==> keys' == keys + [e] && created == byEmail[e := Customer(o.customerName, e, 0, 0, o.createdAt)])
      && e in created
      && byEmail' == created[e := Counted(created[e], o)]
    requires keys' == FirstKeys(p + [o], Email) && k in keys'
    ensures k in byEmail' && byEmail'[k] == CustomerFor(p + [o], k)
  {
    var e := o.customerEmail;
    CustomerForSnoc(p, o, k);
    if k != e {
      assert k in keys;
      assert byEmail'[k] == created[k] == byEmail[k];
    } else if e in byEmail {
      var c := CustomerFor(p, e);
      assert created[e] == c;
      assert byEmail'[e] == Counted(c, o);
    } else {
      assert k !in FirstKeys(p, Email);
      assert byEmail'[e] == Counted(Customer(o.customerName, e, 0, 0, o.createdAt), o);
    }
  }

  /** How one more order changes the row for `k`. */
  lemma CustomerForSnoc(p: seq<Order>, o: Order, k: string)
    requires k in FirstKeys(p + [o], Email)
    ensures k in FirstKeys(p, Email) ==>
      var c := CustomerFor(p, k);
      var hit := o.customerEmail == k;
      CustomerFor(p + [o], k) == c.(totalOrders := c.totalOrders + (if hit then 1 else 0),
                                    totalSpent := c.totalSpent + (if hit then Spent(o) else 0))
    ensures k !in FirstKeys(p, Email) ==>
      k == o.customerEmail && CustomerFor(p + [o], k) == Customer(o.customerName, o.customerEmail, 1, Spent(o), o.createdAt)
  {
    var s := p + [o];
    assert s[..|s| - 1] == p;
    FirstKeysMember(p, Email, k);
    if k !in FirstKeys(p, Email) {
      SumKeyAbsent(p, Email, k, One);
      SumKeyAbsent(p, Email, k, Spent);
    }
  }

  /** Sum of the totalOrders column. */
  function SumTotalOrders(cs: seq<Customer>): int
  {
    if cs == [] then 0 else cs[0].totalOrders + SumTotalOrders(cs[1..])
  }

  /** Sum of the totalSpent column. */
  function SumTotalSpent(cs: seq<Customer>): int
  {
    if cs == [] then 0 else cs[0].totalSpent + SumTotalSpent(cs[1..])
  }

  lemma {:induction false} ColumnSums(cs: seq<Customer>, ks: seq<string>, s: seq<Order>)
    requires |cs| == |ks|
    requires forall j :: 0 <= j < |ks| ==> ks[j] in FirstKeys(s, Email) && cs[j] == CustomerFor(s, ks[j])
    ensures SumTotalOrders(cs) == SumOverKeys(ks, s, Email, One)
    ensures SumTotalSpent(cs) == SumOverKeys(ks, s, Email, Spent)
  {
    if cs != [] {
      ColumnSums(cs[1..], ks[1..], s);
    }
  }

  /** Every order is counted for exactly one customer, cancelled ones included;
      and the spend column adds up to the non-cancelled revenue. */
  lemma CustomerTotals(s: seq<Order>, cs: seq<Customer>)
    requires var ks := FirstKeys(s, Email);
      |cs| == |ks| && forall j :: 0 <= j < |ks| ==> cs[j] == CustomerFor(s, ks[j])
    ensures SumTotalOrders(cs) == |s|
    ensures SumTotalSpent(cs) == Total(s, Spent)
  {
    var ks := FirstKeys(s, Email);
    ColumnSums(cs, ks, s);
    SumOverFirstKeys(s, Email, One);
    SumOverFirstKeys(s, Email, Spent);
    TotalOne(s);
  }

  /** With the orders sorted newest first under `atLeastAsNew`, a customer's
      name and last order date come from an order at least as new as every
      other order of that customer. */
  lemma NewestOrderWins(s: seq<Order>, email: string, atLeastAsNew: (string, string) -> bool)
    requires email in FirstKeys(s, Email)
    requires forall i, j :: 0 <= i < j < |s| ==> atLeastAsNew(s[i].createdAt, s[j].createdAt)
    ensures var c := CustomerFor(s, email);
      forall i :: 0 <= i < |s| && s[i].customerEmail == email ==>
        (s[i].createdAt == c.lastOrderDate && s[i].customerName == c.name)
        || atLeastAsNew(c.lastOrderDate, s[i].createdAt)
  {
    FirstKeysMember(s, Email, email);
    var p := FirstIndex(s, Email, email);
    forall i | 0 <= i < |s| && s[i].customerEmail == email && i != p
      ensures atLeastAsNew(s[p].createdAt, s[i].createdAt)
    {
      assert p < i;
    }
  }
}
