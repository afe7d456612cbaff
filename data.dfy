/** The store (Data/AppDbContext.cs) as four in-memory tables, the
    consistency the services keep, and the store's delete rule for orders:
    payments that referenced a deleted order have their reference set to
    null. */
module Data {
  import opened Wrappers
  import opened Calendar
  import opened Models
  import opened Seqs

  /** No two rows of a table share a primary key. */
  predicate UniqueKeys<T>(s: seq<T>, key: T -> int) {
    forall i, j :: 0 <= i < j < |s| ==> key(s[i]) != key(s[j])
  }

  /** The first row whose key is `id` (`FindAsync` / `FirstOrDefaultAsync`). */
  function IndexOfKey<T>(s: seq<T>, key: T -> int, id: int): (r: Option<nat>)
    ensures r.Some? ==> r.value < |s| && key(s[r.value]) == id
    ensures r.Some? ==> forall j :: 0 <= j < r.value ==> key(s[j]) != id
    ensures r.None? <==> forall j :: 0 <= j < |s| ==> key(s[j]) != id
    decreases |s|
  {
    if s == [] then None
    else if key(s[0]) == id then Some(0)
    else match IndexOfKey(s[1..], key, id)
      case None => None
      case Some(k) => Some(k + 1)
  }

  /** The key the store gives a new row: one more than the largest key in
      use (SQLite's rule for an integer primary key), 1 for an empty table. */
  function NextKey<T>(s: seq<T>, key: T -> int): (k: int)
    ensures k >= 1
    ensures forall j :: 0 <= j < |s| ==> key(s[j]) < k
    decreases |s|
  {
    if s == [] then 1
    else
      var rest := NextKey(s[1..], key);
      if key(s[0]) + 1 > rest then key(s[0]) + 1 else rest
  }

  function ClientKey(c: Client): int { c.clientId }
  function OrderKey(o: Order): int { o.orderId }
  function PaymentKey(p: Payment): int { p.paymentId }
  function SpentKey(e: DailySpent): int { e.spentId }
  function Category(e: DailySpent): string { e.category }
  function SpentBy(e: DailySpent): string { e.spentBy }

  /** The order with the given id, if any. */
  function FindOrder(orders: seq<Order>, orderId: int): (r: Option<Order>)
    ensures r.Some? ==> r.value in orders && r.value.orderId == orderId
    ensures r.None? <==> forall o :: o in orders ==> o.orderId != orderId
  {
    match IndexOfKey(orders, OrderKey, orderId)
    case None => None
    case Some(k) => Some(orders[k])
  }

  /** Every payment's order reference names an existing order. */
  predicate PaymentRefsResolve(orders: seq<Order>, payments: seq<Payment>) {
    forall p :: p in payments && p.orderId.Some? ==> FindOrder(orders, p.orderId.value).Some?
  }

  /** What the store guarantees: unique keys and resolvable order references. */
  predicate Consistent(clients: seq<Client>, orders: seq<Order>, payments: seq<Payment>, spents: seq<DailySpent>) {
    && UniqueKeys(clients, ClientKey)
    && UniqueKeys(orders, OrderKey)
    && UniqueKeys(payments, PaymentKey)
    && UniqueKeys(spents, SpentKey)
    && PaymentRefsResolve(orders, payments)
  }

  /** Whether a payment counts towards an order's paid total, leaving out the
      payment `excluding` names (the one being edited). */
  predicate CountsToward(p: Payment, orderId: int, excluding: Option<int>) {
    p.orderId == Some(orderId) && Some(p.paymentId) != excluding
  }

  function AmountReceived(p: Payment): int { p.amountReceived }

  /** The total already paid towards an order. */
  function PaidForOrder(payments: seq<Payment>, orderId: int, excluding: Option<int>): int {
    Sum(Filter(payments, p => CountsToward(p, orderId, excluding)), AmountReceived)
  }

  /** The no-overpayment invariant: no order has received more than its amount. */
  predicate NoOverpayment(orders: seq<Order>, payments: seq<Payment>) {
    forall o :: o in orders ==> PaidForOrder(payments, o.orderId, None) <= o.orderAmount
  }

  /** The store's ON DELETE SET NULL rule for Payment.OrderId. */
  function DetachPayments(payments: seq<Payment>, orderId: int): (r: seq<Payment>)
    ensures |r| == |payments|
    ensures forall i :: 0 <= i < |r| ==>
      r[i] == if payments[i].orderId == Some(orderId) then payments[i].(orderId := None) else payments[i]
  {
    Map(payments, (p: Payment) => if p.orderId == Some(orderId) then p.(orderId := None) else p)
  }

  /** The table without its row at `i`. */
  function RemoveAt<T>(s: seq<T>, i: nat): (r: seq<T>)
    requires i < |s|
    ensures |r| == |s| - 1
    ensures forall j :: 0 <= j < |r| ==> r[j] == if j < i then s[j] else s[j + 1]
  {
    s[..i] + s[i + 1..]
  }

  /** A payment's own contribution to an order's paid total. */
  function Contribution(p: Payment, orderId: int, excluding: Option<int>): int {
    if CountsToward(p, orderId, excluding) then p.amountReceived else 0
  }

  lemma PaidForOrderSplit(a: seq<Payment>, x: Payment, b: seq<Payment>, orderId: int, excluding: Option<int>)
    ensures PaidForOrder(a + [x] + b, orderId, excluding)
         == PaidForOrder(a, orderId, excluding) + Contribution(x, orderId, excluding) + PaidForOrder(b, orderId, excluding)
  {
    var c := p => CountsToward(p, orderId, excluding);
    FilterConcat(a + [x], b, c);
    FilterConcat(a, [x], c);
    SumConcat(Filter(a, c) + Filter([x], c), Filter(b, c), AmountReceived);
    SumConcat(Filter(a, c), Filter([x], c), AmountReceived);
    assert Filter([x], c) == if c(x) then [x] else [];
  }

  lemma PaidForOrderConcat(a: seq<Payment>, b: seq<Payment>, orderId: int, excluding: Option<int>)
    ensures PaidForOrder(a + b, orderId, excluding) == PaidForOrder(a, orderId, excluding) + PaidForOrder(b, orderId, excluding)
  {
    var c := p => CountsToward(p, orderId, excluding);
    FilterConcat(a, b, c);
    SumConcat(Filter(a, c), Filter(b, c), AmountReceived);
  }

  /** Leaving out a payment id no payment carries changes nothing. */
  lemma PaidForOrderExcludingAbsent(s: seq<Payment>, orderId: int, paymentId: int)
    requires forall p :: p in s ==> p.paymentId != paymentId
    ensures PaidForOrder(s, orderId, Some(paymentId)) == PaidForOrder(s, orderId, None)
  {
    FilterAgree(s, p => CountsToward(p, orderId, Some(paymentId)), p => CountsToward(p, orderId, None));
  }

  /** An accepted new payment keeps every order within its amount: the
      guard compared the order's paid total plus the new amount with it. */
  lemma {:induction false} AppendKeepsNoOverpayment(orders: seq<Order>, payments: seq<Payment>, p: Payment)
    requires NoOverpayment(orders, payments)
    requires UniqueKeys(orders, OrderKey)
    requires p.orderId.Some? ==> FindOrder(orders, p.orderId.value).Some?
    requires p.orderId.Some? ==>
      PaidForOrder(payments, p.orderId.value, None) + p.amountReceived <= FindOrder(orders, p.orderId.value).value.orderAmount
    ensures NoOverpayment(orders, payments + [p])
  {
    forall o | o in orders ensures PaidForOrder(payments + [p], o.orderId, None) <= o.orderAmount {
      PaidForOrderSplit(payments, p, [], o.orderId, None);
      assert payments + [p] + [] == payments + [p];
      if CountsToward(p, o.orderId, None) {
        var found := FindOrder(orders, o.orderId).value;
        SameKeySameRow(orders, OrderKey, o, found);
      }
    }
  }

  /** In a table with unique keys, two rows with the same key are the same row. */
  lemma SameKeySameRow<T>(s: seq<T>, key: T -> int, x: T, y: T)
    requires UniqueKeys(s, key)
    requires x in s && y in s && key(x) == key(y)
    ensures x == y
  {
  }

  /** Replacing the payment at `k` by `q` (same id): every order's paid
      total becomes the others' total plus `q`'s contribution, and the old
      total was the others' total plus the old payment's contribution. */
  lemma {:induction false} ReplaceTotals(payments: seq<Payment>, k: nat, q: Payment, orderId: int)
    requires UniqueKeys(payments, PaymentKey)
    requires k < |payments| && q.paymentId == payments[k].paymentId
    ensures PaidForOrder(payments[k := q], orderId, None)
         == PaidForOrder(payments, orderId, Some(q.paymentId)) + Contribution(q, orderId, None)
    ensures PaidForOrder(payments, orderId, None)
         == PaidForOrder(payments, orderId, Some(q.paymentId)) + Contribution(payments[k], orderId, None)
  {
    var pid := q.paymentId;
    var a, b := payments[..k], payments[k + 1..];
    assert payments == a + [payments[k]] + b;
    assert payments[k := q] == a + [q] + b;
    forall x | x in a ensures x.paymentId != pid {
      var i :| 0 <= i < |a| && a[i] == x;
      assert x == payments[i];
    }
    forall x | x in b ensures x.paymentId != pid {
      var i :| 0 <= i < |b| && b[i] == x;
      assert x == payments[k + 1 + i];
    }
    PaidForOrderSplit(a, q, b, orderId, None);
    PaidForOrderSplit(a, payments[k], b, orderId, None);
    PaidForOrderSplit(a, payments[k], b, orderId, Some(pid));
    PaidForOrderExcludingAbsent(a, orderId, pid);
    PaidForOrderExcludingAbsent(b, orderId, pid);
  }

  /** An accepted edit keeps every order within its amount, provided the
      payment it replaces was not negative: the guard bounds the order the
      payment now points to, and every other order loses the old amount. */
  lemma {:induction false} ReplaceKeepsNoOverpayment(orders: seq<Order>, payments: seq<Payment>, k: nat, q: Payment)
    requires NoOverpayment(orders, payments)
    requires UniqueKeys(orders, OrderKey)
    requires UniqueKeys(payments, PaymentKey)
    requires k < |payments| && q.paymentId == payments[k].paymentId
    requires payments[k].amountReceived >= 0
    requires q.orderId.Some? ==> FindOrder(orders, q.orderId.value).Some?
    requires q.orderId.Some? ==>
      PaidForOrder(payments, q.orderId.value, Some(q.paymentId)) + q.amountReceived
        <= FindOrder(orders, q.orderId.value).value.orderAmount
    ensures NoOverpayment(orders, payments[k := q])
  {
    forall o | o in orders ensures PaidForOrder(payments[k := q], o.orderId, None) <= o.orderAmount {
      ReplaceTotals(payments, k, q, o.orderId);
      if CountsToward(q, o.orderId, None) {
        SameKeySameRow(orders, OrderKey, o, FindOrder(orders, o.orderId).value);
      }
    }
  }

  /** Every payment is for a positive amount, as the add path demands. */
  predicate PositiveAmounts(payments: seq<Payment>) {
    forall p :: p in payments ==> p.amountReceived > 0
  }

  /** The payment ledger's health: no order overpaid, every payment positive. */
  predicate Balanced(orders: seq<Order>, payments: seq<Payment>) {
    NoOverpayment(orders, payments) && PositiveAmounts(payments)
  }

  /** Payments none of which counts towards the order add up to nothing. */
  lemma {:induction false} PaidForOrderNothingCounts(s: seq<Payment>, orderId: int, excluding: Option<int>)
    requires forall p :: p in s ==> !CountsToward(p, orderId, excluding)
    ensures PaidForOrder(s, orderId, excluding) == 0
    decreases |s|
  {
    if s != [] {
      assert s == [] + [s[0]] + s[1..];
      PaidForOrderSplit([], s[0], s[1..], orderId, excluding);
      PaidForOrderNothingCounts(s[1..], orderId, excluding);
    }
  }

  /** Removing a payment that is not negative lowers no order's paid total. */
  lemma RemoveKeepsNoOverpayment(orders: seq<Order>, payments: seq<Payment>, k: nat)
    requires NoOverpayment(orders, payments)
    requires k < |payments| && payments[k].amountReceived >= 0
    ensures NoOverpayment(orders, RemoveAt(payments, k))
  {
    var a, b := payments[..k], payments[k + 1..];
    assert payments == a + [payments[k]] + b;
    assert RemoveAt(payments, k) == a + b;
    forall o | o in orders ensures PaidForOrder(RemoveAt(payments, k), o.orderId, None) <= o.orderAmount {
      PaidForOrderSplit(a, payments[k], b, o.orderId, None);
      PaidForOrderConcat(a, b, o.orderId, None);
    }
  }

  /** A non-empty table's paid total is its first payment's contribution
      plus the rest's. */
  lemma PaidForOrderCons(x: Payment, rest: seq<Payment>, orderId: int, excluding: Option<int>)
    ensures PaidForOrder([x] + rest, orderId, excluding) == Contribution(x, orderId, excluding) + PaidForOrder(rest, orderId, excluding)
  {
    PaidForOrderSplit([], x, rest, orderId, excluding);
    assert [] + [x] + rest == [x] + rest;
  }

  /** Detaching a non-empty table detaches its first payment and then the rest. */
  lemma DetachCons(payments: seq<Payment>, orderId: int)
    requires payments != []
    ensures DetachPayments(payments, orderId) == [DetachPayments(payments, orderId)[0]] + DetachPayments(payments[1..], orderId)
  {
    var r, t := DetachPayments(payments, orderId), DetachPayments(payments[1..], orderId);
    forall i | 1 <= i < |r| ensures r[i] == t[i - 1] {
      assert payments[1..][i - 1] == payments[i];
    }
  }

  /** Setting the references to one order to null leaves every other
      order's paid total as it was. */
  lemma {:induction false} DetachKeepsOtherTotals(payments: seq<Payment>, orderId: int, other: int, excluding: Option<int>)
    requires other != orderId
    ensures PaidForOrder(DetachPayments(payments, orderId), other, excluding) == PaidForOrder(payments, other, excluding)
    decreases |payments|
  {
    if payments != [] {
      var x, rest := payments[0], payments[1..];
      var d := DetachPayments(payments, orderId);
      assert payments == [x] + rest;
      DetachCons(payments, orderId);
      PaidForOrderCons(x, rest, other, excluding);
      PaidForOrderCons(d[0], DetachPayments(rest, orderId), other, excluding);
      assert Contribution(d[0], other, excluding) == Contribution(x, other, excluding);
      DetachKeepsOtherTotals(rest, orderId, other, excluding);
    }
  }

  lemma RemoveAtMembers<T>(s: seq<T>, i: nat, x: T)
    requires i < |s| && x in RemoveAt(s, i)
    ensures exists j :: 0 <= j < |s| && j != i && s[j] == x
  {
    var j :| 0 <= j < |RemoveAt(s, i)| && RemoveAt(s, i)[j] == x;
    if j < i { assert s[j] == x; } else { assert s[j + 1] == x; }
  }

  lemma RemoveAtKeeps<T>(s: seq<T>, i: nat, j: nat)
    requires i < |s| && j < |s| && j != i
    ensures s[j] in RemoveAt(s, i)
  {
    if j < i { assert RemoveAt(s, i)[j] == s[j]; } else { assert RemoveAt(s, i)[j - 1] == s[j]; }
  }

  /** After an order is deleted, every remaining payment reference still
      resolves: the references to the deleted order were set to null. */
  lemma DeleteOrderKeepsRefs(orders: seq<Order>, payments: seq<Payment>, i: nat)
    requires UniqueKeys(orders, OrderKey) && PaymentRefsResolve(orders, payments)
    requires i < |orders|
    ensures PaymentRefsResolve(RemoveAt(orders, i), DetachPayments(payments, orders[i].orderId))
  {
    var id := orders[i].orderId;
    var orders', payments' := RemoveAt(orders, i), DetachPayments(payments, id);
    forall p | p in payments' && p.orderId.Some? ensures FindOrder(orders', p.orderId.value).Some? {
      var j :| 0 <= j < |payments'| && payments'[j] == p;
      assert payments[j] in payments;
      var target := FindOrder(orders, p.orderId.value).value;
      var t :| 0 <= t < |orders| && orders[t] == target;
      RemoveAtKeeps(orders, i, t);
    }
  }

  /** Deleting an order (with the store nulling the references to it)
      keeps the store consistent and the ledger balanced. */
  lemma DeleteOrderKeepsLedger(clients: seq<Client>, orders: seq<Order>, payments: seq<Payment>,
                               spents: seq<DailySpent>, i: nat)
    requires Consistent(clients, orders, payments, spents)
    requires i < |orders|
    ensures Consistent(clients, RemoveAt(orders, i), DetachPayments(payments, orders[i].orderId), spents)
    ensures Balanced(orders, payments) ==> Balanced(RemoveAt(orders, i), DetachPayments(payments, orders[i].orderId))
  {
    var id := orders[i].orderId;
    var orders', payments' := RemoveAt(orders, i), DetachPayments(payments, id);
    DeleteOrderKeepsRefs(orders, payments, i);
    assert UniqueKeys(orders', OrderKey) by {
      forall x, y | 0 <= x < y < |orders'| ensures orders'[x].orderId != orders'[y].orderId {
        if y < i {
        } else if x < i {
          assert orders'[y] == orders[y + 1];
        } else {
          assert orders'[x] == orders[x + 1] && orders'[y] == orders[y + 1];
        }
      }
    }
    assert UniqueKeys(payments', PaymentKey) by {
      forall x, y | 0 <= x < y < |payments'| ensures payments'[x].paymentId != payments'[y].paymentId {
        assert payments'[x].paymentId == payments[x].paymentId;
        assert payments'[y].paymentId == payments[y].paymentId;
      }
    }
    if Balanced(orders, payments) {
      forall o | o in orders' ensures PaidForOrder(payments', o.orderId, None) <= o.orderAmount {
        RemoveAtMembers(orders, i, o);
        DetachKeepsOtherTotals(payments, id, o.orderId, None);
      }
      forall p | p in payments' ensures p.amountReceived > 0 {
        var j :| 0 <= j < |payments'| && payments'[j] == p;
        assert payments[j] in payments;
      }
    }
  }

  /** A new order with a fresh key has nothing paid towards it yet, so it
      keeps the store consistent and, with a positive amount, the ledger balanced. */
  lemma AddOrderKeepsLedger(clients: seq<Client>, orders: seq<Order>, payments: seq<Payment>,
                            spents: seq<DailySpent>, o: Order)
    requires Consistent(clients, orders, payments, spents)
    requires o.orderId == NextKey(orders, OrderKey)
    ensures Consistent(clients, orders + [o], payments, spents)
    ensures Balanced(orders, payments) && o.orderAmount > 0 ==> Balanced(orders + [o], payments)
  {
    forall p | p in payments && p.orderId.Some? ensures FindOrder(orders + [o], p.orderId.value).Some? {
      var found := FindOrder(orders, p.orderId.value).value;
      assert found in orders + [o];
    }
    forall x | x in orders ensures x.orderId != o.orderId {
      var j :| 0 <= j < |orders| && orders[j] == x;
    }
    assert FindOrder(orders, o.orderId).None?;
    PaidForOrderNothingCounts(payments, o.orderId, None);
  }

  /** A row under a fresh key keeps a table's keys unique. */
  lemma AppendFreshKeepsUnique<T>(s: seq<T>, key: T -> int, x: T)
    requires UniqueKeys(s, key) && key(x) == NextKey(s, key)
    ensures UniqueKeys(s + [x], key)
  {
  }

  /** Rewriting a row without changing its key keeps a table's keys unique. */
  lemma ReplaceKeepsUnique<T>(s: seq<T>, key: T -> int, k: nat, x: T)
    requires UniqueKeys(s, key) && k < |s| && key(x) == key(s[k])
    ensures UniqueKeys(s[k := x], key)
  {
  }

  /** Removing a row keeps a table's keys unique. */
  lemma RemoveKeepsUnique<T>(s: seq<T>, key: T -> int, k: nat)
    requires UniqueKeys(s, key) && k < |s|
    ensures UniqueKeys(RemoveAt(s, k), key)
  {
    forall x, y | 0 <= x < y < |RemoveAt(s, k)| ensures key(RemoveAt(s, k)[x]) != key(RemoveAt(s, k)[y]) {
      var x', y' := if x < k then x else x + 1, if y < k then y else y + 1;
      assert RemoveAt(s, k)[x] == s[x'] && RemoveAt(s, k)[y] == s[y'];
    }
  }

  /** A selection of a table's rows keeps its keys unique. */
  lemma {:induction false} FilterKeepsUniqueKeys<T(!new)>(s: seq<T>, p: T -> bool, key: T -> int)
    requires UniqueKeys(s, key)
    ensures UniqueKeys(Filter(s, p), key)
    decreases |s|
  {
    if s != [] {
      var tail := s[1..];
      assert UniqueKeys(tail, key) by {
        forall i, j | 0 <= i < j < |tail| ensures key(tail[i]) != key(tail[j]) {
          assert tail[i] == s[i + 1] && tail[j] == s[j + 1];
        }
      }
      FilterKeepsUniqueKeys(tail, p, key);
      var rest := Filter(tail, p);
      assert Filter(s, p) == (if p(s[0]) then [s[0]] else []) + rest;
      if p(s[0]) {
        forall x | x in rest ensures key(x) != key(s[0]) {
          var j :| 0 <= j < |tail| && tail[j] == x;
          assert x == s[j + 1];
        }
        FreshHeadKeepsUniqueKeys(s[0], rest, key);
      } else {
        assert Filter(s, p) == rest;
      }
    }
  }

  lemma FreshHeadKeepsUniqueKeys<T>(x: T, s: seq<T>, key: T -> int)
    requires UniqueKeys(s, key)
    requires forall y :: y in s ==> key(y) != key(x)
    ensures UniqueKeys([x] + s, key)
  {
    var r := [x] + s;
    forall i, j | 0 <= i < j < |r| ensures key(r[i]) != key(r[j]) {
      assert r[j] == s[j - 1];
      if i == 0 {
        assert s[j - 1] in s;
      } else {
        assert r[i] == s[i - 1];
      }
    }
  }

  /** The store: one table per entity. */
  class AppDbContext {
    var clients: seq<Client>
    var orders: seq<Order>
    var payments: seq<Payment>
    var dailySpents: seq<DailySpent>

    ghost predicate Valid()
      reads this
    {
      Consistent(clients, orders, payments, dailySpents)
    }

    /** An empty database. */
    constructor ()
      ensures Valid()
      ensures clients == [] && orders == [] && payments == [] && dailySpents == []
    {
      clients, orders, payments, dailySpents := [], [], [], [];
    }
  }
}
