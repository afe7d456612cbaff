/** Services/Implementations/OrderService.cs: creating, editing, delivering
    and deleting orders, the order queries and the order totals. */
module OrderService {
  import opened Wrappers
  import opened Calendar
  import opened Models
  import opened Seqs
  import opened Sorting
  import opened Data

  /** The order as stored by a create: the given order with a fresh key,
      status "Pending" whatever status the caller passed in, and created
      now; every other field as passed in. */
  function NewOrder(orders: seq<Order>, order: Order, now: DateTime): (r: Order)
    ensures r.orderId !in Map(orders, OrderKey)
    ensures r == order.(orderId := r.orderId, status := StatusPending, createdAt := now)
  {
    order.(orderId := NextKey(orders, OrderKey), status := StatusPending, createdAt := now)
  }

  /** `CreateOrderAsync`. */
  method CreateOrder(db: AppDbContext, order: Order, now: DateTime) returns (r: Result<Order, ServiceError>)
    requires db.Valid()
    modifies db
    ensures db.Valid()
    ensures db.clients == old(db.clients) && db.payments == old(db.payments) && db.dailySpents == old(db.dailySpents)
    ensures order.orderAmount <= 0 ==> r == Err(NonPositiveAmount("Order")) && db.orders == old(db.orders)
    ensures order.orderAmount > 0 ==> r == Ok(NewOrder(old(db.orders), order, now)) && db.orders == old(db.orders) + [r.value]
    ensures old(Balanced(db.orders, db.payments)) ==> Balanced(db.orders, db.payments)
  {
    if order.orderAmount <= 0 {
      return Err(NonPositiveAmount("Order"));
    }
    var stored := NewOrder(db.orders, order, now);
    AddOrderKeepsLedger(db.clients, db.orders, db.payments, db.dailySpents, stored);
    db.orders := db.orders + [stored];
    r := Ok(stored);
  }

  /** The tracked order after an edit: date, amount, delivery date and
      status come from the edit; id, client, name, work-order details and
      creation time stay. */
  function ApplyOrderEdit(existing: Order, edit: Order, now: DateTime): (r: Order)
    ensures r.orderId == existing.orderId && r.clientId == existing.clientId
    ensures r.orderName == existing.orderName && r.details == existing.details && r.createdAt == existing.createdAt
    ensures r.orderDate == edit.orderDate && r.orderAmount == edit.orderAmount
    ensures r.deliveredDate == edit.deliveredDate && r.status == edit.status && r.updatedAt == Some(now)
  {
    existing.(orderDate := edit.orderDate, orderAmount := edit.orderAmount, deliveredDate := edit.deliveredDate,
              status := edit.status, updatedAt := Some(now))
  }

  /** `UpdateOrderAsync`: no amount check and no check against what is
      already paid. */
  method UpdateOrder(db: AppDbContext, order: Order, now: DateTime) returns (r: Result<Order, ServiceError>)
    requires db.Valid()
    modifies db
    ensures db.Valid()
    ensures db.clients == old(db.clients) && db.payments == old(db.payments) && db.dailySpents == old(db.dailySpents)
    ensures match IndexOfKey(old(db.orders), OrderKey, order.orderId)
      case None => r == Err(NotFound("Order", order.orderId)) && db.orders == old(db.orders)
      case Some(k) =>
        && r == Ok(ApplyOrderEdit(old(db.orders)[k], order, now))
        && db.orders == old(db.orders)[k := r.value]
    ensures old(Balanced(db.orders, db.payments)) && PaidForOrder(db.payments, order.orderId, None) <= order.orderAmount
      ==> Balanced(db.orders, db.payments)
  {
    var found := IndexOfKey(db.orders, OrderKey, order.orderId);
    if found.None? {
      return Err(NotFound("Order", order.orderId));
    }
    var k := found.value;
    var edited := ApplyOrderEdit(db.orders[k], order, now);
    ReplaceOrderKeepsStore(db.orders, db.payments, k, edited);
    if Balanced(db.orders, db.payments) && PaidForOrder(db.payments, order.orderId, None) <= order.orderAmount {
      ReplaceOrderKeepsBalance(db.orders, db.payments, k, edited);
    }
    db.orders := db.orders[k := edited];
    r := Ok(edited);
  }

  lemma ReplaceOrderKeepsStore(orders: seq<Order>, payments: seq<Payment>, k: nat, o: Order)
    requires UniqueKeys(orders, OrderKey) && PaymentRefsResolve(orders, payments)
    requires k < |orders| && o.orderId == orders[k].orderId
    ensures UniqueKeys(orders[k := o], OrderKey) && PaymentRefsResolve(orders[k := o], payments)
  {
    forall p | p in payments && p.orderId.Some? ensures FindOrder(orders[k := o], p.orderId.value).Some? {
      var target := FindOrder(orders, p.orderId.value).value;
      var t :| 0 <= t < |orders| && orders[t] == target;
      assert orders[k := o][t].orderId == target.orderId;
    }
  }

  /** An edit that leaves the order's amount at least what is paid towards
      it keeps the ledger balanced. */
  lemma ReplaceOrderKeepsBalance(orders: seq<Order>, payments: seq<Payment>, k: nat, o: Order)
    requires Balanced(orders, payments)
    requires k < |orders| && o.orderId == orders[k].orderId
    requires PaidForOrder(payments, o.orderId, None) <= o.orderAmount
    ensures Balanced(orders[k := o], payments)
  {
    forall x | x in orders[k := o] ensures PaidForOrder(payments, x.orderId, None) <= x.orderAmount {
      var j :| 0 <= j < |orders[k := o]| && orders[k := o][j] == x;
      if j != k {
        assert x == orders[j];
      }
    }
  }

  /** The update path can break the no-overpayment invariant: lowering a
      fully paid 1000.00 order to 500.00 is accepted and leaves it overpaid. */
  lemma UpdateOrderCanOverpay(o: Order, p: Payment, edit: Order, now: DateTime)
    requires o.orderAmount == 100000
    requires p.orderId == Some(o.orderId) && p.amountReceived == 100000
    requires edit.orderId == o.orderId && edit.orderAmount == 50000
    ensures Balanced([o], [p])
    ensures IndexOfKey([o], OrderKey, o.orderId) == Some(0)
    ensures !NoOverpayment([o][0 := ApplyOrderEdit(o, edit, now)], [p])
  {
    var c := (q: Payment) => CountsToward(q, o.orderId, None);
    assert [p][1..] == [];
    assert Filter([p], c) == [p];
    assert Sum([p], AmountReceived) == 100000;
    var edited := ApplyOrderEdit(o, edit, now);
    assert [o][0 := edited] == [edited];
    assert edited in [edited];
  }

  /** "Delivered" is not a final state: the update path copies any status,
      so a delivered order can be put back to "Pending". */
  lemma DeliveredCanBeReopened(o: Order, edit: Order, now: DateTime)
    requires o.status == StatusDelivered && edit.status == StatusPending
    ensures ApplyOrderEdit(o, edit, now).status == StatusPending
  {
  }

  /** `DeleteOrderAsync`: the order goes; the store sets the order reference
      of its payments to null and keeps them. */
  method DeleteOrder(db: AppDbContext, orderId: int) returns (r: Result<(), ServiceError>)
    requires db.Valid()
    modifies db
    ensures db.Valid()
    ensures db.clients == old(db.clients) && db.dailySpents == old(db.dailySpents)
    ensures match IndexOfKey(old(db.orders), OrderKey, orderId)
      case None => r == Err(NotFound("Order", orderId)) && db.orders == old(db.orders) && db.payments == old(db.payments)
      case Some(k) =>
        && r == Ok(())
        && db.orders == RemoveAt(old(db.orders), k)
        && db.payments == DetachPayments(old(db.payments), orderId)
    ensures |db.payments| == |old(db.payments)|
    ensures forall p :: p in db.payments ==> p.orderId != Some(orderId)
    ensures old(Balanced(db.orders, db.payments)) ==> Balanced(db.orders, db.payments)
  {
    var found := IndexOfKey(db.orders, OrderKey, orderId);
    if found.None? {
      return Err(NotFound("Order", orderId));
    }
    var k := found.value;
    DeleteOrderKeepsLedger(db.clients, db.orders, db.payments, db.dailySpents, k);
    db.payments := DetachPayments(db.payments, orderId);
    db.orders := RemoveAt(db.orders, k);
    r := Ok(());
  }

  /** The order after `MarkOrderAsDeliveredAsync`: delivered on the given
      date and updated now; every other field stays. */
  function Delivered(o: Order, deliveredDate: DateTime, now: DateTime): (r: Order)
    ensures r.status == StatusDelivered && r.deliveredDate == Some(deliveredDate) && r.updatedAt == Some(now)
    ensures r.(status := o.status, deliveredDate := o.deliveredDate, updatedAt := o.updatedAt) == o
  {
    o.(deliveredDate := Some(deliveredDate), status := StatusDelivered, updatedAt := Some(now))
  }

  /** `MarkOrderAsDeliveredAsync`. */
  method MarkDelivered(db: AppDbContext, orderId: int, deliveredDate: DateTime, now: DateTime)
    returns (r: Result<(), ServiceError>)
    requires db.Valid()
    modifies db
    ensures db.Valid()
    ensures db.clients == old(db.clients) && db.payments == old(db.payments) && db.dailySpents == old(db.dailySpents)
    ensures match IndexOfKey(old(db.orders), OrderKey, orderId)
      case None => r == Err(NotFound("Order", orderId)) && db.orders == old(db.orders)
      case Some(k) => r == Ok(()) && db.orders == old(db.orders)[k := Delivered(old(db.orders)[k], deliveredDate, now)]
    ensures old(Balanced(db.orders, db.payments)) ==> Balanced(db.orders, db.payments)
  {
    var found := IndexOfKey(db.orders, OrderKey, orderId);
    if found.None? {
      return Err(NotFound("Order", orderId));
    }
    var k := found.value;
    var done := Delivered(db.orders[k], deliveredDate, now);
    ReplaceOrderKeepsStore(db.orders, db.payments, k, done);
    if Balanced(db.orders, db.payments) {
      assert db.orders[k] in db.orders;
      ReplaceOrderKeepsBalance(db.orders, db.payments, k, done);
    }
    db.orders := db.orders[k := done];
    r := Ok(());
  }

  /** `GetOrderByIdAsync`: the order with that id, if any. */
  function GetOrderById(orders: seq<Order>, orderId: int): (r: Option<Order>)
    ensures r.Some? ==> r.value in orders && r.value.orderId == orderId
    ensures r.None? <==> forall o :: o in orders ==> o.orderId != orderId
  {
    FindOrder(orders, orderId)
  }

  function OrderDate(o: Order): DateTime { o.orderDate }

  /** Orders sorted newest first (`OrderByDescending(o => o.OrderDate)`). */
  function NewestFirst(orders: seq<Order>): (r: seq<Order>)
    ensures multiset(r) == multiset(orders)
    ensures forall o :: o in r <==> o in orders
    ensures forall i, j :: 0 <= i < j < |r| ==> Le(r[j].orderDate, r[i].orderDate)
  {
    OrderingsAreTotalPreorders();
    var r := SortBy(orders, OrderDate, Ge);
    assert forall o :: o in r <==> o in multiset(orders);
    r
  }

  /** `GetAllOrdersAsync`: every order, newest first. */
  function GetAllOrders(orders: seq<Order>): (r: seq<Order>)
    ensures multiset(r) == multiset(orders)
    ensures forall i, j :: 0 <= i < j < |r| ==> Le(r[j].orderDate, r[i].orderDate)
  {
    NewestFirst(orders)
  }

  /** `GetOrdersByClientAsync`: exactly the client's orders, newest first. */
  function GetOrdersByClient(orders: seq<Order>, clientId: int): (r: seq<Order>)
    ensures multiset(r) == multiset(Filter(orders, (o: Order) => o.clientId == clientId))
    ensures forall o :: o in r <==> o in orders && o.clientId == clientId
    ensures forall i, j :: 0 <= i < j < |r| ==> Le(r[j].orderDate, r[i].orderDate)
  {
    NewestFirst(Filter(orders, (o: Order) => o.clientId == clientId))
  }

  /** Whether an order is dated in the given calendar month. */
  predicate PlacedIn(o: Order, year: int, month: int) {
    o.orderDate.year == year && o.orderDate.month == month
  }

  /** `GetOrdersByMonthAsync`: exactly the month's orders, newest first. */
  function GetOrdersByMonth(orders: seq<Order>, year: int, month: int): (r: seq<Order>)
    ensures multiset(r) == multiset(Filter(orders, (o: Order) => PlacedIn(o, year, month)))
    ensures forall o :: o in r <==> o in orders && PlacedIn(o, year, month)
    ensures forall i, j :: 0 <= i < j < |r| ==> Le(r[j].orderDate, r[i].orderDate)
  {
    NewestFirst(Filter(orders, (o: Order) => PlacedIn(o, year, month)))
  }

  function OrderAmount(o: Order): int { o.orderAmount }

  /** `GetTotalOrderAmountByMonthAsync`: the sum over the month's order
      listing, and zero for a month without orders. */
  function GetTotalOrderAmountByMonth(orders: seq<Order>, year: int, month: int): (total: int)
    ensures total == Sum(GetOrdersByMonth(orders, year, month), OrderAmount)
    ensures (forall o :: o in orders ==> !PlacedIn(o, year, month)) ==> total == 0
  {
    var inMonth := Filter(orders, (o: Order) => PlacedIn(o, year, month));
    SumOfPermutation(inMonth, GetOrdersByMonth(orders, year, month), OrderAmount);
    if forall o :: o in orders ==> !PlacedIn(o, year, month) then
      FilterNone(orders, (o: Order) => PlacedIn(o, year, month));
      Sum(inMonth, OrderAmount)
    else Sum(inMonth, OrderAmount)
  }

  predicate IsPending(o: Order) { o.status == StatusPending }

  /** `GetTotalPendingOrderAmountAsync`: the amounts of the orders whose
      status is "Pending". Delivered orders add nothing, so with positive
      amounts the figure lies between zero and the total of all orders. */
  function GetTotalPendingOrderAmount(orders: seq<Order>): (total: int)
    ensures (forall o :: o in orders ==> o.orderAmount > 0) ==> 0 <= total <= Sum(orders, OrderAmount)
    ensures (forall o :: o in orders ==> IsPending(o)) ==> total == Sum(orders, OrderAmount)
    ensures (forall o :: o in orders ==> !IsPending(o)) ==> total == 0
  {
    FilteredSumBounds(orders, IsPending, OrderAmount);
    Sum(Filter(orders, IsPending), OrderAmount)
  }

  /** A created order is pending, so it adds its amount to the pending total. */
  lemma CreateAddsToPending(orders: seq<Order>, order: Order, now: DateTime)
    ensures GetTotalPendingOrderAmount(orders + [NewOrder(orders, order, now)])
         == GetTotalPendingOrderAmount(orders) + order.orderAmount
  {
    FilteredSumAppend(orders, NewOrder(orders, order, now), IsPending, OrderAmount);
  }

  /** Delivering a pending order takes its amount off the pending total;
      delivering one that is already delivered changes nothing. */
  lemma DeliveryTakesOffPending(orders: seq<Order>, k: nat, deliveredDate: DateTime, now: DateTime)
    requires k < |orders|
    ensures GetTotalPendingOrderAmount(orders[k := Delivered(orders[k], deliveredDate, now)])
         == GetTotalPendingOrderAmount(orders) - (if IsPending(orders[k]) then orders[k].orderAmount else 0)
  {
    FilteredSumReplace(orders, k, Delivered(orders[k], deliveredDate, now), IsPending, OrderAmount);
  }
}
