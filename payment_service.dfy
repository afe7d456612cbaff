/** Services/Implementations/PaymentService.cs: recording, editing and
    deleting payments under the no-overpayment guard, and the payment
    queries. */
module PaymentService {
  import opened Wrappers
  import opened Calendar
  import opened Models
  import opened Seqs
  import opened Sorting
  import opened Data

  /** The verdict of the overpayment guard. */
  datatype BalanceCheck =
    | Accepted
    | OrderMissing(orderId: int)
    | OverBalance(orderTotal: int, paid: int, attempted: int)

  /** The overpayment guard: an advance (no order) always passes; a payment
      for an order passes when what is already paid towards that order,
      apart from the payment `excluding` names, plus `amount` is at most the
      order's amount. */
  function CheckOrderBalance(orders: seq<Order>, payments: seq<Payment>, orderId: Option<int>,
                             amount: int, excluding: Option<int>): (c: BalanceCheck)
    ensures orderId.None? ==> c == Accepted
    ensures c.OrderMissing? <==> orderId.Some? && FindOrder(orders, orderId.value).None?
    ensures c.OrderMissing? ==> c.orderId == orderId.value
    ensures c.OverBalance? ==>
      && c.orderTotal == FindOrder(orders, orderId.value).value.orderAmount
      && c.paid == PaidForOrder(payments, orderId.value, excluding)
      && c.attempted == amount
      && c.paid + c.attempted > c.orderTotal
  {
    match orderId
    case None => Accepted
    case Some(id) =>
      match FindOrder(orders, id)
      case None => OrderMissing(id)
      case Some(order) =>
        var paid := PaidForOrder(payments, id, excluding);
        if paid + amount > order.orderAmount then OverBalance(order.orderAmount, paid, amount) else Accepted
  }

  /** The guard accepts a new payment exactly when, once it is recorded,
      the order it names exists and is paid no more than its amount. */
  lemma GuardAcceptsExactlyWhatFits(orders: seq<Order>, payments: seq<Payment>, p: Payment)
    ensures CheckOrderBalance(orders, payments, p.orderId, p.amountReceived, None).Accepted?
        <==> (p.orderId.Some? ==>
               FindOrder(orders, p.orderId.value).Some?
               && PaidForOrder(payments + [p], p.orderId.value, None) <= FindOrder(orders, p.orderId.value).value.orderAmount)
  {
    if p.orderId.Some? {
      var id := p.orderId.value;
      PaidForOrderSplit(payments, p, [], id, None);
      assert payments + [p] + [] == payments + [p];
      assert PaidForOrder(payments + [p], id, None) == PaidForOrder(payments, id, None) + p.amountReceived;
    }
  }

  /** The guard accepts an edit exactly when, once it is applied, the order
      it names exists and is paid no more than its amount. */
  lemma GuardAcceptsExactlyWhatFitsOnEdit(orders: seq<Order>, payments: seq<Payment>, k: nat, q: Payment)
    requires UniqueKeys(payments, PaymentKey)
    requires k < |payments| && q.paymentId == payments[k].paymentId
    ensures CheckOrderBalance(orders, payments, q.orderId, q.amountReceived, Some(q.paymentId)).Accepted?
        <==> (q.orderId.Some? ==>
               FindOrder(orders, q.orderId.value).Some?
               && PaidForOrder(payments[k := q], q.orderId.value, None) <= FindOrder(orders, q.orderId.value).value.orderAmount)
  {
    GuardVerdict(orders, payments, q.orderId, q.amountReceived, Some(q.paymentId));
    if q.orderId.Some? {
      EditedTotal(payments, k, q, q.orderId.value);
    }
  }

  /** The guard's verdict in one formula. */
  lemma GuardVerdict(orders: seq<Order>, payments: seq<Payment>, orderId: Option<int>, amount: int, excluding: Option<int>)
    ensures CheckOrderBalance(orders, payments, orderId, amount, excluding).Accepted?
        <==> (orderId.Some? ==>
               FindOrder(orders, orderId.value).Some?
               && PaidForOrder(payments, orderId.value, excluding) + amount <= FindOrder(orders, orderId.value).value.orderAmount)
  {
  }

  /** After an edit, the order the payment now names has the others' total
      plus the edited amount. */
  lemma EditedTotal(payments: seq<Payment>, k: nat, q: Payment, id: int)
    requires UniqueKeys(payments, PaymentKey)
    requires k < |payments| && q.paymentId == payments[k].paymentId && q.orderId == Some(id)
    ensures PaidForOrder(payments[k := q], id, None) == PaidForOrder(payments, id, Some(q.paymentId)) + q.amountReceived
  {
    ReplaceTotals(payments, k, q, id);
  }

  /** The payment as stored by an add: a fresh key and the creation time. */
  function StoredPayment(payments: seq<Payment>, payment: Payment, now: DateTime): (r: Payment)
    ensures r.paymentId !in Map(payments, PaymentKey)
    ensures r == payment.(paymentId := r.paymentId, createdAt := now)
  {
    payment.(paymentId := NextKey(payments, PaymentKey), createdAt := now)
  }

  /** The tracked payment after an edit: amount, date, order and update
      time come from the edit; id, client, bank and creation time stay. */
  function ApplyEdit(existing: Payment, edit: Payment, now: DateTime): (r: Payment)
    ensures r.paymentId == existing.paymentId && r.clientId == existing.clientId
    ensures r.bankName == existing.bankName && r.createdAt == existing.createdAt
    ensures r.amountReceived == edit.amountReceived && r.paymentDate == edit.paymentDate
    ensures r.orderId == edit.orderId && r.updatedAt == Some(now)
  {
    existing.(amountReceived := edit.amountReceived, paymentDate := edit.paymentDate,
              orderId := edit.orderId, updatedAt := Some(now))
  }

  /** `AddPaymentAsync`. */
  method AddPayment(db: AppDbContext, payment: Payment, now: DateTime) returns (r: Result<Payment, ServiceError>)
    requires db.Valid()
    modifies db
    ensures db.Valid()
    ensures db.clients == old(db.clients) && db.orders == old(db.orders) && db.dailySpents == old(db.dailySpents)
    ensures payment.amountReceived <= 0 ==> r == Err(NonPositiveAmount("Payment"))
    ensures payment.amountReceived > 0 ==>
      r == match CheckOrderBalance(old(db.orders), old(db.payments), payment.orderId, payment.amountReceived, None)
           case Accepted => Ok(StoredPayment(old(db.payments), payment, now))
           case OrderMissing(id) => Err(NotFound("Order", id))
           case OverBalance(total, paid, attempted) => Err(ExceedsOrderBalance(total, paid, attempted))
    ensures db.payments == if r.Ok? then old(db.payments) + [r.value] else old(db.payments)
    ensures old(Balanced(db.orders, db.payments)) ==> Balanced(db.orders, db.payments)
  {
    if payment.amountReceived <= 0 {
      return Err(NonPositiveAmount("Payment"));
    }
    var check := CheckOrderBalance(db.orders, db.payments, payment.orderId, payment.amountReceived, None);
    match check {
      case OrderMissing(id) =>
        return Err(NotFound("Order", id));
      case OverBalance(total, paid, attempted) =>
        return Err(ExceedsOrderBalance(total, paid, attempted));
      case Accepted =>
    }
    var stored := StoredPayment(db.payments, payment, now);
    AddedPaymentKeepsStore(db.orders, db.payments, stored);
    if Balanced(db.orders, db.payments) {
      AppendKeepsNoOverpayment(db.orders, db.payments, stored);
    }
    db.payments := db.payments + [stored];
    r := Ok(stored);
  }

  lemma AddedPaymentKeepsStore(orders: seq<Order>, payments: seq<Payment>, p: Payment)
    requires PaymentRefsResolve(orders, payments) && UniqueKeys(payments, PaymentKey)
    requires p.paymentId !in Map(payments, PaymentKey)
    requires p.orderId.Some? ==> FindOrder(orders, p.orderId.value).Some?
    ensures PaymentRefsResolve(orders, payments + [p]) && UniqueKeys(payments + [p], PaymentKey)
  {
    forall i | 0 <= i < |payments| ensures payments[i].paymentId != p.paymentId {
      assert Map(payments, PaymentKey)[i] == payments[i].paymentId;
    }
  }

  /** `UpdatePaymentAsync`, as written: not found, then the guard with the
      payment itself left out of the paid total, then the field copy. The
      amount is not checked to be positive. */
  method UpdatePayment(db: AppDbContext, payment: Payment, now: DateTime) returns (r: Result<Payment, ServiceError>)
    requires db.Valid()
    modifies db
    ensures db.Valid()
    ensures db.clients == old(db.clients) && db.orders == old(db.orders) && db.dailySpents == old(db.dailySpents)
    ensures match IndexOfKey(old(db.payments), PaymentKey, payment.paymentId)
      case None => r == Err(NotFound("Payment", payment.paymentId)) && db.payments == old(db.payments)
      case Some(k) =>
        && r == (match CheckOrderBalance(old(db.orders), old(db.payments), payment.orderId,
                                         payment.amountReceived, Some(payment.paymentId))
                 case Accepted => Ok(ApplyEdit(old(db.payments)[k], payment, now))
                 case OrderMissing(id) => Err(NotFound("Order", id))
                 case OverBalance(_, _, _) => Err(UpdateExceedsOrderBalance))
        && db.payments == if r.Ok? then old(db.payments)[k := r.value] else old(db.payments)
    ensures r.Ok? <==> EditAccepted(old(db.orders), old(db.payments), payment)
    ensures r.Ok? ==> db.payments == Edited(old(db.payments), payment, now)
    ensures old(Balanced(db.orders, db.payments)) ==> NoOverpayment(db.orders, db.payments)
    ensures old(Balanced(db.orders, db.payments)) && payment.amountReceived > 0 ==> Balanced(db.orders, db.payments)
  {
    var found := IndexOfKey(db.payments, PaymentKey, payment.paymentId);
    if found.None? {
      return Err(NotFound("Payment", payment.paymentId));
    }
    var k := found.value;
    var check := CheckOrderBalance(db.orders, db.payments, payment.orderId, payment.amountReceived, Some(payment.paymentId));
    match check {
      case OrderMissing(id) =>
        return Err(NotFound("Order", id));
      case OverBalance(_, _, _) =>
        return Err(UpdateExceedsOrderBalance);
      case Accepted =>
    }
    var edited := ApplyEdit(db.payments[k], payment, now);
    EditedPaymentKeepsStore(db.orders, db.payments, k, edited);
    if Balanced(db.orders, db.payments) {
      ReplaceKeepsNoOverpayment(db.orders, db.payments, k, edited);
    }
    db.payments := db.payments[k := edited];
    r := Ok(edited);
  }

  lemma EditedPaymentKeepsStore(orders: seq<Order>, payments: seq<Payment>, k: nat, q: Payment)
    requires PaymentRefsResolve(orders, payments) && UniqueKeys(payments, PaymentKey)
    requires k < |payments| && q.paymentId == payments[k].paymentId
    requires q.orderId.Some? ==> FindOrder(orders, q.orderId.value).Some?
    ensures PaymentRefsResolve(orders, payments[k := q]) && UniqueKeys(payments[k := q], PaymentKey)
  {
  }

  /** The guard at its boundary: with 700.00 already paid on a 1000.00
      order, 300.00 more is accepted and 300.01 is refused with the order
      total, the paid total and the attempted amount. */
  lemma GuardBoundary(o: Order, earlier: Payment)
    requires o.orderAmount == 100000
    requires earlier.orderId == Some(o.orderId) && earlier.amountReceived == 70000
    ensures CheckOrderBalance([o], [earlier], Some(o.orderId), 30000, None) == Accepted
    ensures CheckOrderBalance([o], [earlier], Some(o.orderId), 30001, None) == OverBalance(100000, 70000, 30001)
  {
    PaidForOrderSplit([], earlier, [], o.orderId, None);
    assert [] + [earlier] + [] == [earlier];
  }

  /** `UpdatePaymentAsync` with the positivity check that `AddPaymentAsync`
      makes: with it, every accepted edit keeps the ledger balanced. */
  method UpdatePaymentChecked(db: AppDbContext, payment: Payment, now: DateTime) returns (r: Result<Payment, ServiceError>)
    requires db.Valid()
    modifies db
    ensures db.Valid()
    ensures db.clients == old(db.clients) && db.orders == old(db.orders) && db.dailySpents == old(db.dailySpents)
    ensures payment.amountReceived <= 0 ==> r == Err(NonPositiveAmount("Payment")) && db.payments == old(db.payments)
    ensures payment.amountReceived > 0 ==> match IndexOfKey(old(db.payments), PaymentKey, payment.paymentId)
      case None => r == Err(NotFound("Payment", payment.paymentId)) && db.payments == old(db.payments)
      case Some(k) =>
        && r == (match CheckOrderBalance(old(db.orders), old(db.payments), payment.orderId,
                                         payment.amountReceived, Some(payment.paymentId))
                 case Accepted => Ok(ApplyEdit(old(db.payments)[k], payment, now))
                 case OrderMissing(id) => Err(NotFound("Order", id))
                 case OverBalance(_, _, _) => Err(UpdateExceedsOrderBalance))
        && db.payments == if r.Ok? then old(db.payments)[k := r.value] else old(db.payments)
    ensures old(Balanced(db.orders, db.payments)) ==> Balanced(db.orders, db.payments)
  {
    if payment.amountReceived <= 0 {
      return Err(NonPositiveAmount("Payment"));
    }
    r := UpdatePayment(db, payment, now);
  }

  /** An accepted, positive edit of a balanced ledger leaves it balanced. */
  lemma CheckedEditKeepsBalanced(orders: seq<Order>, payments: seq<Payment>, k: nat, edit: Payment, now: DateTime)
    requires Balanced(orders, payments)
    requires UniqueKeys(orders, OrderKey) && UniqueKeys(payments, PaymentKey)
    requires k < |payments| && payments[k].paymentId == edit.paymentId
    requires edit.amountReceived > 0
    requires CheckOrderBalance(orders, payments, edit.orderId, edit.amountReceived, Some(edit.paymentId)) == Accepted
    ensures Balanced(orders, payments[k := ApplyEdit(payments[k], edit, now)])
  {
    var q := ApplyEdit(payments[k], edit, now);
    assert payments[k] in payments;
    ReplaceKeepsNoOverpayment(orders, payments, k, q);
    forall p | p in payments[k := q] ensures p.amountReceived > 0 {
      var i :| 0 <= i < |payments[k := q]| && payments[k := q][i] == p;
      if i != k { assert p == payments[i]; }
    }
  }

  /** Whether `UpdatePaymentAsync` as written accepts an edit: the payment
      exists and the guard, leaving the payment itself out, passes. */
  predicate EditAccepted(orders: seq<Order>, payments: seq<Payment>, edit: Payment) {
    && IndexOfKey(payments, PaymentKey, edit.paymentId).Some?
    && CheckOrderBalance(orders, payments, edit.orderId, edit.amountReceived, Some(edit.paymentId)) == Accepted
  }

  /** The payments after an accepted edit. */
  function Edited(payments: seq<Payment>, edit: Payment, now: DateTime): (r: seq<Payment>)
    requires IndexOfKey(payments, PaymentKey, edit.paymentId).Some?
    ensures |r| == |payments|
    ensures forall i :: 0 <= i < |r| && payments[i].paymentId != edit.paymentId ==> r[i] == payments[i]
  {
    var k := IndexOfKey(payments, PaymentKey, edit.paymentId).value;
    payments[k := ApplyEdit(payments[k], edit, now)]
  }

  /** Without the positivity check, three edits that the code as written
      accepts one by one leave an order paid beyond its amount: on a
      1000.00 order paid 600.00 + 400.00, the 400.00 payment is edited to
      -100.00, the 600.00 payment to 1100.00 (the others total -100.00), and
      the -100.00 payment to a 100.00 advance. */
  lemma UncheckedEditsCanOverpay(o: Order, a: Payment, b: Payment, now: DateTime)
    requires o.orderAmount == 100000
    requires a.paymentId == 1 && b.paymentId == 2
    requires a.orderId == Some(o.orderId) && b.orderId == Some(o.orderId)
    requires a.amountReceived == 60000 && b.amountReceived == 40000
    ensures Balanced([o], [a, b])
    ensures EditAccepted([o], [a, b], b.(amountReceived := -10000))
    ensures
      var p1 := Edited([a, b], b.(amountReceived := -10000), now);
      && EditAccepted([o], p1, a.(amountReceived := 110000))
      && var p2 := Edited(p1, a.(amountReceived := 110000), now);
      && EditAccepted([o], p2, b.(orderId := None, amountReceived := 10000))
      && var p3 := Edited(p2, b.(orderId := None, amountReceived := 10000), now);
      && PaidForOrder(p3, o.orderId, None) == 110000
      && !NoOverpayment([o], p3)
  {
    var e1 := b.(amountReceived := -10000);
    var e2 := a.(amountReceived := 110000);
    var e3 := b.(orderId := None, amountReceived := 10000);
    FirstEdit(o, a, b, e1, now);
    var p1 := Edited([a, b], e1, now);
    SecondEdit(o, p1[0], p1[1], e2, now);
    var p2 := Edited(p1, e2, now);
    ThirdEdit(o, p2[0], p2[1], e3, now);
  }

  lemma FirstEdit(o: Order, a: Payment, b: Payment, e: Payment, now: DateTime)
    requires o.orderAmount == 100000
    requires a.paymentId == 1 && b.paymentId == 2 && e.paymentId == 2
    requires a.orderId == Some(o.orderId) && b.orderId == Some(o.orderId) && e.orderId == Some(o.orderId)
    requires a.amountReceived == 60000 && b.amountReceived == 40000 && e.amountReceived == -10000
    ensures Balanced([o], [a, b]) && EditAccepted([o], [a, b], e)
    ensures Edited([a, b], e, now) == [a, ApplyEdit(b, e, now)]
  {
    assert NoOverpayment([o], [a, b]) by {
      PaidForPair(a, b, o.orderId, None);
    }
    assert PositiveAmounts([a, b]);
    KeyOfPair(a, b);
    assert CheckOrderBalance([o], [a, b], e.orderId, e.amountReceived, Some(2)) == Accepted by {
      OnlyOrder(o);
      PaidForPair(a, b, o.orderId, Some(2));
    }
  }

  lemma SecondEdit(o: Order, x: Payment, y: Payment, e: Payment, now: DateTime)
    requires o.orderAmount == 100000
    requires x.paymentId == 1 && y.paymentId == 2 && e.paymentId == 1
    requires y.orderId == Some(o.orderId) && e.orderId == Some(o.orderId)
    requires y.amountReceived == -10000 && e.amountReceived == 110000
    ensures EditAccepted([o], [x, y], e)
    ensures Edited([x, y], e, now) == [ApplyEdit(x, e, now), y]
  {
    OnlyOrder(o);
    KeyOfPair(x, y);
    PaidForPair(x, y, o.orderId, Some(1));
  }

  lemma ThirdEdit(o: Order, x: Payment, y: Payment, e: Payment, now: DateTime)
    requires o.orderAmount == 100000
    requires x.paymentId == 1 && y.paymentId == 2 && e.paymentId == 2
    requires x.orderId == Some(o.orderId) && e.orderId == None
    requires x.amountReceived == 110000
    ensures EditAccepted([o], [x, y], e)
    ensures PaidForOrder(Edited([x, y], e, now), o.orderId, None) == 110000
    ensures !NoOverpayment([o], Edited([x, y], e, now))
  {
    KeyOfPair(x, y);
    var p := Edited([x, y], e, now);
    assert p == [x, ApplyEdit(y, e, now)];
    PaidForPair(x, ApplyEdit(y, e, now), o.orderId, None);
    assert o in [o];
  }

  /** The single order of a one-order table is found by its id. */
  lemma OnlyOrder(o: Order)
    ensures FindOrder([o], o.orderId) == Some(o)
  {
    assert IndexOfKey([o], OrderKey, o.orderId) == Some(0);
  }

  /** Where payments 1 and 2 sit in a two-payment ledger. */
  lemma KeyOfPair(x: Payment, y: Payment)
    requires x.paymentId == 1 && y.paymentId == 2
    ensures IndexOfKey([x, y], PaymentKey, 1) == Some(0)
    ensures IndexOfKey([x, y], PaymentKey, 2) == Some(1)
  {
    assert [x, y][1..] == [y];
    assert IndexOfKey([y], PaymentKey, 2) == Some(0);
  }

  /** The paid total over a two-payment ledger. */
  lemma PaidForPair(x: Payment, y: Payment, orderId: int, excluding: Option<int>)
    ensures PaidForOrder([x, y], orderId, excluding) == Contribution(x, orderId, excluding) + Contribution(y, orderId, excluding)
  {
    var c := p => CountsToward(p, orderId, excluding);
    assert [x, y][1..] == [y] && [y][1..] == [];
    var fy := Filter([y], c);
    assert fy == if c(y) then [y] else [];
    assert Sum(fy, AmountReceived) == Contribution(y, orderId, excluding);
    var fxy := Filter([x, y], c);
    assert fxy == (if c(x) then [x] else []) + fy;
    SumConcat(if c(x) then [x] else [], fy, AmountReceived);
  }

  /** `DeletePaymentAsync`: removes exactly the payment with that id. */
  method DeletePayment(db: AppDbContext, paymentId: int) returns (r: Result<(), ServiceError>)
    requires db.Valid()
    modifies db
    ensures db.Valid()
    ensures db.clients == old(db.clients) && db.orders == old(db.orders) && db.dailySpents == old(db.dailySpents)
    ensures match IndexOfKey(old(db.payments), PaymentKey, paymentId)
      case None => r == Err(NotFound("Payment", paymentId)) && db.payments == old(db.payments)
      case Some(k) => r == Ok(()) && db.payments == RemoveAt(old(db.payments), k)
    ensures forall p :: p in db.payments <==> p in old(db.payments) && p.paymentId != paymentId
    ensures old(Balanced(db.orders, db.payments)) ==> Balanced(db.orders, db.payments)
  {
    var found := IndexOfKey(db.payments, PaymentKey, paymentId);
    if found.None? {
      return Err(NotFound("Payment", paymentId));
    }
    var k := found.value;
    RemovedPaymentKeepsStore(db.orders, db.payments, k);
    if Balanced(db.orders, db.payments) {
      RemoveKeepsNoOverpayment(db.orders, db.payments, k);
      assert db.payments[k] in db.payments;
    }
    db.payments := RemoveAt(db.payments, k);
    r := Ok(());
  }

  lemma RemovedPaymentKeepsStore(orders: seq<Order>, payments: seq<Payment>, k: nat)
    requires PaymentRefsResolve(orders, payments) && UniqueKeys(payments, PaymentKey)
    requires k < |payments|
    ensures PaymentRefsResolve(orders, RemoveAt(payments, k)) && UniqueKeys(RemoveAt(payments, k), PaymentKey)
    ensures forall p :: p in RemoveAt(payments, k) <==> p in payments && p.paymentId != payments[k].paymentId
  {
    forall p | p in RemoveAt(payments, k) ensures p in payments && p.paymentId != payments[k].paymentId {
      RemoveAtMembers(payments, k, p);
    }
    forall j | 0 <= j < |payments| && payments[j].paymentId != payments[k].paymentId
      ensures payments[j] in RemoveAt(payments, k)
    {
      RemoveAtKeeps(payments, k, j);
    }
  }

  function PaymentDate(p: Payment): DateTime { p.paymentDate }

  /** Payments sorted newest first (`OrderByDescending(p => p.PaymentDate)`). */
  function NewestFirst(payments: seq<Payment>): (r: seq<Payment>)
    ensures multiset(r) == multiset(payments)
    ensures forall p :: p in r <==> p in payments
    ensures forall i, j :: 0 <= i < j < |r| ==> Le(r[j].paymentDate, r[i].paymentDate)
  {
    OrderingsAreTotalPreorders();
    var r := SortBy(payments, PaymentDate, Ge);
    assert forall p :: p in r <==> p in multiset(payments);
    r
  }

  /** `GetAllPaymentsAsync`: every payment, newest first. */
  function GetAllPayments(payments: seq<Payment>): (r: seq<Payment>)
    ensures multiset(r) == multiset(payments)
    ensures forall i, j :: 0 <= i < j < |r| ==> Le(r[j].paymentDate, r[i].paymentDate)
  {
    NewestFirst(payments)
  }

  /** `GetPaymentsByClientAsync`: exactly the client's payments, newest first. */
  function GetPaymentsByClient(payments: seq<Payment>, clientId: int): (r: seq<Payment>)
    ensures multiset(r) == multiset(Filter(payments, (p: Payment) => p.clientId == clientId))
    ensures forall p :: p in r <==> p in payments && p.clientId == clientId
    ensures forall i, j :: 0 <= i < j < |r| ==> Le(r[j].paymentDate, r[i].paymentDate)
  {
    NewestFirst(Filter(payments, (p: Payment) => p.clientId == clientId))
  }

  /** `GetPaymentsByOrderAsync`: exactly the payments for the order, newest first. */
  function GetPaymentsByOrder(payments: seq<Payment>, orderId: int): (r: seq<Payment>)
    ensures multiset(r) == multiset(Filter(payments, (p: Payment) => p.orderId == Some(orderId)))
    ensures forall p :: p in r <==> p in payments && p.orderId == Some(orderId)
    ensures forall i, j :: 0 <= i < j < |r| ==> Le(r[j].paymentDate, r[i].paymentDate)
  {
    NewestFirst(Filter(payments, (p: Payment) => p.orderId == Some(orderId)))
  }

  /** Whether a payment was received in the given calendar month. */
  predicate ReceivedIn(p: Payment, year: int, month: int) {
    p.paymentDate.year == year && p.paymentDate.month == month
  }

  /** `GetPaymentsByMonthAsync`: exactly the month's payments, newest first. */
  function GetPaymentsByMonth(payments: seq<Payment>, year: int, month: int): (r: seq<Payment>)
    ensures multiset(r) == multiset(Filter(payments, (p: Payment) => ReceivedIn(p, year, month)))
    ensures forall p :: p in r <==> p in payments && ReceivedIn(p, year, month)
    ensures forall i, j :: 0 <= i < j < |r| ==> Le(r[j].paymentDate, r[i].paymentDate)
  {
    NewestFirst(Filter(payments, (p: Payment) => ReceivedIn(p, year, month)))
  }

  /** `GetTotalReceivedAmountByMonthAsync`: the sum over the month's payment
      listing, and zero for a month with no payments. */
  function GetTotalReceivedByMonth(payments: seq<Payment>, year: int, month: int): (total: int)
    ensures total == Sum(GetPaymentsByMonth(payments, year, month), AmountReceived)
    ensures (forall p :: p in payments ==> !ReceivedIn(p, year, month)) ==> total == 0
  {
    var inMonth := Filter(payments, (p: Payment) => ReceivedIn(p, year, month));
    SumOfPermutation(inMonth, GetPaymentsByMonth(payments, year, month), AmountReceived);
    if forall p :: p in payments ==> !ReceivedIn(p, year, month) then
      FilterNone(payments, (p: Payment) => ReceivedIn(p, year, month));
      Sum(inMonth, AmountReceived)
    else Sum(inMonth, AmountReceived)
  }
}
