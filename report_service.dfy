/** Services/Implementations/ReportService.cs: the period resolver and the
    reports folded from the ledger over a resolved period. */
module ReportService {
  import opened Wrappers
  import opened Calendar
  import opened Models
  import opened Seqs
  import opened Sorting
  import opened Text
  import opened Data
  import opened ReportDtos

  /** The four optional bounds every report takes. */
  datatype Period = Period(startYear: Option<int>, startMonth: Option<int>, endYear: Option<int>, endMonth: Option<int>)

  /** A resolved range: no bound at all, or a closed interval. */
  datatype DateRange = AllTime | Between(start: DateTime, end: DateTime)

  /** The bounds `GetDateRange` can build dates from: with a start year, the
      years it uses are at least 1 and the months it uses lie in 1-12
      (`new DateTime` rejects anything else). */
  predicate Resolvable(p: Period) {
    p.startYear.Some? ==>
      && p.startYear.value >= 1
      && (p.startMonth.Some? ==> 1 <= p.startMonth.value <= 12)
      && (p.endYear.Some? ==> p.endYear.value >= 1 && (p.endMonth.Some? ==> 1 <= p.endMonth.value <= 12))
  }

  /** The last moment a range ending at the start of the given month's last
      day covers: 00:00 of that day, as `AddMonths(1).AddDays(-1)` from the
      1st gives it. */
  function EndOfMonth(year: int, month: int): (d: DateTime)
    requires year >= 1 && 1 <= month <= 12
    ensures d == Midnight(year, month, DaysInMonth(year, month))
  {
    LastDayOfMonth(year, month);
    PreviousDay(AddMonths(Midnight(year, month, 1), 1))
  }

  /** `GetDateRange`. */
  function GetDateRange(p: Period): (r: DateRange)
    requires Resolvable(p)
    ensures p.startYear.None? <==> r == AllTime
    ensures p.startYear.Some? ==> r.Between? && r.start == Midnight(p.startYear.value, p.startMonth.GetOr(1), 1)
    ensures p.startYear.Some? && p.endYear.Some? ==>
      r.end == Midnight(p.endYear.value, p.endMonth.GetOr(12), DaysInMonth(p.endYear.value, p.endMonth.GetOr(12)))
    ensures p.startYear.Some? && p.endYear.None? && p.startMonth.Some? ==>
      r.end == Midnight(p.startYear.value, p.startMonth.value, DaysInMonth(p.startYear.value, p.startMonth.value))
    ensures p.startYear.Some? && p.endYear.None? && p.startMonth.None? ==>
      r.end == Midnight(p.startYear.value, 12, 31)
  {
    match p.startYear
    case None => AllTime
    case Some(sy) =>
      var start := Midnight(sy, p.startMonth.GetOr(1), 1);
      if p.endYear.Some? then
        Between(start, EndOfMonth(p.endYear.value, p.endMonth.GetOr(12)))
      else if p.startMonth.Some? then
        Between(start, EndOfMonth(sy, p.startMonth.value))
      else
        Between(start, Midnight(sy, 12, 31))
  }

  /** The inclusive filter every report applies (`>= start && <= end`). */
  predicate InRange(d: DateTime, r: DateRange) {
    match r
    case AllTime => true
    case Between(start, end) => Le(start, d) && Le(d, end)
  }

  /** With no start year nothing is filtered out. */
  lemma AllTimeKeepsEverything(p: Period, orders: seq<Order>, payments: seq<Payment>, spents: seq<DailySpent>)
    requires p.startYear.None?
    ensures GetDateRange(p) == AllTime
    ensures OrdersIn(orders, GetDateRange(p)) == orders
    ensures PaymentsIn(payments, GetDateRange(p)) == payments
    ensures ExpensesIn(spents, GetDateRange(p)) == spents
  {
    FilterAll(orders, (o: Order) => InRange(o.orderDate, AllTime));
    FilterAll(payments, (x: Payment) => InRange(x.paymentDate, AllTime));
    FilterAll(spents, (e: DailySpent) => InRange(e.spentDate, AllTime));
  }

  /** The end bound is 00:00 of the last day, so anything later that day is
      outside the range. */
  lemma LaterOnLastDayExcluded(p: Period, d: DateTime)
    requires Resolvable(p) && p.startYear.Some?
    requires var r := GetDateRange(p); d.year == r.end.year && d.month == r.end.month && d.day == r.end.day
    requires d.ticks > 0
    ensures GetDateRange(p).end.ticks == 0
    ensures !InRange(d, GetDateRange(p))
  {
  }

  /** A start year and month alone select exactly that calendar month, up
      to 00:00 of its last day. */
  lemma SingleMonthRange(p: Period, d: DateTime)
    requires Resolvable(p) && p.startYear.Some? && p.startMonth.Some? && p.endYear.None?
    requires Valid(d)
    ensures var y, m := p.startYear.value, p.startMonth.value;
      InRange(d, GetDateRange(p)) <==> d.year == y && d.month == m && (d.day < DaysInMonth(y, m) || d.ticks == 0)
  {
  }

  /** A start year alone selects that calendar year, up to 00:00 of
      31 December. */
  lemma WholeYearRange(p: Period, d: DateTime)
    requires Resolvable(p) && p.startYear.Some? && p.startMonth.None? && p.endYear.None?
    requires Valid(d)
    ensures InRange(d, GetDateRange(p)) <==> d.year == p.startYear.value && !(d.month == 12 && d.day == 31 && d.ticks > 0)
  {
  }

  /** The in-range orders, payments and expenses. */
  function OrdersIn(orders: seq<Order>, r: DateRange): seq<Order> {
    Filter(orders, (o: Order) => InRange(o.orderDate, r))
  }

  function PaymentsIn(payments: seq<Payment>, r: DateRange): seq<Payment> {
    Filter(payments, (x: Payment) => InRange(x.paymentDate, r))
  }

  function ExpensesIn(spents: seq<DailySpent>, r: DateRange): seq<DailySpent> {
    Filter(spents, (e: DailySpent) => InRange(e.spentDate, r))
  }

  function OrderAmount(o: Order): int { o.orderAmount }
  function Amount(e: DailySpent): int { e.amount }

  /** Whether a payment points at one of the listed orders
      (`p.OrderId.HasValue && orderIds.Contains(p.OrderId.Value)`). */
  function PaysOneOf(orderIds: seq<int>): Payment -> bool {
    (x: Payment) => x.orderId.Some? && x.orderId.value in orderIds
  }

  /** The payments towards the in-range orders, whatever their own date. */
  function PaidTowards(payments: seq<Payment>, inRange: seq<Order>): int {
    Sum(Filter(payments, PaysOneOf(Map(inRange, OrderKey))), AmountReceived)
  }

  /** `GetDashboardSummaryAsync`. */
  function GetDashboardSummary(orders: seq<Order>, payments: seq<Payment>, spents: seq<DailySpent>, p: Period)
    : (r: DashboardSummary)
    requires Resolvable(p)
    ensures r.totalOrders == |OrdersIn(orders, GetDateRange(p))|
    ensures r.totalOrderAmount == Sum(OrdersIn(orders, GetDateRange(p)), OrderAmount)
    ensures r.totalReceivedAmount == Sum(PaymentsIn(payments, GetDateRange(p)), AmountReceived)
    ensures r.totalExpenses == Sum(ExpensesIn(spents, GetDateRange(p)), Amount)
    ensures r.profit == r.totalReceivedAmount - r.totalExpenses
    ensures r.totalPendingAmount == r.totalOrderAmount - PaidTowards(payments, OrdersIn(orders, GetDateRange(p)))
  {
    var range := GetDateRange(p);
    var inOrders := OrdersIn(orders, range);
    var totalOrderAmount := Sum(inOrders, OrderAmount);
    var received := Sum(PaymentsIn(payments, range), AmountReceived);
    var expenses := Sum(ExpensesIn(spents, range), Amount);
    DashboardSummary(|inOrders|, totalOrderAmount, received, expenses,
                     totalOrderAmount - PaidTowards(payments, inOrders), received - expenses)
  }

  /** An empty ledger gives an all-zero dashboard for every period. */
  lemma EmptyDashboard(p: Period)
    requires Resolvable(p)
    ensures GetDashboardSummary([], [], [], p) == DashboardSummary(0, 0, 0, 0, 0, 0)
  {
  }

  function OrderRef(x: Payment): Option<int> { x.orderId }
  function SomeOrderKey(o: Order): Option<int> { Some(o.orderId) }
  function PaidFor(payments: seq<Payment>): Order -> int {
    (o: Order) => PaidForOrder(payments, o.orderId, None)
  }

  /** The paid total towards the in-range orders is, order by order, what
      is paid towards each of them, whatever the payments' dates; advances
      count towards none. */
  lemma PaidTowardsIsPerOrder(payments: seq<Payment>, inRange: seq<Order>)
    requires UniqueKeys(inRange, OrderKey)
    ensures PaidTowards(payments, inRange) == Sum(inRange, PaidFor(payments))
  {
    var ids := Map(inRange, OrderKey);
    var towards := Filter(payments, PaysOneOf(ids));
    var ks := Map(inRange, SomeOrderKey);
    OrderGroupsCoverTowards(payments, inRange);
    TotalOverKeysIsSum(towards, OrderRef, ks, AmountReceived);
    forall o | o in inRange
      ensures PaidFor(payments)(o) == KeyTotal(towards, OrderRef, SomeOrderKey(o), AmountReceived)
    {
      var j :| 0 <= j < |inRange| && inRange[j] == o;
      assert ids[j] == o.orderId;
      GroupOfListedOrder(payments, ids, o.orderId);
    }
    TotalOverKeysOfMap(towards, OrderRef, inRange, SomeOrderKey, AmountReceived, PaidFor(payments));
  }

  /** The in-range orders give distinct group keys, and every payment
      towards one of them falls in one of those groups. */
  lemma OrderGroupsCoverTowards(payments: seq<Payment>, inRange: seq<Order>)
    requires UniqueKeys(inRange, OrderKey)
    ensures NoDuplicates(Map(inRange, SomeOrderKey))
    ensures forall x :: x in Filter(payments, PaysOneOf(Map(inRange, OrderKey))) ==> OrderRef(x) in Map(inRange, SomeOrderKey)
  {
    var ids := Map(inRange, OrderKey);
    var ks := Map(inRange, SomeOrderKey);
    forall i, j | 0 <= i < j < |ks| ensures ks[i] != ks[j] {
      assert OrderKey(inRange[i]) != OrderKey(inRange[j]);
    }
    forall x | x in Filter(payments, PaysOneOf(ids)) ensures OrderRef(x) in ks {
      assert PaysOneOf(ids)(x);
      var j :| 0 <= j < |ids| && ids[j] == x.orderId.value;
      assert ks[j] == OrderRef(x);
    }
  }

  /** Among the payments towards the listed orders, the group of one listed
      order is everything paid towards it. */
  lemma GroupOfListedOrder(payments: seq<Payment>, ids: seq<int>, id: int)
    requires id in ids
    ensures KeyTotal(Filter(payments, PaysOneOf(ids)), OrderRef, Some(id), AmountReceived)
         == PaidForOrder(payments, id, None)
  {
    KeyTotalOfFilter(payments, PaysOneOf(ids), OrderRef, Some(id), AmountReceived, p => CountsToward(p, id, None));
  }

  /** With no order overpaid, the dashboard's pending amount is never
      negative. */
  lemma PendingNeverNegative(orders: seq<Order>, payments: seq<Payment>, spents: seq<DailySpent>, p: Period)
    requires Resolvable(p)
    requires UniqueKeys(orders, OrderKey) && NoOverpayment(orders, payments)
    ensures GetDashboardSummary(orders, payments, spents, p).totalPendingAmount >= 0
  {
    var inRange := OrdersIn(orders, GetDateRange(p));
    FilterKeepsUniqueKeys(orders, (o: Order) => InRange(o.orderDate, GetDateRange(p)), OrderKey);
    PaidTowardsIsPerOrder(payments, inRange);
    SumMonotone(inRange, PaidFor(payments), OrderAmount);
  }

  // ---------------------------------------------------------------------
  // Client report

  function OrderClient(o: Order): int { o.clientId }
  function PaymentClient(x: Payment): int { x.clientId }
  function OneOrder(o: Order): int { 1 }

  /** The clients with an in-range order or payment, each once: the
      distinct order clients, then the payment clients not yet listed
      (`Union(...).Distinct()`). */
  function ActiveClientIds(inOrders: seq<Order>, inPayments: seq<Payment>): (ids: seq<int>)
    ensures NoDuplicates(ids)
    ensures forall id :: id in ids <==>
      (exists o :: o in inOrders && OrderClient(o) == id) || (exists x :: x in inPayments && PaymentClient(x) == id)
  {
    InMap(inOrders, OrderClient);
    InMap(inPayments, PaymentClient);
    Distinct(Distinct(Map(inOrders, OrderClient)) + Distinct(Map(inPayments, PaymentClient)))
  }

  /** A client's name by id, inactive clients included, or "Unknown" when
      no client has that id. */
  function ClientNameOr(clients: seq<Client>, clientId: int): (name: string)
    ensures (forall c :: c in clients ==> c.clientId != clientId) ==> name == "Unknown"
    ensures (exists c :: c in clients && c.clientId == clientId) ==>
      exists c :: c in clients && c.clientId == clientId && c.clientName == name
  {
    match IndexOfKey(clients, ClientKey, clientId)
    case None => "Unknown"
    case Some(i) => clients[i].clientName
  }

  /** One client's row: the in-range orders' count and total, the in-range
      payments' total (advances included), and the difference. */
  function ClientRow(clients: seq<Client>, inOrders: seq<Order>, inPayments: seq<Payment>, clientId: int)
    : (row: ClientMonthlyReport)
    ensures row.pendingAmount == row.totalOrderAmount - row.totalPaidAmount
  {
    var total := KeyTotal(inOrders, OrderClient, clientId, OrderAmount);
    var paid := KeyTotal(inPayments, PaymentClient, clientId, AmountReceived);
    ClientMonthlyReport(ClientNameOr(clients, clientId), KeyTotal(inOrders, OrderClient, clientId, OneOrder),
                        total, paid, total - paid)
  }

  function ClientRowOf(clients: seq<Client>, inOrders: seq<Order>, inPayments: seq<Payment>): int -> ClientMonthlyReport {
    (id: int) => ClientRow(clients, inOrders, inPayments, id)
  }

  function RowName(row: ClientMonthlyReport): string { row.clientName }
  function RowOrderCount(row: ClientMonthlyReport): int { row.orderCount }
  function RowOrderTotal(row: ClientMonthlyReport): int { row.totalOrderAmount }
  function RowPaid(row: ClientMonthlyReport): int { row.totalPaidAmount }

  /** `GetMonthlyClientReportsAsync`: one row per client with an in-range
      order or payment, built client by client, then ordered by name. The
      rows' counts and totals add up to the in-range order count, order
      total and amount received that the dashboard shows. */
  method GetMonthlyClientReports(clients: seq<Client>, orders: seq<Order>, payments: seq<Payment>, p: Period)
    returns (report: seq<ClientMonthlyReport>)
    requires Resolvable(p)
    ensures var inOrders, inPayments := OrdersIn(orders, GetDateRange(p)), PaymentsIn(payments, GetDateRange(p));
      multiset(report) == multiset(Map(ActiveClientIds(inOrders, inPayments), ClientRowOf(clients, inOrders, inPayments)))
    ensures forall row :: row in report ==> row.pendingAmount == row.totalOrderAmount - row.totalPaidAmount
    ensures forall i, j :: 0 <= i < j < |report| ==> OrdinalLe(report[i].clientName, report[j].clientName)
    ensures Sum(report, RowOrderCount) == GetDashboardSummary(orders, payments, [], p).totalOrders
    ensures Sum(report, RowOrderTotal) == GetDashboardSummary(orders, payments, [], p).totalOrderAmount
    ensures Sum(report, RowPaid) == GetDashboardSummary(orders, payments, [], p).totalReceivedAmount
  {
    var range := GetDateRange(p);
    var inOrders := OrdersIn(orders, range);
    var inPayments := PaymentsIn(payments, range);
    var ids := ActiveClientIds(inOrders, inPayments);
    var rows := CollectRows(ids, ClientRowOf(clients, inOrders, inPayments));
    OrdinalLeIsTotalPreorder();
    report := SortBy(rows, RowName, OrdinalLe);
    ReorderedClientRows(clients, inOrders, inPayments, report);
  }

  /** The `foreach` over the client ids: one row per id, appended in id
      order. */
  method CollectRows(ids: seq<int>, row: int -> ClientMonthlyReport) returns (rows: seq<ClientMonthlyReport>)
    ensures rows == Map(ids, row)
  {
    rows := [];
    var i := 0;
    while i < |ids|
      invariant 0 <= i <= |ids|
      invariant |rows| == i
      invariant forall j :: 0 <= j < i ==> rows[j] == row(ids[j])
    {
      rows := rows + [row(ids[i])];
      i := i + 1;
    }
  }

  /** Any reordering of the client rows keeps each row's pending rule and
      the totals the rows add up to. */
  lemma ReorderedClientRows(clients: seq<Client>, inOrders: seq<Order>, inPayments: seq<Payment>, report: seq<ClientMonthlyReport>)
    requires multiset(report) == multiset(Map(ActiveClientIds(inOrders, inPayments), ClientRowOf(clients, inOrders, inPayments)))
    ensures forall row :: row in report ==> row.pendingAmount == row.totalOrderAmount - row.totalPaidAmount
    ensures Sum(report, RowOrderCount) == |inOrders|
    ensures Sum(report, RowOrderTotal) == Sum(inOrders, OrderAmount)
    ensures Sum(report, RowPaid) == Sum(inPayments, AmountReceived)
  {
    var rows := Map(ActiveClientIds(inOrders, inPayments), ClientRowOf(clients, inOrders, inPayments));
    forall row | row in report ensures row.pendingAmount == row.totalOrderAmount - row.totalPaidAmount {
      assert row in multiset(rows);
      var j :| 0 <= j < |rows| && rows[j] == row;
    }
    ClientRowsAddUp(clients, inOrders, inPayments);
    SumOfPermutation(rows, report, RowOrderCount);
    SumOfPermutation(rows, report, RowOrderTotal);
    SumOfPermutation(rows, report, RowPaid);
  }

  /** The client rows' order counts, order totals and paid totals add up
      to the in-range figures: every in-range order and payment is
      counted under exactly one client. */
  lemma ClientRowsAddUp(clients: seq<Client>, inOrders: seq<Order>, inPayments: seq<Payment>)
    ensures var rows := Map(ActiveClientIds(inOrders, inPayments), ClientRowOf(clients, inOrders, inPayments));
      && Sum(rows, RowOrderCount) == |inOrders|
      && Sum(rows, RowOrderTotal) == Sum(inOrders, OrderAmount)
      && Sum(rows, RowPaid) == Sum(inPayments, AmountReceived)
  {
    var ids := ActiveClientIds(inOrders, inPayments);
    var row := ClientRowOf(clients, inOrders, inPayments);
    var count := (id: int) => KeyTotal(inOrders, OrderClient, id, OneOrder);
    var total := (id: int) => KeyTotal(inOrders, OrderClient, id, OrderAmount);
    var paid := (id: int) => KeyTotal(inPayments, PaymentClient, id, AmountReceived);
    SumOfMap(ids, row, RowOrderCount, count);
    SumOfMap(ids, row, RowOrderTotal, total);
    SumOfMap(ids, row, RowPaid, paid);
    GroupTotalsAddUp(inOrders, OrderClient, ids, OneOrder, count);
    GroupTotalsAddUp(inOrders, OrderClient, ids, OrderAmount, total);
    GroupTotalsAddUp(inPayments, PaymentClient, ids, AmountReceived, paid);
    SumOfOnes(inOrders, OneOrder);
  }

  // ---------------------------------------------------------------------
  // Listings

  /** Ascending by date (`OrderBy(x => x.Date)`), keeping the order of rows
      with the same date. */
  function OldestFirst<T>(rows: seq<T>, date: T -> DateTime): (r: seq<T>)
    ensures multiset(r) == multiset(rows)
    ensures forall i, j :: 0 <= i < j < |r| ==> Le(date(r[i]), date(r[j]))
  {
    OrderingsAreTotalPreorders();
    SortBy(rows, date, Le)
  }

  /** An order's listing row; the client is looked up by id. */
  function OrderRow(clients: seq<Client>, o: Order): OrderReport {
    OrderReport(o.orderDate, ClientNameOr(clients, o.clientId), o.orderAmount, o.status)
  }

  function OrderRowOf(clients: seq<Client>): Order -> OrderReport {
    (o: Order) => OrderRow(clients, o)
  }

  function OrderRowDate(row: OrderReport): DateTime { row.date }
  function OrderRowAmount(row: OrderReport): int { row.amount }

  /** `GetMonthlyOrderReportsAsync`: one row per in-range order, oldest
      first; the rows add up to the dashboard's order total. The rows are
      projected before they are sorted, which gives the same list as the
      other way round because each row carries its order's date. */
  function GetMonthlyOrderReports(clients: seq<Client>, orders: seq<Order>, p: Period): (r: seq<OrderReport>)
    requires Resolvable(p)
    ensures multiset(r) == multiset(Map(OrdersIn(orders, GetDateRange(p)), OrderRowOf(clients)))
    ensures forall i, j :: 0 <= i < j < |r| ==> Le(r[i].date, r[j].date)
    ensures Sum(r, OrderRowAmount) == GetDashboardSummary(orders, [], [], p).totalOrderAmount
  {
    var rows := Map(OrdersIn(orders, GetDateRange(p)), OrderRowOf(clients));
    var r := OldestFirst(rows, OrderRowDate);
    SumOfMap(OrdersIn(orders, GetDateRange(p)), OrderRowOf(clients), OrderRowAmount, OrderAmount);
    SumOfPermutation(rows, r, OrderRowAmount);
    r
  }

  /** The order column of a payment row: "Advance" when the payment has no
      order (or its order is gone), otherwise the order's name, or
      "Order #" and its id when the order has no name. */
  function PaymentLabel(orders: seq<Order>, x: Payment): (shown: string)
    ensures x.orderId.None? ==> shown == "Advance"
    ensures (forall o :: o in orders ==> Some(o.orderId) != x.orderId) ==> shown == "Advance"
    ensures x.orderId.Some? && FindOrder(orders, x.orderId.value).Some? ==>
      shown == FindOrder(orders, x.orderId.value).value.orderName.GetOr("Order #" + IntToString(x.orderId.value))
  {
    match x.orderId
    case None => "Advance"
    case Some(id) =>
      match FindOrder(orders, id)
      case None => "Advance"
      case Some(o) => o.orderName.GetOr("Order #" + IntToString(id))
  }

  /** When every order reference resolves and no order is itself named
      "Advance", the label says "Advance" exactly for the advances. */
  lemma AdvanceLabelMeansAdvance(orders: seq<Order>, x: Payment)
    requires x.orderId.Some? ==> FindOrder(orders, x.orderId.value).Some?
    requires forall o :: o in orders ==> o.orderName != Some("Advance")
    ensures PaymentLabel(orders, x) == "Advance" <==> x.orderId.None?
  {
    if x.orderId.Some? {
      var id := x.orderId.value;
      var o := FindOrder(orders, id).value;
      if o.orderName.None? {
        assert PaymentLabel(orders, x)[0] == 'O';
      }
    }
  }

  /** A payment towards an order with a name is labelled with that name. */
  lemma NamedOrderLabel(orders: seq<Order>, x: Payment, o: Order)
    requires UniqueKeys(orders, OrderKey) && o in orders
    requires x.orderId == Some(o.orderId) && o.orderName.Some?
    ensures PaymentLabel(orders, x) == o.orderName.value
  {
    var k :| 0 <= k < |orders| && orders[k] == o;
    var found := FindOrder(orders, o.orderId).value;
    var j :| 0 <= j < |orders| && orders[j] == found;
    assert OrderKey(orders[j]) == OrderKey(orders[k]);
  }

  /** A payment towards an unnamed order is labelled with the order's id,
      and the digits after "Order #" give that id back. */
  lemma UnnamedOrderLabel(orders: seq<Order>, x: Payment, o: Order)
    requires x.orderId == Some(o.orderId) && FindOrder(orders, o.orderId) == Some(o)
    requires o.orderName.None? && o.orderId >= 0
    ensures PaymentLabel(orders, x) == "Order #" + NatToString(o.orderId)
    ensures DigitsValue(PaymentLabel(orders, x)[7..]) == o.orderId
  {
    assert PaymentLabel(orders, x)[7..] == NatToString(o.orderId);
    NatToStringRoundTrip(o.orderId);
  }

  /** A payment's listing row. */
  function PaymentRow(clients: seq<Client>, orders: seq<Order>, x: Payment): PaymentReport {
    PaymentReport(x.paymentDate, ClientNameOr(clients, x.clientId), PaymentLabel(orders, x), x.bankName, x.amountReceived)
  }

  function PaymentRowOf(clients: seq<Client>, orders: seq<Order>): Payment -> PaymentReport {
    (x: Payment) => PaymentRow(clients, orders, x)
  }

  function PaymentRowDate(row: PaymentReport): DateTime { row.date }
  function PaymentRowAmount(row: PaymentReport): int { row.amount }

  /** `GetMonthlyPaymentReportsAsync`: one row per in-range payment,
      advances included, oldest first; the rows add up to the dashboard's
      amount received. */
  function GetMonthlyPaymentReports(clients: seq<Client>, orders: seq<Order>, payments: seq<Payment>, p: Period)
    : (r: seq<PaymentReport>)
    requires Resolvable(p)
    ensures multiset(r) == multiset(Map(PaymentsIn(payments, GetDateRange(p)), PaymentRowOf(clients, orders)))
    ensures forall i, j :: 0 <= i < j < |r| ==> Le(r[i].date, r[j].date)
    ensures Sum(r, PaymentRowAmount) == GetDashboardSummary([], payments, [], p).totalReceivedAmount
  {
    var rows := Map(PaymentsIn(payments, GetDateRange(p)), PaymentRowOf(clients, orders));
    var r := OldestFirst(rows, PaymentRowDate);
    SumOfMap(PaymentsIn(payments, GetDateRange(p)), PaymentRowOf(clients, orders), PaymentRowAmount, AmountReceived);
    SumOfPermutation(rows, r, PaymentRowAmount);
    r
  }

  /** An expense's listing row. */
  function ExpenseRow(e: DailySpent): ExpenseReport {
    ExpenseReport(e.spentDate, e.description, e.category, e.spentBy, e.amount)
  }

  function ExpenseRowDate(row: ExpenseReport): DateTime { row.date }
  function ExpenseRowAmount(row: ExpenseReport): int { row.amount }

  /** `GetMonthlyExpenseReportsAsync`: one row per in-range expense, oldest
      first; the rows add up to the dashboard's expense total. */
  function GetMonthlyExpenseReports(spents: seq<DailySpent>, p: Period): (r: seq<ExpenseReport>)
    requires Resolvable(p)
    ensures multiset(r) == multiset(Map(ExpensesIn(spents, GetDateRange(p)), ExpenseRow))
    ensures forall i, j :: 0 <= i < j < |r| ==> Le(r[i].date, r[j].date)
    ensures Sum(r, ExpenseRowAmount) == GetDashboardSummary([], [], spents, p).totalExpenses
  {
    var rows := Map(ExpensesIn(spents, GetDateRange(p)), ExpenseRow);
    var r := OldestFirst(rows, ExpenseRowDate);
    SumOfMap(ExpensesIn(spents, GetDateRange(p)), ExpenseRow, ExpenseRowAmount, Amount);
    SumOfPermutation(rows, r, ExpenseRowAmount);
    r
  }

  // ---------------------------------------------------------------------
  // Category and person summaries

  function EntryKey(t: ExpenseTotal): string { t.key }
  function EntryTotal(t: ExpenseTotal): int { t.totalAmount }

  /** Non-increasing order on totals, for `OrderByDescending`. */
  predicate AtLeast(a: int, b: int) { a >= b }

  lemma AtLeastIsTotalPreorder()
    ensures TotalPreorder(AtLeast)
  {
  }

  function GroupEntryOf(spents: seq<DailySpent>, key: DailySpent -> string): string -> ExpenseTotal {
    (k: string) => ExpenseTotal(k, KeyTotal(spents, key, k, Amount))
  }

  /** The groups of `GroupBy(key)`, in order of first appearance, each with
      its total. */
  function GroupEntries(spents: seq<DailySpent>, key: DailySpent -> string): seq<ExpenseTotal> {
    Map(Distinct(Map(spents, key)), GroupEntryOf(spents, key))
  }

  /** What makes a list of expense totals a faithful summary of `spents`
      by `key`: one entry per key in use and none for any other, each
      carrying its group's total, and all entries adding up to the plain
      total. */
  ghost predicate SummarisesBy(r: seq<ExpenseTotal>, spents: seq<DailySpent>, key: DailySpent -> string) {
    && (forall i, j :: 0 <= i < j < |r| ==> r[i].key != r[j].key)
    && (forall k :: k in Map(r, EntryKey) <==> k in Map(spents, key))
    && (forall t :: t in r ==> t.totalAmount == KeyTotal(spents, key, t.key, Amount))
    && Sum(r, EntryTotal) == Sum(spents, Amount)
  }

  /** The groups before ordering already summarise the expenses. */
  lemma GroupEntriesSummarise(spents: seq<DailySpent>, key: DailySpent -> string)
    ensures SummarisesBy(GroupEntries(spents, key), spents, key)
  {
    var keys := Distinct(Map(spents, key));
    var entry := GroupEntryOf(spents, key);
    var entries := Map(keys, entry);
    assert Map(entries, EntryKey) == keys;
    forall t | t in entries ensures t.totalAmount == KeyTotal(spents, key, t.key, Amount) {
      var i :| 0 <= i < |entries| && entries[i] == t;
    }
    GroupEntriesAddUp(spents, key);
  }

  /** The group totals add up to the plain total. */
  lemma GroupEntriesAddUp(spents: seq<DailySpent>, key: DailySpent -> string)
    ensures Sum(GroupEntries(spents, key), EntryTotal) == Sum(spents, Amount)
  {
    var keys := Distinct(Map(spents, key));
    var g := (k: string) => KeyTotal(spents, key, k, Amount);
    forall e | e in spents ensures key(e) in keys {
      var i :| 0 <= i < |spents| && spents[i] == e;
      assert Map(spents, key)[i] == key(e);
    }
    SumOfMap(keys, GroupEntryOf(spents, key), EntryTotal, g);
    GroupTotalsAddUp(spents, key, keys, Amount, g);
  }

  /** A reordering of a summary is still a summary. */
  lemma ReorderedSummary(entries: seq<ExpenseTotal>, r: seq<ExpenseTotal>, spents: seq<DailySpent>, key: DailySpent -> string)
    requires SummarisesBy(entries, spents, key)
    requires multiset(r) == multiset(entries)
    ensures SummarisesBy(r, spents, key)
  {
    assert forall t :: t in r <==> t in entries by {
      assert forall t :: t in r <==> t in multiset(entries);
    }
    ReorderedKeysDistinct(entries, r);
    SameKeys(entries, r);
    SumOfPermutation(entries, r, EntryTotal);
  }

  /** Reordering entries with distinct keys keeps the keys distinct. */
  lemma ReorderedKeysDistinct(entries: seq<ExpenseTotal>, r: seq<ExpenseTotal>)
    requires forall i, j :: 0 <= i < j < |entries| ==> entries[i].key != entries[j].key
    requires multiset(r) == multiset(entries)
    ensures forall i, j :: 0 <= i < j < |r| ==> r[i].key != r[j].key
  {
    assert NoDuplicates(entries);
    PermutationKeepsNoDuplicates(entries, r);
    forall i, j | 0 <= i < j < |r| ensures r[i].key != r[j].key {
      assert r[i] in multiset(entries) && r[j] in multiset(entries);
      var a :| 0 <= a < |entries| && entries[a] == r[i];
      var b :| 0 <= b < |entries| && entries[b] == r[j];
      assert a != b;
    }
  }

  /** Entries that are the same up to order have the same keys. */
  lemma SameKeys(entries: seq<ExpenseTotal>, r: seq<ExpenseTotal>)
    requires forall t :: t in r <==> t in entries
    ensures forall k :: k in Map(r, EntryKey) <==> k in Map(entries, EntryKey)
  {
    InMap(r, EntryKey);
    InMap(entries, EntryKey);
  }

  /** `GroupBy(key)`, one total per group, `OrderByDescending` on the
      total: a summary of the expenses by `key`, largest total first. */
  function ExpenseTotalsBy(spents: seq<DailySpent>, key: DailySpent -> string): (r: seq<ExpenseTotal>)
    ensures SummarisesBy(r, spents, key)
    ensures forall i, j :: 0 <= i < j < |r| ==> r[i].totalAmount >= r[j].totalAmount
  {
    AtLeastIsTotalPreorder();
    var entries := GroupEntries(spents, key);
    var r := SortBy(entries, EntryTotal, AtLeast);
    GroupEntriesSummarise(spents, key);
    ReorderedSummary(entries, r, spents, key);
    r
  }

  /** `GetMonthlyCategoryExpenseSummaryAsync`: the in-range expenses
      summarised by category, largest first; the entries add up to the
      dashboard's expense total. */
  function GetMonthlyCategoryExpenseSummary(spents: seq<DailySpent>, p: Period): (r: seq<ExpenseTotal>)
    requires Resolvable(p)
    ensures SummarisesBy(r, ExpensesIn(spents, GetDateRange(p)), Category)
    ensures forall i, j :: 0 <= i < j < |r| ==> r[i].totalAmount >= r[j].totalAmount
    ensures Sum(r, EntryTotal) == GetDashboardSummary([], [], spents, p).totalExpenses
  {
    ExpenseTotalsBy(ExpensesIn(spents, GetDateRange(p)), Category)
  }

  /** `GetMonthlyPersonExpenseSummaryAsync`: the in-range expenses
      summarised by who spent them, largest first; the entries add up to
      the dashboard's expense total. */
  function GetMonthlyPersonExpenseSummary(spents: seq<DailySpent>, p: Period): (r: seq<ExpenseTotal>)
    requires Resolvable(p)
    ensures SummarisesBy(r, ExpensesIn(spents, GetDateRange(p)), SpentBy)
    ensures forall i, j :: 0 <= i < j < |r| ==> r[i].totalAmount >= r[j].totalAmount
    ensures Sum(r, EntryTotal) == GetDashboardSummary([], [], spents, p).totalExpenses
  {
    ExpenseTotalsBy(ExpensesIn(spents, GetDateRange(p)), SpentBy)
  }
}
