/** The ledger's records (Models/Client.cs, Order.cs, Payment.cs,
    DailySpent.cs) and the failures the services raise. Money is a whole
    number of cents: a `decimal(18,2)` column holds exactly that. */
module Models {
  import opened Wrappers
  import opened Calendar

  const StatusPending: string := "Pending"
  const StatusDelivered: string := "Delivered"
  const DefaultCategory: string := "General"

  datatype Client = Client(
    clientId: int,
    clientName: string,
    phone: Option<string>,
    address: Option<string>,
    isActive: bool,
    createdAt: DateTime,
    updatedAt: Option<DateTime>)

  /** The work-order attributes an order carries through untouched by any
      ledger rule. */
  datatype WorkOrderDetails = WorkOrderDetails(
    size: Option<string>,
    uom: Option<string>,
    quantity: int,
    materialNo: Option<string>,
    costingLayer: Option<string>,
    color: Option<string>,
    materialSpec: Option<string>,
    paintSpec: Option<string>,
    qualitySpec: Option<string>,
    workNatureSpec: Option<string>,
    durabilitySpec: Option<string>,
    modelingLastDate: Option<DateTime>,
    fiberStartDate: Option<DateTime>,
    orderBy: Option<string>,
    modelingBy: Option<string>,
    fiberBy: Option<string>,
    imagePath: Option<string>)

  datatype Order = Order(
    orderId: int,
    clientId: int,
    orderName: Option<string>,
    orderDate: DateTime,
    deliveredDate: Option<DateTime>,
    orderAmount: int,
    status: string,
    details: WorkOrderDetails,
    createdAt: DateTime,
    updatedAt: Option<DateTime>)

  /** A payment with no `orderId` is an advance, tied to no order. */
  datatype Payment = Payment(
    paymentId: int,
    clientId: int,
    orderId: Option<int>,
    amountReceived: int,
    bankName: Option<string>,
    paymentDate: DateTime,
    createdAt: DateTime,
    updatedAt: Option<DateTime>)

  /** An expense (the `DailySpent` entity). */
  datatype DailySpent = DailySpent(
    spentId: int,
    description: string,
    category: string,
    spentBy: string,
    amount: int,
    spentDate: DateTime,
    createdAt: DateTime,
    updatedAt: Option<DateTime>)

  /** The exceptions the services throw, by kind and payload. */
  datatype ServiceError =
    | NonPositiveAmount(entity: string)               // ArgumentException
    | NotFound(entity: string, id: int)               // KeyNotFoundException
    | ExceedsOrderBalance(orderTotal: int, paid: int, attempted: int)  // InvalidOperationException on add
    | UpdateExceedsOrderBalance                       // InvalidOperationException on update
    | DuplicateClientName(name: string)               // InvalidOperationException on create
}
