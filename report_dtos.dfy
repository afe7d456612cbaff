/** DTOs/ReportDtos.cs, DTOs/DashboardSummaryDto.cs and
    DTOs/ClientMonthlyReportDto.cs: the shapes the reports return. Amounts
    are in cents. */
module ReportDtos {
  import opened Wrappers
  import opened Calendar

  /** `DashboardSummaryDto`. */
  datatype DashboardSummary = DashboardSummary(
    totalOrders: int,
    totalOrderAmount: int,
    totalReceivedAmount: int,
    totalExpenses: int,
    totalPendingAmount: int,
    profit: int)

  /** `ClientMonthlyReportDto`. */
  datatype ClientMonthlyReport = ClientMonthlyReport(
    clientName: string,
    orderCount: int,
    totalOrderAmount: int,
    totalPaidAmount: int,
    pendingAmount: int)

  /** `OrderReportDto`. */
  datatype OrderReport = OrderReport(date: DateTime, clientName: string, amount: int, status: string)

  /** `PaymentReportDto`. */
  datatype PaymentReport = PaymentReport(
    date: DateTime,
    clientName: string,
    orderName: string,
    bankName: Option<string>,
    amount: int)

  /** `ExpenseReportDto`. */
  datatype ExpenseReport = ExpenseReport(
    date: DateTime,
    description: string,
    category: string,
    spentBy: string,
    amount: int)

  /** `CategoryExpenseDto` and `PersonExpenseDto`, which have the same two
      fields: the group's key (category or spender) and its total. */
  datatype ExpenseTotal = ExpenseTotal(key: string, totalAmount: int)
}
