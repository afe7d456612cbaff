# Daily Management System ledger engine, in Dafny

This project models the ledger engine of the Daily Management System, a
desktop book-keeping application for a small workshop. It records:

- clients;
- work orders placed by clients;
- payments received from clients, either towards an order or as an advance;
- daily expenses.

From those records the application computes the figures on its report
screen.

The store (`Data/AppDbContext.cs`) is a class `Data.AppDbContext` with one
sequence field per table. Its `Valid()` predicate says that primary keys
are unique and that every payment's order reference names an existing
order.

The services are modelled as follows:

- Each service operation that changes the store is a method with
  `modifies db`. It states the whole new state and every error outcome as
  a `Result`.
- Each query is a function whose contract states what it selects and how
  the result is ordered.
- The report logic (`ReportService.cs`) is a set of pure folds. The one
  loop in it, the per-client report, is a method.
- The report screen (`ReportViewModel.cs`) is a class whose filter,
  clear-filter and load operations assign its fields.

The main invariant is `Data.Balanced`: no order has received more than its
amount, and every payment is positive. Each operation states whether it
keeps this invariant. Where the code lets an operation break it, a lemma
exhibits a concrete run that does.

Other modelling choices:

- Money is C# `decimal(18,2)`, which is exact, so it is held as whole
  cents in an `int`.
- Dates are a `Calendar.DateTime` value: year, month, day, and ticks since
  midnight. They are ordered chronologically.
- The current time (`DateTime.Now`) is a parameter of every operation
  that stamps a record.
- The culture's abbreviated month names are also a parameter, a function
  from month to text.

Files:

| file | contents |
|---|---|
| `wrappers.dfy` | `Option`, `Result` |
| `seqs.dfy` | filter, sum, map, distinct and group totals over sequences, with their algebra |
| `sorting.dfy` | a stable insertion sort by a key under any total preorder |
| `text.dfy` | white space, SQLite and .NET lower-casing, ordinal string order, decimal rendering |
| `calendar.dfy` | Gregorian dates, `AddMonths`, `AddDays(-1)` |
| `models.dfy`, `report_dtos.dfy` | the entities and report rows |
| `data.dfy` | the store, its keys and the paid-total ledger |
| `payment_service.dfy`, `client_service.dfy`, `order_service.dfy`, `expense_service.dfy` | the four services |
| `report_service.dfy` | the period resolver and every report |
| `export_service.dfy` | the period caption |
| `report_view_model.dfy` | the report screen's filter, load and file name |

Source paths below are relative to the repository root.

## Model

| member | source | states |
|---|---|---|
| Calendar.DaysInMonth | DailyManagementSystem/Services/Implementations/ReportService.cs:33 | the Gregorian month lengths: 31 for the seven long months, 29 for February in a leap year, 28 otherwise, always 28-31 |
| Calendar.AddMonths | DailyManagementSystem/Services/Implementations/ReportService.cs:33 | the result is a valid date exactly `n` months on, on the same day clamped to that month's last day, with the same time of day |
| Calendar.PreviousDay | DailyManagementSystem/Services/Implementations/ReportService.cs:33 | the result is a valid date on an earlier day, with the same time of day, and no valid date falls on a day between the two: it is the day before |
| Calendar.LastDayOfMonth | DailyManagementSystem/Services/Implementations/ReportService.cs:33 | the 1st of the month, plus one month, minus one day, is the month's last day |
| Calendar.LeTotalOrder | DailyManagementSystem/Services/Implementations/ReportService.cs:64-66 | the date comparison the filters use is total, antisymmetric and transitive |
| Calendar.OrderingsAreTotalPreorders | DailyManagementSystem/Services/Implementations/ReportService.cs:137 | ascending and descending date order are both valid sort orders |
| Text.EqualsIgnoreCaseIff | DailyManagementSystem/Services/Implementations/ClientService.cs:107 | two names are equal ignoring case exactly when they have the same length and each position holds the same character or the same letter in the other case |
| Text.LowerMatchesSound | DailyManagementSystem/Services/Implementations/ClientService.cs:107 | the query's comparison (SQLite `lower()` on the column, .NET `ToLower()` on the value) matches only names that are equal ignoring case |
| Text.LowerMatchesExact | DailyManagementSystem/Services/Implementations/ClientService.cs:107 | on a stored name without accented capitals the query's comparison is exactly equality ignoring case |
| Text.AccentedCapitalMissesItself | DailyManagementSystem/Services/Implementations/ExpenseService.cs:103 | a name that starts with an accented capital does not match itself in the query's comparison, though it equals itself ignoring case |
| Text.NatToString | DailyManagementSystem/Services/Implementations/ReportService.cs:162 | the rendering is decimal digits with no leading zero |
| Text.NatToStringRoundTrip | DailyManagementSystem/Services/Implementations/ReportService.cs:162 | reading the digits back gives the number |
| Text.NatToStringInjective | DailyManagementSystem/Services/Implementations/ReportService.cs:162 | distinct numbers render as distinct strings |
| Text.PadDigits | DailyManagementSystem/Services/Implementations/ExportService.cs:27 | a "yyyy" field: digits only, as long as the number's own digits or `width` if that is longer, and reading them back gives the number |
| Text.OrdinalLeIsTotalPreorder | DailyManagementSystem/Services/Implementations/ClientService.cs:72-78 | ordinal string order is total and transitive, so it is a valid sort order for names |
| Text.OrdinalLeAntisymmetric | DailyManagementSystem/Services/Implementations/ExpenseService.cs:51 | two strings each ordinally before the other are equal |
| Data.IndexOfKey | DailyManagementSystem/Services/Implementations/PaymentService.cs:66-68 | `FindAsync`: the first row with the key, or none exactly when no row has it |
| Data.FindOrder | DailyManagementSystem/Services/Implementations/PaymentService.cs:29-34 | an order with the id from the table, or none exactly when no order has it |
| Data.NextKey | DailyManagementSystem/Data/AppDbContext.cs:10-13 | a new key is positive and larger than every key in the table |
| Data.DetachPayments | DailyManagementSystem/Data/AppDbContext.cs:91-95 | ON DELETE SET NULL: references to the order become null and nothing else changes |
| Data.AppendKeepsNoOverpayment | DailyManagementSystem/Services/Implementations/PaymentService.cs:36-49 | a payment the guard accepts keeps every order within its amount |
| Data.ReplaceKeepsNoOverpayment | DailyManagementSystem/Services/Implementations/PaymentService.cs:80-94 | an edit the guard accepts, with its own payment left out of the sum, keeps every order within its amount |
| Data.ReplaceTotals | DailyManagementSystem/Services/Implementations/PaymentService.cs:82 | after a payment is replaced, each order's total is the total excluding it plus the new payment's contribution |
| Data.PaidForOrderExcludingAbsent | DailyManagementSystem/Services/Implementations/PaymentService.cs:82 | excluding an id no payment has changes no total |
| Data.PaidForOrderNothingCounts | DailyManagementSystem/Services/Implementations/PaymentService.cs:36-39 | payments none of which point at the order total zero |
| Data.RemoveKeepsNoOverpayment | DailyManagementSystem/Services/Implementations/PaymentService.cs:101-109 | removing a positive payment overpays no order |
| Data.DetachKeepsOtherTotals | DailyManagementSystem/Data/AppDbContext.cs:91-95 | nulling the references to one order leaves every other order's paid total as it was |
| Data.DeleteOrderKeepsRefs | DailyManagementSystem/Data/AppDbContext.cs:91-95 | after an order is deleted and its references nulled, every remaining reference resolves |
| Data.DeleteOrderKeepsLedger | DailyManagementSystem/Services/Implementations/OrderService.cs:51-63 | deleting an order keeps the store consistent and the ledger balanced |
| Data.AddOrderKeepsLedger | DailyManagementSystem/Services/Implementations/OrderService.cs:21-32 | a positive new order under a fresh key keeps the store consistent and balanced |
| Data.FilterKeepsUniqueKeys | DailyManagementSystem/Services/Implementations/ReportService.cs:62-67 | a date-filtered table still has unique keys |
| Data.AppDbContext.constructor | DailyManagementSystem/Data/AppDbContext.cs:10-13 | an empty store is valid |
| PaymentService.CheckOrderBalance | DailyManagementSystem/Services/Implementations/PaymentService.cs:27-44 | an advance passes; a missing order is not-found; otherwise it is over-balance exactly when the amount paid so far plus this one exceeds the order amount |
| PaymentService.GuardAcceptsExactlyWhatFits | DailyManagementSystem/Services/Implementations/PaymentService.cs:36-44 | the add guard accepts exactly when, after the insert, the order's total is within its amount; equality is allowed |
| PaymentService.GuardAcceptsExactlyWhatFitsOnEdit | DailyManagementSystem/Services/Implementations/PaymentService.cs:80-88 | the edit guard accepts exactly when, after the edit, the order's total is within its amount |
| PaymentService.GuardBoundary | DailyManagementSystem/Services/Implementations/PaymentService.cs:41 | with 700.00 paid on a 1000.00 order, 300.00 is accepted and 300.01 is rejected |
| PaymentService.StoredPayment | DailyManagementSystem/Services/Implementations/PaymentService.cs:47-49 | the inserted payment is the given one with a fresh key and the creation time |
| PaymentService.ApplyEdit | DailyManagementSystem/Services/Implementations/PaymentService.cs:91-94 | an edit overwrites amount, date, order and update time only; client, bank and creation time stay |
| PaymentService.AddPayment | DailyManagementSystem/Services/Implementations/PaymentService.cs:21-52 | non-positive amounts, missing orders and overpayments are rejected with the store unchanged; otherwise exactly one payment is appended; the ledger stays balanced |
| PaymentService.AddedPaymentKeepsStore | DailyManagementSystem/Services/Implementations/PaymentService.cs:49 | a fresh-key payment whose order exists keeps keys unique and references resolvable |
| PaymentService.UpdatePayment | DailyManagementSystem/Services/Implementations/PaymentService.cs:64-99 | as written: not-found, then the guard excluding the payment itself; it succeeds exactly when the edit is accepted; accepted edits rewrite only that payment; no order becomes overpaid, but a non-positive amount is let through |
| PaymentService.EditedPaymentKeepsStore | DailyManagementSystem/Services/Implementations/PaymentService.cs:91-96 | an edit under the same key whose order exists keeps keys unique and references resolvable |
| PaymentService.Edited | DailyManagementSystem/Services/Implementations/PaymentService.cs:91-96 | an accepted edit leaves every other payment in place |
| PaymentService.UncheckedEditsCanOverpay | DailyManagementSystem/Services/Implementations/PaymentService.cs:64-99 | three edits the code accepts, starting from a balanced ledger, leave a 1000.00 order with 1100.00 paid |
| PaymentService.UpdatePaymentChecked | DailyManagementSystem/Services/Implementations/PaymentService.cs:64-99 | the update with the add path's positivity check: the same outcomes, plus rejection of a non-positive amount; the ledger stays balanced |
| PaymentService.CheckedEditKeepsBalanced | DailyManagementSystem/Services/Implementations/PaymentService.cs:80-94 | an accepted, positive edit of a balanced ledger leaves it balanced |
| PaymentService.DeletePayment | DailyManagementSystem/Services/Implementations/PaymentService.cs:101-109 | not-found for an unknown id; otherwise exactly the payments with other ids remain, and the ledger stays balanced |
| PaymentService.RemovedPaymentKeepsStore | DailyManagementSystem/Services/Implementations/PaymentService.cs:107 | the removal keeps keys unique and references resolvable, and removes exactly that id |
| PaymentService.GetAllPayments | DailyManagementSystem/Services/Implementations/PaymentService.cs:54-62 | every payment, newest first |
| PaymentService.NewestFirst | DailyManagementSystem/Services/Implementations/PaymentService.cs:60 | `OrderByDescending(PaymentDate)`: the same payments, each date no earlier than the next |
| PaymentService.GetPaymentsByClient | DailyManagementSystem/Services/Implementations/PaymentService.cs:111-119 | exactly the client's payments, newest first |
| PaymentService.GetPaymentsByOrder | DailyManagementSystem/Services/Implementations/PaymentService.cs:121-128 | exactly the order's payments, newest first |
| PaymentService.GetPaymentsByMonth | DailyManagementSystem/Services/Implementations/PaymentService.cs:130-138 | exactly the payments dated in that year and month, newest first |
| PaymentService.GetTotalReceivedByMonth | DailyManagementSystem/Services/Implementations/PaymentService.cs:140-146 | the month's total is the sum of the month's listing, and zero for a month with no payments |
| ClientService.IsClientNameExists | DailyManagementSystem/Services/Implementations/ClientService.cs:104-108 | as written: true exactly when an active client's name matches in the query's comparison; a match is always a case-insensitive equality |
| ClientService.NameCheckExactWithoutAccents | DailyManagementSystem/Services/Implementations/ClientService.cs:104-108 | where no active name has an accented capital, the check answers exactly whether an active client has the name ignoring case |
| ClientService.NewClient | DailyManagementSystem/Services/Implementations/ClientService.cs:26-29 | the created client is the given one under a fresh key, made active and stamped now; every other field, the update time included, is kept as passed |
| ClientService.CreateClient | DailyManagementSystem/Services/Implementations/ClientService.cs:21-32 | as written: a name the check finds is rejected with the store unchanged; otherwise one client is appended; active names stay distinct while no active name has an accented capital |
| ClientService.CreateCanDuplicateActiveName | DailyManagementSystem/Services/Implementations/ClientService.cs:21-32 | with an active "ÉCOLE", a second "ÉCOLE" passes the check and leaves two active clients with the same name |
| ClientService.CreateClientChecked | DailyManagementSystem/Services/Implementations/ClientService.cs:21-32 | the create with both names folded alike: the same outcomes, and active names stay distinct ignoring case (case as far as Latin-1 goes, see `Text.ToLowerLatin1` below) |
| ClientService.CreateKeepsNamesDistinct | DailyManagementSystem/Services/Implementations/ClientService.cs:23-24 | adding a client whose name no active client has keeps active names distinct |
| ClientService.ApplyClientEdit | DailyManagementSystem/Services/Implementations/ClientService.cs:40-44 | an update overwrites name, phone, address, active flag and update time only |
| ClientService.UpdateClient | DailyManagementSystem/Services/Implementations/ClientService.cs:34-49 | not-found for an unknown id; otherwise only that client is rewritten, with no name check |
| ClientService.UpdateCanDuplicateActiveName | DailyManagementSystem/Services/Implementations/ClientService.cs:34-49 | renaming an active client to another active client's name is accepted and breaks name uniqueness |
| ClientService.Deactivated | DailyManagementSystem/Services/Implementations/ClientService.cs:58-59 | a soft delete clears the active flag and stamps the update time, and changes nothing else |
| ClientService.DeleteClient | DailyManagementSystem/Services/Implementations/ClientService.cs:51-63 | not-found for an unknown id; otherwise the record stays, inactive; active names stay distinct |
| ClientService.SoftDeleteFreesName | DailyManagementSystem/Services/Implementations/ClientService.cs:107 | with active names distinct, a soft-deleted client's name is no longer in use, and the create check lets it through |
| ClientService.GetClientById | DailyManagementSystem/Services/Implementations/ClientService.cs:65-70 | the client with that id, or none exactly when there is none |
| ClientService.GetAllClients | DailyManagementSystem/Services/Implementations/ClientService.cs:72-78 | every client, active or not, sorted by name |
| ClientService.GetAllActiveClients | DailyManagementSystem/Services/Implementations/ClientService.cs:80-87 | exactly the active clients, sorted by name |
| ClientService.ByName | DailyManagementSystem/Services/Implementations/ClientService.cs:76 | `OrderBy(ClientName)` in SQLite's binary collation: the same clients, in ordinal name order |
| ClientService.GetClientOutstanding | DailyManagementSystem/Services/Implementations/ClientService.cs:89-102 | the client's order listing total less its payment listing total, advances included |
| ClientService.OutstandingWithoutRecords | DailyManagementSystem/Services/Implementations/ClientService.cs:89-102 | a client with no orders and no payments owes nothing |
| ClientService.OutstandingAfterPayment | DailyManagementSystem/Services/Implementations/ClientService.cs:96-101 | each payment from the client, advances included, lowers the outstanding amount by its amount; other clients' payments leave it alone |
| ClientService.OutstandingExample | DailyManagementSystem/Services/Implementations/ClientService.cs:89-102 | orders of 500.00 and 300.00 with 200.00 paid leave 600.00 outstanding |
| OrderService.NewOrder | DailyManagementSystem/Services/Implementations/OrderService.cs:26-28 | the created order is the given one under a fresh key, with status "Pending" whatever the caller passed and stamped now; every other field is kept as passed |
| OrderService.CreateOrder | DailyManagementSystem/Services/Implementations/OrderService.cs:21-32 | a non-positive amount is rejected with the store unchanged; otherwise one order is appended; the ledger stays balanced |
| OrderService.ApplyOrderEdit | DailyManagementSystem/Services/Implementations/OrderService.cs:40-44 | an update overwrites date, amount, delivery date, status and update time only |
| OrderService.UpdateOrder | DailyManagementSystem/Services/Implementations/OrderService.cs:34-49 | not-found for an unknown id; otherwise only that order is rewritten; the ledger stays balanced only when the new amount covers what is paid |
| OrderService.ReplaceOrderKeepsStore | DailyManagementSystem/Services/Implementations/OrderService.cs:40-45 | rewriting an order under its own key keeps keys unique and references resolvable |
| OrderService.ReplaceOrderKeepsBalance | DailyManagementSystem/Services/Implementations/OrderService.cs:40-45 | an edit whose amount covers what is paid keeps the ledger balanced |
| OrderService.UpdateOrderCanOverpay | DailyManagementSystem/Services/Implementations/OrderService.cs:34-49 | lowering an order's amount below what is paid is accepted and overpays it |
| OrderService.DeliveredCanBeReopened | DailyManagementSystem/Services/Implementations/OrderService.cs:43 | an update can set a delivered order back to "Pending" |
| OrderService.DeleteOrder | DailyManagementSystem/Services/Implementations/OrderService.cs:51-63 | not-found for an unknown id; otherwise the order goes, payments stay with references to it nulled, and the ledger stays balanced |
| OrderService.Delivered | DailyManagementSystem/Services/Implementations/OrderService.cs:107-109 | the status becomes "Delivered" with the given delivery date and update time; every other field stays |
| OrderService.MarkDelivered | DailyManagementSystem/Services/Implementations/OrderService.cs:101-112 | not-found for an unknown id; otherwise only that order is marked delivered; the ledger stays balanced |
| OrderService.GetOrderById | DailyManagementSystem/Services/Implementations/OrderService.cs:65-71 | the order with that id, or none exactly when there is none |
| OrderService.GetAllOrders | DailyManagementSystem/Services/Implementations/OrderService.cs:73-80 | every order, newest first |
| OrderService.NewestFirst | DailyManagementSystem/Services/Implementations/OrderService.cs:78 | `OrderByDescending(OrderDate)`: the same orders, each date no earlier than the next |
| OrderService.GetOrdersByClient | DailyManagementSystem/Services/Implementations/OrderService.cs:82-89 | exactly the client's orders, newest first |
| OrderService.GetOrdersByMonth | DailyManagementSystem/Services/Implementations/OrderService.cs:91-99 | exactly the orders dated in that year and month, newest first |
| OrderService.GetTotalOrderAmountByMonth | DailyManagementSystem/Services/Implementations/OrderService.cs:114-120 | the month's total is the sum of the month's listing, and zero for a month with no orders |
| OrderService.GetTotalPendingOrderAmount | DailyManagementSystem/Services/Implementations/OrderService.cs:122-128 | delivered orders add nothing: zero when none is pending, every order's amount when all are, and between the two when amounts are positive |
| OrderService.CreateAddsToPending | DailyManagementSystem/Services/Implementations/OrderService.cs:122-128 | a created order adds its amount to the pending total |
| OrderService.DeliveryTakesOffPending | DailyManagementSystem/Services/Implementations/OrderService.cs:101-128 | delivering a pending order takes its amount off the pending total |
| ExpenseService.StoredCategory | DailyManagementSystem/Services/Implementations/ExpenseService.cs:27-30 | a blank category becomes "General" and any other is kept; the stored category is never blank |
| ExpenseService.NewExpense | DailyManagementSystem/Services/Implementations/ExpenseService.cs:26-32 | the stored expense is the given one under a fresh key, stamped now, under its stored category; every other field, the update time included, is kept as passed |
| ExpenseService.AddExpense | DailyManagementSystem/Services/Implementations/ExpenseService.cs:21-35 | a non-positive amount is rejected with the store unchanged; otherwise exactly one expense is appended |
| ExpenseService.ApplyExpenseEdit | DailyManagementSystem/Services/Implementations/ExpenseService.cs:61-65 | an update overwrites description, amount, category, date and update time; the spender and creation time stay |
| ExpenseService.UpdateExpense | DailyManagementSystem/Services/Implementations/ExpenseService.cs:55-70 | not-found for an unknown id; otherwise only that expense is rewritten, with no amount check and no category default |
| ExpenseService.DeleteExpense | DailyManagementSystem/Services/Implementations/ExpenseService.cs:72-80 | not-found for an unknown id; otherwise exactly the expenses with other ids remain |
| ExpenseService.RemovedExpenseMembers | DailyManagementSystem/Services/Implementations/ExpenseService.cs:78 | the removal drops exactly that id |
| ExpenseService.GetAllExpenses | DailyManagementSystem/Services/Implementations/ExpenseService.cs:37-43 | every expense, newest first |
| ExpenseService.NewestFirst | DailyManagementSystem/Services/Implementations/ExpenseService.cs:41 | `OrderByDescending(SpentDate)`: the same expenses, each date no earlier than the next |
| ExpenseService.GetCategories | DailyManagementSystem/Services/Implementations/ExpenseService.cs:45-53 | exactly the categories in use, each once, in ascending order |
| ExpenseService.CategoriesInUse | DailyManagementSystem/Services/Implementations/ExpenseService.cs:49 | the category column holds exactly the categories of the expenses |
| ExpenseService.Ascending | DailyManagementSystem/Services/Implementations/ExpenseService.cs:50-51 | `Distinct().OrderBy`: the same strings, each once, strictly ascending |
| ExpenseService.GetExpensesByMonth | DailyManagementSystem/Services/Implementations/ExpenseService.cs:82-89 | exactly the expenses dated in that year and month, newest first |
| ExpenseService.GetTotalExpenseByMonth | DailyManagementSystem/Services/Implementations/ExpenseService.cs:91-97 | the month's total is the sum of the month's listing, and zero for a month with no expenses |
| ExpenseService.AddedExpenseCountsInItsMonth | DailyManagementSystem/Services/Implementations/ExpenseService.cs:91-97 | an added expense raises the total of its own month by its amount and leaves other months alone |
| ExpenseService.GetExpensesByCategory | DailyManagementSystem/Services/Implementations/ExpenseService.cs:99-106 | as written: exactly the expenses whose category matches in the query's comparison, newest first |
| ExpenseService.GetExpensesByCategoryIgnoringCase | DailyManagementSystem/Services/Implementations/ExpenseService.cs:99-106 | the search with both sides folded alike: exactly the expenses whose category equals the search ignoring case, newest first |
| ExpenseService.CategorySearchWithinIntended | DailyManagementSystem/Services/Implementations/ExpenseService.cs:103 | the search as written finds only what the case-insensitive search finds, and all of it whose category has no accented capital |
| ExpenseService.CategorySearchMissesAccentedCapital | DailyManagementSystem/Services/Implementations/ExpenseService.cs:103 | an expense filed under "ÉPICERIE" is not found by a search for "ÉPICERIE" |
| ExpenseService.BlankCategoryFiledUnderGeneral | DailyManagementSystem/Services/Implementations/ExpenseService.cs:27-30 | an expense added with a blank category is found by a search for "general" |
| ReportService.EndOfMonth | DailyManagementSystem/Services/Implementations/ReportService.cs:33 | the first of the next month minus one day is 00:00 on the month's last day |
| ReportService.GetDateRange | DailyManagementSystem/Services/Implementations/ReportService.cs:22-51 | all time exactly when there is no start year; start is the 1st of (start year, start month or 1); end is the last day of (end year, end month or 12), or of the start month, or 31 December |
| ReportService.AllTimeKeepsEverything | DailyManagementSystem/Services/Implementations/ReportService.cs:27 | with no start year no order, payment or expense is filtered out |
| ReportService.LaterOnLastDayExcluded | DailyManagementSystem/Services/Implementations/ReportService.cs:33 | the end bound is 00:00, so a record later on the last day is excluded |
| ReportService.SingleMonthRange | DailyManagementSystem/Services/Implementations/ReportService.cs:37-41 | a start year and month alone select that month, up to 00:00 of its last day |
| ReportService.WholeYearRange | DailyManagementSystem/Services/Implementations/ReportService.cs:42-46 | a start year alone selects that year, up to 00:00 of 31 December |
| ReportService.GetDashboardSummary | DailyManagementSystem/Services/Implementations/ReportService.cs:53-86 | count and sum of in-range orders, sums of in-range payments and expenses, profit as received minus expenses, pending as order total minus payments towards in-range orders whatever their date |
| ReportService.EmptyDashboard | DailyManagementSystem/Services/Implementations/ReportService.cs:69-74 | with no records every figure is zero |
| ReportService.PaidTowardsIsPerOrder | DailyManagementSystem/Services/Implementations/ReportService.cs:76-80 | the payments towards the in-range orders add up order by order, when order ids are unique |
| ReportService.OrderGroupsCoverTowards | DailyManagementSystem/Services/Implementations/ReportService.cs:76-80 | the in-range orders give distinct group keys, and each counted payment falls in one of them |
| ReportService.GroupOfListedOrder | DailyManagementSystem/Services/Implementations/ReportService.cs:79 | among the counted payments, one listed order's group is exactly that order's payments |
| ReportService.PendingNeverNegative | DailyManagementSystem/Services/Implementations/ReportService.cs:82 | with no order overpaid, the dashboard's pending amount is never negative |
| ReportService.ActiveClientIds | DailyManagementSystem/Services/Implementations/ReportService.cs:100-102 | each client id once, exactly the clients with an in-range order or payment |
| ReportService.ClientNameOr | DailyManagementSystem/Services/Implementations/ReportService.cs:107 | the first client's name with that id, or "Unknown" when there is none |
| ReportService.ClientRow | DailyManagementSystem/Services/Implementations/ReportService.cs:107-120 | a client's row: pending is order total minus paid total |
| ReportService.CollectRows | DailyManagementSystem/Services/Implementations/ReportService.cs:104-121 | the loop appends one row per client id, in id order |
| ReportService.GetMonthlyClientReports | DailyManagementSystem/Services/Implementations/ReportService.cs:88-124 | one row per active client (as a multiset), pending rule on every row, sorted by name, and the rows' counts, order totals and paid totals add up to the dashboard's |
| ReportService.ReorderedClientRows | DailyManagementSystem/Services/Implementations/ReportService.cs:123 | sorting the rows keeps the pending rule and the column sums |
| ReportService.ClientRowsAddUp | DailyManagementSystem/Services/Implementations/ReportService.cs:105-121 | the client rows' counts and totals add up to the in-range counts and totals |
| ReportService.OldestFirst | DailyManagementSystem/Services/Implementations/ReportService.cs:137 | the same rows, in ascending date order |
| ReportService.GetMonthlyOrderReports | DailyManagementSystem/Services/Implementations/ReportService.cs:126-145 | one row per in-range order, ascending by date; the amounts add up to the dashboard's order total |
| ReportService.PaymentLabel | DailyManagementSystem/Services/Implementations/ReportService.cs:162 | "Advance" for an advance or an order that is gone; otherwise the order's name, or "Order #" and the id when it has none |
| ReportService.AdvanceLabelMeansAdvance | DailyManagementSystem/Services/Implementations/ReportService.cs:162 | with references resolving and no order named "Advance", the label is "Advance" exactly for advances |
| ReportService.NamedOrderLabel | DailyManagementSystem/Services/Implementations/ReportService.cs:162 | with unique order ids, a payment towards an order with a name is labelled with that name |
| ReportService.UnnamedOrderLabel | DailyManagementSystem/Services/Implementations/ReportService.cs:162 | a payment towards an unnamed order is labelled "Order #" and the order id, which reads back as the id |
| ReportService.GetMonthlyPaymentReports | DailyManagementSystem/Services/Implementations/ReportService.cs:147-166 | one row per in-range payment, ascending by date; the amounts add up to the dashboard's received total |
| ReportService.GetMonthlyExpenseReports | DailyManagementSystem/Services/Implementations/ReportService.cs:168-188 | one row per in-range expense, ascending by date; the amounts add up to the dashboard's expense total |
| ReportService.AtLeastIsTotalPreorder | DailyManagementSystem/Services/Implementations/ReportService.cs:207 | descending order on totals is a valid sort order |
| ReportService.GroupEntriesSummarise | DailyManagementSystem/Services/Implementations/ReportService.cs:201-206 | the groups have distinct keys, exactly the keys in use, each with its group's total, adding up to the grand total |
| ReportService.GroupEntriesAddUp | DailyManagementSystem/Services/Implementations/ReportService.cs:205 | the group totals add up to the sum of all the expenses |
| ReportService.ReorderedSummary | DailyManagementSystem/Services/Implementations/ReportService.cs:207 | reordering a summary keeps it a summary |
| ReportService.ExpenseTotalsBy | DailyManagementSystem/Services/Implementations/ReportService.cs:201-208 | a summary by the key, in non-increasing order of total |
| ReportService.GetMonthlyCategoryExpenseSummary | DailyManagementSystem/Services/Implementations/ReportService.cs:190-209 | one entry per category of the in-range expenses with its total, non-increasing, adding up to the dashboard's expense total |
| ReportService.GetMonthlyPersonExpenseSummary | DailyManagementSystem/Services/Implementations/ReportService.cs:211-230 | one entry per spender of the in-range expenses with its total, non-increasing, adding up to the dashboard's expense total |
| ExportService.GetPeriodText | DailyManagementSystem/Services/Implementations/ExportService.cs:24-31 | the caption is "All Time" exactly when the range is all time, and every other caption ends in a year digit |
| ExportService.CaptionDescribesRange | DailyManagementSystem/Services/Implementations/ExportService.cs:24-31 | the caption's four cases match the resolver's four cases and name the range's own bounds |
| ReportViewModel.FilterError | DailyManagementSystem/ViewModels/ReportViewModel.cs:174-193 | a filter the three checks accept never resolves to a range that ends before it starts |
| ReportViewModel.OrderCheckIsExact | DailyManagementSystem/ViewModels/ReportViewModel.cs:186-193 | with both years given, a filter is rejected exactly when its range would end before it starts |
| ReportViewModel.MissingStartYearRejected | DailyManagementSystem/ViewModels/ReportViewModel.cs:174-184 | without a start year, a filter passes exactly when it has no start month and no end year, and then it is all time |
| ReportViewModel.Effective | DailyManagementSystem/ViewModels/ReportViewModel.cs:275-276 | a month whose year is missing is dropped; the years stay |
| ReportViewModel.FileNamePart | DailyManagementSystem/ViewModels/ReportViewModel.cs:275-276 | each side of the file name reads back as its year and month, and holds no "_t" for the split to trip on |
| ReportViewModel.YearPartRoundTrip | DailyManagementSystem/ViewModels/ReportViewModel.cs:275-276 | "year_month" and "year_All" read back as the year and month they were made from |
| ReportViewModel.ExportFileName | DailyManagementSystem/ViewModels/ReportViewModel.cs:275-277 | the file name reads back as the period it was built from, up to months without a year |
| ReportViewModel.SameFileNameSameRange | DailyManagementSystem/ViewModels/ReportViewModel.cs:275-277 | two filters with the same file name report the same range |
| ReportViewModel.LoadedReports | DailyManagementSystem/ViewModels/ReportViewModel.cs:215-237 | the screen's net profit is income minus spending |
| ReportViewModel.LoadedReportsAgree | DailyManagementSystem/ViewModels/ReportViewModel.cs:221 | the net profit is the dashboard's profit, and each listing adds up to the matching dashboard figure |
| ReportViewModel.PickListsResolve | DailyManagementSystem/ViewModels/ReportViewModel.cs:172-198 | any filter built from the pick lists can be resolved to a range |
| ReportViewModel.ReportViewModel.constructor | DailyManagementSystem/ViewModels/ReportViewModel.cs:169 | the screen opens with no bounds and the all-time reports |
| ReportViewModel.ReportViewModel.LoadData | DailyManagementSystem/ViewModels/ReportViewModel.cs:210-243 | the reports for the current bounds; the bounds and message are unchanged |
| ReportViewModel.ReportViewModel.ApplyFilter | DailyManagementSystem/ViewModels/ReportViewModel.cs:172-198 | a rejected filter sets its message and loads nothing; an accepted one clears the message and loads the reports for its range |
| ReportViewModel.ReportViewModel.ClearFilter | DailyManagementSystem/ViewModels/ReportViewModel.cs:200-208 | all four bounds are cleared, the range is all time, the message is cleared and the all-time reports are loaded |

## Left out

- Persistence, EF Core change tracking, `SaveChangesAsync`, migrations, `async`/`await` and concurrency: every call runs to completion before the next one. The check-then-insert of the payment guard is therefore atomic here.
- `DateTime.Now` is a parameter of every operation that stamps a record.
- The culture's "MMM" month names are a parameter (`monthName`) of `ExportService.GetPeriodText`.
- The PDF layout of `ExportService`, the notification, navigation, messenger and file-picker services, authentication, and the other view models are not part of this model.
- `GetClientSpecificReportAsync` is declared at DailyManagementSystem/Services/Interfaces/IReportService.cs:16 but not implemented, so it is not modelled.
- Calendar.AddMonths: the year is unbounded above, so .NET's exception past year 9999 is not modelled. A result before year 1 is excluded by its precondition. Ticks are kept only as a time of day.
- ReportService.GetDateRange: it requires months in 1..12 and years of at least 1, where .NET's `DateTime` constructor would otherwise throw. The report screen's pick lists only offer such values; see `ReportViewModel.PickListsResolve`. Years past 9999 are not rejected.
- Text.ToLowerLatin1: .NET's `ToLower()` on the searched value is modelled for the Latin-1 letters only ('A'-'Z' and U+00C0-U+00DE but U+00D7). Capitals beyond U+00FF (Latin Extended, Greek, Cyrillic) and culture-specific mappings such as the Turkish dotted I are kept unchanged here. SQLite's `lower()` on the column (`Text.ToLowerAscii`) folds 'A'-'Z' only, as modelled.
- ClientService.IsClientNameExists: for a stored name with a capital beyond U+00FF the model matches the name against itself, while the source, whose .NET side folds that capital and whose SQLite side does not, finds no match.
- ClientService.CreateClient: names stay distinct in the model's terms only while no active name has an accented capital; with a capital beyond U+00FF the source also lets the duplicate through, which the model does not capture.
- ExpenseService.GetExpensesByCategory: a category with a capital beyond U+00FF is found by the model's search for itself but not by the source's.
- The ON DELETE RESTRICT rule for clients is not modelled. Clients are only ever soft-deleted, so it never fires.
- A client id on a new order or payment is not checked against the client table. The store's foreign key would reject an unknown id; this model accepts it.
- ReportService.GetMonthlyClientReports: `OrderBy(ClientName)` runs in memory with the culture's string comparison. It is modelled as ordinal (code-unit) order.
- ReportService.GetMonthlyCategoryExpenseSummary: the `?? "General"` fallback can never apply, because `Category` is a non-nullable string column. Keys are kept as stored.
- ReportService.GetMonthlyPersonExpenseSummary: the `?? "Unknown"` fallback can never apply, because `SpentBy` is a non-nullable string column. Keys are kept as stored.
- ReportService.OldestFirst: the contract states order and content, not the stability of `OrderBy` among rows with equal dates.
- ReportService.GetMonthlyOrderReports: rows are projected before they are sorted. The query sorts before it projects, which yields the same rows in the same date order.
- ReportService.GetMonthlyPaymentReports: like the order listing, rows are projected before they are sorted.
- ReportService.GetMonthlyExpenseReports: like the order listing, rows are projected before they are sorted.
- ReportService.ClientRow: the client report's paid total counts the client's in-range payments, advances included. The dashboard's pending amount counts payments towards in-range orders whatever their date. The two follow the code and are not reconciled.
- ReportViewModel.ReportViewModel.LoadData: the `catch` that turns a service exception into an error message is not modelled. The load requires bounds the resolver accepts, so no exception arises.
- The constructor's load is fire-and-forget in the source. Here it completes before the constructor returns.
- OrderService.UpdateOrder: "Delivered" is not a final status. The update copies whatever status it is given; see `OrderService.DeliveredCanBeReopened`. The code is followed here.
- Data.NextKey: a new key is 1 + the largest key in the table, and an explicit key on the incoming entity is ignored. SQLite assigns the key itself and may skip keys after deletions; the contract promises only a fresh positive key, which both rules give.
- NewestFirst, ByName and Ascending: the contracts state order and content, not the stability of `OrderBy`/`OrderByDescending`.

## Findings

| source | as written | input that shows it | evidently intended | confidence | as-written member | corrected member |
|---|---|---|---|---|---|---|
| DailyManagementSystem/Services/Implementations/PaymentService.cs:64-99 | `UpdatePaymentAsync` checks the overpayment guard but, unlike `AddPaymentAsync` (line 23), never rejects a non-positive amount; since the guard sums the other payments, a negative payment frees room that later edits fill, and removing the negative payment again then overpays the order | order of 1000.00 with payments 600.00 and 400.00: edit payment 2 to -100.00 (accepted), edit payment 1 to 1100.00 (accepted), edit payment 2 into an advance (accepted): the order has 1100.00 paid | reject `AmountReceived <= 0` on update as on add, which keeps every order within its amount | not executed; medium (the payment screen checks the amount before calling the service) | PaymentService.UpdatePayment, PaymentService.UncheckedEditsCanOverpay | PaymentService.UpdatePaymentChecked, PaymentService.CheckedEditKeepsBalanced |
| DailyManagementSystem/Services/Implementations/ClientService.cs:104-108 | the query compares `c.ClientName.ToLower()`, which EF Core sends to SQLite as `lower()` and which folds 'A'-'Z' only, with `clientName.ToLower()`, a captured value that .NET folds before the query is sent, accented capitals included; a stored name with an accented capital never matches, so the create path lets a duplicate through | an active client "ÉCOLE" exists and a client "ÉCOLE" is created: SQLite gives "École", .NET gives "école", no match, and a second active "ÉCOLE" is stored | compare both names folded alike, so an active name is never created twice ignoring case | not executed; medium (it rests on EF Core evaluating the captured value's `ToLower()` in .NET, and on SQLite's `lower()` without the ICU extension) | ClientService.CreateClient, ClientService.CreateCanDuplicateActiveName | ClientService.CreateClientChecked, ClientService.CreateKeepsNamesDistinct |
| DailyManagementSystem/Services/Implementations/ExpenseService.cs:99-106 | the category search compares the same two differently folded sides, so a category with an accented capital is never found | an expense filed under "ÉPICERIE" and a search for "ÉPICERIE": SQLite gives "Épicerie", .NET gives "épicerie", and the expense is not listed | list every expense whose category equals the search ignoring case | not executed; medium (same grounds as the row above) | ExpenseService.GetExpensesByCategory, ExpenseService.CategorySearchMissesAccentedCapital | ExpenseService.GetExpensesByCategoryIgnoringCase, ExpenseService.CategorySearchWithinIntended |
