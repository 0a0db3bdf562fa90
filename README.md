# keuangan_umkm — a Dafny model of the bookkeeping views

keuangan_umkm is a small double-entry bookkeeping application for micro, small and medium
enterprises (UMKM). It has two React front ends: one for the UMKM owner and one for the
administrator. This project models the client-side logic of those front ends. What they fetch
from the API is taken as an input value. The model covers:

- **Journal entry form** (`TransactionForm`): the draft of date, description, cash-flow
  category, dividend flag and journal rows. It covers the debit and credit totals and the
  balance gate in front of the save request. It also covers the success, failure and
  "unbalanced" paths, and grouping the accounts by type.
- **Dashboard figures** (`DashboardPage`): revenue, expense, net income recomputed on the
  client, and the cash balance with its fallback.
- **Monthly chart series** (`IncomeExpenseChart`): the month of each entry as key (last entry
  wins), the twelve-month gap fill, and the highest- and lowest-revenue months.
- **Report tables** (`ReportsSummary`): the `fmt` display rule, the sign rule of income
  statement lines, the liabilities-then-equity rows and their total.
- **Transaction screens** (`TransactionsPage`, `TransactionTable`, `TransactionList`): the
  month/year filter and its effect, the descending list of years, the single expanded
  transaction, the debit/credit cell rule and the per-transaction totals. On the admin side
  they also cover the filter record and the loading/empty precedence.
- **Admin recap** (`AdminSummary`): the fetch outcome, the page reset and the error banner.
- **Pagination** (`Pagination`), shared by two screens: ten rows per page, `Math.ceil` page count,
  `slice` and the clamped, disableable previous/next buttons.

Pure parts are functions and lemmas. The components that keep React state become classes. Each
class's methods reassign its fields. An HTTP outcome is a method parameter: `Some`/`Fetched` for
a response, `None`/`Failed` for a rejected request.

JavaScript values are modelled explicitly in `JsValues`. A JSON field is undefined, null, `""`,
a number (or a string that reads as one), or a string with no numeric reading. A JavaScript
number is a whole amount or NaN. This matters because the components differ:

- `TransactionForm` and `TransactionTable` sum `Number(x || 0)`, so one non-numeric amount makes
  the total NaN. The entry is then never balanced.
- `TransactionList` and the chart use `parseFloat(x) || 0`, which counts such a value as 0.

So a non-numeric amount is NaN in the form's and the table's totals and 0 in the admin list's
totals and the chart.

On the transactions page, a reload without a filter keeps the current page, so after the list
shrinks the page can lie past the last page and show no rows. "Berikutnya" is then enabled and
moves back to the last page (`Pagination.NextFromPastEnd`, `TransactionsPage.StalePageScenario`).

The report page reads the liability list as `balance.liability`
(frontend_umkm/src/pages/ReportsSummary.jsx:222), while the sibling component reads
`balanceData.liabilities` (frontend_umkm/src/components/Reports.jsx:170). The model follows the
page as written (`ReportsSummary.LiabilityEquityRows`). If the API sends `liabilities`, the page
lists no liability rows. This is a likely defect in the source, inferred from the text alone.

Shared pieces: `Wrappers` (Option), `JsValues` (coercions), `Sums` (the `reduce` sums with their
permutation, pointwise and NaN lemmas) and `Pagination`.

## Model

| member | source | states |
|---|---|---|
| `JsValues.ToNumber` | frontend_umkm/src/pages/ReportsSummary.jsx:167-169 | `Number(x)` is NaN exactly for undefined and non-numeric text; null and "" give 0 |
| `JsValues.OrZero` | frontend_umkm/src/pages/ReportsSummary.jsx:229-230 | `x || 0` keeps a truthy value and turns every falsy one into 0; only non-numeric text survives as text |
| `JsValues.NumberOrZero` | frontend_umkm/src/components/TransactionForm.jsx:35-36 | `Number(x || 0)` is NaN exactly for non-numeric text; empty values count as 0 |
| `JsValues.ParseFloatOrZero` | frontend_admin/src/pages/TransactionList.jsx:155 | `parseFloat(x) || 0` is the number when there is one and 0 otherwise |
| `JsValues.Plus` | frontend_umkm/src/components/TransactionForm.jsx:35 | numeric `+` is NaN exactly when an operand is NaN, else the sum |
| `JsValues.Minus` | frontend_umkm/src/pages/ReportsSummary.jsx:168 | numeric `-` is NaN exactly when an operand is NaN, else the difference |
| `Sums.SumByConcat` | frontend_admin/src/pages/TransactionList.jsx:154-161 | a sum over rows `a + b` is the sum over `a` plus the sum over `b` |
| `Sums.SumByPermutation` | frontend_admin/src/pages/TransactionList.jsx:154-161 | a sum over rows does not depend on their order (equal multisets give equal sums) |
| `Sums.SumByPointwise` | frontend_umkm/src/components/TransactionForm.jsx:35-36 | rows that add the same amounts one by one have the same sum |
| `Sums.SumByZero` | frontend_umkm/src/components/TransactionForm.jsx:35-36 | rows that each add 0 sum to 0 |
| `Sums.TotalByMeaning` | frontend_umkm/src/components/TransactionForm.jsx:35-36 | the NaN-absorbing `reduce` is NaN exactly when some row is NaN, otherwise the plain sum of the rows' amounts |
| `Sums.HasNaNPermutation` | frontend_umkm/src/components/TransactionForm.jsx:35-36 | whether some row is NaN does not depend on the order of the rows |
| `Sums.TotalByPermutation` | frontend_umkm/src/components/TransactionForm.jsx:35-36 | the NaN-absorbing total does not depend on the order of the rows |
| `Sums.TotalByPointwise` | frontend_umkm/src/components/TransactionTable.jsx:104-112 | rows contributing the same numbers one by one give the same total |
| `Sums.TotalByAppendZero` | frontend_umkm/src/components/TransactionForm.jsx:39-41 | appending a row that contributes 0 leaves the total unchanged |
| `TransactionForm.TotalDebit` | frontend_umkm/src/components/TransactionForm.jsx:35 | the debit total is NaN exactly when some row's debit is non-numeric text, otherwise the sum of the debits with empty ones as 0 |
| `TransactionForm.TotalCredit` | frontend_umkm/src/components/TransactionForm.jsx:36 | the credit total is NaN exactly when some row's credit is non-numeric text, otherwise the sum of the credits with empty ones as 0 |
| `TransactionForm.IsBalanced` | frontend_umkm/src/components/TransactionForm.jsx:37 | a balanced entry has two numeric, equal totals above 0 |
| `TransactionForm.TotalsMeaning` | frontend_umkm/src/components/TransactionForm.jsx:35-36 | each total is the sum of that field over the rows (empty as 0), and NaN exactly when some row's field is non-numeric |
| `TransactionForm.BalancedMeaning` | frontend_umkm/src/components/TransactionForm.jsx:37 | balanced if and only if every amount is numeric, debit sum equals credit sum, and the debit sum is positive |
| `TransactionForm.EmptyDraftNotBalanced` | frontend_umkm/src/components/TransactionForm.jsx:9 | a draft whose amounts are all empty or 0 has totals 0 and 0 and is never balanced |
| `TransactionForm.TotalsPermutation` | frontend_umkm/src/components/TransactionForm.jsx:35-37 | reordering the rows changes neither total nor the balance verdict |
| `TransactionForm.AddDetailKeepsTotals` | frontend_umkm/src/components/TransactionForm.jsx:39-41 | appending the empty row changes neither total nor the balance verdict |
| `TransactionForm.EditDebitKeepsCredit` | frontend_umkm/src/components/TransactionForm.jsx:148-151 | editing one row's debit leaves the credit total unchanged |
| `TransactionForm.EditCreditKeepsDebit` | frontend_umkm/src/components/TransactionForm.jsx:159-162 | editing one row's credit leaves the debit total unchanged |
| `TransactionForm.EditAccountKeepsTotals` | frontend_umkm/src/components/TransactionForm.jsx:125-128 | choosing one row's account leaves both totals unchanged |
| `TransactionForm.OfKind` | frontend_umkm/src/components/TransactionForm.jsx:21-25 | the reference group of one type: only accounts of the input with that type |
| `TransactionForm.OfKindAppend` | frontend_umkm/src/components/TransactionForm.jsx:23 | a new account extends exactly its own type's group, at the end |
| `TransactionForm.OfKindEmpty` | frontend_umkm/src/components/TransactionForm.jsx:22 | a type no account has gets an empty reference group |
| `TransactionForm.GroupByType` | frontend_umkm/src/components/TransactionForm.jsx:21-25 | every group is non-empty and holds only input accounts of its own type |
| `TransactionForm.GroupByTypeMeaning` | frontend_umkm/src/components/TransactionForm.jsx:21-25 | there is a group for exactly the types that occur, and each group is exactly the accounts of that type in input order |
| `TransactionForm.BalanceScenarios` | frontend_umkm/src/components/TransactionForm.jsx:37 | debit 1.000.000 against credit 1.000.000 is balanced; 500.000 against 400.000 is not |
| `TransactionForm.Draft.SubmitDisabled` | frontend_umkm/src/components/TransactionForm.jsx:187 | the submit button is enabled exactly when nothing is saving and the totals are equal, numeric and positive |
| `TransactionForm.Draft.InitialSubmitDisabled` | frontend_umkm/src/components/TransactionForm.jsx:9 | the initial draft with its one empty row cannot be submitted |
| `TransactionForm.Draft.constructor` | frontend_umkm/src/components/TransactionForm.jsx:5-13 | the draft starts in its initial state: empty date and description, "operating", not dividend, one empty row, no accounts, no message |
| `TransactionForm.Draft.LoadAccounts` | frontend_umkm/src/components/TransactionForm.jsx:16-32 | a successful accounts fetch stores the accounts grouped by type; a failure keeps the groups as they were |
| `TransactionForm.Draft.SetDate` | frontend_umkm/src/components/TransactionForm.jsx:88 | the date input sets only the date |
| `TransactionForm.Draft.SetDescription` | frontend_umkm/src/components/TransactionForm.jsx:95 | the description input sets only the description |
| `TransactionForm.Draft.SetCashFlowCategory` | frontend_umkm/src/components/TransactionForm.jsx:100 | the category select sets only the cash-flow category |
| `TransactionForm.Draft.SetIsDividend` | frontend_umkm/src/components/TransactionForm.jsx:111 | the checkbox sets only the dividend flag |
| `TransactionForm.Draft.AddDetail` | frontend_umkm/src/components/TransactionForm.jsx:39-41 | the rows become the old rows plus one empty row at the end; both totals are unchanged |
| `TransactionForm.Draft.SetAccount` | frontend_umkm/src/components/TransactionForm.jsx:125-128 | only row i's account changes; every other row, all lengths and both totals stay |
| `TransactionForm.Draft.SetDebit` | frontend_umkm/src/components/TransactionForm.jsx:148-151 | only row i's debit changes; every other row and the credit total stay |
| `TransactionForm.Draft.SetCredit` | frontend_umkm/src/components/TransactionForm.jsx:159-162 | only row i's credit changes; every other row and the debit total stay |
| `TransactionForm.Draft.HandleSubmit` | frontend_umkm/src/components/TransactionForm.jsx:43-75 | unbalanced: warning, no request, draft and loading unchanged. Balanced: the request carries the draft (dividend as 1/0, category "general"); success resets the draft with the saved message, failure keeps every field with the failure message; loading ends false |
| `IncomeExpenseChart.DataMap` | frontend_umkm/src/components/IncomeExpenseChart.jsx:26-33 | every key of the map holds a point labelled with that key |
| `IncomeExpenseChart.BuildDataMap` | frontend_umkm/src/components/IncomeExpenseChart.jsx:26-33 | the `forEach` loop builds exactly the dictionary `DataMap` describes |
| `IncomeExpenseChart.GapFill` | frontend_umkm/src/components/IncomeExpenseChart.jsx:35 | twelve points, labelled Jan..Dec when every key holds its own month, with 0/0 for a month the map lacks |
| `IncomeExpenseChart.DataMapLastWins` | frontend_umkm/src/components/IncomeExpenseChart.jsx:27-32 | a month is a key exactly when some entry names it, and it then holds the parsed amounts of the last such entry |
| `IncomeExpenseChart.SeriesShape` | frontend_umkm/src/components/IncomeExpenseChart.jsx:35 | the series has twelve points Jan..Dec in order; a missing month is 0/0, a present one has its last entry's amounts |
| `IncomeExpenseChart.MaxRevenueIndex` | frontend_umkm/src/components/IncomeExpenseChart.jsx:37 | the `reduce` picks a point with the highest revenue, the first one on ties |
| `IncomeExpenseChart.MinRevenueIndex` | frontend_umkm/src/components/IncomeExpenseChart.jsx:38 | the `reduce` picks a point with the lowest revenue, the first one on ties |
| `IncomeExpenseChart.ScenarioSeries` | frontend_umkm/src/components/IncomeExpenseChart.jsx:26-35 | entries Jan 100, Feb 500, Mar 0 give those three points followed by nine 0/0 months |
| `IncomeExpenseChart.IncomeExpense` | frontend_umkm/src/components/IncomeExpenseChart.jsx:13-38 | no series at all when `monthly` is not an array; otherwise twelve gap-filled points with the highest/lowest-revenue months, each a point of the series that bounds all revenues and comes first among its ties |
| `Pagination.TotalPages` | frontend_admin/src/pages/AdminSummary.jsx:17 | the page count is the fewest pages of ten holding all rows; 0 only for no rows |
| `Pagination.SliceIndex` | frontend_admin/src/pages/AdminSummary.jsx:18-21 | `slice` clamps an index into the list; an index inside the list is kept |
| `Pagination.Slice` | frontend_admin/src/pages/AdminSummary.jsx:18-21 | `slice` with both ends in order inside the list is the plain subsequence, never longer than the list, and empty when the end is not after the start |
| `Pagination.PageItems` | frontend_umkm/src/components/TransactionsPage.jsx:18-21 | page p shows rows (p-1)*10 up to p*10, cut at the list's end; never more than ten |
| `Pagination.PageSizes` | frontend_admin/src/pages/AdminSummary.jsx:16-21 | every page before the last is full; the last holds the remaining rows and is not empty |
| `Pagination.FirstPagesPrefix` | frontend_admin/src/pages/AdminSummary.jsx:18-21 | pages 1..k laid end to end are the first 10k rows |
| `Pagination.PagesCoverList` | frontend_umkm/src/components/TransactionsPage.jsx:17-21 | all pages together show every row exactly once, in order |
| `Pagination.Previous` | frontend_admin/src/pages/AdminSummary.jsx:243 | `Math.max(p - 1, 1)` is at least 1 and one less than p from page 2 on |
| `Pagination.Next` | frontend_admin/src/pages/AdminSummary.jsx:259 | `Math.min(p + 1, totalPages)` never passes the page count and is p + 1 before the last page |
| `Pagination.PreviousDisabled` | frontend_admin/src/pages/AdminSummary.jsx:244 | on a page from 1 up, "Sebelumnya" is disabled exactly where going back would not move |
| `Pagination.NextDisabled` | frontend_admin/src/pages/AdminSummary.jsx:260 | on a page within range, "Berikutnya" is disabled exactly where going on would not move; always disabled when there are no pages |
| `Pagination.ClickPrevious` | frontend_umkm/src/components/TransactionsPage.jsx:148-149 | a click on "Sebelumnya" goes back one page from page 2 on and stays on page 1 |
| `Pagination.ClickNext` | frontend_umkm/src/components/TransactionsPage.jsx:164-165 | a click on "Berikutnya" goes on one before the last page, does nothing on the last page or without pages, and moves a page past the end back to the last page |
| `Pagination.NextFromPastEnd` | frontend_umkm/src/components/TransactionsPage.jsx:164-167 | from a page past the last, "Berikutnya" is enabled and moves to the last page |
| `Pagination.PagesShown` | frontend_admin/src/pages/AdminSummary.jsx:255 | "Halaman p dari n" shows the page count, or 1 when there are no pages |
| `Pagination.ClicksStayInRange` | frontend_admin/src/pages/AdminSummary.jsx:242-262 | from a page between 1 and the count shown, both buttons stay in that range; previous goes back one except on page 1, next goes on one except on the last page, where it is disabled |
| `Pagination.ClicksNeverOvershoot` | frontend_umkm/src/components/TransactionsPage.jsx:147-173 | from any page, previous never goes below 1, and an enabled next never passes the page count; a disabled next leaves the page |
| `Pagination.TwentyFiveRows` | frontend_umkm/src/components/TransactionsPage.jsx:16-21 | 25 rows make three pages: page 1 rows 0..9, page 3 rows 20..24 |
| `AdminSummary.AdminSummaryView.Content` | frontend_admin/src/pages/AdminSummary.jsx:135-141 | loading text first, then the error banner, then the rows of the current page |
| `AdminSummary.AdminSummaryView.constructor` | frontend_admin/src/pages/AdminSummary.jsx:7-15 | the screen starts loading with no rows, empty totals, no error, page 1 |
| `AdminSummary.AdminSummaryView.Fetch` | frontend_admin/src/pages/AdminSummary.jsx:28-46 | success stores the rows and totals (`[]`/`{}` when missing), clears the error and resets to page 1; failure sets the error and keeps the rest; loading ends false; the page stays in range |
| `AdminSummary.AdminSummaryView.ClickPreviousPage` | frontend_admin/src/pages/AdminSummary.jsx:243-244 | the page becomes the previous-click page and stays in range |
| `AdminSummary.AdminSummaryView.ClickNextPage` | frontend_admin/src/pages/AdminSummary.jsx:259-260 | the page becomes the next-click page and stays in range |
| `TransactionTable.ListingOf` | frontend_umkm/src/components/TransactionTable.jsx:18-23 | a missing or empty list shows the "no transactions" message, otherwise one card per transaction |
| `TransactionTable.AmountCell` | frontend_umkm/src/components/TransactionTable.jsx:88-95 | a cell shows a number exactly when the value is a number above 0, and "-" otherwise |
| `TransactionTable.DebitCell` | frontend_umkm/src/components/TransactionTable.jsx:88-90 | the debit cell shows the debit exactly when it is a number above 0 |
| `TransactionTable.CreditCell` | frontend_umkm/src/components/TransactionTable.jsx:93-95 | the credit cell shows the credit exactly when it is a number above 0 |
| `TransactionTable.CellsOfRow` | frontend_umkm/src/components/TransactionTable.jsx:88-95 | empty amounts and amounts of 0 show "-" |
| `TransactionTable.AccountText` | frontend_umkm/src/components/TransactionTable.jsx:85 | a row shows its account's name when there is one |
| `TransactionTable.FooterTotals` | frontend_umkm/src/components/TransactionTable.jsx:104-112 | there is a footer total exactly when the transaction has details |
| `TransactionTable.FooterTotalsMeaning` | frontend_umkm/src/components/TransactionTable.jsx:104-112 | the footer sums debits and credits with empty values as 0; a non-numeric value makes its column NaN |
| `TransactionTable.FooterTotalsPermutation` | frontend_umkm/src/components/TransactionTable.jsx:104-112 | the footer does not depend on the order of the rows |
| `TransactionTable.Toggled` | frontend_umkm/src/components/TransactionTable.jsx:54 | clicking the expanded transaction collapses it; clicking another expands that one |
| `TransactionTable.AtMostOneShown` | frontend_umkm/src/components/TransactionTable.jsx:68 | with distinct ids at most one transaction's details are visible, none when nothing is expanded |
| `TransactionTable.NoneShown` | frontend_umkm/src/components/TransactionTable.jsx:68 | when no transaction matches the expanded id, no details are visible |
| `TransactionTable.TransactionTableView.constructor` | frontend_umkm/src/components/TransactionTable.jsx:5 | nothing is expanded at first |
| `TransactionTable.TransactionTableView.ShowsDetails` | frontend_umkm/src/components/TransactionTable.jsx:68 | a transaction's details show exactly when it is the expanded one, and none when nothing is expanded |
| `TransactionTable.TransactionTableView.Toggle` | frontend_umkm/src/components/TransactionTable.jsx:54 | the detail button collapses the expanded transaction and expands any other; the clicked transaction's details flip and no other transaction's show |
| `TransactionsPage.Matches` | frontend_umkm/src/components/TransactionsPage.jsx:50-53 | with neither month nor year chosen every transaction matches |
| `TransactionsPage.Matching` | frontend_umkm/src/components/TransactionsPage.jsx:46-54 | the filter keeps exactly the transactions that match month and year (each unless "all") and never grows the list |
| `TransactionsPage.MatchingConcat` | frontend_umkm/src/components/TransactionsPage.jsx:46 | filtering keeps the order of the list |
| `TransactionsPage.MatchingAll` | frontend_umkm/src/components/TransactionsPage.jsx:41-43 | with neither month nor year chosen, every transaction is kept |
| `TransactionsPage.InsertDescending` | frontend_umkm/src/components/TransactionsPage.jsx:77-79 | adding a year keeps the list strictly descending and adds exactly that year |
| `TransactionsPage.YearOptions` | frontend_umkm/src/components/TransactionsPage.jsx:76-80 | the year options are strictly descending and contain exactly the years that occur |
| `TransactionsPage.TransactionsPageView.Years` | frontend_umkm/src/components/TransactionsPage.jsx:76-80 | the year options of the page are strictly descending and are exactly the years of the loaded transactions |
| `TransactionsPage.TransactionsPageView.constructor` | frontend_umkm/src/components/TransactionsPage.jsx:7-15 | the page starts loading with no transactions, no filter, page 1 |
| `TransactionsPage.TransactionsPageView.ApplyFilter` | frontend_umkm/src/components/TransactionsPage.jsx:40-58 | the effect restores the filter invariant; without a filter it shows all and keeps the page (early return), otherwise it resets to page 1 |
| `TransactionsPage.TransactionsPageView.Load` | frontend_umkm/src/components/TransactionsPage.jsx:23-34 | success stores the list and reruns the filter; failure keeps both lists and the page; loading ends false |
| `TransactionsPage.TransactionsPageView.SelectMonth` | frontend_umkm/src/components/TransactionsPage.jsx:100-101 | the month changes; the effect runs only on a change, resetting to page 1 when a filter is set |
| `TransactionsPage.TransactionsPageView.SelectYear` | frontend_umkm/src/components/TransactionsPage.jsx:112-113 | the year changes; the effect runs only on a change, resetting to page 1 when a filter is set |
| `TransactionsPage.TransactionsPageView.ResetFilter` | frontend_umkm/src/components/TransactionsPage.jsx:124-128 | both filters become "all" and every transaction is shown; the page is kept |
| `TransactionsPage.TransactionsPageView.ClickPreviousPage` | frontend_umkm/src/components/TransactionsPage.jsx:148-149 | the page becomes the previous-click page and stays at least 1 |
| `TransactionsPage.TransactionsPageView.ClickNextPage` | frontend_umkm/src/components/TransactionsPage.jsx:164-165 | the page becomes exactly the next-click page of the old page and the page count, and stays at least 1; from a page past the end that is the last page |
| `DashboardPage.Revenue` | frontend_umkm/src/components/DashboardPage.jsx:41 | revenue is the statement's revenue, 0 when it or the statement is missing |
| `DashboardPage.Expense` | frontend_umkm/src/components/DashboardPage.jsx:42 | expense is the statement's expense, 0 when it or the statement is missing |
| `DashboardPage.Cash` | frontend_umkm/src/components/DashboardPage.jsx:44-45 | cash is `cash_end` whenever present (even 0), otherwise `cash_start + net_change_in_cash` with each missing value as 0 |
| `DashboardPage.FiguresOf` | frontend_umkm/src/components/DashboardPage.jsx:41-45 | net income is the revenue shown minus the expense shown; revenue, expense and cash are the defaulted values |
| `DashboardPage.NetIsRecomputed` | frontend_umkm/src/components/DashboardPage.jsx:43 | net income is revenue minus expense; a `net_income` in the report has no effect on any figure |
| `DashboardPage.MissingIncomeStatement` | frontend_umkm/src/components/DashboardPage.jsx:41-43 | without an income statement revenue, expense and net income are all 0 |
| `DashboardPage.ScreenOf` | frontend_umkm/src/components/DashboardPage.jsx:25-45 | an error wins, then the loading text until a summary arrives, then the figures and the monthly list |
| `DashboardPage.CashScenarios` | frontend_umkm/src/components/DashboardPage.jsx:45 | 1000 + 250 without `cash_end` is 1250; with `cash_end` 1400 it is 1400 |
| `ReportsSummary.FormatNumber` | frontend_umkm/src/pages/ReportsSummary.jsx:5-7 | a NaN is "-", a number is "Rp" with that amount |
| `ReportsSummary.Fmt` | frontend_umkm/src/pages/ReportsSummary.jsx:4-8 | "-" exactly for null, undefined, "" and non-numeric input; "Rp" with the number otherwise |
| `ReportsSummary.DetailValue` | frontend_umkm/src/pages/ReportsSummary.jsx:165-170 | a revenue line is valued credit minus debit, any other line debit minus credit |
| `ReportsSummary.DetailSignRule` | frontend_umkm/src/pages/ReportsSummary.jsx:166-169 | with numeric totals a revenue line shows credit − debit, another line debit − credit, and the two readings are opposite |
| `ReportsSummary.IncomeRows` | frontend_umkm/src/pages/ReportsSummary.jsx:165-171 | one row per income detail, in order, with its name and formatted value; no rows when details are missing |
| `ReportsSummary.ItemRows` | frontend_umkm/src/pages/ReportsSummary.jsx:211 | one row per balance item, in order, with its name and formatted balance; `[]` when the list is missing |
| `ReportsSummary.LiabilityEquityRows` | frontend_umkm/src/pages/ReportsSummary.jsx:221-224 | as many rows as liabilities and equities together, starting with the liability rows |
| `ReportsSummary.LiabilityEquityRowsOrder` | frontend_umkm/src/pages/ReportsSummary.jsx:221-224 | the rows are the liability rows followed by the equity rows, a missing list adding none |
| `ReportsSummary.LiabilityEquityTotal` | frontend_umkm/src/pages/ReportsSummary.jsx:228-231 | "-" exactly when a total is non-numeric text, otherwise the two totals added with missing ones as 0 |
| `ReportsSummary.LiabilityEquityTotalMeaning` | frontend_umkm/src/pages/ReportsSummary.jsx:228-231 | the footer shows total liabilities plus total equity with missing values as 0; non-numeric text gives "-" |
| `ReportsSummary.BodyOf` | frontend_umkm/src/pages/ReportsSummary.jsx:36-58 | an absent or empty row list shows "Tidak ada data", otherwise the rows |
| `ReportsSummary.EmptyReportTables` | frontend_umkm/src/pages/ReportsSummary.jsx:120-122 | a report without income details and balance sheet shows no-data tables, "-" total assets and Rp 0 as liabilities plus equity |
| `ReportsSummary.PageOf` | frontend_umkm/src/pages/ReportsSummary.jsx:115-118 | the loading text first, then "no report", then the report |
| `TransactionList.InitialFiltersEmpty` | frontend_admin/src/pages/TransactionList.jsx:11-15 | the filters start with exactly the keys umkm_id, month and year, each "" |
| `TransactionList.WithFilter` | frontend_admin/src/pages/TransactionList.jsx:45-47 | the named key takes the new value; every other key keeps its value |
| `TransactionList.WithFilterKeepsKeys` | frontend_admin/src/pages/TransactionList.jsx:45-47 | a change of one of the three controls keeps the key set |
| `TransactionList.WithFilterSameValue` | frontend_admin/src/pages/TransactionList.jsx:46 | re-entering the current value changes nothing |
| `TransactionList.DebitTotal` | frontend_admin/src/pages/TransactionList.jsx:154-157 | there is a debit total exactly when the transaction has details |
| `TransactionList.CreditTotal` | frontend_admin/src/pages/TransactionList.jsx:158-161 | there is a credit total exactly when the transaction has details |
| `TransactionList.TotalsConcat` | frontend_admin/src/pages/TransactionList.jsx:154-161 | more rows add their parsed amounts to both totals |
| `TransactionList.UnparseableCountsZero` | frontend_admin/src/pages/TransactionList.jsx:155 | a row without numeric amounts changes neither total |
| `TransactionList.TotalsPermutation` | frontend_admin/src/pages/TransactionList.jsx:154-161 | both totals are invariant under reordering the rows |
| `TransactionList.BodyOf` | frontend_admin/src/pages/TransactionList.jsx:140-152 | while loading only the loading row shows, whatever the list; the empty row shows exactly when not loading and the list is empty |
| `TransactionList.TransactionListView.TableBody` | frontend_admin/src/pages/TransactionList.jsx:140-152 | the page's table shows only the loading row while loading, the empty row for an empty list, else its transactions |
| `TransactionList.TransactionListView.constructor` | frontend_admin/src/pages/TransactionList.jsx:7-15 | the page starts loading with no transactions and the initial filters |
| `TransactionList.TransactionListView.ChangeFilter` | frontend_admin/src/pages/TransactionList.jsx:45-47 | only the named filter changes; the other keys keep their values and the key set is kept |
| `TransactionList.TransactionListView.FetchTransactions` | frontend_admin/src/pages/TransactionList.jsx:18-28 | the query is the current filters; success replaces the list, failure keeps it; loading ends false |

## Left out

- HTTP and the API layer are not modelled. Each request's outcome is a method parameter; the month/year query strings, tokens and headers are not modelled. The same goes for the 401 handling in `axiosInstance.js` and the Excel downloads in AdminSummary and ReportsSummary.
- Interleaved asynchronous steps are not modelled. Each fetch or save is one atomic step, so the `loading` flag is only seen false afterwards. Out-of-order responses are an event-loop concern.
- Effects that React runs on a state change are method calls. AdminSummary re-fetching when the month or year select changes is the caller invoking `Fetch` again. The model does not keep the month and year of AdminSummary or its totals display.
- The JSX markup, Tailwind classes and the Recharts drawing are not modelled. Neither are the chart's dot highlighting, the green/red colour of the net figure and the balance-sheet status colour.
- `toLocaleString("id-ID")` and `toLocaleDateString` are not modelled. A displayed amount is its integer.
- Amounts are whole integers, not floating point. `parseFloat` reading a number prefix of text such as "12abc" is not modelled: such text counts as non-numeric.
- `new Date(t.date)` is not modelled. A transaction's date is a (year, month) pair.
- Browser form validation (`required`, `type="number"`) and `e.preventDefault()` are not modelled. The form's debit and credit inputs can therefore hold any value here, including non-numeric text.
- TransactionForm's row handlers write one field into the row object after a shallow copy, so the old row object is changed as well. The model has value semantics and does not capture that aliasing.
- TransactionForm's account groups are a map. The order in which the groups are listed in the select (object key insertion order) is not modelled.
- TransactionTable's delete button (`handleDelete`, its confirm dialog and the reload callback) is not modelled, because it is an API call and a browser dialog.
- TransactionList's UMKM list (`fetchUmkms`) only fills the options of a select, so it is not modelled.
- TransactionList.DebitTotal: for a transaction without `details` the source's `totalDebit.toLocaleString` throws during rendering. The model returns `None` and states nothing about the crash.
- TransactionList.CreditTotal: for a transaction without `details` the source's `totalCredit.toLocaleString` throws during rendering. The model returns `None` and states nothing about the crash.
- ReportsSummary.LiabilityEquityTotal: treats `+` as numeric addition of the two totals. If the API sent either total as a numeric string, JavaScript would concatenate instead (`"100" + 0` is `"1000"`), and `fmt` would show the concatenation. The model does not tell numbers and numeric strings apart. The same holds for `ReportsSummary.LiabilityEquityTotalMeaning`.
- DashboardPage.Cash: treats `(cash_start ?? 0) + (net_change_in_cash ?? 0)` as numeric addition. If the API sent either field as a string, JavaScript would concatenate the two. The cash-flow fields are integers here, so the model cannot show that.
- The retained-earnings and cash-flow tables of the report page are `fmt` applied to single fields, which `ReportsSummary.Fmt` covers. Their fixed row lists and the `cash.details` block are not modelled separately. The month filter and the loading state of `fetchReport` are covered only through `ReportsSummary.PageOf`.
- The `Reports.jsx`, `CashFlowChart.jsx`, CRUD, login, layout and routing files are not part of this model.
