/**
 * The UMKM dashboard's headline figures, derived from the summary report: revenue, expense,
 * net income recomputed on the client, and the cash balance with its fallback.
 */
module DashboardPage {
  import opened Wrappers
  import opened IncomeExpenseChart

  /** `income_statement`: each field may be null or absent. */
  datatype IncomeStatement = IncomeStatement(revenue: Option<int>, expense: Option<int>, netIncome: Option<int>)

  /** `cash_flow`: each field may be null or absent. */
  datatype CashFlow = CashFlow(cashStart: Option<int>, netChangeInCash: Option<int>, cashEnd: Option<int>)

  /** The summary report, as far as the dashboard reads it. */
  datatype Summary = Summary(
    incomeStatement: Option<IncomeStatement>,
    cashFlow: Option<CashFlow>,
    monthlyIncomeExpense: Option<seq<MonthlyItem>>)

  /** The three cards and the net income line. */
  datatype Figures = Figures(revenue: int, expense: int, net: int, cash: int)

  /** What the page shows: `if (err) … if (!summary) … else …`. */
  datatype Screen = ErrorMessage(text: string) | LoadingSummary | Dashboard(figures: Figures, monthly: Option<seq<MonthlyItem>>)

  /** `summary.income_statement?.revenue ?? 0` */
  function Revenue(s: Summary): (r: int)
    ensures s.incomeStatement.Some? && s.incomeStatement.value.revenue.Some? ==>
      r == s.incomeStatement.value.revenue.value
    ensures s.incomeStatement.None? || s.incomeStatement.value.revenue.None? ==> r == 0
  {
    if s.incomeStatement.Some? then s.incomeStatement.value.revenue.GetOr(0) else 0
  }

  /** `summary.income_statement?.expense ?? 0` */
  function Expense(s: Summary): (r: int)
    ensures s.incomeStatement.Some? && s.incomeStatement.value.expense.Some? ==>
      r == s.incomeStatement.value.expense.value
    ensures s.incomeStatement.None? || s.incomeStatement.value.expense.None? ==> r == 0
  {
    if s.incomeStatement.Some? then s.incomeStatement.value.expense.GetOr(0) else 0
  }

  /**
   * `cf.cash_end ?? (cf.cash_start ?? 0) + (cf.net_change_in_cash ?? 0)`: an explicit
   * `cash_end` wins, even 0; otherwise the start balance plus the net change, each 0 if absent.
   */
  function Cash(s: Summary): (r: int)
    ensures s.cashFlow.Some? && s.cashFlow.value.cashEnd.Some? ==> r == s.cashFlow.value.cashEnd.value
    ensures s.cashFlow.Some? && s.cashFlow.value.cashEnd.None? ==>
      r == s.cashFlow.value.cashStart.GetOr(0) + s.cashFlow.value.netChangeInCash.GetOr(0)
    ensures s.cashFlow.None? ==> r == 0
  {
    var cf := s.cashFlow.GetOr(CashFlow(None, None, None));
    cf.cashEnd.GetOr(cf.cashStart.GetOr(0) + cf.netChangeInCash.GetOr(0))
  }

  /** The figures shown: net income is always the revenue shown minus the expense shown. */
  function FiguresOf(s: Summary): (r: Figures)
    ensures r.net == r.revenue - r.expense
    ensures r.revenue == Revenue(s) && r.expense == Expense(s) && r.cash == Cash(s)
  {
    Figures(Revenue(s), Expense(s), Revenue(s) - Expense(s), Cash(s))
  }

  /**
   * The net income shown is revenue minus expense, each 0 when missing; the `net_income` the
   * report itself carries plays no part.
   */
  lemma NetIsRecomputed(s: Summary, reported: Option<int>)
    requires s.incomeStatement.Some?
    ensures FiguresOf(s).net ==
      s.incomeStatement.value.revenue.GetOr(0) - s.incomeStatement.value.expense.GetOr(0)
    ensures FiguresOf(s.(incomeStatement := Some(s.incomeStatement.value.(netIncome := reported)))) == FiguresOf(s)
  {
  }

  /** Without an income statement the revenue, expense and net income shown are all 0. */
  lemma MissingIncomeStatement(s: Summary)
    requires s.incomeStatement.None?
    ensures FiguresOf(s).revenue == 0 && FiguresOf(s).expense == 0 && FiguresOf(s).net == 0
  {
  }

  /** The page: an error first, then the loading text until a summary arrives. */
  function ScreenOf(err: Option<string>, summary: Option<Summary>): (r: Screen)
    ensures err.Some? ==> r == ErrorMessage(err.value)
    ensures err.None? && summary.None? ==> r == LoadingSummary
    ensures err.None? && summary.Some? ==>
      r == Dashboard(FiguresOf(summary.value), summary.value.monthlyIncomeExpense)
  {
    if err.Some? then ErrorMessage(err.value)
    else if summary.None? then LoadingSummary
    else Dashboard(FiguresOf(summary.value), summary.value.monthlyIncomeExpense)
  }

  /** Cash 1000 + 250 without `cash_end` is 1250; with `cash_end` 1400 it is 1400. */
  lemma CashScenarios()
    ensures Cash(Summary(None, Some(CashFlow(Some(1000), Some(250), None)), None)) == 1250
    ensures Cash(Summary(None, Some(CashFlow(Some(1000), Some(250), Some(1400))), None)) == 1400
  {
  }
}
