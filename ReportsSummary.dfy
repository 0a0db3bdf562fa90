/**
 * The UMKM app's report page: the income statement, retained earnings, balance sheet and cash
 * flow tables, each cell formatted by `fmt`, which shows "-" when there is no number to show.
 */
module ReportsSummary {
  import opened Wrappers
  import opened JsValues

  /** A formatted value: "-" or "Rp <amount>". */
  datatype Shown = Dash | Rupiah(n: int)

  /** A table row: the label and the formatted value. */
  datatype Row = Row(name: string, value: Shown)

  /** What a table body shows: `rows?.length > 0 ? rows : "Tidak ada data"`. */
  datatype Body = NoData | Rows(rows: seq<Row>)

  /** How `fmt` treats a number it is handed: NaN is "-". */
  function FormatNumber(x: JsNumber): (r: Shown)
    ensures r.Dash? <==> x.NaN?
    ensures x.Finite? ==> r == Rupiah(x.v)
  {
    if x.Finite? then Rupiah(x.v) else Dash
  }

  /**
   * `fmt`: "-" for null, undefined, "" or a value `isNaN` rejects, "Rp <amount>" for a number.
   */
  function Fmt(value: Raw): (r: Shown)
    ensures r.Dash? <==> !value.Num?
    ensures value.Num? ==> r == Rupiah(value.n)
  {
    if value.Null? || value.Undefined? || value.Blank? then Dash else FormatNumber(ToNumber(value))
  }

  /** One line of `income_statement.details`. */
  datatype IncomeDetail = IncomeDetail(name: string, kind: string, totalDebit: Raw, totalCredit: Raw)

  /**
   * A revenue line is valued credit minus debit, any other line debit minus credit (the
   * JavaScript `-` coerces both sides, so an absent total gives NaN).
   */
  function DetailValue(d: IncomeDetail): (r: JsNumber)
    ensures d.kind == "revenue" ==> r == Minus(ToNumber(d.totalCredit), ToNumber(d.totalDebit))
    ensures d.kind != "revenue" ==> r == Minus(ToNumber(d.totalDebit), ToNumber(d.totalCredit))
  {
    if d.kind == "revenue" then Minus(ToNumber(d.totalCredit), ToNumber(d.totalDebit))
    else Minus(ToNumber(d.totalDebit), ToNumber(d.totalCredit))
  }

  /** The same amounts valued as revenue and as expense are opposite numbers. */
  lemma DetailSignRule(d: IncomeDetail, debit: int, credit: int)
    requires d.totalDebit == Num(debit) && d.totalCredit == Num(credit)
    ensures DetailValue(d.(kind := "revenue")) == Finite(credit - debit)
    ensures d.kind != "revenue" ==> DetailValue(d) == Finite(debit - credit)
    ensures d.kind != "revenue" ==> DetailValue(d.(kind := "revenue")).v == -DetailValue(d).v
  {
  }

  /** `income.details?.map((d) => [d.name, fmt(value)])`; `None` when there are no details. */
  function IncomeRows(details: Option<seq<IncomeDetail>>): (r: Option<seq<Row>>)
    ensures r.None? <==> details.None?
    ensures r.Some? ==> |r.value| == |details.value|
    ensures r.Some? ==> forall i :: 0 <= i < |r.value| ==>
      r.value[i] == Row(details.value[i].name, FormatNumber(DetailValue(details.value[i])))
  {
    if details.None? then None
    else Some(seq(|details.value|, i requires 0 <= i < |details.value| =>
      Row(details.value[i].name, FormatNumber(DetailValue(details.value[i])))))
  }

  /** A balance-sheet line: `[a.name, fmt(a.balance)]`. */
  datatype BalanceItem = BalanceItem(name: string, balance: Raw)

  /** `balance_sheet`; the page reads the liability list as `balance.liability`. */
  datatype BalanceSheet = BalanceSheet(
    assets: Option<seq<BalanceItem>>,
    liability: Option<seq<BalanceItem>>,
    equity: Option<seq<BalanceItem>>,
    totalAssets: Raw,
    totalLiabilities: Raw,
    totalEquity: Raw)

  /** `list?.map((l) => [l.name, fmt(l.balance)]) || []` */
  function ItemRows(items: Option<seq<BalanceItem>>): (r: seq<Row>)
    ensures items.None? ==> r == []
    ensures items.Some? ==> |r| == |items.value| && forall i :: 0 <= i < |r| ==>
      r[i] == Row(items.value[i].name, Fmt(items.value[i].balance))
  {
    match items
    case None => []
    case Some(list) => seq(|list|, i requires 0 <= i < |list| => Row(list[i].name, Fmt(list[i].balance)))
  }

  /** The liabilities-and-equity table rows: the liability rows, then the equity rows. */
  function LiabilityEquityRows(b: BalanceSheet): (r: seq<Row>)
    ensures |r| == |b.liability.GetOr([])| + |b.equity.GetOr([])|
    ensures r[..|b.liability.GetOr([])|] == ItemRows(b.liability)
  {
    ItemRows(b.liability) + ItemRows(b.equity)
  }

  /** The rows are the liability rows followed by the equity rows, a missing list adding none. */
  lemma LiabilityEquityRowsOrder(b: BalanceSheet)
    ensures |LiabilityEquityRows(b)| == |b.liability.GetOr([])| + |b.equity.GetOr([])|
    ensures forall i :: 0 <= i < |b.liability.GetOr([])| ==>
      LiabilityEquityRows(b)[i] == Row(b.liability.value[i].name, Fmt(b.liability.value[i].balance))
    ensures forall j :: 0 <= j < |b.equity.GetOr([])| ==>
      LiabilityEquityRows(b)[|b.liability.GetOr([])| + j] ==
        Row(b.equity.value[j].name, Fmt(b.equity.value[j].balance))
  {
    var liability, equity := ItemRows(b.liability), ItemRows(b.equity);
    var n := |b.liability.GetOr([])|;
    assert |liability| == n && |equity| == |b.equity.GetOr([])|;
    assert LiabilityEquityRows(b) == liability + equity;
    forall j | 0 <= j < |equity|
      ensures LiabilityEquityRows(b)[n + j] == equity[j]
    {
      assert (liability + equity)[n + j] == equity[j];
    }
  }

  /**
   * `fmt((total_liabilities || 0) + (total_equity || 0))`: the two totals added, a missing one
   * counting as 0; a non-numeric string turns `+` into concatenation and the result into "-".
   */
  function LiabilityEquityTotal(b: BalanceSheet): (r: Shown)
    ensures r.Dash? <==> b.totalLiabilities.Junk? || b.totalEquity.Junk?
    ensures r.Rupiah? ==> r.n == ParseFloatOrZero(b.totalLiabilities) + ParseFloatOrZero(b.totalEquity)
  {
    var l, e := OrZero(b.totalLiabilities), OrZero(b.totalEquity);
    if l.Junk? || e.Junk? then Dash else Rupiah(l.n + e.n)
  }

  /** The footer shows the sum of the two totals, with missing values as 0. */
  lemma LiabilityEquityTotalMeaning(b: BalanceSheet)
    ensures !b.totalLiabilities.Junk? && !b.totalEquity.Junk? ==>
      LiabilityEquityTotal(b) == Rupiah(ParseFloatOrZero(b.totalLiabilities) + ParseFloatOrZero(b.totalEquity))
    ensures b.totalLiabilities.Junk? || b.totalEquity.Junk? ==> LiabilityEquityTotal(b) == Dash
    ensures b.totalLiabilities == Undefined && b.totalEquity == Undefined ==> LiabilityEquityTotal(b) == Rupiah(0)
  {
  }

  /** `rows?.length > 0`: an absent or empty row list shows "Tidak ada data". */
  function BodyOf(rows: Option<seq<Row>>): (r: Body)
    ensures r.NoData? <==> rows.None? || |rows.value| == 0
    ensures r.Rows? ==> r.rows == rows.value
  {
    if rows.Some? && |rows.value| > 0 then Rows(rows.value) else NoData
  }

  /**
   * The fetched report, as far as these tables read it: `income_statement.details` and
   * `balance_sheet`, each possibly absent.
   */
  datatype Report = Report(incomeDetails: Option<seq<IncomeDetail>>, balanceSheet: Option<BalanceSheet>)

  /** `report.balance_sheet || {}`: the empty object has every field undefined. */
  const EmptyBalanceSheet := BalanceSheet(None, None, None, Undefined, Undefined, Undefined)

  function BalanceOf(report: Report): BalanceSheet
  {
    report.balanceSheet.GetOr(EmptyBalanceSheet)
  }

  /**
   * A report without income details and without a balance sheet shows "Tidak ada data" in the
   * income and balance tables, "-" as the total assets and "Rp 0" as the liabilities and
   * equity total.
   */
  lemma EmptyReportTables(report: Report)
    requires report.incomeDetails.None? && report.balanceSheet.None?
    ensures BodyOf(IncomeRows(report.incomeDetails)) == NoData
    ensures BodyOf(Some(ItemRows(BalanceOf(report).assets))) == NoData
    ensures BodyOf(Some(LiabilityEquityRows(BalanceOf(report)))) == NoData
    ensures Fmt(BalanceOf(report).totalAssets) == Dash
    ensures LiabilityEquityTotal(BalanceOf(report)) == Rupiah(0)
  {
    LiabilityEquityRowsOrder(BalanceOf(report));
    LiabilityEquityTotalMeaning(BalanceOf(report));
  }

  /** What the page shows: the loading text first, then "no report", then the report. */
  datatype Page = LoadingReport | NoReport | ReportShown(report: Report)

  function PageOf(loading: bool, report: Option<Report>): (r: Page)
    ensures loading ==> r == LoadingReport
    ensures !loading && report.None? ==> r == NoReport
    ensures r.ReportShown? <==> !loading && report.Some?
    ensures r.ReportShown? ==> r.report == report.value
  {
    if loading then LoadingReport else if report.None? then NoReport else ReportShown(report.value)
  }
}
