/**
 * The admin recap screen: one row per UMKM for the chosen month and year, paged ten at a time,
 * with the overall totals, a loading state and an error banner.
 */
module AdminSummary {
  import opened Wrappers
  import opened JsValues
  import opened Pagination

  /** One element of `summary_per_umkm`. */
  datatype UmkmSummary = UmkmSummary(
    namaUmkm: string,
    revenue: Raw, expense: Raw, netIncome: Raw,
    totalAssets: Raw, totalLiabilities: Raw, totalEquity: Raw)

  /** `total_all`; the empty object `{}` has every field undefined. */
  datatype TotalAll = TotalAll(
    revenue: Raw, expense: Raw, netIncome: Raw, assets: Raw, liabilities: Raw, equity: Raw)

  const EmptyTotal := TotalAll(Undefined, Undefined, Undefined, Undefined, Undefined, Undefined)

  /** The outcome of the summary request. */
  datatype Response =
    | Fetched(summaryPerUmkm: Option<seq<UmkmSummary>>, totalAll: Option<TotalAll>)
    | Failed

  /** What the content area shows: `loading ? … : error ? … : …`. */
  datatype Screen = Loading | ErrorBanner(message: string) | Report(rows: seq<UmkmSummary>)

  const FetchError := "Gagal memuat data summary"

  class AdminSummaryView {
    var loading: bool
    var summary: seq<UmkmSummary>
    var total: TotalAll
    var error: Option<string>
    var currentPage: int

    /** The page always lies between 1 and the page count shown. */
    predicate Valid()
      reads this
    {
      1 <= currentPage <= PagesShown(TotalPages(|summary|))
    }

    function PageCount(): nat
      reads this
    {
      TotalPages(|summary|)
    }

    /** `paginatedData` */
    function PageRows(): seq<UmkmSummary>
      reads this
    {
      PageItems(summary, currentPage)
    }

    function Content(): (s: Screen)
      reads this
      ensures loading ==> s == Loading
      ensures !loading && error.Some? ==> s == ErrorBanner(error.value)
      ensures !loading && error.None? ==> s == Report(PageRows())
    {
      if loading then Loading
      else if error.Some? then ErrorBanner(error.value)
      else Report(PageRows())
    }

    constructor ()
      ensures Valid()
      ensures loading && summary == [] && total == EmptyTotal && error == None && currentPage == 1
    {
      loading, summary, total, error, currentPage := true, [], EmptyTotal, None, 1;
    }

    /**
     * `fetchSummary`: a success replaces the rows and the totals (missing fields become `[]`
     * and `{}`), clears the error and goes back to page 1; a failure only sets the error.
     * Loading is over on both paths.
     */
    method Fetch(response: Response)
      requires Valid()
      modifies this
      ensures Valid()
      ensures !loading
      ensures response.Fetched? ==>
        && summary == response.summaryPerUmkm.GetOr([])
        && total == response.totalAll.GetOr(EmptyTotal)
        && error == None
        && currentPage == 1
      ensures response.Failed? ==>
        && summary == old(summary) && total == old(total) && currentPage == old(currentPage)
        && error == Some(FetchError)
    {
      loading := true;
      if response.Fetched? {
        summary := response.summaryPerUmkm.GetOr([]);
        total := response.totalAll.GetOr(EmptyTotal);
        error := None;
        currentPage := 1;
      } else {
        error := Some(FetchError);
      }
      loading := false;
    }

    /** A click on "Sebelumnya". */
    method ClickPreviousPage()
      requires Valid()
      modifies this`currentPage
      ensures Valid()
      ensures currentPage == ClickPrevious(old(currentPage))
    {
      ClicksStayInRange(currentPage, PageCount());
      currentPage := ClickPrevious(currentPage);
    }

    /** A click on "Berikutnya". */
    method ClickNextPage()
      requires Valid()
      modifies this`currentPage
      ensures Valid()
      ensures currentPage == ClickNext(old(currentPage), PageCount())
    {
      ClicksStayInRange(currentPage, PageCount());
      currentPage := ClickNext(currentPage, PageCount());
    }
  }
}
