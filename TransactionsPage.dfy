/**
 * The UMKM app's transaction list: all transactions fetched once, filtered by month and year,
 * paged ten at a time, with the year options built from the transactions' dates.
 */
module TransactionsPage {
  import opened Wrappers
  import opened Pagination
  import opened TransactionTable

  /** `(!month || m === Number(month)) && (!year || y === Number(year))`; `None` is "all". */
  predicate Matches(t: Transaction, month: Option<int>, year: Option<int>)
    ensures month.None? && year.None? ==> Matches(t, month, year)
  {
    (month.None? || t.date.month == month.value) && (year.None? || t.date.year == year.value)
  }

  /** `transactions.filter(...)` with the predicate above. */
  function Matching(ts: seq<Transaction>, month: Option<int>, year: Option<int>): (r: seq<Transaction>)
    ensures |r| <= |ts|
    ensures forall t :: t in r <==> t in ts && Matches(t, month, year)
  {
    if ts == [] then []
    else (if Matches(ts[0], month, year) then [ts[0]] else []) + Matching(ts[1..], month, year)
  }

  /** Filtering keeps the order: it distributes over concatenation. */
  lemma {:induction false} MatchingConcat(a: seq<Transaction>, b: seq<Transaction>, month: Option<int>, year: Option<int>)
    ensures Matching(a + b, month, year) == Matching(a, month, year) + Matching(b, month, year)
    decreases |a|
  {
    if a == [] {
      assert a + b == b;
    } else {
      assert (a + b)[0] == a[0];
      assert (a + b)[1..] == a[1..] + b;
      MatchingConcat(a[1..], b, month, year);
    }
  }

  /** With neither month nor year chosen the filter keeps every transaction. */
  lemma {:induction false} MatchingAll(ts: seq<Transaction>)
    ensures Matching(ts, None, None) == ts
    decreases |ts|
  {
    if ts != [] {
      MatchingAll(ts[1..]);
    }
  }

  predicate StrictlyDescending(s: seq<int>)
  {
    forall i, j :: 0 <= i < j < |s| ==> s[i] > s[j]
  }

  /** Adds y to a strictly descending list unless it is already there. */
  function InsertDescending(s: seq<int>, y: int): (r: seq<int>)
    requires StrictlyDescending(s)
    ensures StrictlyDescending(r)
    ensures forall x :: x in r <==> x in s || x == y
  {
    if s == [] then [y]
    else if y > s[0] then [y] + s
    else if y == s[0] then s
    else
      var rest := InsertDescending(s[1..], y);
      assert forall k :: 0 <= k < |s| - 1 ==> s[1..][k] < s[0];
      assert forall x :: x in s[1..] ==> x < s[0];
      assert forall j :: 0 <= j < |rest| ==> rest[j] < s[0] by {
        forall j | 0 <= j < |rest| ensures rest[j] < s[0] {
          assert rest[j] in rest;
          assert rest[j] in s[1..] || rest[j] == y;
        }
      }
      [s[0]] + rest
  }

  /**
   * `Array.from(new Set(ts.map(t => year(t.date)))).sort((a, b) => b - a)`: the distinct years
   * of the transactions, newest first.
   */
  function YearOptions(ts: seq<Transaction>): (r: seq<int>)
    ensures StrictlyDescending(r)
    ensures forall y :: y in r <==> exists i :: 0 <= i < |ts| && ts[i].date.year == y
  {
    if ts == [] then []
    else
      var r := InsertDescending(YearOptions(ts[..|ts| - 1]), ts[|ts| - 1].date.year);
      assert forall i :: 0 <= i < |ts| - 1 ==> ts[..|ts| - 1][i] == ts[i];
      r
  }

  class TransactionsPageView {
    var transactions: seq<Transaction>
    var filteredData: seq<Transaction>
    var loading: bool
    var month: Option<int>
    var year: Option<int>
    var currentPage: int

    /**
     * The filter effect keeps the shown list equal to the filtered transactions (all of them
     * when no filter is set); the page is never below 1.
     */
    predicate Valid()
      reads this
    {
      filteredData == Matching(transactions, month, year) && currentPage >= 1
    }

    function PageCount(): nat
      reads this
    {
      TotalPages(|filteredData|)
    }

    /** `paginatedData`, handed to the transaction table. */
    function PageRows(): seq<Transaction>
      reads this
    {
      PageItems(filteredData, currentPage)
    }

    /** The year select's options: the distinct years of all transactions, newest first. */
    function Years(): (r: seq<int>)
      reads this
      ensures StrictlyDescending(r)
      ensures forall y :: y in r <==> exists i :: 0 <= i < |transactions| && transactions[i].date.year == y
    {
      YearOptions(transactions)
    }

    /** The state on mount, before the first fetch resolves. */
    constructor ()
      ensures Valid()
      ensures transactions == [] && filteredData == [] && loading
      ensures month == None && year == None && currentPage == 1
    {
      transactions, filteredData, loading := [], [], true;
      month, year, currentPage := None, None, 1;
    }

    /**
     * The effect on `[month, year, transactions]`: with no filter it shows every transaction and
     * returns early, without touching the page; otherwise it filters and goes back to page 1.
     */
    method ApplyFilter()
      requires currentPage >= 1
      modifies this`filteredData, this`currentPage
      ensures Valid()
      ensures month.None? && year.None? ==> filteredData == transactions && currentPage == old(currentPage)
      ensures month.Some? || year.Some? ==> currentPage == 1
    {
      if month.None? && year.None? {
        MatchingAll(transactions);
        filteredData := transactions;
        return;
      }
      filteredData := Matching(transactions, month, year);
      currentPage := 1;
    }

    /** `load`: a success stores the list in both fields (and the effect then runs); a failure is only logged. */
    method Load(response: Option<seq<Transaction>>)
      requires Valid()
      modifies this
      ensures Valid() && !loading
      ensures month == old(month) && year == old(year)
      ensures response.Some? ==>
        && transactions == response.value
        && filteredData == Matching(response.value, month, year)
        && (month.None? && year.None? ==> filteredData == response.value && currentPage == old(currentPage))
        && (month.Some? || year.Some? ==> currentPage == 1)
      ensures response.None? ==>
        transactions == old(transactions) && filteredData == old(filteredData)
        && currentPage == old(currentPage)
    {
      loading := true;
      if response.Some? {
        transactions := response.value;
        filteredData := response.value;
        ApplyFilter();
      }
      loading := false;
    }

    /** The month select; the effect runs only when the value changes. */
    method SelectMonth(m: Option<int>)
      requires Valid()
      modifies this`month, this`filteredData, this`currentPage
      ensures Valid() && month == m
      ensures m == old(month) ==> currentPage == old(currentPage)
      ensures m != old(month) && (m.Some? || year.Some?) ==> currentPage == 1
      ensures m.None? && year.None? ==> filteredData == transactions && currentPage == old(currentPage)
    {
      if m != month {
        month := m;
        ApplyFilter();
      } else {
        MatchingAll(transactions);
      }
    }

    /** The year select; the effect runs only when the value changes. */
    method SelectYear(y: Option<int>)
      requires Valid()
      modifies this`year, this`filteredData, this`currentPage
      ensures Valid() && year == y
      ensures y == old(year) ==> currentPage == old(currentPage)
      ensures y != old(year) && (y.Some? || month.Some?) ==> currentPage == 1
      ensures y.None? && month.None? ==> filteredData == transactions && currentPage == old(currentPage)
    {
      if y != year {
        year := y;
        ApplyFilter();
      } else {
        MatchingAll(transactions);
      }
    }

    /** "Reset Filter": both selects back to "all"; the list shows every transaction again. */
    method ResetFilter()
      requires Valid()
      modifies this`month, this`year, this`filteredData, this`currentPage
      ensures Valid() && month == None && year == None
      ensures filteredData == transactions && currentPage == old(currentPage)
    {
      if month.Some? || year.Some? {
        month, year := None, None;
        ApplyFilter();
      } else {
        MatchingAll(transactions);
      }
    }

    /** A click on "Sebelumnya". */
    method ClickPreviousPage()
      requires Valid()
      modifies this`currentPage
      ensures Valid()
      ensures currentPage == ClickPrevious(old(currentPage))
    {
      ClicksNeverOvershoot(currentPage, PageCount());
      currentPage := ClickPrevious(currentPage);
    }

    /** A click on "Berikutnya". */
    method ClickNextPage()
      requires Valid()
      modifies this`currentPage
      ensures Valid()
      ensures currentPage == ClickNext(old(currentPage), PageCount())
    {
      ClicksNeverOvershoot(currentPage, PageCount());
      currentPage := ClickNext(currentPage, PageCount());
    }
  }

  /**
   * Without a filter, a reload that shrinks the list keeps the page: after paging to 3 of 25
   * transactions, a reload with 15 leaves page 3 of 2, which shows no rows.
   */
  method StalePageScenario()
  {
    var page := new TransactionsPageView();
    var ts := seq(25, i => Transaction(i, Date(2025, 1), "", None));
    page.Load(Some(ts));
    page.ClickNextPage();
    page.ClickNextPage();
    assert page.currentPage == 3;
    page.Load(Some(ts[..15]));
    assert page.currentPage == 3 && page.PageCount() == 2;
    assert page.PageRows() == [];
    page.ClickNextPage();
    assert page.currentPage == 2 && |page.PageRows()| == 5;
  }
}
