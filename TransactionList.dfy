/**
 * The admin list of every UMKM's transactions: a filter record (UMKM, month, year) sent as the
 * query of the request, and a table with one row per transaction showing its debit and credit
 * totals.
 */
module TransactionList {
  import opened Wrappers
  import opened JsValues
  import opened Sums

  /** One journal row; only its amounts are read here. */
  datatype Detail = Detail(debit: Raw, credit: Raw)

  /** A fetched transaction; `details` is absent when the API leaves it out. */
  datatype Transaction = Transaction(
    id: int, date: string, description: string, category: string, namaUmkm: string,
    details: Option<seq<Detail>>)

  /** The filter record: field name to the text of its control. */
  type Filters = map<string, string>

  const FilterKeys: set<string> := {"umkm_id", "month", "year"}

  /** `useState({ umkm_id: "", month: "", year: "" })` */
  const InitialFilters: Filters := map["umkm_id" := "", "month" := "", "year" := ""]

  /** The filters start with exactly the three keys, each empty. */
  lemma InitialFiltersEmpty()
    ensures InitialFilters.Keys == FilterKeys
    ensures forall k :: k in InitialFilters ==> InitialFilters[k] == ""
  {
  }

  /** `{ ...filters, [name]: value }`: the named key takes the value, every other key is kept. */
  function WithFilter(filters: Filters, name: string, value: string): (r: Filters)
    ensures r.Keys == filters.Keys + {name}
    ensures r[name] == value
    ensures forall k :: k in filters && k != name ==> r[k] == filters[k]
  {
    filters[name := value]
  }

  /** A change of one of the three controls keeps the key set as it is. */
  lemma WithFilterKeepsKeys(filters: Filters, name: string, value: string)
    requires filters.Keys == FilterKeys && name in FilterKeys
    ensures WithFilter(filters, name, value).Keys == FilterKeys
  {
  }

  /** Setting a key to the value it already holds changes nothing. */
  lemma WithFilterSameValue(filters: Filters, name: string)
    requires name in filters
    ensures WithFilter(filters, name, filters[name]) == filters
  {
  }

  function DebitValue(d: Detail): int { ParseFloatOrZero(d.debit) }
  function CreditValue(d: Detail): int { ParseFloatOrZero(d.credit) }

  /**
   * `trx.details?.reduce((sum, d) => sum + (parseFloat(d.debit) || 0), 0)`; `None` for a
   * transaction without `details`.
   */
  function DebitTotal(t: Transaction): (r: Option<int>)
    ensures r.None? <==> t.details.None?
  {
    if t.details.None? then None else Some(SumBy(t.details.value, DebitValue))
  }

  /** The same for the credit column. */
  function CreditTotal(t: Transaction): (r: Option<int>)
    ensures r.None? <==> t.details.None?
  {
    if t.details.None? then None else Some(SumBy(t.details.value, CreditValue))
  }

  /**
   * Appending rows adds their totals; a row whose amount has no numeric reading adds nothing.
   */
  lemma TotalsConcat(t: Transaction, more: seq<Detail>)
    requires t.details.Some?
    ensures DebitTotal(t.(details := Some(t.details.value + more))).value ==
      DebitTotal(t).value + SumBy(more, DebitValue)
    ensures CreditTotal(t.(details := Some(t.details.value + more))).value ==
      CreditTotal(t).value + SumBy(more, CreditValue)
  {
    SumByConcat(t.details.value, more, DebitValue);
    SumByConcat(t.details.value, more, CreditValue);
  }

  /** The totals ignore every value without a numeric reading. */
  lemma UnparseableCountsZero(t: Transaction, d: Detail)
    requires t.details.Some? && !d.debit.Num? && !d.credit.Num?
    ensures DebitTotal(t.(details := Some(t.details.value + [d]))) == DebitTotal(t)
    ensures CreditTotal(t.(details := Some(t.details.value + [d]))) == CreditTotal(t)
  {
    TotalsConcat(t, [d]);
  }

  /** The totals do not depend on the order of the rows. */
  lemma TotalsPermutation(t: Transaction, rows: seq<Detail>)
    requires t.details.Some? && multiset(rows) == multiset(t.details.value)
    ensures DebitTotal(t.(details := Some(rows))) == DebitTotal(t)
    ensures CreditTotal(t.(details := Some(rows))) == CreditTotal(t)
  {
    SumByPermutation(rows, t.details.value, DebitValue);
    SumByPermutation(rows, t.details.value, CreditValue);
  }

  /** What the table body shows, in the order the source tests it. */
  datatype Body = LoadingRow | EmptyRow | Rows(items: seq<Transaction>)

  function BodyOf(loading: bool, transactions: seq<Transaction>): (r: Body)
    ensures loading <==> r == LoadingRow
    ensures r == EmptyRow <==> !loading && transactions == []
    ensures r.Rows? ==> r.items == transactions && transactions != []
  {
    if loading then LoadingRow else if transactions == [] then EmptyRow else Rows(transactions)
  }

  /** The state of the page. */
  class TransactionListView {
    var transactions: seq<Transaction>
    var loading: bool
    var filters: Filters

    predicate Valid()
      reads this
    {
      filters.Keys == FilterKeys
    }

    /** The table body: only the loading row while loading, then the empty row or the rows. */
    function TableBody(): (r: Body)
      reads this
      ensures loading ==> r == LoadingRow
      ensures !loading && transactions == [] ==> r == EmptyRow
      ensures r.Rows? ==> r.items == transactions
    {
      BodyOf(loading, transactions)
    }

    constructor ()
      ensures Valid()
      ensures transactions == [] && loading && filters == InitialFilters
    {
      transactions, loading, filters := [], true, InitialFilters;
    }

    /** `handleFilterChange` for the control called `name`. */
    method ChangeFilter(name: string, value: string)
      requires Valid() && name in FilterKeys
      modifies this`filters
      ensures Valid()
      ensures filters == WithFilter(old(filters), name, value)
      ensures filters[name] == value
      ensures forall k :: k in FilterKeys && k != name ==> filters[k] == old(filters)[k]
    {
      filters := WithFilter(filters, name, value);
    }

    /**
     * `fetchTransactions`: the request carries the current filters as its query; a success
     * replaces the list, a failure keeps the list shown before. Loading is over on both paths.
     */
    method FetchTransactions(response: Option<seq<Transaction>>) returns (query: Filters)
      requires Valid()
      modifies this`transactions, this`loading
      ensures Valid()
      ensures query == filters
      ensures !loading
      ensures response.Some? ==> transactions == response.value
      ensures response.None? ==> transactions == old(transactions)
    {
      loading := true;
      query := filters;
      if response.Some? {
        transactions := response.value;
      }
      loading := false;
    }
  }
}
