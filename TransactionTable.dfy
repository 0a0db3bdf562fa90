/**
 * The UMKM app's transaction cards: one card per transaction, a "Lihat Detail" button that
 * expands at most one transaction at a time, and, for the expanded one, its journal rows with
 * debit and credit cells and a footer with the two totals.
 */
module TransactionTable {
  import opened Wrappers
  import opened JsValues
  import opened Sums

  /** A transaction date reduced to what the views read from it. */
  datatype Date = Date(year: int, month: int)

  /** One journal row of a fetched transaction; `accountName` is `d.account?.name`. */
  datatype Detail = Detail(accountName: Option<string>, debit: Raw, credit: Raw)

  /** A fetched transaction; `details` is absent when the API leaves it out. */
  datatype Transaction = Transaction(
    id: int, date: Date, description: string, details: Option<seq<Detail>>)

  /** A cell of the detail table: a number, or "-". */
  datatype Cell = Dash | Amount(n: int)

  /** What the component renders: the "no transactions" message, or the cards. */
  datatype Listing = NoTransactions | Cards(items: seq<Transaction>)

  /** `if (!data || data.length === 0)`: a missing or empty list shows the message. */
  function ListingOf(data: Option<seq<Transaction>>): (r: Listing)
    ensures r == NoTransactions <==> data.None? || data.value == []
    ensures r.Cards? ==> r.items == data.value
  {
    if data.None? || data.value == [] then NoTransactions else Cards(data.value)
  }

  /** `x > 0 ? Number(x) : "-"`: a cell shows a number only when the value is above 0. */
  function AmountCell(x: Raw): (c: Cell)
    ensures c.Amount? <==> x.Num? && x.n > 0
    ensures c.Amount? ==> c.n == x.n
  {
    if Positive(ToNumber(x)) then Amount(ToNumber(x).v) else Dash
  }

  /** The debit cell of a row: its amount when the debit is a number above 0, else "-". */
  function DebitCell(d: Detail): (c: Cell)
    ensures c.Amount? <==> d.debit.Num? && d.debit.n > 0
    ensures c.Amount? ==> c.n == d.debit.n
  {
    AmountCell(d.debit)
  }

  /** The credit cell of a row: its amount when the credit is a number above 0, else "-". */
  function CreditCell(d: Detail): (c: Cell)
    ensures c.Amount? <==> d.credit.Num? && d.credit.n > 0
    ensures c.Amount? ==> c.n == d.credit.n
  {
    AmountCell(d.credit)
  }

  /** A row with both amounts filled in shows both; an empty row shows "-" twice. */
  lemma CellsOfRow(d: Detail)
    ensures !d.debit.Num? && !d.credit.Num? ==> DebitCell(d) == Dash && CreditCell(d) == Dash
    ensures d.debit == Num(0) ==> DebitCell(d) == Dash
    ensures d.credit == Num(0) ==> CreditCell(d) == Dash
  {
  }

  /** `d.account?.name ?? "Akun Tidak Diketahui"` */
  function AccountText(d: Detail): (r: string)
    ensures d.accountName.Some? ==> r == d.accountName.value
    ensures d.accountName.None? ==> r == "Akun Tidak Diketahui"
  {
    d.accountName.GetOr("Akun Tidak Diketahui")
  }

  function DebitOf(d: Detail): JsNumber { NumberOrZero(d.debit) }
  function CreditOf(d: Detail): JsNumber { NumberOrZero(d.credit) }
  function DebitAmount(d: Detail): int { if d.debit.Num? then d.debit.n else 0 }
  function CreditAmount(d: Detail): int { if d.credit.Num? then d.credit.n else 0 }

  /**
   * The footer: `t.details?.reduce((a, b) => a + Number(b.debit || 0), 0)` and the same for
   * credit; `None` when the transaction has no `details` (nothing is shown after "Rp").
   */
  function FooterTotals(t: Transaction): (r: Option<(JsNumber, JsNumber)>)
    ensures r.None? <==> t.details.None?
  {
    if t.details.None? then None
    else Some((TotalBy(t.details.value, DebitOf), TotalBy(t.details.value, CreditOf)))
  }

  /**
   * The footer sums the debits and the credits with empty values as 0; a non-numeric value
   * makes its column NaN.
   */
  lemma FooterTotalsMeaning(t: Transaction)
    requires t.details.Some?
    ensures FooterTotals(t).Some?
    ensures FooterTotals(t).value.0 ==
      if HasNaN(t.details.value, DebitOf) then NaN else Finite(SumBy(t.details.value, DebitAmount))
    ensures FooterTotals(t).value.1 ==
      if HasNaN(t.details.value, CreditOf) then NaN else Finite(SumBy(t.details.value, CreditAmount))
  {
    TotalByMeaning(t.details.value, DebitOf, DebitAmount);
    TotalByMeaning(t.details.value, CreditOf, CreditAmount);
  }

  /** The footer does not depend on the order of the rows. */
  lemma FooterTotalsPermutation(t: Transaction, rows: seq<Detail>)
    requires t.details.Some? && multiset(rows) == multiset(t.details.value)
    ensures FooterTotals(t.(details := Some(rows))) == FooterTotals(t)
  {
    TotalByPermutation(rows, t.details.value, DebitOf);
    TotalByPermutation(rows, t.details.value, CreditOf);
  }

  /** `expanded === t.id`: the detail table of t is visible. */
  predicate DetailsShown(expanded: Option<int>, t: Transaction)
  {
    expanded == Some(t.id)
  }

  /** `setExpanded(expanded === id ? null : id)` */
  function Toggled(expanded: Option<int>, id: int): (r: Option<int>)
    ensures r == Some(id) <==> expanded != Some(id)
    ensures r.Some? ==> r.value == id
  {
    if expanded == Some(id) then None else Some(id)
  }

  /** The number of transactions of `data` whose details are visible. */
  function ShownCount(expanded: Option<int>, data: seq<Transaction>): nat
  {
    if data == [] then 0
    else (if DetailsShown(expanded, data[0]) then 1 else 0) + ShownCount(expanded, data[1..])
  }

  predicate DistinctIds(data: seq<Transaction>)
  {
    forall i, j :: 0 <= i < j < |data| ==> data[i].id != data[j].id
  }

  /** With distinct ids, at most one transaction's details are visible; none after a collapse. */
  lemma {:induction false} AtMostOneShown(expanded: Option<int>, data: seq<Transaction>)
    requires DistinctIds(data)
    ensures ShownCount(expanded, data) <= 1
    ensures expanded.None? ==> ShownCount(expanded, data) == 0
  {
    if data != [] {
      AtMostOneShown(expanded, data[1..]);
      if DetailsShown(expanded, data[0]) {
        NoneShown(expanded, data[1..]);
      }
    }
  }

  lemma {:induction false} NoneShown(expanded: Option<int>, data: seq<Transaction>)
    requires forall i :: 0 <= i < |data| ==> !DetailsShown(expanded, data[i])
    ensures ShownCount(expanded, data) == 0
  {
    if data != [] {
      NoneShown(expanded, data[1..]);
    }
  }

  /** The `expanded` state of one table. */
  class TransactionTableView {
    var expanded: Option<int>

    constructor ()
      ensures expanded == None
    {
      expanded := None;
    }

    /** The details of t are visible exactly when t is the expanded transaction. */
    predicate ShowsDetails(t: Transaction)
      reads this
      ensures ShowsDetails(t) ==> expanded.Some? && expanded.value == t.id
      ensures expanded.None? ==> !ShowsDetails(t)
      ensures expanded == Some(t.id) ==> ShowsDetails(t)
    {
      DetailsShown(expanded, t)
    }

    /** A click on the detail button of the transaction with this id. */
    method Toggle(id: int)
      modifies this
      ensures expanded == Toggled(old(expanded), id)
      ensures old(expanded) == Some(id) ==> expanded == None
      ensures old(expanded) != Some(id) ==> expanded == Some(id)
      ensures forall t: Transaction :: t.id == id ==> (ShowsDetails(t) <==> !old(ShowsDetails(t)))
      ensures forall t: Transaction :: t.id != id ==> !ShowsDetails(t)
    {
      expanded := if expanded == Some(id) then None else Some(id);
    }
  }
}
