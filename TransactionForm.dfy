/**
 * The journal-entry form of the UMKM app: a draft with one or more line rows, the running
 * debit and credit totals, the balance gate in front of the save request, and the account
 * list grouped by account type for the row selects.
 */
module TransactionForm {
  import opened Wrappers
  import opened JsValues
  import opened Sums

  /** One journal row: the selected account id and the two amount fields, as typed. */
  datatype Line = Line(accountId: string, debit: Raw, credit: Raw)

  /** The row `addDetail` appends and the reset installs: no account, both amounts empty. */
  const EmptyLine := Line("", Blank, Blank)

  /** An account as the accounts endpoint returns it; `kind` is its `type` field. */
  datatype Account = Account(id: int, name: string, kind: string)

  /** The message line under the form. */
  datatype Message =
    | NoMessage     // ""
    | Unbalanced    // "Transaksi tidak seimbang (Debit ≠ Kredit)"
    | Saved         // "Transaksi berhasil disimpan!"
    | SaveFailed    // "Gagal menyimpan transaksi"

  /** The body handed to `createTransaction`. */
  datatype Request = Request(
    date: string,
    description: string,
    cashFlowCategory: string,
    isDividend: int,
    category: string,
    details: seq<Line>)

  function DebitOf(l: Line): JsNumber { NumberOrZero(l.debit) }
  function CreditOf(l: Line): JsNumber { NumberOrZero(l.credit) }

  /** What a row adds to a total when no field is NaN: its number, empty counting as 0. */
  function DebitAmount(l: Line): int { if l.debit.Num? then l.debit.n else 0 }
  function CreditAmount(l: Line): int { if l.credit.Num? then l.credit.n else 0 }

  /**
   * `details.reduce((sum, d) => sum + Number(d.debit || 0), 0)`: NaN as soon as one debit is
   * non-numeric text, otherwise the sum of the debits with empty ones as 0.
   */
  function TotalDebit(details: seq<Line>): (r: JsNumber)
    ensures r.NaN? <==> exists i :: 0 <= i < |details| && details[i].debit.Junk?
    ensures r.Finite? ==> r.v == SumBy(details, DebitAmount)
  {
    TotalByMeaning(details, DebitOf, DebitAmount);
    TotalBy(details, DebitOf)
  }

  /** `details.reduce((sum, d) => sum + Number(d.credit || 0), 0)`, the same for the credits. */
  function TotalCredit(details: seq<Line>): (r: JsNumber)
    ensures r.NaN? <==> exists i :: 0 <= i < |details| && details[i].credit.Junk?
    ensures r.Finite? ==> r.v == SumBy(details, CreditAmount)
  {
    TotalByMeaning(details, CreditOf, CreditAmount);
    TotalBy(details, CreditOf)
  }

  /** `totalDebit === totalCredit && totalDebit > 0`; a balanced entry has two equal, numeric totals. */
  predicate IsBalanced(details: seq<Line>)
    ensures IsBalanced(details) ==>
      TotalDebit(details).Finite? && TotalDebit(details) == TotalCredit(details) && TotalDebit(details).v > 0
  {
    StrictEquals(TotalDebit(details), TotalCredit(details)) && Positive(TotalDebit(details))
  }

  /** No amount field of any row is a non-numeric string. */
  predicate AllNumeric(details: seq<Line>)
  {
    forall i :: 0 <= i < |details| ==> !details[i].debit.Junk? && !details[i].credit.Junk?
  }

  /** Each total is the sum over the rows of that field (empty as 0), or NaN if a field is not numeric. */
  lemma TotalsMeaning(details: seq<Line>)
    ensures TotalDebit(details) ==
      if HasNaN(details, DebitOf) then NaN else Finite(SumBy(details, DebitAmount))
    ensures TotalCredit(details) ==
      if HasNaN(details, CreditOf) then NaN else Finite(SumBy(details, CreditAmount))
    ensures HasNaN(details, DebitOf) <==> exists i :: 0 <= i < |details| && details[i].debit.Junk?
    ensures HasNaN(details, CreditOf) <==> exists i :: 0 <= i < |details| && details[i].credit.Junk?
  {
    TotalByMeaning(details, DebitOf, DebitAmount);
    TotalByMeaning(details, CreditOf, CreditAmount);
  }

  /** The entry is balanced exactly when the debit sum equals the credit sum and is positive. */
  lemma BalancedMeaning(details: seq<Line>)
    ensures IsBalanced(details) <==>
      AllNumeric(details)
      && SumBy(details, DebitAmount) == SumBy(details, CreditAmount)
      && SumBy(details, DebitAmount) > 0
  {
    TotalsMeaning(details);
  }

  /** A draft whose amount fields are all empty (or 0) is never balanced. */
  lemma EmptyDraftNotBalanced(details: seq<Line>)
    requires forall i :: 0 <= i < |details| ==> !Truthy(details[i].debit) && !Truthy(details[i].credit)
    ensures TotalDebit(details) == Finite(0) && TotalCredit(details) == Finite(0)
    ensures !IsBalanced(details)
  {
    TotalsMeaning(details);
    SumByZero(details, DebitAmount);
    SumByZero(details, CreditAmount);
  }

  /** Reordering the rows changes neither total, so not the balance verdict either. */
  lemma TotalsPermutation(a: seq<Line>, b: seq<Line>)
    requires multiset(a) == multiset(b)
    ensures TotalDebit(a) == TotalDebit(b) && TotalCredit(a) == TotalCredit(b)
    ensures IsBalanced(a) <==> IsBalanced(b)
  {
    TotalByPermutation(a, b, DebitOf);
    TotalByPermutation(a, b, CreditOf);
  }

  /** Appending an empty row changes neither total, so not the balance verdict either. */
  lemma AddDetailKeepsTotals(details: seq<Line>)
    ensures TotalDebit(details + [EmptyLine]) == TotalDebit(details)
    ensures TotalCredit(details + [EmptyLine]) == TotalCredit(details)
    ensures IsBalanced(details + [EmptyLine]) <==> IsBalanced(details)
  {
    TotalByAppendZero(details, EmptyLine, DebitOf);
    TotalByAppendZero(details, EmptyLine, CreditOf);
  }

  /** Editing one row's debit leaves the credit total alone. */
  lemma EditDebitKeepsCredit(details: seq<Line>, i: nat, v: Raw)
    requires i < |details|
    ensures TotalCredit(details[i := details[i].(debit := v)]) == TotalCredit(details)
  {
    var edited := details[i := details[i].(debit := v)];
    assert forall j :: 0 <= j < |edited| ==> CreditOf(edited[j]) == CreditOf(details[j]);
    TotalByPointwise(edited, details, CreditOf);
  }

  /** Editing one row's credit leaves the debit total alone. */
  lemma EditCreditKeepsDebit(details: seq<Line>, i: nat, v: Raw)
    requires i < |details|
    ensures TotalDebit(details[i := details[i].(credit := v)]) == TotalDebit(details)
  {
    var edited := details[i := details[i].(credit := v)];
    assert forall j :: 0 <= j < |edited| ==> DebitOf(edited[j]) == DebitOf(details[j]);
    TotalByPointwise(edited, details, DebitOf);
  }

  /** Picking one row's account leaves both totals alone. */
  lemma EditAccountKeepsTotals(details: seq<Line>, i: nat, account: string)
    requires i < |details|
    ensures TotalDebit(details[i := details[i].(accountId := account)]) == TotalDebit(details)
    ensures TotalCredit(details[i := details[i].(accountId := account)]) == TotalCredit(details)
  {
    var edited := details[i := details[i].(accountId := account)];
    assert forall j :: 0 <= j < |edited| ==> DebitOf(edited[j]) == DebitOf(details[j]);
    assert forall j :: 0 <= j < |edited| ==> CreditOf(edited[j]) == CreditOf(details[j]);
    TotalByPointwise(edited, details, DebitOf);
    TotalByPointwise(edited, details, CreditOf);
  }

  /** The accounts of one type, in input order (the reference for the grouping). */
  function OfKind(accounts: seq<Account>, kind: string): (r: seq<Account>)
    ensures forall a :: a in r ==> a in accounts && a.kind == kind
  {
    if accounts == [] then []
    else (if accounts[0].kind == kind then [accounts[0]] else []) + OfKind(accounts[1..], kind)
  }

  /** `data.reduce((acc, item) => { acc[item.type] ??= []; acc[item.type].push(item); return acc }, {})` */
  function GroupByType(accounts: seq<Account>): (groups: map<string, seq<Account>>)
    ensures forall kind :: kind in groups ==> groups[kind] != []
    ensures forall kind, a :: kind in groups && a in groups[kind] ==> a in accounts && a.kind == kind
  {
    if accounts == [] then map[]
    else
      var groups := GroupByType(accounts[..|accounts| - 1]);
      var a := accounts[|accounts| - 1];
      groups[a.kind := (if a.kind in groups then groups[a.kind] else []) + [a]]
  }

  lemma {:induction false} OfKindAppend(accounts: seq<Account>, a: Account, kind: string)
    ensures OfKind(accounts + [a], kind) == OfKind(accounts, kind) + (if a.kind == kind then [a] else [])
    decreases |accounts|
  {
    if accounts == [] {
      assert [a][1..] == [];
    } else {
      assert (accounts + [a])[1..] == accounts[1..] + [a];
      OfKindAppend(accounts[1..], a, kind);
    }
  }

  lemma {:induction false} OfKindEmpty(accounts: seq<Account>, kind: string)
    requires forall i :: 0 <= i < |accounts| ==> accounts[i].kind != kind
    ensures OfKind(accounts, kind) == []
    decreases |accounts|
  {
    if accounts != [] {
      OfKindEmpty(accounts[1..], kind);
    }
  }

  /**
   * There is a group for exactly the types that occur, and each group holds exactly the
   * accounts of that type, in input order.
   */
  lemma {:induction false} GroupByTypeMeaning(accounts: seq<Account>)
    ensures forall kind :: kind in GroupByType(accounts) <==>
      exists i :: 0 <= i < |accounts| && accounts[i].kind == kind
    ensures forall kind :: kind in GroupByType(accounts) ==>
      GroupByType(accounts)[kind] == OfKind(accounts, kind)
    decreases |accounts|
  {
    if accounts != [] {
      var init, a := accounts[..|accounts| - 1], accounts[|accounts| - 1];
      assert accounts == init + [a];
      GroupByTypeMeaning(init);
      forall kind
        ensures kind in GroupByType(accounts) <==>
          exists i :: 0 <= i < |accounts| && accounts[i].kind == kind
      {
        if exists i :: 0 <= i < |init| && init[i].kind == kind {
          var i :| 0 <= i < |init| && init[i].kind == kind;
          assert accounts[i] == init[i];
        }
        if exists i :: 0 <= i < |accounts| && accounts[i].kind == kind {
          var i :| 0 <= i < |accounts| && accounts[i].kind == kind;
          if i < |init| { assert init[i] == accounts[i]; }
        }
      }
      forall kind | kind in GroupByType(accounts)
        ensures GroupByType(accounts)[kind] == OfKind(accounts, kind)
      {
        OfKindAppend(init, a, kind);
        if kind == a.kind && kind !in GroupByType(init) {
          OfKindEmpty(init, kind);
        }
      }
    }
  }

  /** The form. */
  class Draft {
    var date: string
    var description: string
    var cashFlowCategory: string
    var isDividend: bool
    var details: seq<Line>
    var accounts: map<string, seq<Account>>
    var loading: bool
    var message: Message

    /** The draft's initial state, to which a successful save returns. */
    predicate IsInitial()
      reads this
    {
      date == "" && description == "" && cashFlowCategory == "operating" && !isDividend
      && details == [EmptyLine]
    }

    predicate Balanced()
      reads this
    {
      IsBalanced(details)
    }

    /**
     * The submit button's `disabled={!isBalanced || loading}`: it is enabled exactly for a
     * draft with equal, positive numeric totals that is not being saved.
     */
    predicate SubmitDisabled()
      reads this
      ensures !SubmitDisabled() ==> !loading && TotalDebit(details) == TotalCredit(details)
      ensures !SubmitDisabled() ==> TotalDebit(details).Finite? && TotalDebit(details).v > 0
      ensures loading ==> SubmitDisabled()
      ensures (!loading && TotalDebit(details).Finite? && TotalDebit(details) == TotalCredit(details)
               && TotalDebit(details).v > 0) ==> !SubmitDisabled()
    {
      !IsBalanced(details) || loading
    }

    /** The body `handleSubmit` sends for the current draft. */
    function RequestBody(): Request
      reads this
    {
      Request(date, description, cashFlowCategory, if isDividend then 1 else 0, "general", details)
    }

    /** The initial draft (one empty row) cannot be submitted. */
    lemma InitialSubmitDisabled()
      requires IsInitial()
      ensures SubmitDisabled()
    {
      EmptyDraftNotBalanced(details);
    }

    constructor ()
      ensures IsInitial() && accounts == map[] && !loading && message == NoMessage
    {
      date, description, cashFlowCategory, isDividend := "", "", "operating", false;
      details := [EmptyLine];
      accounts := map[];
      loading, message := false, NoMessage;
    }

    /** The accounts fetch on mount: `Some(data)` when it succeeds; a failure is only logged. */
    method LoadAccounts(response: Option<seq<Account>>)
      modifies this`accounts
      ensures accounts == if response.Some? then GroupByType(response.value) else old(accounts)
    {
      if response.Some? {
        accounts := GroupByType(response.value);
      }
    }

    method SetDate(v: string)
      modifies this`date
      ensures date == v
    {
      date := v;
    }

    method SetDescription(v: string)
      modifies this`description
      ensures description == v
    {
      description := v;
    }

    method SetCashFlowCategory(v: string)
      modifies this`cashFlowCategory
      ensures cashFlowCategory == v
    {
      cashFlowCategory := v;
    }

    method SetIsDividend(v: bool)
      modifies this`isDividend
      ensures isDividend == v
    {
      isDividend := v;
    }

    /** `addDetail`: one more row, empty, at the end. */
    method AddDetail()
      modifies this`details
      ensures details == old(details) + [EmptyLine]
      ensures |details| == |old(details)| + 1
      ensures TotalDebit(details) == TotalDebit(old(details))
      ensures TotalCredit(details) == TotalCredit(old(details))
    {
      AddDetailKeepsTotals(details);
      details := details + [EmptyLine];
    }

    /** The account select of row i. */
    method SetAccount(i: nat, v: string)
      requires i < |details|
      modifies this`details
      ensures |details| == |old(details)| && details[i] == old(details)[i].(accountId := v)
      ensures forall j :: 0 <= j < |details| && j != i ==> details[j] == old(details)[j]
      ensures TotalDebit(details) == TotalDebit(old(details))
      ensures TotalCredit(details) == TotalCredit(old(details))
    {
      EditAccountKeepsTotals(details, i, v);
      details := details[i := details[i].(accountId := v)];
    }

    /** The debit input of row i. */
    method SetDebit(i: nat, v: Raw)
      requires i < |details|
      modifies this`details
      ensures |details| == |old(details)| && details[i] == old(details)[i].(debit := v)
      ensures forall j :: 0 <= j < |details| && j != i ==> details[j] == old(details)[j]
      ensures TotalCredit(details) == TotalCredit(old(details))
    {
      EditDebitKeepsCredit(details, i, v);
      details := details[i := details[i].(debit := v)];
    }

    /** The credit input of row i. */
    method SetCredit(i: nat, v: Raw)
      requires i < |details|
      modifies this`details
      ensures |details| == |old(details)| && details[i] == old(details)[i].(credit := v)
      ensures forall j :: 0 <= j < |details| && j != i ==> details[j] == old(details)[j]
      ensures TotalDebit(details) == TotalDebit(old(details))
    {
      EditCreditKeepsDebit(details, i, v);
      details := details[i := details[i].(credit := v)];
    }

    /**
     * `handleSubmit`. An unbalanced draft only gets the warning and no request. A balanced
     * one is sent (the returned request); `saveSucceeds` is the outcome of `createTransaction`.
     * Success resets the draft, failure keeps it; loading is false afterwards on both paths.
     */
    method HandleSubmit(saveSucceeds: bool) returns (request: Option<Request>)
      modifies this
      ensures accounts == old(accounts)
      ensures !old(IsBalanced(details)) ==>
        && request == None
        && message == Unbalanced
        && date == old(date) && description == old(description)
        && cashFlowCategory == old(cashFlowCategory) && isDividend == old(isDividend)
        && details == old(details) && loading == old(loading)
      ensures old(IsBalanced(details)) ==>
        && request == Some(old(RequestBody()))
        && !loading
        && (saveSucceeds ==> IsInitial() && message == Saved)
        && (!saveSucceeds ==>
              && message == SaveFailed
              && date == old(date) && description == old(description)
              && cashFlowCategory == old(cashFlowCategory) && isDividend == old(isDividend)
              && details == old(details))
    {
      if !IsBalanced(details) {
        message := Unbalanced;
        return None;
      }
      loading := true;
      message := NoMessage;
      request := Some(RequestBody());
      if saveSucceeds {
        message := Saved;
        date, description, cashFlowCategory, isDividend := "", "", "operating", false;
        details := [EmptyLine];
      } else {
        message := SaveFailed;
      }
      loading := false;
    }
  }

  /** The entry [debit 1.000.000, credit 1.000.000] is balanced; [debit 500.000, credit 400.000] is not. */
  lemma BalanceScenarios()
    ensures IsBalanced([Line("1", Num(1000000), Blank), Line("2", Blank, Num(1000000))])
    ensures !IsBalanced([Line("1", Num(500000), Blank), Line("2", Blank, Num(400000))])
  {
    BalancedMeaning([Line("1", Num(1000000), Blank), Line("2", Blank, Num(1000000))]);
    BalancedMeaning([Line("1", Num(500000), Blank), Line("2", Blank, Num(400000))]);
  }

  /** Submitting the unbalanced scenario sends nothing and shows the warning. */
  method UnbalancedSubmitScenario()
  {
    var draft := new Draft();
    draft.SetDate("2025-01-31");
    draft.AddDetail();
    draft.SetDebit(0, Num(500000));
    draft.SetCredit(1, Num(400000));
    draft.SetAccount(0, "1");
    draft.SetAccount(1, "2");
    BalanceScenarios();
    assert draft.details == [Line("1", Num(500000), Blank), Line("2", Blank, Num(400000))];
    assert !draft.Balanced();
    var request := draft.HandleSubmit(true);
    assert request == None && draft.message == Unbalanced && draft.date == "2025-01-31";
  }
}
