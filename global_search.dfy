/**
 * The header search box (`GlobalSearch`): after the debounce it fetches the
 * most recent transactions and expenses and keeps the first five of each
 * whose listed fields contain the query, ignoring case.
 *
 * The two fetches are a parameter (`None` when either request fails, in
 * which case the results on screen stay as they were); the debounce timer
 * is left out.
 */
module GlobalSearch {
  import opened Wrappers
  import opened Text
  import opened Ledger

  /** The most results of each kind the box shows. */
  const Shown := 5

  datatype Results = Results(transactions: seq<Txn>, expenses: seq<Expense>)

  /** `v?.toLowerCase().includes(q)`: an absent field never matches. */
  predicate Has(v: Option<string>, q: string) {
    v.Some? && Contains(Lower(v.value), q)
  }

  /** `matchTxn`'s test: one of the six listed fields contains the query. */
  predicate TxnHit(t: Txn, q: string) {
    Has(t.customer_name, q) || Has(t.transaction_number, q) || Has(t.receiving_account_name, q)
    || Has(t.receiving_account_number, q) || Has(t.currency, q) || Has(t.fund_status, q)
  }

  /** `matchExp`'s test: one of the four listed fields contains the query. */
  predicate ExpenseHit(e: Expense, q: string) {
    Has(e.title, q) || Has(e.category, q) || Has(e.description, q) || Has(e.payment_method, q)
  }

  function TxnHits(q: string): Txn -> bool { (t: Txn) => TxnHit(t, q) }
  function ExpenseHits(q: string): Expense -> bool { (e: Expense) => ExpenseHit(e, q) }

  /** The normalised query: trimmed and lower-cased. */
  function Normalized(query: string): string {
    Lower(Trim(query))
  }

  /**
   * The results after the query changes: cleared for a blank query; the
   * previous ones when a fetch fails; otherwise the first five matches of
   * each kind, in fetched order.
   */
  function Search(query: string, fetched: Option<(seq<Txn>, seq<Expense>)>, previous: Results): (r: Results)
    ensures |r.transactions| <= Shown || r == previous
    ensures |r.expenses| <= Shown || r == previous
  {
    if Trim(query) == "" then Results([], [])
    else if fetched.None? then previous
    else
      var q := Normalized(query);
      Results(Prefix(Filter(fetched.value.0, TxnHits(q)), Shown),
              Prefix(Filter(fetched.value.1, ExpenseHits(q)), Shown))
  }

  /** Only a blank (all-whitespace) query clears the results. */
  lemma BlankClears(query: string, fetched: Option<(seq<Txn>, seq<Expense>)>, previous: Results)
    ensures AllSpace(query) ==> Search(query, fetched, previous) == Results([], [])
    ensures !AllSpace(query) && fetched.None? ==> Search(query, fetched, previous) == previous
  {
    TrimEmptyIffBlank(query);
  }

  /**
   * For a non-blank query and a successful fetch, each list holds only
   * matches, in fetched order; it is the leading part of all matches, and it
   * falls short of five only when it holds every match.
   */
  lemma SearchFindsFirstMatches(query: string, txns: seq<Txn>, exps: seq<Expense>, previous: Results)
    requires !AllSpace(query)
    ensures var r := Search(query, Some((txns, exps)), previous);
      var q := Normalized(query);
      && r.transactions == Filter(txns, TxnHits(q))[..|r.transactions|]
      && r.expenses == Filter(exps, ExpenseHits(q))[..|r.expenses|]
      && (forall t :: t in r.transactions ==> t in txns && TxnHit(t, q))
      && (forall e :: e in r.expenses ==> e in exps && ExpenseHit(e, q))
      && (|r.transactions| < Shown ==> forall t :: t in txns && TxnHit(t, q) ==> t in r.transactions)
      && (|r.expenses| < Shown ==> forall e :: e in exps && ExpenseHit(e, q) ==> e in r.expenses)
      && |r.transactions| <= Shown && |r.expenses| <= Shown
  {
    TrimEmptyIffBlank(query);
    var q := Normalized(query);
    var r := Search(query, Some((txns, exps)), previous);
    forall t | t in r.transactions
      ensures t in Filter(txns, TxnHits(q))
    {
      var i :| 0 <= i < |r.transactions| && r.transactions[i] == t;
      assert Filter(txns, TxnHits(q))[i] == t;
    }
    forall e | e in r.expenses
      ensures e in Filter(exps, ExpenseHits(q))
    {
      var i :| 0 <= i < |r.expenses| && r.expenses[i] == e;
      assert Filter(exps, ExpenseHits(q))[i] == e;
    }
  }

  /** Surrounding whitespace does not change the search. */
  lemma TrimmedQuerySame(query: string, fetched: Option<(seq<Txn>, seq<Expense>)>, previous: Results)
    ensures Search(Trim(query), fetched, previous) == Search(query, fetched, previous)
  {
    TrimIdempotent(query);
  }

  /** A customer name that contains the trimmed query as typed matches, whatever the letter case. */
  lemma CustomerNameHit(t: Txn, query: string)
    requires t.customer_name.Some? && Contains(t.customer_name.value, Trim(query))
    ensures TxnHit(t, Normalized(query))
  {
    LowerContains(t.customer_name.value, Trim(query));
  }

  /** An expense title that contains the trimmed query as typed matches, whatever the letter case. */
  lemma ExpenseTitleHit(e: Expense, query: string)
    requires e.title.Some? && Contains(e.title.value, Trim(query))
    ensures ExpenseHit(e, Normalized(query))
  {
    LowerContains(e.title.value, Trim(query));
  }
}
