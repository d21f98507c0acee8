/** The command palette: a quick search over the transactions that keeps the
    first five matches, and the dispatch that runs when an item is chosen. */
module GlobalSearch {
  import opened Common
  import opened MockData
  import TransactionsTable

  /** Most transactions the palette lists. */
  const MaxResults: nat := 5

  /** `filteredTransactions`: every transaction whose lower-cased description or
      category includes the lower-cased search, then `.slice(0, 5)`. */
  function SearchTransactions(ts: seq<Transaction>, search: string): seq<Transaction>
  {
    SliceTo(Filter(ts, (t: Transaction) => TransactionsTable.MatchesSearch(t, search)), MaxResults)
  }

  /** The palette result holds at most five transactions; they are exactly the
      first matches in list order. */
  lemma SearchIsFirstMatches(ts: seq<Transaction>, search: string)
    ensures var matches := Filter(ts, (t: Transaction) => TransactionsTable.MatchesSearch(t, search));
      var r := SearchTransactions(ts, search);
      && |r| <= MaxResults
      && |r| == (if |matches| < MaxResults then |matches| else MaxResults)
      && r == matches[..|r|]
      && (forall t :: t in r ==> t in ts && TransactionsTable.MatchesSearch(t, search))
  {
  }

  /** The palette search is the table's filter with both selectors on `'all'`
      and a limit of five: an empty search shows the first five transactions. */
  lemma SearchIsTableFilter(ts: seq<Transaction>, search: string)
    ensures SearchTransactions(ts, search) == TransactionsTable.FilteredTransactions(ts, search, "all", "all", MaxResults as int)
  {
    var p := (t: Transaction) => TransactionsTable.MatchesSearch(t, search);
    if search == "" {
      forall t | t in ts ensures p(t) {
        TransactionsTable.EmptySearchMatches(t);
      }
      FilterKeepsAll(ts, p);
    }
  }

  /** An empty search matches every transaction. */
  lemma EmptySearchMatchesAll(ts: seq<Transaction>)
    ensures SearchTransactions(ts, "") == ts[..if |ts| < MaxResults then |ts| else MaxResults]
  {
    SearchIsTableFilter(ts, "");
  }

  /** The Transactions group is rendered only for a non-empty search with matches. */
  predicate ShowTransactionGroup(ts: seq<Transaction>, search: string)
  {
    search != "" && |SearchTransactions(ts, search)| > 0
  }

  /** Although an empty search matches everything, the group stays hidden then. */
  lemma GroupHiddenForEmptySearch(ts: seq<Transaction>)
    ensures !ShowTransactionGroup(ts, "")
    ensures |ts| > 0 ==> |SearchTransactions(ts, "")| > 0
  {
    EmptySearchMatchesAll(ts);
  }

  /** What `handleSelect` leaves behind: the dialog state, the search box and
      where the router was sent (`None` when it was not called). */
  datatype SelectOutcome = SelectOutcome(open: bool, search: string, route: Option<string>)

  /** `handleSelect(type, value)`: close the dialog, clear the search, then route. */
  function HandleSelect(kind: string, value: string): (r: SelectOutcome)
    ensures !r.open && r.search == ""
    ensures kind == "page" ==> r.route == Some(value)
    ensures kind == "transaction" ==> r.route == Some("/transactions")
    ensures kind == "action" ==> (r.route == Some("/transactions") <==> value == "add-transaction")
    ensures r.route.Some? <==> kind == "page" || kind == "transaction" || (kind == "action" && value == "add-transaction")
  {
    var route :=
      if kind == "page" then Some(value)
      else if kind == "transaction" then Some("/transactions")
      else if kind == "action" then
        (if value == "add-transaction" then Some("/transactions")
         else if value == "export" then None
         else None)
      else None;
    SelectOutcome(false, "", route)
  }

  /** Export and the other palette actions (calculator, converter) do not navigate. */
  lemma ActionsWithoutNavigation()
    ensures HandleSelect("action", "export").route == None
    ensures HandleSelect("action", "calculator").route == None
    ensures HandleSelect("action", "converter").route == None
  {
  }
}
