/** The transaction table's filter pipeline: a case-insensitive text search,
    then category and status filters with an `'all'` sentinel, then an
    optional row limit. */
module TransactionsTable {
  import opened Common
  import opened MockData

  /** The lower-cased description or category name includes the lower-cased query. */
  predicate MatchesSearch(t: Transaction, query: string)
  {
    Contains(Lower(t.description), Lower(query))
    || Contains(Lower(CategoryName(t.category)), Lower(query))
  }

  /** An empty search string matches every transaction. */
  lemma EmptySearchMatches(t: Transaction)
    ensures MatchesSearch(t, "")
  {
    ContainsEmpty(Lower(t.description));
    assert Lower("") == "";
  }

  /** The three filters the table applies, each switched off by its sentinel. */
  predicate Selected(t: Transaction, query: string, category: string, status: string)
  {
    (query == "" || MatchesSearch(t, query))
    && (category == "all" || CategoryName(t.category) == category)
    && (status == "all" || StatusName(t.status) == status)
  }

  /** The pipeline before the limit: each stage filters only when its control is set. */
  function FilteredUnlimited(ts: seq<Transaction>, query: string, category: string, status: string): seq<Transaction>
  {
    var afterSearch := if query != "" then Filter(ts, (t: Transaction) => MatchesSearch(t, query)) else ts;
    var afterCategory := if category != "all" then Filter(afterSearch, (t: Transaction) => CategoryName(t.category) == category) else afterSearch;
    if status != "all" then Filter(afterCategory, (t: Transaction) => StatusName(t.status) == status) else afterCategory
  }

  /** `filteredTransactions`: `limit` is the component's optional prop, with 0
      standing for `undefined` (both are falsy, so neither truncates). */
  function FilteredTransactions(ts: seq<Transaction>, query: string, category: string, status: string, limit: int): seq<Transaction>
  {
    var filtered := FilteredUnlimited(ts, query, category, status);
    if limit != 0 then SliceTo(filtered, limit) else filtered
  }

  /** A stage that filters only when enabled is a filter by "disabled or passes". */
  lemma OptionalStage(s: seq<Transaction>, enabled: bool, p: Transaction -> bool, q: Transaction -> bool)
    requires forall t :: q(t) == (!enabled || p(t))
    ensures (if enabled then Filter(s, p) else s) == Filter(s, q)
  {
    if enabled {
      FilterCongruent(s, p, q);
    } else {
      FilterKeepsAll(s, q);
    }
  }

  /** The staged pipeline is a single filter by `Selected`. */
  lemma UnlimitedIsOneFilter(ts: seq<Transaction>, query: string, category: string, status: string)
    ensures FilteredUnlimited(ts, query, category, status) == Filter(ts, (t: Transaction) => Selected(t, query, category, status))
  {
    var p1 := (t: Transaction) => query == "" || MatchesSearch(t, query);
    var p2 := (t: Transaction) => category == "all" || CategoryName(t.category) == category;
    var p3 := (t: Transaction) => status == "all" || StatusName(t.status) == status;
    var p12 := (t: Transaction) => p1(t) && p2(t);
    var all := (t: Transaction) => Selected(t, query, category, status);
    var afterSearch := if query != "" then Filter(ts, (t: Transaction) => MatchesSearch(t, query)) else ts;
    OptionalStage(ts, query != "", (t: Transaction) => MatchesSearch(t, query), p1);
    var afterCategory := if category != "all" then Filter(afterSearch, (t: Transaction) => CategoryName(t.category) == category) else afterSearch;
    OptionalStage(afterSearch, category != "all", (t: Transaction) => CategoryName(t.category) == category, p2);
    OptionalStage(afterCategory, status != "all", (t: Transaction) => StatusName(t.status) == status, p3);
    FilterFilter(ts, p1, p2, p12);
    FilterFilter(ts, p12, p3, all);
  }

  /** A transaction survives the unlimited pipeline iff it is in the input and
      passes all three filters; the result keeps the input order. */
  lemma UnlimitedMembership(ts: seq<Transaction>, query: string, category: string, status: string, t: Transaction)
    ensures t in FilteredUnlimited(ts, query, category, status) <==> t in ts && Selected(t, query, category, status)
    ensures IsSubsequence(FilteredUnlimited(ts, query, category, status), ts)
  {
    UnlimitedIsOneFilter(ts, query, category, status);
    FilterMembership(ts, (t: Transaction) => Selected(t, query, category, status), t);
    FilterIsSubsequence(ts, (t: Transaction) => Selected(t, query, category, status));
  }

  /** With no search, both filters on `'all'` and no limit, the table shows its input. */
  lemma NoFiltersIsIdentity(ts: seq<Transaction>)
    ensures FilteredTransactions(ts, "", "all", "all", 0) == ts
  {
  }

  /** A positive limit keeps the first `min(limit, n)` matches; a negative one
      (JavaScript `slice` semantics) drops that many from the end; a limit of
      0 (or none) keeps them all. */
  lemma LimitIsPrefix(ts: seq<Transaction>, query: string, category: string, status: string, limit: int)
    ensures var all := FilteredUnlimited(ts, query, category, status);
      var r := FilteredTransactions(ts, query, category, status, limit);
      && (limit > 0 ==> r == all[..if limit < |all| then limit else |all|])
      && (limit < 0 ==> r == all[..if |all| + limit > 0 then |all| + limit else 0])
      && (limit == 0 ==> r == all)
      && IsSubsequence(r, ts)
  {
    var all := FilteredUnlimited(ts, query, category, status);
    var r := FilteredTransactions(ts, query, category, status, limit);
    UnlimitedMembership(ts, query, category, status, if |ts| > 0 then ts[0] else Transaction("", Date(0, 0, 0), "", Other, 0.0, Income, Completed, Cash));
    PrefixOfSubsequence(r, all, ts);
  }

  /** A prefix of a subsequence is a subsequence. */
  lemma {:induction false} PrefixOfSubsequence(p: seq<Transaction>, a: seq<Transaction>, b: seq<Transaction>)
    requires p <= a && IsSubsequence(a, b)
    ensures IsSubsequence(p, b)
    decreases |b|
  {
    if |p| > 0 && |b| > 0 {
      if a[0] == b[0] && IsSubsequence(a[1..], b[1..]) {
        PrefixOfSubsequence(p[1..], a[1..], b[1..]);
      } else {
        PrefixOfSubsequence(p, a, b[1..]);
      }
    }
  }

  /** Re-filtering a filtered table with the same controls and a non-negative
      limit changes nothing. */
  lemma FilterIdempotent(ts: seq<Transaction>, query: string, category: string, status: string, limit: int)
    requires limit >= 0
    ensures var once := FilteredTransactions(ts, query, category, status, limit);
      FilteredTransactions(once, query, category, status, limit) == once
  {
    var sel := (t: Transaction) => Selected(t, query, category, status);
    var once := FilteredTransactions(ts, query, category, status, limit);
    var all := FilteredUnlimited(ts, query, category, status);
    UnlimitedIsOneFilter(ts, query, category, status);
    UnlimitedIsOneFilter(once, query, category, status);
    assert forall t :: t in once ==> t in all;
    assert forall t :: t in all ==> sel(t);
    FilterKeepsAll(once, sel);
  }

  /** The amount column's sign: `+` for income, `-` for expense. */
  function AmountPrefix(kind: TransactionType): (prefix: char)
    ensures prefix == '+' <==> kind.Income?
    ensures prefix == '-' <==> kind.Expense?
  {
    if kind.Income? then '+' else '-'
  }
}
