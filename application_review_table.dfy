/**
 * The financier's application review table (components/financier/application-review-table.tsx):
 * a search and status filter, five sort orders over the filtered list, and the summary cards
 * (total, per-status counts, total requested amount).
 */
module ApplicationReviewTable {
  import opened Wrappers
  import opened Types
  import opened Seqs
  import opened Text
  import opened Counts

  /** The search covers client name, purpose and id; the status filter is "all" or a status. */
  predicate ApplicationMatches(app: LoanApplication, searchTerm: string, statusFilter: string)
  {
    (MatchesTerm(app.clientName, searchTerm) || MatchesTerm(app.purpose, searchTerm) || MatchesTerm(app.id, searchTerm))
    && (statusFilter == "all" || LoanStatusName(app.status) == statusFilter)
  }

  function ApplicationFilter(searchTerm: string, statusFilter: string): LoanApplication -> bool
  {
    (app: LoanApplication) => ApplicationMatches(app, searchTerm, statusFilter)
  }

  /** Strict lexicographic order by character code, standing for `localeCompare(...) < 0`. */
  predicate LexLess(a: string, b: string)
  {
    if a == [] then b != []
    else b != [] && (a[0] < b[0] || (a[0] == b[0] && LexLess(a[1..], b[1..])))
  }

  /** `LexLess` is a strict order: never both ways, and never a string before itself. */
  lemma {:induction false} LexLessAsymmetric(a: string, b: string)
    ensures LexLess(a, b) ==> !LexLess(b, a)
  {
    if a != [] && b != [] && a[0] == b[0] {
      LexLessAsymmetric(a[1..], b[1..]);
    }
  }

  /** Two different strings are ordered one way or the other. */
  lemma {:induction false} LexLessTotal(a: string, b: string)
    requires a != b
    ensures LexLess(a, b) || LexLess(b, a)
  {
    if a != [] && b != [] && a[0] == b[0] {
      assert a == [a[0]] + a[1..] && b == [b[0]] + b[1..];
      LexLessTotal(a[1..], b[1..]);
    }
  }

  /** `before(a, b)` holds when the comparator of sort mode `sortBy` returns a negative number
      for `(a, b)`; an unknown mode's comparator always returns 0. */
  function Before(sortBy: string): (LoanApplication, LoanApplication) -> bool
  {
    (a: LoanApplication, b: LoanApplication) =>
      if sortBy == "date-desc" then b.createdAt - a.createdAt < 0
      else if sortBy == "date-asc" then a.createdAt - b.createdAt < 0
      else if sortBy == "amount-desc" then b.amount - a.amount < 0.0
      else if sortBy == "amount-asc" then a.amount - b.amount < 0.0
      else if sortBy == "client" then LexLess(a.clientName, b.clientName)
      else false
  }

  /** Every comparator is a strict order, so the sorted list is well defined. */
  lemma BeforeAsymmetric(sortBy: string)
    ensures Asymmetric(Before(sortBy))
  {
    forall a: LoanApplication, b: LoanApplication | Before(sortBy)(a, b)
      ensures !Before(sortBy)(b, a)
    {
      LexLessAsymmetric(a.clientName, b.clientName);
    }
  }

  /** `filteredApplications`: the matching applications, rearranged by the selected order. */
  function FilteredApplications(apps: seq<LoanApplication>, searchTerm: string, statusFilter: string, sortBy: string): (r: seq<LoanApplication>)
    ensures multiset(r) == multiset(Filter(apps, ApplicationFilter(searchTerm, statusFilter)))
    ensures forall a :: a in r <==> a in apps && ApplicationMatches(a, searchTerm, statusFilter)
  {
    var kept := Filter(apps, ApplicationFilter(searchTerm, statusFilter));
    var r := SortBy(kept, Before(sortBy));
    assert forall a :: a in r <==> a in multiset(kept);
    r
  }

  /** Each sort mode gives the order its label names, between neighbouring rows. */
  lemma FilteredApplicationsOrdered(apps: seq<LoanApplication>, searchTerm: string, statusFilter: string, sortBy: string)
    ensures var r := FilteredApplications(apps, searchTerm, statusFilter, sortBy);
      forall i :: 0 < i < |r| ==>
        (sortBy == "date-desc" ==> r[i - 1].createdAt >= r[i].createdAt)
        && (sortBy == "date-asc" ==> r[i - 1].createdAt <= r[i].createdAt)
        && (sortBy == "amount-desc" ==> r[i - 1].amount >= r[i].amount)
        && (sortBy == "amount-asc" ==> r[i - 1].amount <= r[i].amount)
        && (sortBy == "client" ==> !LexLess(r[i].clientName, r[i - 1].clientName))
  {
    var kept := Filter(apps, ApplicationFilter(searchTerm, statusFilter));
    BeforeAsymmetric(sortBy);
    SortBySorted(kept, Before(sortBy));
  }

  /** An unknown sort mode keeps the list order of the filter. */
  lemma UnknownSortKeepsOrder(apps: seq<LoanApplication>, searchTerm: string, statusFilter: string, sortBy: string)
    requires sortBy !in {"date-desc", "date-asc", "amount-desc", "amount-asc", "client"}
    ensures FilteredApplications(apps, searchTerm, statusFilter, sortBy) == Filter(apps, ApplicationFilter(searchTerm, statusFilter))
  {
    SortByStable(Filter(apps, ApplicationFilter(searchTerm, statusFilter)), Before(sortBy));
  }

  /** With the default filters every application is listed. */
  lemma DefaultFiltersListAll(apps: seq<LoanApplication>, sortBy: string)
    ensures multiset(FilteredApplications(apps, "", "all", sortBy)) == multiset(apps)
  {
    forall a | a in apps ensures ApplicationFilter("", "all")(a) {
      EmptyTermMatches(a.clientName);
    }
    FilterAll(apps, ApplicationFilter("", "all"));
  }

  function StatusName(app: LoanApplication): string
  {
    LoanStatusName(app.status)
  }

  const StatusLabels: seq<string> := ["draft", "submitted", "under-review", "approved", "rejected", "disbursed"]

  /** `statusCounts`: how many applications carry each status name. */
  method StatusCounts(apps: seq<LoanApplication>) returns (counts: map<string, nat>)
    ensures forall k :: CountOf(counts, k) == multiset(Names(apps, StatusName))[k]
    ensures forall k :: k in counts ==> k in StatusLabels
  {
    counts := Tally(Names(apps, StatusName));
  }

  predicate IsUnderReview(app: LoanApplication) { app.status == UnderReview }
  predicate IsApproved(app: LoanApplication) { app.status == Approved }

  /** The "Under Review" and "Approved" cards count those applications, and the counts of all
      six statuses add up to the "Total Applications" card. */
  lemma StatusCardsConsistent(apps: seq<LoanApplication>)
    ensures multiset(Names(apps, StatusName))["under-review"] == Count(apps, IsUnderReview)
    ensures multiset(Names(apps, StatusName))["approved"] == Count(apps, IsApproved)
    ensures TotalCount(multiset(Names(apps, StatusName)), StatusLabels) == |apps|
  {
    NamesCount(apps, StatusName, "under-review", IsUnderReview);
    NamesCount(apps, StatusName, "approved", IsApproved);
    CountsCoverAll(Names(apps, StatusName), StatusLabels);
  }

  function Amount(app: LoanApplication): real
  {
    app.amount
  }

  /** The "Total Value" card: the requested amounts of all applications, whatever the filter. */
  function TotalValue(apps: seq<LoanApplication>): real
  {
    Sum(apps, Amount)
  }

  /** With the default filters the rows add up to the "Total Value" card in every sort mode. */
  lemma RowsAddUpToTotalValue(apps: seq<LoanApplication>, sortBy: string)
    ensures Sum(FilteredApplications(apps, "", "all", sortBy), Amount) == TotalValue(apps)
  {
    DefaultFiltersListAll(apps, sortBy);
    SumPermutation(FilteredApplications(apps, "", "all", sortBy), apps, Amount);
  }

}
