/**
 * The reviews page (app/reviews/page.tsx): the applications that need review, a search and
 * status filter over them, and the review dialog that approves or rejects one.
 *
 * The page compares statuses with "under_review" and "pending", which are not names of any
 * `LoanStatus` (the enumeration spells "under-review" and has no "pending"). The model keeps
 * those comparisons as written, and `NothingNeedsReview` states their consequence.
 */
module ReviewsPage {
  import opened Wrappers
  import opened Types
  import opened Seqs
  import opened Text

  predicate NeedsReview(app: LoanApplication)
  {
    LoanStatusName(app.status) == "under_review" || LoanStatusName(app.status) == "pending"
  }

  function NeedsReviewFilter(): LoanApplication -> bool
  {
    (app: LoanApplication) => NeedsReview(app)
  }

  /** `pendingApplications`. */
  function PendingApplications(apps: seq<LoanApplication>): (r: seq<LoanApplication>)
    ensures forall a :: a in r <==> a in apps && NeedsReview(a)
    ensures IsSubseq(r, apps)
    ensures KeepsEveryCopy(r, apps, NeedsReviewFilter())
  {
    FilterIsSubseq(apps, NeedsReviewFilter());
    FilterKeepsEveryCopy(apps, NeedsReviewFilter());
    Filter(apps, NeedsReviewFilter())
  }

  /** No status name is "under_review" or "pending", so the page never lists an application. */
  lemma NothingNeedsReview(apps: seq<LoanApplication>)
    ensures PendingApplications(apps) == []
  {
  }

  /** The search covers the client name and the business name; the status filter is "all" or a
      status string. An application without a business name matches only through its client
      name. */
  predicate ApplicationMatches(app: LoanApplication, searchTerm: string, statusFilter: string)
  {
    (MatchesTerm(app.clientName, searchTerm)
     || (app.businessName.Some? && MatchesTerm(app.businessName.value, searchTerm)))
    && (statusFilter == "all" || LoanStatusName(app.status) == statusFilter)
  }

  function ApplicationFilter(searchTerm: string, statusFilter: string): LoanApplication -> bool
  {
    (app: LoanApplication) => ApplicationMatches(app, searchTerm, statusFilter)
  }

  /** `filteredApplications`: the matching applications among those that need review. */
  function FilteredApplications(apps: seq<LoanApplication>, searchTerm: string, statusFilter: string): (r: seq<LoanApplication>)
    ensures forall a :: a in r <==> a in apps && NeedsReview(a) && ApplicationMatches(a, searchTerm, statusFilter)
    ensures IsSubseq(r, PendingApplications(apps))
    ensures KeepsEveryCopy(r, PendingApplications(apps), ApplicationFilter(searchTerm, statusFilter))
  {
    var pending := PendingApplications(apps);
    FilterIsSubseq(pending, ApplicationFilter(searchTerm, statusFilter));
    FilterKeepsEveryCopy(pending, ApplicationFilter(searchTerm, statusFilter));
    Filter(pending, ApplicationFilter(searchTerm, statusFilter))
  }

  /** With the default filters every application that needs review is listed. */
  lemma DefaultFiltersListAllPending(apps: seq<LoanApplication>)
    ensures FilteredApplications(apps, "", "all") == PendingApplications(apps)
  {
    var pending := PendingApplications(apps);
    forall i | 0 <= i < |pending| ensures ApplicationFilter("", "all")(pending[i]) {
      EmptyTermMatches(pending[i].clientName);
    }
    FilterAll(pending, ApplicationFilter("", "all"));
  }

  datatype ReviewAction = Approve | Reject

  /** What `handleReview` reports for the application: the action and the comment typed. */
  datatype ReviewRequest = ReviewRequest(applicationId: string, action: ReviewAction, comment: string)

  class ReviewsPageState {
    var selectedApplication: Option<LoanApplication>
    var reviewComment: string
    var isReviewLoading: bool

    constructor()
      ensures selectedApplication.None? && reviewComment == "" && !isReviewLoading
    {
      selectedApplication := None;
      reviewComment := "";
      isReviewLoading := false;
    }

    /** The row's "Review" button opens the dialog on that application. */
    method OpenReview(app: LoanApplication)
      modifies this
      ensures selectedApplication == Some(app)
      ensures reviewComment == old(reviewComment) && isReviewLoading == old(isReviewLoading)
    {
      selectedApplication := Some(app);
    }

    method EnterComment(comment: string)
      modifies this
      ensures reviewComment == comment
      ensures selectedApplication == old(selectedApplication) && isReviewLoading == old(isReviewLoading)
    {
      reviewComment := comment;
    }

    /** `handleReview`: the request carries the comment typed so far; once the review is done
        the dialog's selection and comment are cleared and loading ends. */
    method HandleReview(applicationId: string, action: ReviewAction) returns (request: ReviewRequest)
      modifies this
      ensures request == ReviewRequest(applicationId, action, old(reviewComment))
      ensures selectedApplication.None? && reviewComment == "" && !isReviewLoading
    {
      isReviewLoading := true;
      request := ReviewRequest(applicationId, action, reviewComment);
      isReviewLoading := false;
      selectedApplication := None;
      reviewComment := "";
    }
  }
}
