/**
 * The client dashboard (app/dashboard/page.tsx): the total of the user's loans, the first
 * funded loan ("active loan"), the pending applications, the "Active Loans" card and the
 * progress vector of the active loan.
 */
module Dashboard {
  import opened Wrappers
  import opened Types
  import opened Seqs
  import opened LoansPage

  function Amount(l: LoanApplication): real
  {
    l.amount
  }

  predicate IsActive(l: LoanApplication)
  {
    IsFunded(l.status)
  }

  predicate IsNotActive(l: LoanApplication)
  {
    !IsFunded(l.status)
  }

  predicate IsPending(l: LoanApplication)
  {
    l.status == UnderReview || l.status == Submitted
  }

  /** The "Total Loan Amount" card: the amounts of the user's loans added up. */
  function TotalLoanAmount(userLoans: seq<LoanApplication>): real
  {
    Sum(userLoans, Amount)
  }

  /** The total is what the funded loans and the others contribute together, and it is
      never negative when no amount is. */
  lemma TotalLoanAmountSplits(userLoans: seq<LoanApplication>)
    ensures TotalLoanAmount(userLoans) == Sum(Filter(userLoans, IsActive), Amount) + Sum(Filter(userLoans, IsNotActive), Amount)
    ensures (forall i :: 0 <= i < |userLoans| ==> userLoans[i].amount >= 0.0) ==> TotalLoanAmount(userLoans) >= 0.0
  {
    SumSplit(userLoans, Amount, IsActive, IsNotActive);
    if forall i :: 0 <= i < |userLoans| ==> userLoans[i].amount >= 0.0 {
      SumNonNegative(userLoans, Amount);
    }
  }

  /** The first funded loan in list order, absent when none is funded. */
  function ActiveLoan(userLoans: seq<LoanApplication>): (r: Option<LoanApplication>)
    ensures r.None? <==> forall j :: 0 <= j < |userLoans| ==> !IsFunded(userLoans[j].status)
    ensures r.Some? ==> exists i :: FirstAt(userLoans, IsActive, i) && userLoans[i] == r.value
    ensures r.Some? ==> r.value in userLoans && IsFunded(r.value.status)
  {
    Find(userLoans, IsActive)
  }

  /** The loans under review or submitted, in list order. */
  function PendingApplications(userLoans: seq<LoanApplication>): (r: seq<LoanApplication>)
    ensures forall l :: l in r <==> l in userLoans && (l.status == UnderReview || l.status == Submitted)
    ensures IsSubseq(r, userLoans)
    ensures KeepsEveryCopy(r, userLoans, IsPending)
  {
    FilterIsSubseq(userLoans, IsPending);
    FilterKeepsEveryCopy(userLoans, IsPending);
    Filter(userLoans, IsPending)
  }

  /** The "Active Loans" card. */
  function ActiveLoansCount(userLoans: seq<LoanApplication>): (n: nat)
    ensures n <= |userLoans|
  {
    Count(userLoans, IsActive)
  }

  /** The card counts the funded loans: it is positive exactly when there is an active loan,
      and together with the unfunded loans it accounts for every loan. */
  lemma ActiveLoansCountMatches(userLoans: seq<LoanApplication>)
    ensures ActiveLoan(userLoans).Some? <==> ActiveLoansCount(userLoans) > 0
    ensures ActiveLoansCount(userLoans) + Count(userLoans, IsNotActive) == |userLoans|
  {
    FindIffCount(userLoans, IsActive);
    CountSplit(userLoans, IsActive, IsNotActive);
  }

  /** The dashboard's progress vector, computed from the active loan alone. */
  function DashboardSteps(active: Option<LoanApplication>): (steps: seq<StepState>)
    ensures |steps| == 4
    ensures steps[0] == Completed
    ensures steps[1] == Current <==> active.Some? && active.value.stage == Review
    ensures steps[1] == Completed <==> active.Some? && active.value.stage != Review
    ensures steps[2] == Current <==> active.Some? && IsApprovalStage(active.value.stage)
    ensures steps[3] == Completed <==> active.Some? && active.value.status == Disbursed
    ensures active.None? ==> steps[1] == Upcoming && steps[2] == Upcoming && steps[3] == Upcoming
  {
    match active
    case None => [Completed, Upcoming, Upcoming, Upcoming]
    case Some(loan) =>
      [ Completed,
        if loan.stage == Review then Current else Completed,
        if IsApprovalStage(loan.stage) then Current else if IsFunded(loan.status) then Completed else Upcoming,
        if loan.status == Disbursed then Completed else if loan.stage == Disbursement then Current else Upcoming ]
  }

  /** For a funded loan the dashboard shows the same steps as the loan's card on the loans
      page. The two differ only in the review step of an unfunded loan. */
  lemma DashboardAgreesWithLoansPage(loan: LoanApplication)
    requires IsFunded(loan.status)
    ensures DashboardSteps(Some(loan)) == ProgressSteps(loan.status, loan.stage)
  {
  }

  /** The loan the dashboard picks is always funded, so its vector is that of the loans page. */
  lemma DashboardShowsActiveLoanCard(userLoans: seq<LoanApplication>)
    ensures ActiveLoan(userLoans).Some? ==>
      DashboardSteps(ActiveLoan(userLoans)) == ProgressSteps(ActiveLoan(userLoans).value.status, ActiveLoan(userLoans).value.stage)
    ensures ActiveLoan(userLoans).None? ==> DashboardSteps(ActiveLoan(userLoans)) == [Completed, Upcoming, Upcoming, Upcoming]
  {
    if ActiveLoan(userLoans).Some? {
      DashboardAgreesWithLoansPage(ActiveLoan(userLoans).value);
    }
  }

  /** The review steps of the two pages part ways on an unfunded loan still at the
      application stage. */
  lemma ReviewStepDiffersForUnfundedLoan(loan: LoanApplication)
    requires loan.status == Submitted && loan.stage == Application
    ensures DashboardSteps(Some(loan))[1] == Completed
    ensures ProgressSteps(loan.status, loan.stage)[1] == Upcoming
  {
  }
}
