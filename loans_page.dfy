/**
 * The "My Loans" page (app/loans/page.tsx): the loans of the signed-in client and, for
 * each of them, the four-step progress vector (application, review, approval,
 * disbursement) computed from the loan's status and stage.
 */
module LoansPage {
  import opened Wrappers
  import opened Types
  import opened Seqs

  datatype StepState = Completed | Current | Upcoming

  /** A loan counts as funded once it is approved or disbursed. */
  predicate IsFunded(status: LoanStatus)
  {
    status == Approved || status == Disbursed
  }

  predicate IsApprovalStage(stage: LoanStage)
  {
    stage == Approval1 || stage == Approval2
  }

  /** The step states of one loan card, in the order application, review, approval,
      disbursement. */
  function ProgressSteps(status: LoanStatus, stage: LoanStage): (steps: seq<StepState>)
    ensures |steps| == 4
    ensures steps[0] == Completed
    ensures steps[1] == Current <==> stage == Review
    ensures steps[1] == Completed <==> stage != Review && IsFunded(status)
    ensures steps[2] == Current <==> IsApprovalStage(stage)
    ensures steps[2] == Completed <==> !IsApprovalStage(stage) && IsFunded(status)
    ensures steps[3] == Completed <==> status == Disbursed
    ensures steps[3] == Current <==> status != Disbursed && stage == Disbursement
  {
    [ Completed,
      if stage == Review then Current else if IsFunded(status) then Completed else Upcoming,
      if IsApprovalStage(stage) then Current else if IsFunded(status) then Completed else Upcoming,
      if status == Disbursed then Completed else if stage == Disbursement then Current else Upcoming ]
  }

  /** The step that a stage puts in progress, if any: the application stage has none. */
  function StageStep(stage: LoanStage): Option<nat>
  {
    match stage
    case Application => None
    case Review => Some(1)
    case Approval1 => Some(2)
    case Approval2 => Some(2)
    case Disbursement => Some(3)
  }

  /** The only step that can be current is the one the stage names, so at most one step is
      current. */
  lemma AtMostOneCurrent(status: LoanStatus, stage: LoanStage)
    ensures forall i :: 0 <= i < 4 && ProgressSteps(status, stage)[i] == Current ==> StageStep(stage) == Some(i)
    ensures forall i, j :: 0 <= i < j < 4 && ProgressSteps(status, stage)[i] == Current ==> ProgressSteps(status, stage)[j] != Current
  {
  }

  /** An approved loan waiting for disbursement shows the first three steps done and the last
      in progress. */
  lemma ApprovedAwaitingDisbursement()
    ensures ProgressSteps(Approved, Disbursement) == [Completed, Completed, Completed, Current]
  {
  }

  /** The ownership test of the page's filter. */
  function OwnedBy(userId: string): LoanApplication -> bool
  {
    (loan: LoanApplication) => loan.clientId == userId
  }

  /** The loans of the signed-in user, in list order. */
  function UserLoans(loans: seq<LoanApplication>, userId: string): (r: seq<LoanApplication>)
    ensures forall l :: l in r <==> l in loans && l.clientId == userId
    ensures forall i :: 0 <= i < |r| ==> r[i].clientId == userId
    ensures IsSubseq(r, loans)
    ensures KeepsEveryCopy(r, loans, OwnedBy(userId))
  {
    FilterIsSubseq(loans, OwnedBy(userId));
    FilterKeepsEveryCopy(loans, OwnedBy(userId));
    Filter(loans, OwnedBy(userId))
  }
}
