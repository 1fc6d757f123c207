/**
 * The admin's reconciliation table (components/admin/reconciliation-table.tsx): search and
 * status filter, the status counters, the pending value, and the confirm dialog and reject
 * button that call back into the page.
 */
module ReconciliationTable {
  import opened Wrappers
  import opened Types
  import opened Seqs
  import opened Text
  import opened Counts

  /** The search covers the reference number, the id and the loan id. */
  predicate PaymentMatches(payment: PaymentEntry, searchTerm: string, statusFilter: string)
  {
    (MatchesTerm(payment.referenceNumber, searchTerm) || MatchesTerm(payment.id, searchTerm)
      || MatchesTerm(payment.loanId, searchTerm))
    && (statusFilter == "all" || PaymentStatusName(payment.status) == statusFilter)
  }

  function PaymentFilter(searchTerm: string, statusFilter: string): PaymentEntry -> bool
  {
    (payment: PaymentEntry) => PaymentMatches(payment, searchTerm, statusFilter)
  }

  /** `filteredPayments`: the matching payments, in list order. */
  function FilteredPayments(payments: seq<PaymentEntry>, searchTerm: string, statusFilter: string): (r: seq<PaymentEntry>)
    ensures forall p :: p in r <==> p in payments && PaymentMatches(p, searchTerm, statusFilter)
    ensures IsSubseq(r, payments)
    ensures KeepsEveryCopy(r, payments, PaymentFilter(searchTerm, statusFilter))
  {
    FilterIsSubseq(payments, PaymentFilter(searchTerm, statusFilter));
    FilterKeepsEveryCopy(payments, PaymentFilter(searchTerm, statusFilter));
    Filter(payments, PaymentFilter(searchTerm, statusFilter))
  }

  function StatusName(payment: PaymentEntry): string
  {
    PaymentStatusName(payment.status)
  }

  const StatusLabels: seq<string> := ["pending", "confirmed", "failed"]

  /** `statusCounts`: how many payments carry each status name. */
  method StatusCounts(payments: seq<PaymentEntry>) returns (counts: map<string, nat>)
    ensures forall k :: CountOf(counts, k) == multiset(Names(payments, StatusName))[k]
    ensures forall k :: k in counts ==> k in StatusLabels
  {
    counts := Tally(Names(payments, StatusName));
  }

  predicate IsPendingPayment(payment: PaymentEntry) { payment.status == PaymentPending }
  predicate IsConfirmedPayment(payment: PaymentEntry) { payment.status == Confirmed }
  predicate IsFailedPayment(payment: PaymentEntry) { payment.status == Failed }

  /** Each status count is the number of payments with that status, and the three counts
      add up to the number of payments. */
  lemma StatusCountsCoverPayments(payments: seq<PaymentEntry>)
    ensures multiset(Names(payments, StatusName))["pending"] == Count(payments, IsPendingPayment)
    ensures multiset(Names(payments, StatusName))["confirmed"] == Count(payments, IsConfirmedPayment)
    ensures multiset(Names(payments, StatusName))["failed"] == Count(payments, IsFailedPayment)
    ensures TotalCount(multiset(Names(payments, StatusName)), StatusLabels) == |payments|
  {
    NamesCount(payments, StatusName, "pending", IsPendingPayment);
    NamesCount(payments, StatusName, "confirmed", IsConfirmedPayment);
    NamesCount(payments, StatusName, "failed", IsFailedPayment);
    CountsCoverAll(Names(payments, StatusName), StatusLabels);
  }

  function PaymentAmount(payment: PaymentEntry): real
  {
    payment.amount
  }

  /** The "Pending Value" card. */
  function PendingValue(payments: seq<PaymentEntry>): real
  {
    Sum(Filter(payments, IsPendingPayment), PaymentAmount)
  }

  /** Confirming a payment takes it out of the pending value: the value drops by its amount
      when it was pending. */
  lemma PendingValueAfterRemoval(a: seq<PaymentEntry>, p: PaymentEntry, b: seq<PaymentEntry>, q: PaymentEntry)
    requires q.status != PaymentPending
    ensures PendingValue(a + [p] + b) == PendingValue(a + [q] + b) + (if p.status == PaymentPending then p.amount else 0.0)
  {
    FilterAppend(a + [p], b, IsPendingPayment);
    FilterAppend(a, [p], IsPendingPayment);
    FilterAppend(a + [q], b, IsPendingPayment);
    FilterAppend(a, [q], IsPendingPayment);
    var fa, fb := Filter(a, IsPendingPayment), Filter(b, IsPendingPayment);
    SumAppend(fa + Filter([p], IsPendingPayment), fb, PaymentAmount);
    SumAppend(fa, Filter([p], IsPendingPayment), PaymentAmount);
    SumAppend(fa + Filter([q], IsPendingPayment), fb, PaymentAmount);
    SumAppend(fa, Filter([q], IsPendingPayment), PaymentAmount);
  }

  /** Confirm and reject buttons are offered for pending payments only. */
  predicate ActionsOffered(payment: PaymentEntry)
  {
    payment.status == PaymentPending
  }

  const RejectionReason := "Payment verification failed"

  /** `onConfirmPayment(id, notes)` and `onRejectPayment(id, reason)`. */
  datatype ConfirmCall = ConfirmCall(paymentId: string, notes: string)
  datatype RejectCall = RejectCall(paymentId: string, reason: string)

  class ReconciliationTableState {
    var selectedPayment: Option<PaymentEntry>
    var isConfirmModalOpen: bool
    var confirmationNotes: string
    var isProcessing: bool

    constructor()
      ensures selectedPayment.None? && !isConfirmModalOpen && confirmationNotes == "" && !isProcessing
    {
      selectedPayment := None;
      isConfirmModalOpen := false;
      confirmationNotes := "";
      isProcessing := false;
    }

    /** `openConfirmModal`. */
    method OpenConfirmModal(payment: PaymentEntry)
      modifies this
      ensures selectedPayment == Some(payment) && isConfirmModalOpen
      ensures confirmationNotes == old(confirmationNotes) && isProcessing == old(isProcessing)
    {
      selectedPayment := Some(payment);
      isConfirmModalOpen := true;
    }

    /** The notes field of the confirm dialog. */
    method EnterNotes(notes: string)
      modifies this
      ensures confirmationNotes == notes
      ensures selectedPayment == old(selectedPayment) && isConfirmModalOpen == old(isConfirmModalOpen)
      ensures isProcessing == old(isProcessing)
    {
      confirmationNotes := notes;
    }

    /** `handleConfirmPayment`: nothing without a selected payment; otherwise the callback
        gets its id and the notes, and the dialog closes with selection and notes cleared. */
    method HandleConfirmPayment() returns (call: Option<ConfirmCall>)
      modifies this
      ensures old(selectedPayment).None? ==>
        call.None? && selectedPayment == old(selectedPayment) && isConfirmModalOpen == old(isConfirmModalOpen)
        && confirmationNotes == old(confirmationNotes) && isProcessing == old(isProcessing)
      ensures old(selectedPayment).Some? ==>
        call == Some(ConfirmCall(old(selectedPayment).value.id, old(confirmationNotes)))
        && selectedPayment.None? && !isConfirmModalOpen && confirmationNotes == "" && !isProcessing
    {
      if selectedPayment.None? {
        return None;
      }
      isProcessing := true;
      call := Some(ConfirmCall(selectedPayment.value.id, confirmationNotes));
      isProcessing := false;
      isConfirmModalOpen := false;
      selectedPayment := None;
      confirmationNotes := "";
    }

    /** `handleRejectPayment`: always the fixed reason. */
    method HandleRejectPayment(paymentId: string) returns (call: RejectCall)
      modifies this
      ensures call == RejectCall(paymentId, RejectionReason) && !isProcessing
      ensures selectedPayment == old(selectedPayment) && isConfirmModalOpen == old(isConfirmModalOpen)
      ensures confirmationNotes == old(confirmationNotes)
    {
      isProcessing := true;
      call := RejectCall(paymentId, RejectionReason);
      isProcessing := false;
    }
  }
}
