/**
 * The admin's reconciliation page (app/reconciliation/page.tsx): it holds the payment
 * entries and marks one as confirmed or failed.
 */
module ReconciliationPage {
  import opened Wrappers
  import opened Types

  /** The payments with id `paymentId` become confirmed by "Admin User" at `now`. */
  function WithConfirmed(payments: seq<PaymentEntry>, paymentId: string, now: int): (r: seq<PaymentEntry>)
    ensures |r| == |payments|
    ensures forall i :: 0 <= i < |payments| ==>
      r[i] == if payments[i].id == paymentId
              then payments[i].(status := Confirmed, confirmedAt := Some(now), confirmedBy := Some("Admin User"))
              else payments[i]
  {
    seq(|payments|, i requires 0 <= i < |payments| =>
      if payments[i].id == paymentId
      then payments[i].(status := Confirmed, confirmedAt := Some(now), confirmedBy := Some("Admin User"))
      else payments[i])
  }

  /** The payments with id `paymentId` become failed; nothing else about them changes. */
  function WithFailed(payments: seq<PaymentEntry>, paymentId: string): (r: seq<PaymentEntry>)
    ensures |r| == |payments|
    ensures forall i :: 0 <= i < |payments| ==>
      r[i] == if payments[i].id == paymentId then payments[i].(status := Failed) else payments[i]
  {
    seq(|payments|, i requires 0 <= i < |payments| =>
      if payments[i].id == paymentId then payments[i].(status := Failed) else payments[i])
  }

  /** The fields that describe the payment itself, as opposed to its review. */
  predicate SamePayment(a: PaymentEntry, b: PaymentEntry)
  {
    a.id == b.id && a.loanId == b.loanId && a.amount == b.amount
    && a.referenceNumber == b.referenceNumber && a.paymentDate == b.paymentDate
  }

  /** Neither handler alters what was paid; reject leaves the confirmation fields alone; and
      the prior status does not matter (a failed payment can still be confirmed). */
  lemma ReviewKeepsPaymentFacts(payments: seq<PaymentEntry>, paymentId: string, now: int)
    ensures forall i :: 0 <= i < |payments| ==> SamePayment(WithConfirmed(payments, paymentId, now)[i], payments[i])
    ensures forall i :: 0 <= i < |payments| ==> SamePayment(WithFailed(payments, paymentId)[i], payments[i])
    ensures forall i :: 0 <= i < |payments| ==>
      WithFailed(payments, paymentId)[i].confirmedAt == payments[i].confirmedAt
      && WithFailed(payments, paymentId)[i].confirmedBy == payments[i].confirmedBy
    ensures forall i :: 0 <= i < |payments| && payments[i].id == paymentId ==>
      WithConfirmed(payments, paymentId, now)[i].status == Confirmed && WithFailed(payments, paymentId)[i].status == Failed
  {
  }

  /** An id that is not in the list changes nothing. */
  lemma UnknownIdChangesNothing(payments: seq<PaymentEntry>, paymentId: string, now: int)
    requires forall i :: 0 <= i < |payments| ==> payments[i].id != paymentId
    ensures WithConfirmed(payments, paymentId, now) == payments
    ensures WithFailed(payments, paymentId) == payments
  {
  }

  class ReconciliationPageState {
    var payments: seq<PaymentEntry>

    constructor(initial: seq<PaymentEntry>)
      ensures payments == initial
    {
      payments := initial;
    }

    /** `handleConfirmPayment`; the notes are only logged. */
    method ConfirmPayment(paymentId: string, notes: Option<string>, now: int)
      modifies this
      ensures payments == WithConfirmed(old(payments), paymentId, now)
    {
      payments := WithConfirmed(payments, paymentId, now);
    }

    /** `handleRejectPayment`; the reason is only logged. */
    method RejectPayment(paymentId: string, reason: string)
      modifies this
      ensures payments == WithFailed(old(payments), paymentId)
    {
      payments := WithFailed(payments, paymentId);
    }
  }
}
