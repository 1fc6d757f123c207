/**
 * The expense claim dialog (components/expenditure/expense-claim-modal.tsx): the claim
 * schema, the cash-share warning effect, the over-budget message and submit gate, and the
 * documents collected from the two upload fields.
 */
module ExpenseClaimModal {
  import opened Wrappers
  import opened Types
  import opened ExpenditureTable
  import opened RealArith

  /** The watched form values; the payment type is unset until the user picks one. */
  datatype ClaimForm = ClaimForm(amount: real, description: string, paymentType: Option<PaymentType>)

  /** The form's default values, to which a reset returns. */
  const DefaultForm := ClaimForm(0.0, "", None)

  /** `expenseClaimSchema`: at least 1, a description of at least ten characters and a chosen
      payment type. It says nothing about the remaining budget. */
  predicate SchemaAccepts(form: ClaimForm)
  {
    form.amount >= 1.0 && |form.description| >= 10 && form.paymentType.Some?
  }

  /** The amount is more than 20 percent of the allocation, for a positive amount, with the JavaScript
      meaning of a division by zero (a positive amount over 0 is +Infinity). */
  predicate ExceedsCashShare(amount: real, allocation: real)
    requires amount > 0.0
  {
    if allocation == 0.0 then true else (amount / allocation) * 100.0 > 20.0
  }

  /** Over a positive allocation the 20% test is the cross-multiplied `5 * amount > allocation`;
      over a negative one it never fires. */
  lemma ExceedsCashShareCrossMultiplied(amount: real, allocation: real)
    requires amount > 0.0
    ensures allocation > 0.0 ==> (ExceedsCashShare(amount, allocation) <==> 5.0 * amount > allocation)
    ensures allocation < 0.0 ==> !ExceedsCashShare(amount, allocation)
  {
    if allocation > 0.0 {
      DivAbove(amount, allocation, 0.2);
    } else if allocation < 0.0 {
      DivAbove(amount, -allocation, 0.0);
      assert amount / allocation == -(amount / -allocation);
    }
  }

  /** The new value of `cashWarning` after the effect runs on the watched values: recomputed
      only when an item is shown and the amount is positive, kept otherwise. */
  function CashWarningAfterEffect(previous: bool, item: Option<ExpenditureItem>, form: ClaimForm): (warning: bool)
    ensures item.None? || form.amount <= 0.0 ==> warning == previous
    ensures item.Some? && form.amount > 0.0 && item.value.allocatedAmount > 0.0 ==>
      (warning <==> form.paymentType == Some(Cash) && 5.0 * form.amount > item.value.allocatedAmount)
    ensures item.Some? && form.amount > 0.0 && item.value.allocatedAmount == 0.0 ==>
      (warning <==> form.paymentType == Some(Cash))
    ensures item.Some? && form.amount > 0.0 && item.value.allocatedAmount < 0.0 ==> !warning
  {
    if item.Some? && form.amount > 0.0 then
      ExceedsCashShareCrossMultiplied(form.amount, item.value.allocatedAmount);
      form.paymentType == Some(Cash) && ExceedsCashShare(form.amount, item.value.allocatedAmount)
    else previous
  }

  /** The "Amount exceeds remaining budget" message. */
  predicate OverBudget(amount: real, item: ExpenditureItem)
  {
    amount > item.remainingAmount
  }

  predicate SubmitDisabled(isLoading: bool, amount: real, item: ExpenditureItem)
  {
    isLoading || OverBudget(amount, item)
  }

  /** The budget is enforced only by the disabled button: a claim for more than the sample
      item has left passes the schema, yet cannot be submitted. */
  lemma SchemaIgnoresBudget()
    ensures SchemaAccepts(ClaimForm(7000.0, "New laptops for staff", Some(BankTransfer)))
    ensures SubmitDisabled(false, 7000.0, OfficeEquipment)
    ensures !SubmitDisabled(false, 6500.0, OfficeEquipment)
  {
  }

  /** The form's reset values are rejected by the schema. */
  lemma DefaultFormRejected()
    ensures !SchemaAccepts(DefaultForm)
  {
  }

  /** What `onSubmit` receives: the validated values and every uploaded document. */
  datatype ClaimSubmission = ClaimSubmission(amount: real, description: string, paymentType: PaymentType, documents: seq<File>)

  class ClaimModal {
    var form: ClaimForm
    var uploadedDocuments: seq<File>
    var cashWarning: bool

    constructor()
      ensures form == DefaultForm && uploadedDocuments == [] && !cashWarning
    {
      form := DefaultForm;
      uploadedDocuments := [];
      cashWarning := false;
    }

    /** The user edits the registered inputs. */
    method Enter(values: ClaimForm)
      modifies this
      ensures form == values
      ensures uploadedDocuments == old(uploadedDocuments) && cashWarning == old(cashWarning)
    {
      form := values;
    }

    /** The effect that watches the amount, the payment type and the item. */
    method RunCashWarningEffect(item: Option<ExpenditureItem>)
      modifies this
      ensures cashWarning == CashWarningAfterEffect(old(cashWarning), item, form)
      ensures form == old(form) && uploadedDocuments == old(uploadedDocuments)
    {
      if item.Some? && form.amount > 0.0 {
        ExceedsCashShareCrossMultiplied(form.amount, item.value.allocatedAmount);
        cashWarning := form.paymentType == Some(Cash) && ExceedsCashShare(form.amount, item.value.allocatedAmount);
      }
    }

    /** Either upload field: the selected files go after those already collected. */
    method UploadDocuments(files: seq<File>)
      modifies this
      ensures uploadedDocuments == old(uploadedDocuments) + files
      ensures form == old(form) && cashWarning == old(cashWarning)
    {
      uploadedDocuments := uploadedDocuments + files;
    }

    /** `handleSubmit`, reached only with values the schema accepts and through the submit
        button, which is disabled while loading and over budget: hands over the values and the
        documents, then resets the form, the documents and the warning. A submitted claim
        therefore never asks for more than the item has left. */
    method Submit(isLoading: bool, item: ExpenditureItem) returns (submission: ClaimSubmission)
      requires SchemaAccepts(form)
      requires !SubmitDisabled(isLoading, form.amount, item)
      modifies this
      ensures submission.amount <= item.remainingAmount
      ensures submission == ClaimSubmission(old(form).amount, old(form).description, old(form).paymentType.value, old(uploadedDocuments))
      ensures form == DefaultForm && uploadedDocuments == [] && !cashWarning
    {
      submission := ClaimSubmission(form.amount, form.description, form.paymentType.value, uploadedDocuments);
      form := DefaultForm;
      uploadedDocuments := [];
      cashWarning := false;
    }

    /** `handleClose`: the same reset, without a submission. */
    method Close()
      modifies this
      ensures form == DefaultForm && uploadedDocuments == [] && !cashWarning
    {
      form := DefaultForm;
      uploadedDocuments := [];
      cashWarning := false;
    }
  }
}
