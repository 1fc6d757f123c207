/**
 * The document viewer dialog (components/documents/document-viewer.tsx): a reviewer picks
 * approve or reject, types comments (a reason, for a rejection) and submits; the dialog
 * reports the decision through the callback it was given.
 */
module DocumentViewer {
  import opened Wrappers
  import opened Types
  import opened Text

  datatype ReviewChoice = ApproveChoice | RejectChoice

  /** The call a review makes: `onApprove(documentId, comments)` or
      `onReject(documentId, reason)`. */
  datatype DocumentCall =
    | ApproveDocument(documentId: string, comments: Option<string>)
    | RejectDocument(documentId: string, reason: string)

  /** The approve and reject buttons show only to a reviewer, and only on a pending document. */
  predicate ReviewControlsShown(canReview: bool, doc: Document)
  {
    canReview && ReviewStatusName(doc.status) == "pending"
  }

  /** The submit button shows once a reviewer has chosen an action. */
  predicate SubmitShown(canReview: bool, action: Option<ReviewChoice>)
  {
    canReview && action.Some?
  }

  /** The submit button is disabled while loading, and for a rejection whose reason is blank. */
  predicate SubmitDisabled(isLoading: bool, action: Option<ReviewChoice>, comments: string)
  {
    isLoading || (action == Some(RejectChoice) && Trim(comments) == "")
  }

  /** A rejection can be submitted only with a reason holding a character that is not white
      space, while an approval needs no comment at all. */
  lemma SubmitNeedsReasonToReject(isLoading: bool, comments: string)
    ensures !SubmitDisabled(isLoading, Some(RejectChoice), comments) <==>
      !isLoading && exists k :: 0 <= k < |comments| && !IsWhitespace(comments[k])
    ensures !SubmitDisabled(isLoading, Some(ApproveChoice), comments) <==> !isLoading
  {
    TrimEmptyIffBlank(comments);
  }

  /** The call a submission makes, if any: none without a document or an action, or when the
      matching callback is absent. */
  function SubmitCall(doc: Option<Document>, action: Option<ReviewChoice>, comments: string,
                      hasOnApprove: bool, hasOnReject: bool): (call: Option<DocumentCall>)
    ensures call.Some? <==> doc.Some? && ((action == Some(ApproveChoice) && hasOnApprove) || (action == Some(RejectChoice) && hasOnReject))
    ensures call.Some? ==> call.value.documentId == doc.value.id
    ensures call.Some? ==> (call.value.ApproveDocument? <==> action == Some(ApproveChoice))
    ensures call.Some? && call.value.ApproveDocument? ==> call.value.comments == Some(comments)
    ensures call.Some? && call.value.RejectDocument? ==> call.value.reason == comments
  {
    if doc.None? || action.None? then None
    else if action.value == ApproveChoice && hasOnApprove then Some(ApproveDocument(doc.value.id, Some(comments)))
    else if action.value == RejectChoice && hasOnReject then Some(RejectDocument(doc.value.id, comments))
    else None
  }

  class DocumentViewerState {
    var reviewAction: Option<ReviewChoice>
    var comments: string

    constructor()
      ensures reviewAction.None? && comments == ""
    {
      reviewAction := None;
      comments := "";
    }

    method ChooseAction(action: ReviewChoice)
      modifies this
      ensures reviewAction == Some(action) && comments == old(comments)
    {
      reviewAction := Some(action);
    }

    method EnterComments(text: string)
      modifies this
      ensures comments == text && reviewAction == old(reviewAction)
    {
      comments := text;
    }

    /** `handleSubmitReview`: without a document or an action nothing happens; otherwise the
        matching callback, if given, is called and the choice and comments are cleared. */
    method HandleSubmitReview(doc: Option<Document>, hasOnApprove: bool, hasOnReject: bool) returns (call: Option<DocumentCall>)
      modifies this
      ensures call == SubmitCall(doc, old(reviewAction), old(comments), hasOnApprove, hasOnReject)
      ensures doc.None? || old(reviewAction).None? ==> reviewAction == old(reviewAction) && comments == old(comments)
      ensures doc.Some? && old(reviewAction).Some? ==> reviewAction.None? && comments == ""
    {
      call := SubmitCall(doc, reviewAction, comments, hasOnApprove, hasOnReject);
      if doc.Some? && reviewAction.Some? {
        reviewAction := None;
        comments := "";
      }
    }

    /** `handleClose`: the choice and comments are dropped before the dialog closes. */
    method HandleClose()
      modifies this
      ensures reviewAction.None? && comments == ""
    {
      reviewAction := None;
      comments := "";
    }
  }
}
