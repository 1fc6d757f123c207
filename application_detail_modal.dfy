/**
 * The financier's application detail dialog (components/financier/application-detail-modal.tsx):
 * the reviewer picks approve, reject or request changes, writes comments, may recommend
 * training courses when approving, and submits through the matching callback.
 */
module ApplicationDetailModal {
  import opened Wrappers
  import opened Types
  import opened Seqs
  import opened Text

  datatype ModalAction = ApproveAction | RejectAction | ChangesAction

  /** The call a submission makes: `onApprove`, `onReject` or `onRequestChanges`. */
  datatype ReviewCall =
    | ApproveApplication(applicationId: string, comments: string, recommendTraining: bool, selectedCourses: seq<string>)
    | RejectApplication(applicationId: string, reason: string)
    | RequestChanges(applicationId: string, changes: string)

  /** The call a submission makes: none without an application or a chosen action. */
  function SubmitCall(app: Option<LoanApplication>, action: Option<ModalAction>, comments: string,
                      recommendTraining: bool, selectedCourses: seq<string>): (call: Option<ReviewCall>)
    ensures call.Some? <==> app.Some? && action.Some?
    ensures call.Some? ==> call.value.applicationId == app.value.id
    ensures call.Some? ==> (call.value.ApproveApplication? <==> action.value == ApproveAction)
    ensures call.Some? ==> (call.value.RejectApplication? <==> action.value == RejectAction)
    ensures call.Some? ==> (call.value.RequestChanges? <==> action.value == ChangesAction)
    ensures call.Some? && call.value.ApproveApplication? ==>
      call.value.comments == comments && call.value.recommendTraining == recommendTraining
      && call.value.selectedCourses == selectedCourses
    ensures call.Some? && call.value.RejectApplication? ==> call.value.reason == comments
    ensures call.Some? && call.value.RequestChanges? ==> call.value.changes == comments
  {
    if app.None? || action.None? then None
    else match action.value
      case ApproveAction => Some(ApproveApplication(app.value.id, comments, recommendTraining, selectedCourses))
      case RejectAction => Some(RejectApplication(app.value.id, comments))
      case ChangesAction => Some(RequestChanges(app.value.id, comments))
  }

  /** The submit button is enabled once an action is chosen and the comments are not blank,
      while not loading; unlike the document viewer, an approval needs a comment too. */
  predicate SubmitEnabled(action: Option<ModalAction>, comments: string, isLoading: bool)
  {
    action.Some? && Trim(comments) != "" && !isLoading
  }

  lemma SubmitNeedsComment(action: Option<ModalAction>, comments: string, isLoading: bool)
    ensures SubmitEnabled(action, comments, isLoading) <==>
      action.Some? && !isLoading && exists k :: 0 <= k < |comments| && !IsWhitespace(comments[k])
  {
    TrimEmptyIffBlank(comments);
  }

  /** A course checkbox: checking appends the course, unchecking removes every copy of it. */
  function ToggledCourses(selected: seq<string>, courseId: string, checked: bool): (r: seq<string>)
    ensures checked ==> r == selected + [courseId]
    ensures !checked ==> courseId !in r && forall c :: c != courseId ==> (c in r <==> c in selected)
  {
    if checked then selected + [courseId] else RemoveAll(selected, courseId)
  }

  /** Checking a course that was not selected and unchecking it again restores the selection. */
  lemma CheckThenUncheckRestores(selected: seq<string>, courseId: string)
    requires courseId !in selected
    ensures ToggledCourses(ToggledCourses(selected, courseId, true), courseId, false) == selected
  {
    RemoveAllAppend(selected, [courseId], courseId);
  }

  class DetailModalState {
    var reviewAction: Option<ModalAction>
    var comments: string
    var recommendTraining: bool
    var selectedCourses: seq<string>

    predicate IsReset()
      reads this
    {
      reviewAction.None? && comments == "" && !recommendTraining && selectedCourses == []
    }

    constructor()
      ensures IsReset()
    {
      reviewAction := None;
      comments := "";
      recommendTraining := false;
      selectedCourses := [];
    }

    method ChooseAction(action: ModalAction)
      modifies this
      ensures reviewAction == Some(action)
      ensures comments == old(comments) && recommendTraining == old(recommendTraining) && selectedCourses == old(selectedCourses)
    {
      reviewAction := Some(action);
    }

    method EnterComments(text: string)
      modifies this
      ensures comments == text
      ensures reviewAction == old(reviewAction) && recommendTraining == old(recommendTraining) && selectedCourses == old(selectedCourses)
    {
      comments := text;
    }

    /** The training switch. Turning it off keeps the courses already checked, and they are
        still sent with an approval. */
    method SetRecommendTraining(on: bool)
      modifies this
      ensures recommendTraining == on
      ensures reviewAction == old(reviewAction) && comments == old(comments) && selectedCourses == old(selectedCourses)
    {
      recommendTraining := on;
    }

    method ToggleCourse(courseId: string, checked: bool)
      modifies this
      ensures selectedCourses == ToggledCourses(old(selectedCourses), courseId, checked)
      ensures reviewAction == old(reviewAction) && comments == old(comments) && recommendTraining == old(recommendTraining)
    {
      selectedCourses := ToggledCourses(selectedCourses, courseId, checked);
    }

    /** `handleSubmitReview`: without an application or an action nothing happens; otherwise
        the matching callback is called and the form is reset. */
    method HandleSubmitReview(app: Option<LoanApplication>) returns (call: Option<ReviewCall>)
      modifies this
      ensures call == SubmitCall(app, old(reviewAction), old(comments), old(recommendTraining), old(selectedCourses))
      ensures call.Some? ==> IsReset()
      ensures call.None? ==> (reviewAction == old(reviewAction) && comments == old(comments)
                              && recommendTraining == old(recommendTraining) && selectedCourses == old(selectedCourses))
    {
      call := SubmitCall(app, reviewAction, comments, recommendTraining, selectedCourses);
      if call.Some? {
        reviewAction := None;
        comments := "";
        recommendTraining := false;
        selectedCourses := [];
      }
    }

    /** `handleClose`: the form is reset before the dialog closes. */
    method HandleClose()
      modifies this
      ensures IsReset()
    {
      reviewAction := None;
      comments := "";
      recommendTraining := false;
      selectedCourses := [];
    }
  }
}
