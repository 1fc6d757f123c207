/**
 * The document library (components/documents/document-library.tsx): a searchable list of
 * documents filtered by type and review status, and the viewer it opens, whose decisions it
 * passes on to the page after a simulated delay.
 */
module DocumentLibrary {
  import opened Wrappers
  import opened Types
  import opened Seqs
  import opened Text
  import opened Counts
  import opened DocumentViewer

  /** The search covers the file name; the type and status filters are "all" or a value. */
  predicate DocumentMatches(doc: Document, searchTerm: string, typeFilter: string, statusFilter: string)
  {
    MatchesTerm(doc.name, searchTerm)
    && (typeFilter == "all" || DocumentKindName(doc.kind) == typeFilter)
    && (statusFilter == "all" || ReviewStatusName(doc.status) == statusFilter)
  }

  function DocumentFilter(searchTerm: string, typeFilter: string, statusFilter: string): Document -> bool
  {
    (doc: Document) => DocumentMatches(doc, searchTerm, typeFilter, statusFilter)
  }

  /** `filteredDocuments`. */
  function FilteredDocuments(docs: seq<Document>, searchTerm: string, typeFilter: string, statusFilter: string): (r: seq<Document>)
    ensures forall d :: d in r <==> d in docs && DocumentMatches(d, searchTerm, typeFilter, statusFilter)
    ensures IsSubseq(r, docs)
    ensures KeepsEveryCopy(r, docs, DocumentFilter(searchTerm, typeFilter, statusFilter))
  {
    FilterIsSubseq(docs, DocumentFilter(searchTerm, typeFilter, statusFilter));
    FilterKeepsEveryCopy(docs, DocumentFilter(searchTerm, typeFilter, statusFilter));
    Filter(docs, DocumentFilter(searchTerm, typeFilter, statusFilter))
  }

  /** With the default filters every document is listed. */
  lemma DefaultFiltersListAll(docs: seq<Document>)
    ensures FilteredDocuments(docs, "", "all", "all") == docs
  {
    forall i | 0 <= i < |docs| ensures DocumentFilter("", "all", "all")(docs[i]) {
      EmptyTermMatches(docs[i].name);
    }
    FilterAll(docs, DocumentFilter("", "all", "all"));
  }

  function KindName(doc: Document): string
  {
    DocumentKindName(doc.kind)
  }

  /** `documentTypes`: the type filter's options, each type present once, in the order in
      which the types first occur among the documents. */
  function DocumentTypes(docs: seq<Document>): (types: seq<string>)
    ensures forall t :: t in types <==> exists i :: 0 <= i < |docs| && KindName(docs[i]) == t
    ensures NoDuplicates(types)
    ensures forall t :: t in types ==> t in Names(docs, KindName)
    ensures forall i, j :: 0 <= i < j < |types| ==>
      IndexOf(Names(docs, KindName), types[i]) < IndexOf(Names(docs, KindName), types[j])
  {
    var names := Names(docs, KindName);
    DistinctFirstOccurrenceOrder(names);
    assert forall t :: t in names <==> exists i :: 0 <= i < |docs| && KindName(docs[i]) == t by {
      forall t | t in names ensures exists i :: 0 <= i < |docs| && KindName(docs[i]) == t {
        var i :| 0 <= i < |names| && names[i] == t;
      }
    }
    Distinct(names)
  }

  /** Every type the filter offers lists at least one document. */
  lemma EveryOfferedTypeListsSomething(docs: seq<Document>, t: string)
    requires t in DocumentTypes(docs)
    ensures FilteredDocuments(docs, "", t, "all") != []
  {
    var i :| 0 <= i < |docs| && KindName(docs[i]) == t;
    EmptyTermMatches(docs[i].name);
    assert docs[i] in FilteredDocuments(docs, "", t, "all");
  }

  class DocumentLibraryState {
    var selectedDocument: Option<Document>
    var isViewerOpen: bool
    var isReviewLoading: bool

    constructor()
      ensures selectedDocument.None? && !isViewerOpen && !isReviewLoading
    {
      selectedDocument := None;
      isViewerOpen := false;
      isReviewLoading := false;
    }

    /** `handleViewDocument`. */
    method HandleViewDocument(doc: Document)
      modifies this
      ensures selectedDocument == Some(doc) && isViewerOpen && isReviewLoading == old(isReviewLoading)
    {
      selectedDocument := Some(doc);
      isViewerOpen := true;
    }

    /** `handleApproveDocument`: without an approve callback nothing happens; otherwise the
        callback is called, loading ends and the viewer closes with no document selected. */
    method HandleApproveDocument(documentId: string, comments: Option<string>, hasOnApprove: bool) returns (call: Option<DocumentCall>)
      modifies this
      ensures !hasOnApprove ==> (call.None? && selectedDocument == old(selectedDocument)
                                 && isViewerOpen == old(isViewerOpen) && isReviewLoading == old(isReviewLoading))
      ensures hasOnApprove ==> (call == Some(ApproveDocument(documentId, comments))
                                && selectedDocument.None? && !isViewerOpen && !isReviewLoading)
    {
      if !hasOnApprove {
        return None;
      }
      isReviewLoading := true;
      call := Some(ApproveDocument(documentId, comments));
      isReviewLoading := false;
      isViewerOpen := false;
      selectedDocument := None;
    }

    /** `handleRejectDocument`, the same for a rejection and its reason. */
    method HandleRejectDocument(documentId: string, reason: string, hasOnReject: bool) returns (call: Option<DocumentCall>)
      modifies this
      ensures !hasOnReject ==> (call.None? && selectedDocument == old(selectedDocument)
                                && isViewerOpen == old(isViewerOpen) && isReviewLoading == old(isReviewLoading))
      ensures hasOnReject ==> (call == Some(RejectDocument(documentId, reason))
                               && selectedDocument.None? && !isViewerOpen && !isReviewLoading)
    {
      if !hasOnReject {
        return None;
      }
      isReviewLoading := true;
      call := Some(RejectDocument(documentId, reason));
      isReviewLoading := false;
      isViewerOpen := false;
      selectedDocument := None;
    }

    /** The viewer's `onClose`. */
    method CloseViewer()
      modifies this
      ensures selectedDocument.None? && !isViewerOpen && isReviewLoading == old(isReviewLoading)
    {
      isViewerOpen := false;
      selectedDocument := None;
    }
  }

  /** The viewer hands the library its callbacks, so a submitted approval reaches the page
      with the document's id and the comments typed, and a rejection with the reason typed. */
  lemma ViewerDecisionReachesPage(doc: Document, action: ReviewChoice, comments: string)
    ensures var call := SubmitCall(Some(doc), Some(action), comments, true, true);
      call.Some?
      && (action == ApproveChoice ==> call.value == ApproveDocument(doc.id, Some(comments)))
      && (action == RejectChoice ==> call.value == RejectDocument(doc.id, comments))
  {
  }
}
