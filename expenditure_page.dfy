/**
 * The expenditure page (app/expenditure/page.tsx): it holds the budget line items, replaces
 * them by the rows of an uploaded spreadsheet, opens the claim dialog for one item and
 * marks that item as claimed once a claim is submitted.
 */
module ExpenditurePage {
  import opened Wrappers
  import opened Types
  import opened Seqs
  import opened Text
  import opened ExpenditureTable

  /** A row of the uploaded spreadsheet; only its line item and allocation are read. */
  datatype UploadRow = UploadRow(lineItem: string, allocatedAmount: real)

  /** The id given to the row at `index`: `exp-1`, `exp-2`, ... */
  function ItemId(index: nat): string
  {
    "exp-" + NatToString(index + 1)
  }

  /** Different rows get different ids. */
  lemma ItemIdsDistinct(i: nat, j: nat)
    requires i != j
    ensures ItemId(i) != ItemId(j)
  {
    if NatToString(i + 1) == NatToString(j + 1) {
      NatToStringInjective(i + 1, j + 1);
    }
    PrefixedDistinct("exp-", NatToString(i + 1), NatToString(j + 1));
  }

  function ConvertRow(row: UploadRow, index: nat): ExpenditureItem
  {
    ExpenditureItem(ItemId(index), "loan-002", row.lineItem, row.allocatedAmount, 0.0, row.allocatedAmount, Available, [])
  }

  /** The items built from the uploaded rows, one per row and in row order. */
  function ConvertRows(rows: seq<UploadRow>): (items: seq<ExpenditureItem>)
    ensures |items| == |rows|
    ensures forall i :: 0 <= i < |rows| ==>
      && items[i].id == ItemId(i)
      && items[i].lineItem == rows[i].lineItem
      && items[i].allocatedAmount == rows[i].allocatedAmount
      && items[i].spentAmount == 0.0
      && items[i].remainingAmount == rows[i].allocatedAmount
      && items[i].status == Available
      && items[i].claims == []
  {
    seq(|rows|, i requires 0 <= i < |rows| => ConvertRow(rows[i], i))
  }

  /** A fresh upload is balanced item by item and in total: nothing is spent, everything
      allocated remains, and no two items share an id. */
  lemma ConvertedItemsBalanced(rows: seq<UploadRow>)
    ensures forall i :: 0 <= i < |rows| ==> Balanced(ConvertRows(rows)[i])
    ensures TotalSpent(ConvertRows(rows)) == 0.0
    ensures TotalRemaining(ConvertRows(rows)) == TotalAllocated(ConvertRows(rows))
    ensures forall i, j :: 0 <= i < j < |rows| ==> ConvertRows(rows)[i].id != ConvertRows(rows)[j].id
  {
    var items := ConvertRows(rows);
    SumZero(items, Spent);
    TotalsBalance(items);
    forall i, j | 0 <= i < j < |rows|
      ensures items[i].id != items[j].id
    {
      ItemIdsDistinct(i, j);
    }
  }

  /** The items whose id is `selectedId`, when there is one, get status "claimed". */
  function MarkClaimed(items: seq<ExpenditureItem>, selectedId: Option<string>): (r: seq<ExpenditureItem>)
    ensures |r| == |items|
    ensures forall i :: 0 <= i < |items| ==>
      r[i] == if selectedId == Some(items[i].id) then items[i].(status := Claimed) else items[i]
  {
    seq(|items|, i requires 0 <= i < |items| =>
      if selectedId == Some(items[i].id) then items[i].(status := Claimed) else items[i])
  }

  /** Marking a claim touches only statuses: the budget totals stay as they were, the marked
      item can no longer be claimed, and without a selection nothing changes. */
  lemma MarkClaimedKeepsBudget(items: seq<ExpenditureItem>, selectedId: Option<string>)
    ensures TotalAllocated(MarkClaimed(items, selectedId)) == TotalAllocated(items)
    ensures TotalSpent(MarkClaimed(items, selectedId)) == TotalSpent(items)
    ensures TotalRemaining(MarkClaimed(items, selectedId)) == TotalRemaining(items)
    ensures forall i :: 0 <= i < |items| && selectedId == Some(items[i].id) ==> ClaimDisabled(MarkClaimed(items, selectedId)[i])
    ensures selectedId.None? ==> MarkClaimed(items, selectedId) == items
  {
    var r := MarkClaimed(items, selectedId);
    SumPointwise(r, items, Allocated);
    SumPointwise(r, items, Spent);
    SumPointwise(r, items, Remaining);
  }

  function HasId(itemId: string): ExpenditureItem -> bool
  {
    (item: ExpenditureItem) => item.id == itemId
  }

  function IdOf(item: Option<ExpenditureItem>): Option<string>
  {
    match item
    case None => None
    case Some(i) => Some(i.id)
  }

  class ExpenditurePageState {
    var expenditureItems: seq<ExpenditureItem>
    var hasUploadedFile: bool
    var selectedItem: Option<ExpenditureItem>
    var isClaimModalOpen: bool
    var isSubmittingClaim: bool

    /** The page starts on the sample items, shown as if a file had been uploaded. */
    constructor(initial: seq<ExpenditureItem>)
      ensures expenditureItems == initial && hasUploadedFile
      ensures selectedItem.None? && !isClaimModalOpen && !isSubmittingClaim
    {
      expenditureItems := initial;
      hasUploadedFile := true;
      selectedItem := None;
      isClaimModalOpen := false;
      isSubmittingClaim := false;
    }

    /** `handleExcelUpload`: the converted rows replace the whole list. */
    method HandleExcelUpload(rows: seq<UploadRow>)
      modifies this
      ensures expenditureItems == ConvertRows(rows) && hasUploadedFile
      ensures selectedItem == old(selectedItem) && isClaimModalOpen == old(isClaimModalOpen)
      ensures isSubmittingClaim == old(isSubmittingClaim)
    {
      expenditureItems := ConvertRows(rows);
      hasUploadedFile := true;
    }

    /** `handleClaimExpense`: selects the first item with that id and opens the dialog; an
        unknown id changes nothing. */
    method HandleClaimExpense(itemId: string)
      modifies this
      ensures Find(old(expenditureItems), HasId(itemId)).Some? ==>
        selectedItem == Find(old(expenditureItems), HasId(itemId)) && isClaimModalOpen
      ensures Find(old(expenditureItems), HasId(itemId)).None? ==>
        selectedItem == old(selectedItem) && isClaimModalOpen == old(isClaimModalOpen)
      ensures selectedItem.Some? && selectedItem != old(selectedItem) ==> selectedItem.value.id == itemId
      ensures expenditureItems == old(expenditureItems) && hasUploadedFile == old(hasUploadedFile)
      ensures isSubmittingClaim == old(isSubmittingClaim)
    {
      var item := Find(expenditureItems, HasId(itemId));
      if item.Some? {
        selectedItem := item;
        isClaimModalOpen := true;
      }
    }

    /** `handleSubmitClaim`, once its simulated request completes: the selected item is marked
        claimed and the dialog closes with no selection. */
    method HandleSubmitClaim()
      modifies this
      ensures expenditureItems == MarkClaimed(old(expenditureItems), IdOf(old(selectedItem)))
      ensures selectedItem.None? && !isClaimModalOpen && !isSubmittingClaim
      ensures hasUploadedFile == old(hasUploadedFile)
    {
      isSubmittingClaim := true;
      expenditureItems := MarkClaimed(expenditureItems, IdOf(selectedItem));
      isSubmittingClaim := false;
      isClaimModalOpen := false;
      selectedItem := None;
    }
  }
}
