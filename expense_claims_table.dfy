/**
 * The financier's expense claims table (components/financier/expense-claims-table.tsx):
 * search and status filter, the selection of pending claims for bulk approval, the
 * per-row gating and the summary cards.
 */
module ExpenseClaimsTable {
  import opened Types
  import opened Seqs
  import opened Text

  /** The search matches the description or the id; the status filter is "all" or a status
      name. */
  predicate ClaimMatches(claim: ExpenseClaim, searchTerm: string, statusFilter: string)
  {
    (MatchesTerm(claim.description, searchTerm) || MatchesTerm(claim.id, searchTerm))
    && (statusFilter == "all" || ReviewStatusName(claim.status) == statusFilter)
  }

  function ClaimFilter(searchTerm: string, statusFilter: string): ExpenseClaim -> bool
  {
    (claim: ExpenseClaim) => ClaimMatches(claim, searchTerm, statusFilter)
  }

  /** `filteredClaims`: the matching claims, in list order. */
  function FilteredClaims(claims: seq<ExpenseClaim>, searchTerm: string, statusFilter: string): (r: seq<ExpenseClaim>)
    ensures forall c :: c in r <==> c in claims && ClaimMatches(c, searchTerm, statusFilter)
    ensures IsSubseq(r, claims)
    ensures KeepsEveryCopy(r, claims, ClaimFilter(searchTerm, statusFilter))
  {
    FilterIsSubseq(claims, ClaimFilter(searchTerm, statusFilter));
    FilterKeepsEveryCopy(claims, ClaimFilter(searchTerm, statusFilter));
    Filter(claims, ClaimFilter(searchTerm, statusFilter))
  }

  /** With an empty search and the "all" filter the table shows every claim. */
  lemma DefaultFilterKeepsAll(claims: seq<ExpenseClaim>)
    ensures FilteredClaims(claims, "", "all") == claims
  {
    forall i | 0 <= i < |claims|
      ensures ClaimFilter("", "all")(claims[i])
    {
      EmptyTermMatches(claims[i].description);
    }
    FilterAll(claims, ClaimFilter("", "all"));
  }

  predicate IsPendingClaim(claim: ExpenseClaim)
  {
    claim.status == Pending
  }

  predicate IsNotPendingClaim(claim: ExpenseClaim)
  {
    claim.status != Pending
  }

  predicate IsApprovedClaim(claim: ExpenseClaim)
  {
    claim.status == Accepted
  }

  function PendingClaims(claims: seq<ExpenseClaim>): (r: seq<ExpenseClaim>)
    ensures forall c :: c in r <==> c in claims && c.status == Pending
    ensures IsSubseq(r, claims)
    ensures KeepsEveryCopy(r, claims, IsPendingClaim)
  {
    FilterIsSubseq(claims, IsPendingClaim);
    FilterKeepsEveryCopy(claims, IsPendingClaim);
    Filter(claims, IsPendingClaim)
  }

  /** The ids of a list of claims, in order. */
  function Ids(claims: seq<ExpenseClaim>): (ids: seq<string>)
    ensures |ids| == |claims|
    ensures forall i :: 0 <= i < |claims| ==> ids[i] == claims[i].id
  {
    seq(|claims|, i requires 0 <= i < |claims| => claims[i].id)
  }

  /** The header checkbox: on when there is a pending claim in view and all of them are
      selected. */
  predicate AllPendingSelected(filtered: seq<ExpenseClaim>, selectedClaims: seq<string>)
  {
    |PendingClaims(filtered)| > 0 && forall c :: c in PendingClaims(filtered) ==> c.id in selectedClaims
  }

  /** Selecting all the pending claims in view checks the header box exactly when there is
      one; clearing the selection unchecks it. */
  lemma SelectAllChecksHeader(filtered: seq<ExpenseClaim>)
    ensures AllPendingSelected(filtered, Ids(PendingClaims(filtered))) <==> |PendingClaims(filtered)| > 0
    ensures !AllPendingSelected(filtered, [])
  {
    var p := PendingClaims(filtered);
    forall c | c in p
      ensures c.id in Ids(p)
    {
      var i :| 0 <= i < |p| && p[i] == c;
      assert Ids(p)[i] == c.id;
    }
    if |p| > 0 {
      assert p[0] in p;
    }
  }

  /** Deselecting the id of a pending claim in view unchecks the header box. */
  lemma DeselectUnchecksHeader(filtered: seq<ExpenseClaim>, selectedClaims: seq<string>, claim: ExpenseClaim)
    requires claim in filtered && claim.status == Pending
    ensures !AllPendingSelected(filtered, RemoveAll(selectedClaims, claim.id))
  {
    assert claim in PendingClaims(filtered);
  }

  /** Select-all picks only claims whose row checkbox is enabled. */
  lemma SelectAllPicksEnabledRows(filtered: seq<ExpenseClaim>)
    ensures forall id :: id in Ids(PendingClaims(filtered)) ==>
      exists c :: c in filtered && c.id == id && CheckboxEnabled(c)
  {
    var p := PendingClaims(filtered);
    forall id | id in Ids(p)
      ensures exists c :: c in filtered && c.id == id && CheckboxEnabled(c)
    {
      var i :| 0 <= i < |p| && Ids(p)[i] == id;
      assert p[i] in p;
    }
  }

  /** Row checkboxes are enabled, and the approve/reject buttons shown, for pending claims
      only. */
  predicate CheckboxEnabled(claim: ExpenseClaim)
  {
    claim.status == Pending
  }

  predicate ActionsShown(claim: ExpenseClaim)
  {
    claim.status == Pending
  }

  function ClaimAmount(claim: ExpenseClaim): real
  {
    claim.amount
  }

  /** The "Pending Review" and "Approved" cards. */
  function PendingCount(claims: seq<ExpenseClaim>): nat { Count(claims, IsPendingClaim) }
  function ApprovedCount(claims: seq<ExpenseClaim>): nat { Count(claims, IsApprovedClaim) }

  /** The "Pending Value" card. */
  function PendingValue(claims: seq<ExpenseClaim>): real
  {
    Sum(PendingClaims(claims), ClaimAmount)
  }

  /** The pending value is the part of the claimed total that is still pending, and the
      pending and approved cards never exceed the total card. */
  lemma SummaryCardsConsistent(claims: seq<ExpenseClaim>)
    ensures PendingValue(claims) + Sum(Filter(claims, IsNotPendingClaim), ClaimAmount) == Sum(claims, ClaimAmount)
    ensures PendingCount(claims) + ApprovedCount(claims) <= |claims|
  {
    SumSplit(claims, ClaimAmount, IsPendingClaim, IsNotPendingClaim);
    CountDisjoint(claims, IsPendingClaim, IsApprovedClaim);
  }

  /** The selection of claims for bulk approval. */
  class ClaimSelection {
    var selectedClaims: seq<string>

    constructor()
      ensures selectedClaims == []
    {
      selectedClaims := [];
    }

    /** `handleSelectAll`: all pending claims in view, or nothing. */
    method HandleSelectAll(filtered: seq<ExpenseClaim>, checked: bool)
      modifies this
      ensures checked ==> selectedClaims == Ids(PendingClaims(filtered))
      ensures !checked ==> selectedClaims == []
    {
      if checked {
        selectedClaims := Ids(PendingClaims(filtered));
      } else {
        selectedClaims := [];
      }
    }

    /** `handleSelectClaim`: checking appends the id, unchecking drops every copy of it. */
    method HandleSelectClaim(claimId: string, checked: bool)
      modifies this
      ensures checked ==> selectedClaims == old(selectedClaims) + [claimId]
      ensures !checked ==> selectedClaims == RemoveAll(old(selectedClaims), claimId)
    {
      if checked {
        selectedClaims := selectedClaims + [claimId];
      } else {
        selectedClaims := RemoveAll(selectedClaims, claimId);
      }
    }
  }
}
