/**
 * The financier's claims page (app/claims/page.tsx): it holds the expense claims and
 * rewrites their status on approve, reject and bulk approve.
 */
module ClaimsPage {
  import opened Types
  import opened ExpenseClaimsTable

  /** The claims with id `claimId` take `status`; every other claim is kept. */
  function WithStatus(claims: seq<ExpenseClaim>, claimId: string, status: ReviewStatus): (r: seq<ExpenseClaim>)
    ensures |r| == |claims|
    ensures forall i :: 0 <= i < |claims| ==>
      r[i] == if claims[i].id == claimId then claims[i].(status := status) else claims[i]
  {
    seq(|claims|, i requires 0 <= i < |claims| =>
      if claims[i].id == claimId then claims[i].(status := status) else claims[i])
  }

  /** The claims whose id is listed become approved; every other claim is kept. */
  function BulkApproved(claims: seq<ExpenseClaim>, claimIds: seq<string>): (r: seq<ExpenseClaim>)
    ensures |r| == |claims|
    ensures forall i :: 0 <= i < |claims| ==>
      r[i] == if claims[i].id in claimIds then claims[i].(status := Accepted) else claims[i]
  {
    seq(|claims|, i requires 0 <= i < |claims| =>
      if claims[i].id in claimIds then claims[i].(status := Accepted) else claims[i])
  }

  /** Approving or rejecting changes only the status field, sets it on every claim with the
      id whatever it was before (a rejected claim can be approved), and keeps the rest. */
  lemma WithStatusOnlyTouchesStatus(claims: seq<ExpenseClaim>, claimId: string, status: ReviewStatus)
    ensures forall i :: 0 <= i < |claims| ==>
      WithStatus(claims, claimId, status)[i].(status := claims[i].status) == claims[i]
    ensures forall i :: 0 <= i < |claims| ==>
      WithStatus(claims, claimId, status)[i].status == (if claims[i].id == claimId then status else claims[i].status)
  {
  }

  /** Approving twice is approving once; so is rejecting. */
  lemma WithStatusIdempotent(claims: seq<ExpenseClaim>, claimId: string, status: ReviewStatus)
    ensures WithStatus(WithStatus(claims, claimId, status), claimId, status) == WithStatus(claims, claimId, status)
  {
  }

  /** A claim ends up approved exactly when its id is listed or it was approved already;
      unlisted claims keep their status, and no field but the status changes. */
  lemma BulkApprovedExactly(claims: seq<ExpenseClaim>, claimIds: seq<string>)
    ensures forall i :: 0 <= i < |claims| ==>
      (BulkApproved(claims, claimIds)[i].status == Accepted <==> claims[i].id in claimIds || claims[i].status == Accepted)
    ensures forall i :: 0 <= i < |claims| && claims[i].id !in claimIds ==> BulkApproved(claims, claimIds)[i] == claims[i]
    ensures forall i :: 0 <= i < |claims| ==>
      BulkApproved(claims, claimIds)[i].(status := claims[i].status) == claims[i]
  {
  }

  /** Bulk approval of no ids changes nothing; of one id it is a single approval. */
  lemma BulkApprovedDegenerate(claims: seq<ExpenseClaim>, claimId: string)
    ensures BulkApproved(claims, []) == claims
    ensures BulkApproved(claims, [claimId]) == WithStatus(claims, claimId, Accepted)
  {
  }

  /** Select-all followed by bulk approval approves every pending claim in view and leaves
      each claim whose id was not selected as it was. */
  lemma SelectAllThenBulkApprove(claims: seq<ExpenseClaim>, searchTerm: string, statusFilter: string)
    ensures var ids := Ids(PendingClaims(FilteredClaims(claims, searchTerm, statusFilter)));
      forall i :: 0 <= i < |claims| && claims[i].status == Pending && ClaimMatches(claims[i], searchTerm, statusFilter) ==>
        BulkApproved(claims, ids)[i].status == Accepted
  {
    var filtered := FilteredClaims(claims, searchTerm, statusFilter);
    var p := PendingClaims(filtered);
    forall i | 0 <= i < |claims| && claims[i].status == Pending && ClaimMatches(claims[i], searchTerm, statusFilter)
      ensures claims[i].id in Ids(p)
    {
      assert claims[i] in filtered;
      assert claims[i] in p;
      var k :| 0 <= k < |p| && p[k] == claims[i];
      assert Ids(p)[k] == claims[i].id;
    }
  }

  class ClaimsPageState {
    var claims: seq<ExpenseClaim>

    constructor(initial: seq<ExpenseClaim>)
      ensures claims == initial
    {
      claims := initial;
    }

    /** `handleApproveClaim`, once its simulated request completes. */
    method ApproveClaim(claimId: string)
      modifies this
      ensures claims == WithStatus(old(claims), claimId, Accepted)
    {
      claims := WithStatus(claims, claimId, Accepted);
    }

    /** `handleRejectClaim`, once its simulated request completes. */
    method RejectClaim(claimId: string)
      modifies this
      ensures claims == WithStatus(old(claims), claimId, Declined)
    {
      claims := WithStatus(claims, claimId, Declined);
    }

    /** `handleBulkApprove`, once its simulated request completes. */
    method BulkApprove(claimIds: seq<string>)
      modifies this
      ensures claims == BulkApproved(old(claims), claimIds)
    {
      claims := BulkApproved(claims, claimIds);
    }
  }
}
