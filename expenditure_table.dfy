/**
 * The expenditure table (components/expenditure/expenditure-table.tsx): the three budget
 * totals, the utilisation of each line item, its high-utilisation flag and the rule that
 * enables its "Claim Expense" button.
 */
module ExpenditureTable {
  import opened Types
  import opened Seqs
  import opened RealArith

  function Allocated(item: ExpenditureItem): real { item.allocatedAmount }
  function Spent(item: ExpenditureItem): real { item.spentAmount }
  function Remaining(item: ExpenditureItem): real { item.remainingAmount }

  function TotalAllocated(items: seq<ExpenditureItem>): real { Sum(items, Allocated) }
  function TotalSpent(items: seq<ExpenditureItem>): real { Sum(items, Spent) }
  function TotalRemaining(items: seq<ExpenditureItem>): real { Sum(items, Remaining) }

  /** The remaining budget of an item is what is left of its allocation. */
  predicate Balanced(item: ExpenditureItem)
  {
    item.remainingAmount == item.allocatedAmount - item.spentAmount
  }

  /** When every item is balanced, so are the three summary cards. */
  lemma TotalsBalance(items: seq<ExpenditureItem>)
    requires forall i :: 0 <= i < |items| ==> Balanced(items[i])
    ensures TotalRemaining(items) == TotalAllocated(items) - TotalSpent(items)
  {
    SumDifference(items, Allocated, Spent, Remaining);
  }

  /** The percentage of the allocation already spent, 0 for an item with nothing allocated. */
  function Utilization(spent: real, allocation: real): (pct: real)
    ensures allocation > 0.0 ==> pct * allocation == spent * 100.0
    ensures allocation <= 0.0 ==> pct == 0.0
    ensures allocation > 0.0 && 0.0 <= spent <= allocation ==> 0.0 <= pct <= 100.0
  {
    if allocation > 0.0 then (spent / allocation) * 100.0 else 0.0
  }

  /** The warning icon next to a line item. */
  predicate HighUtilization(item: ExpenditureItem)
  {
    Utilization(item.spentAmount, item.allocatedAmount) > 80.0
  }

  /** More than 80% spent means more than four fifths of the allocation, and an item with
      nothing allocated is never flagged. */
  lemma HighUtilizationCrossMultiplied(item: ExpenditureItem)
    ensures HighUtilization(item) <==> item.allocatedAmount > 0.0 && 5.0 * item.spentAmount > 4.0 * item.allocatedAmount
  {
    var a, s := item.allocatedAmount, item.spentAmount;
    if a > 0.0 {
      DivAbove(s, a, 0.8);
    }
  }

  /** The "Claim Expense" button is disabled for an exhausted or already claimed item. */
  predicate ClaimDisabled(item: ExpenditureItem)
  {
    item.remainingAmount <= 0.0 || item.status == Claimed
  }

  /** The first line item of the sample data ("Office Equipment"). */
  const OfficeEquipment := ExpenditureItem("exp-001", "loan-002", "Office Equipment", 10000.0, 3500.0, 6500.0, Available, [])

  /** The sample item is balanced, 35% used, not flagged and open for claims. */
  lemma OfficeEquipmentFigures()
    ensures Balanced(OfficeEquipment)
    ensures Utilization(OfficeEquipment.spentAmount, OfficeEquipment.allocatedAmount) == 35.0
    ensures !HighUtilization(OfficeEquipment) && !ClaimDisabled(OfficeEquipment)
  {
  }
}
