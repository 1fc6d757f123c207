/**
 * The admin's financiers page (app/financiers/page.tsx): it holds the financier list and
 * appends, merges into and removes financiers.
 */
module FinanciersPage {
  import opened Wrappers
  import opened Types
  import opened Seqs

  /** `Partial<Financier>`: each field may be absent. */
  datatype FinancierPatch = FinancierPatch(
    id: Option<string>,
    name: Option<string>,
    email: Option<string>,
    contactPerson: Option<string>,
    phone: Option<string>,
    address: Option<string>,
    registrationNumber: Option<string>,
    status: Option<FinancierStatus>,
    loanLimit: Option<real>,
    interestRateRange: Option<RateRange>,
    specializations: Option<seq<string>>,
    createdAt: Option<int>,
    updatedAt: Option<int>)

  /** All the fields `handleCreateFinancier` reads with a non-null assertion. */
  predicate CreatableFrom(data: FinancierPatch)
  {
    data.name.Some? && data.email.Some? && data.contactPerson.Some? && data.phone.Some?
    && data.address.Some? && data.registrationNumber.Some? && data.status.Some?
    && data.loanLimit.Some? && data.interestRateRange.Some? && data.specializations.Some?
  }

  function NewFinancier(newId: string, now: int, data: FinancierPatch): Financier
    requires CreatableFrom(data)
  {
    Financier(newId, data.name.value, data.email.value, data.contactPerson.value, data.phone.value,
              data.address.value, data.registrationNumber.value, data.status.value, data.loanLimit.value,
              data.interestRateRange.value, data.specializations.value, now, now)
  }

  /** `{ ...financier, ...patch, updatedAt: now }`. */
  function ApplyFinancierPatch(f: Financier, patch: FinancierPatch, now: int): (r: Financier)
    ensures r.id == (if patch.id.Some? then patch.id.value else f.id)
    ensures r.name == (if patch.name.Some? then patch.name.value else f.name)
    ensures r.email == (if patch.email.Some? then patch.email.value else f.email)
    ensures r.contactPerson == (if patch.contactPerson.Some? then patch.contactPerson.value else f.contactPerson)
    ensures r.phone == (if patch.phone.Some? then patch.phone.value else f.phone)
    ensures r.address == (if patch.address.Some? then patch.address.value else f.address)
    ensures r.registrationNumber == (if patch.registrationNumber.Some? then patch.registrationNumber.value else f.registrationNumber)
    ensures r.status == (if patch.status.Some? then patch.status.value else f.status)
    ensures r.loanLimit == (if patch.loanLimit.Some? then patch.loanLimit.value else f.loanLimit)
    ensures r.interestRateRange == (if patch.interestRateRange.Some? then patch.interestRateRange.value else f.interestRateRange)
    ensures r.specializations == (if patch.specializations.Some? then patch.specializations.value else f.specializations)
    ensures r.createdAt == (if patch.createdAt.Some? then patch.createdAt.value else f.createdAt)
    ensures r.updatedAt == now
  {
    Financier(patch.id.GetOr(f.id), patch.name.GetOr(f.name), patch.email.GetOr(f.email),
              patch.contactPerson.GetOr(f.contactPerson), patch.phone.GetOr(f.phone),
              patch.address.GetOr(f.address), patch.registrationNumber.GetOr(f.registrationNumber),
              patch.status.GetOr(f.status), patch.loanLimit.GetOr(f.loanLimit),
              patch.interestRateRange.GetOr(f.interestRateRange), patch.specializations.GetOr(f.specializations),
              patch.createdAt.GetOr(f.createdAt), now)
  }

  /** The financiers with id `financierId` get the patch merged in and a new update time;
      every other financier is kept. */
  function UpdatedFinanciers(financiers: seq<Financier>, financierId: string, patch: FinancierPatch, now: int): (r: seq<Financier>)
    ensures |r| == |financiers|
    ensures forall i :: 0 <= i < |financiers| ==>
      r[i] == if financiers[i].id == financierId then ApplyFinancierPatch(financiers[i], patch, now) else financiers[i]
  {
    seq(|financiers|, i requires 0 <= i < |financiers| =>
      if financiers[i].id == financierId then ApplyFinancierPatch(financiers[i], patch, now) else financiers[i])
  }

  function LacksFinancierId(financierId: string): Financier -> bool
  {
    (f: Financier) => f.id != financierId
  }

  function HasFinancierId(financierId: string): Financier -> bool
  {
    (f: Financier) => f.id == financierId
  }

  /** The financiers whose id is not `financierId`, in order. */
  function DeletedFinanciers(financiers: seq<Financier>, financierId: string): (r: seq<Financier>)
    ensures forall f :: f in r <==> f in financiers && f.id != financierId
    ensures IsSubseq(r, financiers)
    ensures KeepsEveryCopy(r, financiers, LacksFinancierId(financierId))
  {
    FilterIsSubseq(financiers, LacksFinancierId(financierId));
    FilterKeepsEveryCopy(financiers, LacksFinancierId(financierId));
    Filter(financiers, LacksFinancierId(financierId))
  }

  /** Deleting removes exactly the financiers with the id; an absent id removes nothing. */
  lemma DeleteRemovesExactlyTheId(financiers: seq<Financier>, financierId: string)
    ensures |DeletedFinanciers(financiers, financierId)| == |financiers| - Count(financiers, HasFinancierId(financierId))
    ensures (forall i :: 0 <= i < |financiers| ==> financiers[i].id != financierId) ==>
      DeletedFinanciers(financiers, financierId) == financiers
  {
    CountSplit(financiers, HasFinancierId(financierId), LacksFinancierId(financierId));
    if forall i :: 0 <= i < |financiers| ==> financiers[i].id != financierId {
      FilterAll(financiers, LacksFinancierId(financierId));
    }
  }

  /** An update of an absent id changes nothing. */
  lemma UpdateUnknownIdChangesNothing(financiers: seq<Financier>, financierId: string, patch: FinancierPatch, now: int)
    requires forall i :: 0 <= i < |financiers| ==> financiers[i].id != financierId
    ensures UpdatedFinanciers(financiers, financierId, patch, now) == financiers
  {
  }

  class FinanciersPageState {
    var financiers: seq<Financier>

    constructor(initial: seq<Financier>)
      ensures financiers == initial
    {
      financiers := initial;
    }

    /** `handleCreateFinancier`; `newId` and `now` stand for the timestamp-based id and the
        creation date. */
    method CreateFinancier(newId: string, now: int, data: FinancierPatch)
      requires CreatableFrom(data)
      modifies this
      ensures financiers == old(financiers) + [NewFinancier(newId, now, data)]
    {
      financiers := financiers + [NewFinancier(newId, now, data)];
    }

    /** `handleUpdateFinancier`. */
    method UpdateFinancier(financierId: string, patch: FinancierPatch, now: int)
      modifies this
      ensures financiers == UpdatedFinanciers(old(financiers), financierId, patch, now)
    {
      financiers := UpdatedFinanciers(financiers, financierId, patch, now);
    }

    /** `handleDeleteFinancier`. */
    method DeleteFinancier(financierId: string)
      modifies this
      ensures financiers == DeletedFinanciers(old(financiers), financierId)
    {
      financiers := DeletedFinanciers(financiers, financierId);
    }
  }
}
