/**
 * The admin's financier table (components/admin/financier-management-table.tsx): the
 * search, the comma-separated specialisations field and its prefill, the truncated
 * specialisation badges, the status badge and the create and edit dialogs.
 */
module FinancierManagementTable {
  import opened Wrappers
  import opened Types
  import opened Seqs
  import opened Text
  import opened FinanciersPage

  /** The search covers name, email and contact person; there is no status filter. */
  predicate FinancierMatches(f: Financier, searchTerm: string)
  {
    MatchesTerm(f.name, searchTerm) || MatchesTerm(f.email, searchTerm) || MatchesTerm(f.contactPerson, searchTerm)
  }

  function FinancierFilter(searchTerm: string): Financier -> bool
  {
    (f: Financier) => FinancierMatches(f, searchTerm)
  }

  /** `filteredFinanciers`: the matching financiers, in list order. */
  function FilteredFinanciers(financiers: seq<Financier>, searchTerm: string): (r: seq<Financier>)
    ensures forall f :: f in r <==> f in financiers && FinancierMatches(f, searchTerm)
    ensures IsSubseq(r, financiers)
    ensures KeepsEveryCopy(r, financiers, FinancierFilter(searchTerm))
  {
    FilterIsSubseq(financiers, FinancierFilter(searchTerm));
    FilterKeepsEveryCopy(financiers, FinancierFilter(searchTerm));
    Filter(financiers, FinancierFilter(searchTerm))
  }

  /** Every piece trimmed, in order. */
  function TrimAll(pieces: seq<string>): (r: seq<string>)
    ensures |r| == |pieces|
    ensures forall i :: 0 <= i < |pieces| ==> r[i] == Trim(pieces[i])
  {
    seq(|pieces|, i requires 0 <= i < |pieces| => Trim(pieces[i]))
  }

  /** The specialisations typed into the dialog: split at commas, each piece trimmed. The
      list is never empty and its entries hold no comma and no outer white space. */
  function ParseSpecializations(input: string): (r: seq<string>)
    ensures |r| >= 1
    ensures forall i :: 0 <= i < |r| ==> ',' !in r[i] && IsTrimmed(r[i])
  {
    var pieces := Split(input, ',');
    var r := TrimAll(pieces);
    assert forall i :: 0 <= i < |r| ==> ',' !in r[i] by {
      forall i | 0 <= i < |r|
        ensures ',' !in r[i]
      {
        var j :| PaddedAt(pieces[i], r[i], j);
      }
    }
    r
  }

  /** An empty field gives one empty specialisation, not an empty list. */
  lemma EmptyInputGivesOneEmptyEntry()
    ensures ParseSpecializations("") == [""]
  {
    assert Split("", ',') == [""];
  }

  /** The edit dialog's prefill. */
  function PrefillSpecializations(specializations: seq<string>): string
  {
    Join(specializations, ", ")
  }

  /** Each entry with a space in front of it. */
  function Spaced(xs: seq<string>): (r: seq<string>)
    ensures |r| == |xs|
    ensures forall i :: 0 <= i < |xs| ==> r[i] == " " + xs[i]
  {
    seq(|xs|, i requires 0 <= i < |xs| => " " + xs[i])
  }

  /** Joining with ", " is joining with "," after putting a space before every entry but
      the first. */
  lemma {:induction false} JoinCommaSpace(xs: seq<string>)
    requires |xs| >= 1
    ensures " " + Join(xs, ", ") == Join(Spaced(xs), ",")
  {
    if |xs| > 1 {
      JoinCommaSpace(xs[1..]);
      assert Spaced(xs)[1..] == Spaced(xs[1..]);
      calc {
        " " + Join(xs, ", ");
        " " + (xs[0] + ", " + Join(xs[1..], ", "));
        (" " + xs[0]) + "," + (" " + Join(xs[1..], ", "));
        (" " + xs[0]) + "," + Join(Spaced(xs[1..]), ",");
      }
    }
  }

  /** Reading back the prefill of a non-empty list whose entries hold no comma and have no
      outer white space gives the list back. */
  lemma ParsePrefillRoundTrip(specializations: seq<string>)
    requires |specializations| >= 1
    requires forall i :: 0 <= i < |specializations| ==> ',' !in specializations[i] && IsTrimmed(specializations[i])
    ensures ParseSpecializations(PrefillSpecializations(specializations)) == specializations
  {
    var xs := specializations;
    var pieces := [xs[0]] + Spaced(xs[1..]);
    assert Join(xs, ", ") == Join(pieces, ",") by {
      if |xs| > 1 {
        JoinCommaSpace(xs[1..]);
        assert pieces[1..] == Spaced(xs[1..]);
        assert Join(xs, ", ") == xs[0] + "," + (" " + Join(xs[1..], ", "));
      }
    }
    forall i | 0 <= i < |pieces|
      ensures ',' !in pieces[i]
    {
      if i > 0 {
        assert pieces[i] == " " + xs[i];
      }
    }
    SplitJoin(pieces, ',');
    forall i | 0 <= i < |pieces|
      ensures Trim(pieces[i]) == xs[i]
    {
      if i == 0 {
        TrimOfTrimmed(xs[0]);
      } else {
        assert pieces[i] == " " + xs[i];
        TrimAfterSpace(xs[i]);
      }
    }
  }

  /** The badges of a row: at most the first two specialisations, then a "+n" badge with the
      number of those not shown. */
  function ShownSpecializations(specializations: seq<string>): (r: seq<string>)
    ensures |r| == if |specializations| < 2 then |specializations| else 2
    ensures r == specializations[..|r|]
  {
    if |specializations| < 2 then specializations else specializations[..2]
  }

  function OverflowBadge(specializations: seq<string>): (r: Option<nat>)
    ensures r.Some? <==> |specializations| > 2
  {
    if |specializations| > 2 then Some(|specializations| - 2) else None
  }

  /** The shown badges and the overflow count account for every specialisation. */
  lemma BadgesAccountForAll(specializations: seq<string>)
    ensures |ShownSpecializations(specializations)| + OverflowBadge(specializations).GetOr(0) == |specializations|
  {
  }

  datatype BadgeVariant = DefaultBadge | SecondaryBadge | DestructiveBadge

  /** `getStatusBadge`'s variant for a status string; an unknown one is "secondary". */
  function StatusBadgeVariant(status: string): BadgeVariant
  {
    if status == "active" then DefaultBadge
    else if status == "suspended" then DestructiveBadge
    else SecondaryBadge
  }

  /** Active, inactive and suspended financiers get distinct badges. */
  lemma StatusBadgesDistinct()
    ensures StatusBadgeVariant(FinancierStatusName(Active)) == DefaultBadge
    ensures StatusBadgeVariant(FinancierStatusName(Inactive)) == SecondaryBadge
    ensures StatusBadgeVariant(FinancierStatusName(Suspended)) == DestructiveBadge
    ensures StatusBadgeVariant("pending") == SecondaryBadge
  {
  }

  /** The fields of the create and edit dialogs, numbers already converted. */
  datatype FinancierForm = FinancierForm(
    name: string,
    email: string,
    contactPerson: string,
    phone: string,
    address: string,
    registrationNumber: string,
    status: FinancierStatus,
    loanLimit: real,
    minRate: real,
    maxRate: real,
    specializations: string)

  /** What the dialogs pass on: every form field, nothing for id or dates. */
  function FormPayload(form: FinancierForm): (p: FinancierPatch)
    ensures CreatableFrom(p)
    ensures p.id.None? && p.createdAt.None? && p.updatedAt.None?
    ensures p.specializations == Some(ParseSpecializations(form.specializations))
  {
    FinancierPatch(None, Some(form.name), Some(form.email), Some(form.contactPerson), Some(form.phone),
                   Some(form.address), Some(form.registrationNumber), Some(form.status), Some(form.loanLimit),
                   Some(RateRange(form.minRate, form.maxRate)), Some(ParseSpecializations(form.specializations)), None, None)
  }

  /** Saving the edit dialog unchanged keeps the specialisations of a financier whose list
      round-trips, and never changes its id or creation date. */
  lemma EditKeepsSpecializations(f: Financier, form: FinancierForm, now: int)
    requires form.specializations == PrefillSpecializations(f.specializations)
    requires |f.specializations| >= 1
    requires forall i :: 0 <= i < |f.specializations| ==> ',' !in f.specializations[i] && IsTrimmed(f.specializations[i])
    ensures ApplyFinancierPatch(f, FormPayload(form), now).specializations == f.specializations
    ensures ApplyFinancierPatch(f, FormPayload(form), now).id == f.id
    ensures ApplyFinancierPatch(f, FormPayload(form), now).createdAt == f.createdAt
  {
    ParsePrefillRoundTrip(f.specializations);
  }

  datatype UpdateCall = UpdateCall(financierId: string, patch: FinancierPatch)

  class FinancierTableState {
    var selectedFinancier: Option<Financier>
    var isCreateDialogOpen: bool
    var isEditDialogOpen: bool

    constructor()
      ensures selectedFinancier.None? && !isCreateDialogOpen && !isEditDialogOpen
    {
      selectedFinancier := None;
      isCreateDialogOpen := false;
      isEditDialogOpen := false;
    }

    /** The edit button of a row. */
    method OpenEdit(f: Financier)
      modifies this
      ensures selectedFinancier == Some(f) && isEditDialogOpen && isCreateDialogOpen == old(isCreateDialogOpen)
    {
      selectedFinancier := Some(f);
      isEditDialogOpen := true;
    }

    /** `handleCreateSubmit`: `onCreateFinancier` gets the payload and the dialog closes. */
    method HandleCreateSubmit(form: FinancierForm) returns (payload: FinancierPatch)
      modifies this
      ensures payload == FormPayload(form) && !isCreateDialogOpen
      ensures selectedFinancier == old(selectedFinancier) && isEditDialogOpen == old(isEditDialogOpen)
    {
      payload := FormPayload(form);
      isCreateDialogOpen := false;
    }

    /** `handleEditSubmit`: nothing without a selected financier; otherwise the update call
        for its id, and the dialog closes. */
    method HandleEditSubmit(form: FinancierForm) returns (call: Option<UpdateCall>)
      modifies this
      ensures old(selectedFinancier).None? ==>
        call.None? && selectedFinancier.None? && isEditDialogOpen == old(isEditDialogOpen)
      ensures old(selectedFinancier).Some? ==>
        call == Some(UpdateCall(old(selectedFinancier).value.id, FormPayload(form)))
        && selectedFinancier.None? && !isEditDialogOpen
      ensures isCreateDialogOpen == old(isCreateDialogOpen)
    {
      if selectedFinancier.None? {
        return None;
      }
      call := Some(UpdateCall(selectedFinancier.value.id, FormPayload(form)));
      isEditDialogOpen := false;
      selectedFinancier := None;
    }
  }
}
