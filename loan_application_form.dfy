/**
 * The client's loan application form (components/forms/loan-application-form.tsx): the
 * validation schema, the collapsible sections, the uploaded documents and the cash
 * expenditure warning computed on submission.
 */
module LoanApplicationForm {
  import opened Types
  import opened Seqs
  import opened Text
  import opened RealArith

  /** One position of an anchored pattern: a fixed character, or `\d` (an ASCII digit). */
  datatype Atom = Lit(c: char) | AnyDigit

  predicate AtomMatches(a: Atom, c: char)
  {
    match a
    case Lit(x) => c == x
    case AnyDigit => IsDigit(c)
  }

  /** An anchored pattern of single-character atoms matched against the whole string. */
  predicate Matches(pattern: seq<Atom>, s: string)
  {
    if pattern == [] then s == []
    else s != [] && AtomMatches(pattern[0], s[0]) && Matches(pattern[1..], s[1..])
  }

  /** A pattern matches exactly the strings of its length whose characters match its atoms
      position by position. */
  lemma {:induction false} MatchesPositionwise(pattern: seq<Atom>, s: string)
    ensures Matches(pattern, s) <==> |s| == |pattern| && forall k :: 0 <= k < |s| ==> AtomMatches(pattern[k], s[k])
  {
    if pattern != [] && s != [] {
      MatchesPositionwise(pattern[1..], s[1..]);
      if |s| == |pattern| && forall k :: 0 <= k < |s| ==> AtomMatches(pattern[k], s[k]) {
        forall k | 0 <= k < |s[1..]| ensures AtomMatches(pattern[1..][k], s[1..][k]) {
          assert AtomMatches(pattern[k + 1], s[k + 1]);
        }
      }
    }
  }

  /** The KYC rule's regular expression, anchored at both ends: "KYC" and nine digits. */
  const KycPattern: seq<Atom> :=
    [Lit('K'), Lit('Y'), Lit('C'), AnyDigit, AnyDigit, AnyDigit, AnyDigit, AnyDigit, AnyDigit, AnyDigit, AnyDigit, AnyDigit]

  /** A KYC number is "KYC" followed by exactly nine digits. */
  lemma KycFormat(s: string)
    ensures Matches(KycPattern, s) <==> |s| == 12 && s[..3] == "KYC" && forall k :: 3 <= k < 12 ==> IsDigit(s[k])
  {
    MatchesPositionwise(KycPattern, s);
    assert forall k :: 3 <= k < 12 ==> KycPattern[k] == AnyDigit;
    if |s| == 12 && s[..3] == "KYC" {
      assert s[0] == 'K' && s[1] == 'Y' && s[2] == 'C' by {
        assert s[..3][0] == s[0] && s[..3][1] == s[1] && s[..3][2] == s[2];
      }
    }
  }

  /** The form's values; the numeric fields are reals as the schema's `z.number()`. */
  datatype LoanFormData = LoanFormData(
    kycNumber: string,
    loanAmount: real,
    loanPurpose: string,
    businessName: string,
    businessType: string,
    yearsInBusiness: real,
    monthlyRevenue: real,
    monthlyExpenses: real,
    existingDebt: real,
    contactPerson: string,
    phoneNumber: string,
    email: string,
    businessAddress: string)

  const DefaultValues := LoanFormData("", 0.0, "", "", "", 0.0, 0.0, 0.0, 0.0, "", "", "", "")

  /** `loanApplicationSchema`. The e-mail rule of the validation library is not modelled: its
      verdict enters as `emailAccepted`. */
  predicate LoanFormValid(data: LoanFormData, emailAccepted: bool)
  {
    |data.kycNumber| >= 1 && Matches(KycPattern, data.kycNumber)
    && 1000.0 <= data.loanAmount <= 1000000.0
    && |data.loanPurpose| >= 10
    && |data.businessName| >= 1
    && |data.businessType| >= 1
    && data.yearsInBusiness >= 0.0
    && data.monthlyRevenue >= 0.0
    && data.monthlyExpenses >= 0.0
    && data.existingDebt >= 0.0
    && |data.contactPerson| >= 1
    && |data.phoneNumber| >= 10
    && emailAccepted
    && |data.businessAddress| >= 10
  }

  /** What a form that passes the schema guarantees the submit handler: a KYC number of twelve
      characters starting with "KYC", an amount between 1,000 and 1,000,000, and figures for
      which the cash warning means exactly that expenses exceed revenue. */
  lemma ValidFormShape(data: LoanFormData, emailAccepted: bool)
    requires LoanFormValid(data, emailAccepted)
    ensures |data.kycNumber| == 12 && data.kycNumber[..3] == "KYC"
    ensures forall k :: 3 <= k < 12 ==> IsDigit(data.kycNumber[k])
    ensures 1000.0 <= data.loanAmount <= 1000000.0
    ensures CashRatioWarning(data.monthlyExpenses, data.monthlyRevenue) <==> data.monthlyExpenses > data.monthlyRevenue
  {
    KycFormat(data.kycNumber);
    CashRatioWarningMeansExpensesExceedRevenue(data.monthlyExpenses, data.monthlyRevenue);
  }

  /** The empty form the page starts with cannot be submitted. */
  lemma DefaultValuesRejected(emailAccepted: bool)
    ensures !LoanFormValid(DefaultValues, emailAccepted)
  {
  }

  /** A fifth of the expenses, divided by the revenue, exceeds 0.2. With no revenue the quotient is
      Infinity when there are expenses (a warning) and NaN when there are none (no warning). */
  predicate CashRatioWarning(monthlyExpenses: real, monthlyRevenue: real)
  {
    if monthlyRevenue == 0.0 then monthlyExpenses * 0.2 > 0.0
    else (monthlyExpenses * 0.2) / monthlyRevenue > 0.2
  }

  /** For the non-negative figures the schema admits, the warning shows exactly when expenses
      exceed revenue: the two factors 0.2 cancel. */
  lemma CashRatioWarningMeansExpensesExceedRevenue(monthlyExpenses: real, monthlyRevenue: real)
    requires monthlyExpenses >= 0.0 && monthlyRevenue >= 0.0
    ensures CashRatioWarning(monthlyExpenses, monthlyRevenue) <==> monthlyExpenses > monthlyRevenue
  {
    if monthlyRevenue > 0.0 {
      DivAbove(monthlyExpenses * 0.2, monthlyRevenue, 0.2);
    }
  }

  /** `toggleSection`: an open section closes, a closed one opens at the end of the list. */
  function Toggle(openSections: seq<string>, section: string): (r: seq<string>)
    ensures section in r <==> section !in openSections
    ensures forall s :: s != section ==> (s in r <==> s in openSections)
  {
    if section in openSections then RemoveAll(openSections, section) else openSections + [section]
  }

  /** Opening a closed section and closing it again restores the list. */
  lemma ToggleTwiceRestores(openSections: seq<string>, section: string)
    requires section !in openSections
    ensures Toggle(Toggle(openSections, section), section) == openSections
  {
    RemoveAllAppend(openSections, [section], section);
  }

  /** What `onSubmit` receives: the validated values and the documents uploaded so far. */
  datatype LoanSubmission = LoanSubmission(data: LoanFormData, documents: seq<File>)

  class LoanApplicationFormState {
    var openSections: seq<string>
    var uploadedDocuments: seq<File>
    var cashExpenditureWarning: bool

    constructor()
      ensures openSections == ["basic"] && uploadedDocuments == [] && !cashExpenditureWarning
    {
      openSections := ["basic"];
      uploadedDocuments := [];
      cashExpenditureWarning := false;
    }

    method ToggleSection(section: string)
      modifies this
      ensures openSections == Toggle(old(openSections), section)
      ensures uploadedDocuments == old(uploadedDocuments) && cashExpenditureWarning == old(cashExpenditureWarning)
    {
      openSections := Toggle(openSections, section);
    }

    /** `handleDocumentUpload`: new files are added after those already uploaded. */
    method HandleDocumentUpload(files: seq<File>)
      modifies this
      ensures uploadedDocuments == old(uploadedDocuments) + files
      ensures openSections == old(openSections) && cashExpenditureWarning == old(cashExpenditureWarning)
    {
      uploadedDocuments := uploadedDocuments + files;
    }

    /** `handleFormSubmit`, reached only with values the schema accepted: the warning is set
        from the cash ratio and the submission carries the uploaded documents. */
    method HandleFormSubmit(data: LoanFormData, emailAccepted: bool) returns (submission: LoanSubmission)
      requires LoanFormValid(data, emailAccepted)
      modifies this
      ensures cashExpenditureWarning <==> data.monthlyExpenses > data.monthlyRevenue
      ensures submission == LoanSubmission(data, old(uploadedDocuments))
      ensures openSections == old(openSections) && uploadedDocuments == old(uploadedDocuments)
    {
      CashRatioWarningMeansExpensesExceedRevenue(data.monthlyExpenses, data.monthlyRevenue);
      if data.monthlyRevenue == 0.0 {
        cashExpenditureWarning := data.monthlyExpenses * 0.2 > 0.0;
      } else {
        var cashRatio := (data.monthlyExpenses * 0.2) / data.monthlyRevenue;
        if cashRatio > 0.2 {
          cashExpenditureWarning := true;
        } else {
          cashExpenditureWarning := false;
        }
      }
      submission := LoanSubmission(data, uploadedDocuments);
    }
  }
}
