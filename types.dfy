/**
 * The records of lib/types.ts. Dates are millisecond timestamps, amounts are reals.
 * Each union of string literals becomes a datatype, with a `...Name` function giving
 * the string the components compare against their filter selections.
 * A few fields that pages read but the interfaces do not declare are added as
 * optional fields (`businessName` on applications, `clientName` on claims).
 */
module Types {
  import opened Wrappers

  datatype Role = ClientRole | FinancierRole | AdminRole

  function RoleName(r: Role): string
  {
    match r
    case ClientRole => "client"
    case FinancierRole => "financier"
    case AdminRole => "admin"
  }

  datatype User = User(
    id: string,
    email: string,
    name: string,
    role: Role,
    avatar: Option<string>,
    createdAt: int)

  datatype LoanStatus = Draft | Submitted | UnderReview | Approved | Rejected | Disbursed

  function LoanStatusName(s: LoanStatus): string
  {
    match s
    case Draft => "draft"
    case Submitted => "submitted"
    case UnderReview => "under-review"
    case Approved => "approved"
    case Rejected => "rejected"
    case Disbursed => "disbursed"
  }

  datatype LoanStage = Application | Review | Approval1 | Approval2 | Disbursement

  datatype DocumentKind = ResolutionLetter | BusinessPlan | FinancialProjections | Contract | OtherDocument

  function DocumentKindName(k: DocumentKind): string
  {
    match k
    case ResolutionLetter => "resolution-letter"
    case BusinessPlan => "business-plan"
    case FinancialProjections => "financial-projections"
    case Contract => "contract"
    case OtherDocument => "other"
  }

  /** `DocumentStatus` and `ClaimStatus` of lib/types.ts: the same three states. */
  datatype ReviewStatus = Pending | Accepted | Declined

  function ReviewStatusName(s: ReviewStatus): string
  {
    match s
    case Pending => "pending"
    case Accepted => "approved"
    case Declined => "rejected"
  }

  datatype Document = Document(
    id: string,
    name: string,
    kind: DocumentKind,
    url: string,
    status: ReviewStatus,
    uploadedAt: int,
    reviewedAt: Option<int>,
    reviewedBy: Option<string>,
    comments: Option<string>)

  datatype LoanApplication = LoanApplication(
    id: string,
    clientId: string,
    clientName: string,
    kycNumber: string,
    amount: real,
    purpose: string,
    status: LoanStatus,
    stage: LoanStage,
    interestRate: real,
    term: int,
    documents: seq<Document>,
    createdAt: int,
    updatedAt: int,
    reviewedBy: Option<string>,
    approvedBy: Option<seq<string>>,
    rejectionReason: Option<string>,
    businessName: Option<string>)

  datatype PaymentType = Cash | BankTransfer | Cheque

  datatype ItemStatus = Available | Claimed | ItemApproved | ItemRejected

  datatype ExpenseClaim = ExpenseClaim(
    id: string,
    expenditureItemId: string,
    amount: real,
    description: string,
    paymentType: PaymentType,
    documents: seq<Document>,
    status: ReviewStatus,
    submittedAt: int,
    reviewedAt: Option<int>,
    reviewedBy: Option<string>,
    comments: Option<string>,
    clientName: Option<string>)

  datatype ExpenditureItem = ExpenditureItem(
    id: string,
    loanId: string,
    lineItem: string,
    allocatedAmount: real,
    spentAmount: real,
    remainingAmount: real,
    status: ItemStatus,
    claims: seq<ExpenseClaim>)

  datatype PaymentStatus = PaymentPending | Confirmed | Failed

  function PaymentStatusName(s: PaymentStatus): string
  {
    match s
    case PaymentPending => "pending"
    case Confirmed => "confirmed"
    case Failed => "failed"
  }

  datatype PaymentEntry = PaymentEntry(
    id: string,
    loanId: string,
    amount: real,
    referenceNumber: string,
    status: PaymentStatus,
    paymentDate: int,
    confirmedAt: Option<int>,
    confirmedBy: Option<string>)

  datatype FinancierStatus = Active | Inactive | Suspended

  function FinancierStatusName(s: FinancierStatus): string
  {
    match s
    case Active => "active"
    case Inactive => "inactive"
    case Suspended => "suspended"
  }

  datatype RateRange = RateRange(min: real, max: real)

  datatype Financier = Financier(
    id: string,
    name: string,
    email: string,
    contactPerson: string,
    phone: string,
    address: string,
    registrationNumber: string,
    status: FinancierStatus,
    loanLimit: real,
    interestRateRange: RateRange,
    specializations: seq<string>,
    createdAt: int,
    updatedAt: int)

  datatype SettingCategory = General | Security | Notifications | Integrations

  function SettingCategoryName(c: SettingCategory): string
  {
    match c
    case General => "general"
    case Security => "security"
    case Notifications => "notifications"
    case Integrations => "integrations"
  }

  datatype SettingType = StringValue | NumberValue | BooleanValue | JsonValue

  datatype SystemSetting = SystemSetting(
    id: string,
    category: SettingCategory,
    key: string,
    value: string,
    description: string,
    valueType: SettingType,
    updatedAt: int,
    updatedBy: string)

  /** A browser `File`: only its name and its size in bytes matter here. */
  datatype File = File(name: string, size: nat)
}
