# Loan dashboard model

A Dafny model of the client, financier and admin screens of a small loan-management
dashboard written in TypeScript and React. Every screen holds its data in component state
seeded from fixtures, and every modelled handler is one step of that state.

- **Clients** follow their loans through a four-step progress tracker. They see a total of
  their loans, the active loan and the pending applications.
- **Expenditure.** Budget line items come from an uploaded sheet. Clients claim expenses
  against them, and a warning appears when a cash claim exceeds a fifth of the allocation.
- **Financiers** filter, sort and review loan applications. They approve or reject expense
  claims one at a time or in bulk, and review documents with a comment or a reason.
- **Admins** create, edit and delete users, financiers and system settings, and they confirm
  or reject payments in the reconciliation screen.
- **Forms.** The loan application form checks a KYC number format and warns about a high
  cash-expenditure ratio. The file upload control drops files over the size limit and shows
  simulated upload progress.

Each source file of the core has one Dafny module of the same name:

- Pure computations are functions. Lemmas state what the screen promises about them.
- A screen whose handlers update state is a class. Each method states the new state in
  terms of the old state and these functions.
- A callback a component calls is returned as a value describing the call. Examples are
  `onApprove(id, comments)` and `onFileSelect(files)`.
- Shared pieces live in their own modules: `Wrappers` (an optional value), `Seqs` (filter,
  count, sum, find, distinct, stable sort), `Text` (ASCII lower-casing, substring search,
  split, join, trim), `Types` (the records of `lib/types.ts`), `Counts` (the tallies built
  with `reduce`) and `RealArith`.

## Model

| member | source | states |
|---|---|---|
| LoansPage.ProgressSteps | app/loans/page.tsx:58-98 | the loan card's four steps: application always completed; review current at the review stage, completed when approved or disbursed otherwise; approval current at either approval stage, completed when funded otherwise; disbursement completed once disbursed, current at the disbursement stage otherwise |
| LoansPage.AtMostOneCurrent | app/loans/page.tsx:58-98 | a card never shows two steps in progress: the only current step is the one the loan's stage names |
| LoansPage.ApprovedAwaitingDisbursement | app/loans/page.tsx:58-98 | an approved loan at the disbursement stage shows three completed steps and the transfer in progress |
| LoansPage.UserLoans | app/loans/page.tsx:19 | the page lists exactly the loans whose client id is the signed-in user's, in their original order; every copy of a kept record stays, as with `filter` |
| Dashboard.TotalLoanAmountSplits | app/dashboard/page.tsx:22 | the total loan amount is the amounts of the funded loans plus those of the others, and is never negative when no amount is |
| Dashboard.TotalLoanAmount | app/dashboard/page.tsx:22 | the "Total Loan Amount" card adds up the amounts of the user's loans; TotalLoanAmountSplits splits it |
| Dashboard.ActiveLoan | app/dashboard/page.tsx:23 | the active loan is the first approved or disbursed loan in list order, and is absent exactly when no loan is funded |
| Dashboard.PendingApplications | app/dashboard/page.tsx:24 | the pending list holds exactly the user's loans that are under review or submitted, in order; every copy of a kept record stays, as with `filter` |
| Dashboard.ActiveLoansCount | app/dashboard/page.tsx:118 | the active-loans card never counts more loans than the user has |
| Dashboard.ActiveLoansCountMatches | app/dashboard/page.tsx:23 | the active-loans card is positive exactly when the dashboard has an active loan, and with the unfunded loans it accounts for every loan |
| Dashboard.DashboardSteps | app/dashboard/page.tsx:27-67 | the dashboard's steps: review current at the review stage and completed for any other active loan; approval current at an approval stage; disbursement completed once disbursed; with no active loan every later step is upcoming |
| Dashboard.DashboardAgreesWithLoansPage | app/dashboard/page.tsx:38-43 | for a funded loan the dashboard shows the same steps as that loan's card on the loans page |
| Dashboard.DashboardShowsActiveLoanCard | app/dashboard/page.tsx:23-67 | the dashboard's steps are those of the active loan's card, or application-only when there is none |
| Dashboard.ReviewStepDiffersForUnfundedLoan | app/dashboard/page.tsx:38-43 | for a submitted loan at the application stage, the dashboard would mark review completed where the loans page marks it upcoming |
| ExpenditureTable.TotalsBalance | components/expenditure/expenditure-table.tsx:16-18 | when every line item's remaining amount is its allocation less its spending, the remaining-total card equals the allocated total less the spent total |
| ExpenditureTable.Utilization | components/expenditure/expenditure-table.tsx:35-37 | the utilisation is spent over allocated as a percentage when the allocation is positive and 0 otherwise, and lies in 0..100 for spending within the allocation |
| ExpenditureTable.HighUtilizationCrossMultiplied | components/expenditure/expenditure-table.tsx:85-86 | a row is flagged for high utilisation exactly when its allocation is positive and more than four fifths of it is spent |
| ExpenditureTable.ClaimDisabled | components/expenditure/expenditure-table.tsx:117 | the claim button is disabled for an item with nothing left or already claimed |
| ExpenditureTable.OfficeEquipmentFigures | lib/mock-data.ts:88-97 | the sample "Office Equipment" item is balanced, 35% used, not flagged, and its claim button is enabled |
| ExpenseClaimModal.ExceedsCashShareCrossMultiplied | components/expenditure/expense-claim-modal.tsx:58-63 | for a positive amount the cash share exceeds 20% exactly when five times the amount exceeds a positive allocation; it never does against a negative allocation |
| ExpenseClaimModal.CashWarningAfterEffect | components/expenditure/expense-claim-modal.tsx:58-63 | the warning is recomputed only when an item is shown and the amount is positive: it is then raised exactly for a cash payment above 20% of the allocation (any cash payment against a zero allocation); otherwise the previous warning is kept |
| ExpenseClaimModal.SchemaIgnoresBudget | components/expenditure/expense-claim-modal.tsx:18-24 | a claim of 7000 against the sample item's 6500 remaining passes the form schema, while the submit button is disabled for it and enabled for 6500 |
| ExpenseClaimModal.DefaultFormRejected | components/expenditure/expense-claim-modal.tsx:46-53 | the empty default form (amount 0, no description, no payment type) does not pass the schema |
| ExpenseClaimModal.SchemaAccepts | components/expenditure/expense-claim-modal.tsx:18-24 | the claim schema: an amount of at least 1, a description of at least ten characters and a chosen payment type, with no budget rule |
| ExpenseClaimModal.OverBudget | components/expenditure/expense-claim-modal.tsx:123-125 | the over-budget message shows when the amount exceeds what the item has left |
| ExpenseClaimModal.SubmitDisabled | components/expenditure/expense-claim-modal.tsx:203 | the submit button is disabled while loading or over budget |
| ExpenseClaimModal.ClaimModal.constructor | components/expenditure/expense-claim-modal.tsx:43-53 | the dialog opens with the default form, no documents and no warning |
| ExpenseClaimModal.ClaimModal.Enter | components/expenditure/expense-claim-modal.tsx:55-56 | typing into the form changes only the form values |
| ExpenseClaimModal.ClaimModal.RunCashWarningEffect | components/expenditure/expense-claim-modal.tsx:58-63 | the effect sets the warning to its value after the effect and changes nothing else |
| ExpenseClaimModal.ClaimModal.UploadDocuments | components/expenditure/expense-claim-modal.tsx:185 | selected files are appended to the uploaded documents |
| ExpenseClaimModal.ClaimModal.Submit | components/expenditure/expense-claim-modal.tsx:65-70 | a valid form submitted through the enabled button is handed on with the documents uploaded so far and never asks for more than the item has left; then form, documents and warning are reset |
| ExpenseClaimModal.ClaimModal.Close | components/expenditure/expense-claim-modal.tsx:72-77 | closing resets form, documents and warning |
| ExpenditurePage.ItemIdsDistinct | app/expenditure/page.tsx:24 | the ids `exp-1`, `exp-2`, ... given to uploaded rows never repeat |
| ExpenditurePage.ConvertRows | app/expenditure/page.tsx:23-32 | one item per uploaded row, in row order: the row's line item and allocation, nothing spent, the whole allocation remaining, status available, no claims |
| ExpenditurePage.ConvertedItemsBalanced | app/expenditure/page.tsx:21-36 | an uploaded budget is balanced row by row, has nothing spent, has its remaining total equal to its allocated total, and has distinct ids |
| ExpenditurePage.MarkClaimed | app/expenditure/page.tsx:53-55 | after a claim is submitted, the items with the selected id become claimed and every other item is kept |
| ExpenditurePage.MarkClaimedKeepsBudget | app/expenditure/page.tsx:53-55 | submitting a claim leaves the allocated, spent and remaining totals unchanged, disables further claims on the selected item, and changes nothing when no item is selected |
| ExpenditurePage.ExpenditurePageState.constructor | app/expenditure/page.tsx:15-19 | the page starts on the given items, as if a file were uploaded, with nothing selected, the dialog closed and no submission running |
| ExpenditurePage.ExpenditurePageState.HandleExcelUpload | app/expenditure/page.tsx:21-36 | an upload replaces the item list by the converted rows and marks the file as uploaded, leaving the selection and dialog alone |
| ExpenditurePage.ExpenditurePageState.HandleClaimExpense | app/expenditure/page.tsx:38-44 | a known id selects the first item with that id and opens the claim dialog; an unknown id changes nothing |
| ExpenditurePage.ExpenditurePageState.HandleSubmitClaim | app/expenditure/page.tsx:46-62 | submitting marks the selected item claimed, clears the selection, closes the dialog and ends the submission |
| ClaimsPage.WithStatus | app/claims/page.tsx:16-32 | approving or rejecting a claim id keeps the list's length and order, gives every claim with that id the new status, and keeps every other claim |
| ClaimsPage.BulkApproved | app/claims/page.tsx:34-43 | bulk approval keeps the list's length and order, approves every claim whose id is listed, and keeps every other claim |
| ClaimsPage.WithStatusOnlyTouchesStatus | app/claims/page.tsx:20 | approve and reject change no field but the status, and set it regardless of the claim's previous status |
| ClaimsPage.WithStatusIdempotent | app/claims/page.tsx:20 | approving (or rejecting) the same claim twice has the effect of doing it once |
| ClaimsPage.BulkApprovedExactly | app/claims/page.tsx:38-40 | after bulk approval a claim is approved exactly when its id was listed or it was approved before; unlisted claims are untouched; no field but the status changes |
| ClaimsPage.BulkApprovedDegenerate | app/claims/page.tsx:16-43 | bulk approval of no ids changes nothing, and bulk approval of one id is a single approval |
| ClaimsPage.SelectAllThenBulkApprove | app/claims/page.tsx:34-43 | select-all in the claims table followed by bulk approval approves every pending claim that the search and status filter show |
| ClaimsPage.ClaimsPageState.constructor | app/claims/page.tsx:9 | the page starts on the given claims |
| ClaimsPage.ClaimsPageState.ApproveClaim | app/claims/page.tsx:16-23 | approving sets the claim list to its approved rewrite |
| ClaimsPage.ClaimsPageState.RejectClaim | app/claims/page.tsx:25-32 | rejecting sets the claim list to its rejected rewrite |
| ClaimsPage.ClaimsPageState.BulkApprove | app/claims/page.tsx:34-43 | bulk approval sets the claim list to its bulk-approved rewrite |
| ExpenseClaimsTable.FilteredClaims | components/financier/expense-claims-table.tsx:34-44 | a claim is shown exactly when its description or id contains the search term, ignoring case, and its status matches the filter ("all" matches any); the shown claims keep their order; every copy of a kept record stays, as with `filter` |
| ExpenseClaimsTable.DefaultFilterKeepsAll | components/financier/expense-claims-table.tsx:30-31 | with the initial empty search and "all" filter every claim is shown |
| ExpenseClaimsTable.PendingClaims | components/financier/expense-claims-table.tsx:62 | the pending list holds exactly the shown claims that are pending; every copy of a kept record stays, as with `filter` |
| ExpenseClaimsTable.Ids | components/financier/expense-claims-table.tsx:48 | one id per claim, in order |
| ExpenseClaimsTable.SelectAllChecksHeader | components/financier/expense-claims-table.tsx:46-52 | after select-all the header box is checked exactly when some pending claim is in view, and after deselect-all it is unchecked |
| ExpenseClaimsTable.DeselectUnchecksHeader | components/financier/expense-claims-table.tsx:54-64 | unchecking a pending claim in view unchecks the header box |
| ExpenseClaimsTable.SelectAllPicksEnabledRows | components/financier/expense-claims-table.tsx:46-52 | every id select-all picks belongs to a shown claim whose row checkbox is enabled |
| ExpenseClaimsTable.SummaryCardsConsistent | components/financier/expense-claims-table.tsx:72-95 | the pending value is the part of the claimed total still pending, and the pending and approved cards never count more than the total |
| ExpenseClaimsTable.CheckboxEnabled | components/financier/expense-claims-table.tsx:176 | a row's checkbox is enabled for a pending claim only |
| ExpenseClaimsTable.ActionsShown | components/financier/expense-claims-table.tsx:213 | the approve and reject buttons show on a pending claim only |
| ExpenseClaimsTable.PendingValue | components/financier/expense-claims-table.tsx:92-94 | the "Pending Value" card adds up the amounts of every pending claim; SummaryCardsConsistent relates it to the total |
| ExpenseClaimsTable.ClaimSelection.constructor | components/financier/expense-claims-table.tsx:32 | nothing is selected at first |
| ExpenseClaimsTable.ClaimSelection.HandleSelectAll | components/financier/expense-claims-table.tsx:46-52 | checking selects the ids of all pending claims in view, in order; unchecking clears the selection |
| ExpenseClaimsTable.ClaimSelection.HandleSelectClaim | components/financier/expense-claims-table.tsx:54-60 | checking appends the id; unchecking drops every copy of it and keeps the other ids in order |
| ReconciliationPage.WithConfirmed | app/reconciliation/page.tsx:12-27 | confirming keeps the list's length and order; every payment with the id becomes confirmed by "Admin User" at the given time, and every other payment is kept |
| ReconciliationPage.WithFailed | app/reconciliation/page.tsx:29-35 | rejecting keeps the list's length and order; every payment with the id becomes failed, and every other payment is kept |
| ReconciliationPage.ReviewKeepsPaymentFacts | app/reconciliation/page.tsx:12-35 | neither handler alters id, loan, amount, reference or date; rejecting leaves the confirmation fields alone; the new status is set whatever the old one was |
| ReconciliationPage.UnknownIdChangesNothing | app/reconciliation/page.tsx:12-35 | an id absent from the list leaves the payments unchanged under both handlers |
| ReconciliationPage.ReconciliationPageState.constructor | app/reconciliation/page.tsx:10 | the page starts on the given payments |
| ReconciliationPage.ReconciliationPageState.ConfirmPayment | app/reconciliation/page.tsx:12-27 | confirming sets the payment list to its confirmed rewrite; the notes do not affect the list |
| ReconciliationPage.ReconciliationPageState.RejectPayment | app/reconciliation/page.tsx:29-35 | rejecting sets the payment list to its failed rewrite; the reason does not affect the list |
| ReconciliationTable.FilteredPayments | components/admin/reconciliation-table.tsx:31-42 | a payment is shown exactly when its reference number, id or loan id contains the search term, ignoring case, and its status matches the filter ("all" matches any); the shown payments keep their order; every copy of a kept record stays, as with `filter` |
| ReconciliationTable.StatusCounts | components/admin/reconciliation-table.tsx:70-78 | the count recorded for every status name is the number of payments carrying it, and only status names appear as keys |
| ReconciliationTable.StatusCountsCoverPayments | components/admin/reconciliation-table.tsx:70-78 | the pending, confirmed and failed counts are the numbers of payments in each state, and together they account for every payment |
| ReconciliationTable.PendingValueAfterRemoval | components/admin/reconciliation-table.tsx:106-109 | replacing a payment by a non-pending one lowers the pending value by its amount if it was pending, and leaves it unchanged otherwise |
| ReconciliationTable.PendingValue | components/admin/reconciliation-table.tsx:106-108 | the "Pending Value" card adds up the amounts of the pending payments; PendingValueAfterRemoval says how a review changes it |
| ReconciliationTable.ActionsOffered | components/admin/reconciliation-table.tsx:206 | confirm and reject are offered for a pending payment only |
| ReconciliationTable.ReconciliationTableState.constructor | components/admin/reconciliation-table.tsx:26-29 | nothing is selected, the dialog is closed, the notes are empty and nothing is processing |
| ReconciliationTable.ReconciliationTableState.OpenConfirmModal | components/admin/reconciliation-table.tsx:65-68 | opening the dialog selects the payment and leaves the notes alone |
| ReconciliationTable.ReconciliationTableState.EnterNotes | components/admin/reconciliation-table.tsx:28 | typing notes changes only the notes |
| ReconciliationTable.ReconciliationTableState.HandleConfirmPayment | components/admin/reconciliation-table.tsx:44-55 | with no selected payment nothing happens; otherwise the confirm callback gets the selected id and the typed notes, and the dialog closes with selection and notes cleared |
| ReconciliationTable.ReconciliationTableState.HandleRejectPayment | components/admin/reconciliation-table.tsx:57-63 | rejecting always passes the fixed reason "Payment verification failed" and ends the processing |
| UsersPage.ApplyUserPatch | app/users/page.tsx:26 | each of the six fields takes the patch's value when the patch has one and keeps the user's value otherwise, so an empty patch keeps the user |
| UsersPage.UpdatedUsers | app/users/page.tsx:25-28 | updating keeps the list's length and order; every user with the id gets the patch merged in, and every other user is kept |
| UsersPage.DeletedUsers | app/users/page.tsx:30-33 | after deletion the list holds exactly the users whose id differs, in their original order; every copy of a kept record stays, as with `filter` |
| UsersPage.DeleteRemovesExactlyTheId | app/users/page.tsx:30-33 | deletion removes exactly as many users as carry the id, so an absent id removes nothing |
| UsersPage.UpdateUnknownIdChangesNothing | app/users/page.tsx:25-28 | updating an absent id, or applying an empty patch, leaves the list unchanged |
| UsersPage.NewUser | app/users/page.tsx:12-23 | a created user has the fresh id and time, the given name, email and role, and no avatar |
| UsersPage.UsersPageState.constructor | app/users/page.tsx:10 | the page starts on the given users |
| UsersPage.UsersPageState.CreateUser | app/users/page.tsx:12-23 | creating appends one user built from the form's name, email and role, with the fresh id and the creation time |
| UsersPage.UsersPageState.UpdateUser | app/users/page.tsx:25-28 | updating sets the list to its patched rewrite |
| UsersPage.UsersPageState.DeleteUser | app/users/page.tsx:30-33 | deleting sets the list to the users whose id differs |
| UserManagementTable.FilteredUsers | components/admin/user-management-table.tsx:30-40 | a user is shown exactly when their name or email contains the search term, ignoring case, and their role matches the filter ("all" matches any); the shown users keep their order; every copy of a kept record stays, as with `filter` |
| UserManagementTable.RoleCounts | components/admin/user-management-table.tsx:68-76 | the count recorded for every role name is the number of users carrying it, and only role names appear as keys |
| UserManagementTable.RoleCountsCoverUsers | components/admin/user-management-table.tsx:68-76 | each role count is the number of users with that role, and the three counts account for every user |
| UserManagementTable.InitialsOf | components/admin/user-management-table.tsx:174-177 | the initials are the first characters of the non-empty words, in order, one per word |
| UserManagementTable.Initials | components/admin/user-management-table.tsx:174-177 | the avatar text is the first character of each non-empty space-separated piece of the name, in order, and never contains a space |
| UserManagementTable.InitialsNoSpace | components/admin/user-management-table.tsx:174-177 | words without spaces give initials without spaces |
| UserManagementTable.InitialsOfTwoWords | components/admin/user-management-table.tsx:174-177 | a first and a last name joined by one space give their two first letters |
| UserManagementTable.TableRows | components/admin/user-management-table.tsx:161-166 | an empty filtered list shows the single "No users found" row; otherwise there is one row per shown user, in order |
| UserManagementTable.EditKeepsIdentity | components/admin/user-management-table.tsx:293-303 | editing through the dialog replaces name, email and role and keeps the id, the creation date and the avatar |
| UserManagementTable.CreatePayloadComplete | components/admin/user-management-table.tsx:240-248 | the create dialog always supplies the name, email and role that the page's create handler relies on |
| UserManagementTable.DialogPayload | components/admin/user-management-table.tsx:243-247 | both dialogs pass on the name, email and role and no other field |
| UserManagementTable.UserTableState.constructor | components/admin/user-management-table.tsx:26-28 | both dialogs are closed and no user is selected |
| UserManagementTable.UserTableState.OpenEdit | components/admin/user-management-table.tsx:206-207 | the edit button selects the row's user and opens the edit dialog |
| UserManagementTable.UserTableState.SubmitCreate | components/admin/user-management-table.tsx:240-248 | the create dialog passes name, email and role on and closes |
| UserManagementTable.UserTableState.SubmitEdit | components/admin/user-management-table.tsx:291-303 | the edit dialog passes the selected user's id with name, email and role, then closes and clears the selection |
| FinanciersPage.ApplyFinancierPatch | app/financiers/page.tsx:36 | each of the twelve fields takes the patch's value when the patch has one and keeps the financier's value otherwise; the update time is always the new one |
| FinanciersPage.UpdatedFinanciers | app/financiers/page.tsx:33-40 | updating keeps the list's length and order; every financier with the id gets the patch merged in with a new update time, and every other financier is kept |
| FinanciersPage.DeletedFinanciers | app/financiers/page.tsx:42-45 | after deletion the list holds exactly the financiers whose id differs, in their original order; every copy of a kept record stays, as with `filter` |
| FinanciersPage.DeleteRemovesExactlyTheId | app/financiers/page.tsx:42-45 | deletion removes exactly as many financiers as carry the id, so an absent id removes nothing |
| FinanciersPage.UpdateUnknownIdChangesNothing | app/financiers/page.tsx:33-40 | updating an absent id leaves the list unchanged |
| FinanciersPage.NewFinancier | app/financiers/page.tsx:12-31 | a created financier has the fresh id, every given field, and the current time as both its creation and its update time |
| FinanciersPage.FinanciersPageState.constructor | app/financiers/page.tsx:10 | the page starts on the given financiers |
| FinanciersPage.FinanciersPageState.CreateFinancier | app/financiers/page.tsx:12-31 | creating appends one financier built from every form field, with the fresh id and both dates set to the creation time |
| FinanciersPage.FinanciersPageState.UpdateFinancier | app/financiers/page.tsx:33-40 | updating sets the list to its patched rewrite |
| FinanciersPage.FinanciersPageState.DeleteFinancier | app/financiers/page.tsx:42-45 | deleting sets the list to the financiers whose id differs |
| FinancierManagementTable.FilteredFinanciers | components/admin/financier-management-table.tsx:34-39 | a financier is shown exactly when their name, email or contact person contains the search term, ignoring case; the shown financiers keep their order; every copy of a kept record stays, as with `filter` |
| FinancierManagementTable.TrimAll | components/admin/financier-management-table.tsx:58 | every comma-separated piece is trimmed, in order |
| FinancierManagementTable.ParseSpecializations | components/admin/financier-management-table.tsx:58 | the typed specialisations give at least one entry, each free of commas and of white space at either end |
| FinancierManagementTable.EmptyInputGivesOneEmptyEntry | components/admin/financier-management-table.tsx:58 | an empty specialisations field gives the list holding one empty entry, not an empty list |
| FinancierManagementTable.Spaced | components/admin/financier-management-table.tsx:381 | every entry gains one leading space |
| FinancierManagementTable.JoinCommaSpace | components/admin/financier-management-table.tsx:381 | joining with ", " is joining with "," after a space is put before every entry but the first |
| FinancierManagementTable.PrefillSpecializations | components/admin/financier-management-table.tsx:379-381 | the edit dialog shows the specialisations joined by ", "; ParsePrefillRoundTrip reads them back |
| FinancierManagementTable.ParsePrefillRoundTrip | components/admin/financier-management-table.tsx:84 | reading back the edit dialog's prefill gives the original list, for a non-empty list of trimmed entries without commas |
| FinancierManagementTable.ShownSpecializations | components/admin/financier-management-table.tsx:247 | a row shows the first two specialisations, or all of them when there are fewer |
| FinancierManagementTable.OverflowBadge | components/admin/financier-management-table.tsx:252-254 | the "+n" badge appears exactly when there are more than two specialisations |
| FinancierManagementTable.BadgesAccountForAll | components/admin/financier-management-table.tsx:247-254 | the shown badges and the overflow count together account for every specialisation |
| FinancierManagementTable.StatusBadgesDistinct | components/admin/financier-management-table.tsx:92-100 | active, inactive and suspended get the default, secondary and destructive badges, and an unknown status gets the secondary one |
| FinancierManagementTable.StatusBadgeVariant | components/admin/financier-management-table.tsx:92-100 | "active" gets the default badge, "suspended" the destructive one, any other status the secondary one |
| FinancierManagementTable.FormPayload | components/admin/financier-management-table.tsx:45-59 | the dialogs pass every field the page's create handler needs and no id or dates; the specialisations are the parsed input |
| FinancierManagementTable.EditKeepsSpecializations | components/admin/financier-management-table.tsx:71-87 | saving the edit dialog with its prefill untouched keeps a financier's specialisations, id and creation date |
| FinancierManagementTable.FinancierTableState.constructor | components/admin/financier-management-table.tsx:30-32 | no financier is selected and both dialogs are closed |
| FinancierManagementTable.FinancierTableState.OpenEdit | components/admin/financier-management-table.tsx:265-266 | the edit button selects the row's financier and opens the edit dialog |
| FinancierManagementTable.FinancierTableState.HandleCreateSubmit | components/admin/financier-management-table.tsx:41-63 | the create dialog passes the form's payload on and closes |
| FinancierManagementTable.FinancierTableState.HandleEditSubmit | components/admin/financier-management-table.tsx:65-90 | with no selection nothing is passed on; otherwise the update call carries the selected id and the form's payload, and the dialog closes with the selection cleared |
| SystemPage.NewSetting | app/system/page.tsx:21-35 | a created setting is stamped with the creation time and "Admin User" as its last editor |
| SystemPage.UpdatedSettings | app/system/page.tsx:12-19 | updating keeps the list's length and order; every setting with the id takes the new value, the time and "Admin User", and every other setting is kept |
| SystemPage.UpdateKeepsSettingIdentity | app/system/page.tsx:12-19 | an update never changes a setting's id, category, key, description or type, and an absent id changes nothing |
| SystemPage.SystemPageState.constructor | app/system/page.tsx:10 | the page starts on the given settings |
| SystemPage.SystemPageState.UpdateSetting | app/system/page.tsx:12-19 | updating sets the list to its rewrite with the new value |
| SystemPage.SystemPageState.CreateSetting | app/system/page.tsx:21-35 | creating appends one setting built from the dialog's fields |
| SystemSettingsTable.FilteredSettings | components/admin/system-settings-table.tsx:38-44 | a setting is shown exactly when its key or description contains the search term, ignoring case, and its category matches the selection ("all" matches any); the shown settings keep their order; every copy of a kept record stays, as with `filter` |
| SystemSettingsTable.AtMostOneRowEditing | components/admin/system-settings-table.tsx:221-245 | with distinct ids at most one row shows the inline editor, and a row shows its Edit button exactly when it is not being edited |
| SystemSettingsTable.CreatePayload | components/admin/system-settings-table.tsx:50-56 | the create dialog supplies every field the page's create handler reads |
| SystemSettingsTable.CreatedSettingMatchesForm | components/admin/system-settings-table.tsx:46-60 | a setting created through the dialog carries exactly the typed category, key, value, description and type |
| SystemSettingsTable.SettingsEditor.constructor | components/admin/system-settings-table.tsx:32-34 | no row is being edited, the edit value is empty and the create dialog is closed |
| SystemSettingsTable.SettingsEditor.HandleEdit | components/admin/system-settings-table.tsx:62-65 | editing a row starts from the row's current value |
| SystemSettingsTable.SettingsEditor.EnterValue | components/admin/system-settings-table.tsx:223 | typing changes only the edit value |
| SystemSettingsTable.SettingsEditor.HandleSave | components/admin/system-settings-table.tsx:67-71 | saving passes the row id and the typed value to the update handler, then closes the editor |
| SystemSettingsTable.SettingsEditor.HandleCancel | components/admin/system-settings-table.tsx:73-76 | cancelling closes the editor without an update |
| SystemSettingsTable.SettingsEditor.HandleCreateSubmit | components/admin/system-settings-table.tsx:46-60 | the create dialog passes its payload on and closes, leaving the inline editor alone |
| SystemSettingsTable.SaveWithoutTypingKeepsValue | components/admin/system-settings-table.tsx:62-71 | editing a row and saving without typing stores the row's own value back |
| ApplicationReviewTable.LexLessAsymmetric | components/financier/application-review-table.tsx:48 | the client-name order never puts two names before each other |
| ApplicationReviewTable.LexLessTotal | components/financier/application-review-table.tsx:48 | of two different client names one always sorts before the other |
| ApplicationReviewTable.BeforeAsymmetric | components/financier/application-review-table.tsx:37-52 | every sort mode's comparator is a strict order, so the sorted list is well defined |
| ApplicationReviewTable.FilteredApplications | components/financier/application-review-table.tsx:24-55 | the sorted rows are a rearrangement of the filtered ones: an application is shown exactly when its client name, purpose or id contains the search term, ignoring case, and its status matches the filter ("all" matches any) |
| ApplicationReviewTable.FilteredApplicationsOrdered | components/financier/application-review-table.tsx:37-52 | between neighbouring rows, date-desc and date-asc order by creation time, amount-desc and amount-asc by amount, and client by client name |
| ApplicationReviewTable.UnknownSortKeepsOrder | components/financier/application-review-table.tsx:49-50 | an unknown sort mode keeps the filtered rows in list order |
| ApplicationReviewTable.DefaultFiltersListAll | components/financier/application-review-table.tsx:20-34 | with an empty search and the "all" filter every application is shown exactly once, in any sort mode |
| ApplicationReviewTable.StatusCounts | components/financier/application-review-table.tsx:57-65 | the count recorded for every status name is the number of applications carrying it, and only status names appear as keys |
| ApplicationReviewTable.StatusCardsConsistent | components/financier/application-review-table.tsx:57-85 | the under-review and approved cards count the applications in those states, and the status counts account for every application |
| ApplicationReviewTable.RowsAddUpToTotalValue | components/financier/application-review-table.tsx:92 | with the default filters the amounts of the shown rows add up to the total-value card in every sort mode |
| ApplicationReviewTable.TotalValue | components/financier/application-review-table.tsx:92-94 | the "Total Value" card adds up the amounts of all applications, whatever the filter |
| ReviewsPage.PendingApplications | app/reviews/page.tsx:32-34 | the list holds exactly the applications whose status is written "under_review" or "pending", in order; every copy of a kept record stays, as with `filter` |
| ReviewsPage.NothingNeedsReview | app/reviews/page.tsx:32-34 | no application status is written either way, so the list of applications to review is always empty |
| ReviewsPage.FilteredApplications | app/reviews/page.tsx:36-42 | the shown applications are the pending ones, in order, whose client name or business name contains the search term, ignoring case, and whose status matches the filter ("all" matches any); every copy of a kept record stays, as with `filter` |
| ReviewsPage.DefaultFiltersListAllPending | app/reviews/page.tsx:36-42 | with an empty search and the "all" filter every pending application is shown |
| ReviewsPage.ReviewsPageState.constructor | app/reviews/page.tsx:25-29 | nothing is selected, the comment is empty and no review is running |
| ReviewsPage.ReviewsPageState.OpenReview | app/reviews/page.tsx:141 | the Review button selects the application and keeps the typed comment |
| ReviewsPage.ReviewsPageState.EnterComment | app/reviews/page.tsx:180 | typing changes only the comment |
| ReviewsPage.ReviewsPageState.HandleReview | app/reviews/page.tsx:44-54 | a review records the application id, the action and the comment typed so far, then clears the selection and the comment and ends loading |
| ClientsPage.ClientNames | app/clients/page.tsx:24 | the client names are exactly the names that occur on some application, each listed once, in the order in which the names first occur |
| ClientsPage.ReplaceFirst | app/clients/page.tsx:31 | replacing a character with a string pattern changes only its first occurrence, and nothing when it does not occur |
| ClientsPage.Email | app/clients/page.tsx:31 | the address is the name lower-cased, with its first space (if any) turned into a dot, followed by "@email.com"; every other character of the name is kept in place |
| ClientsPage.EmailReplacesFirstSpaceOnly | app/clients/page.tsx:31 | a space of the name becomes the dot when it is the first space and stays a space otherwise |
| ClientsPage.EmailOfFullName | app/clients/page.tsx:31 | a first and a last name without spaces give the lower-cased first name, a dot, the lower-cased last name and "@email.com" |
| ClientsPage.FirstOccurrenceBefore | app/clients/page.tsx:31 | the first occurrence of a character comes no later than any of its occurrences |
| ClientsPage.ReplaceFirstAt | app/clients/page.tsx:31 | replacing the first occurrence keeps the length and changes only the character at that position |
| ClientsPage.LowerKeepsSpaces | app/clients/page.tsx:31 | lower-casing keeps the position of the first space |
| ClientsPage.BusinessNameOf | app/clients/page.tsx:33 | the business name shown is never empty: it is the first application's non-empty business name, or "N/A" |
| ClientsPage.ClientIdsDistinct | app/clients/page.tsx:29 | the ids `client-1`, `client-2`, ... never repeat |
| ClientsPage.MakeClient | app/clients/page.tsx:25-42 | a client record holds that name's applications and claims; total loans counts the applications, active loans the approved ones, the total amount adds their amounts, pending claims counts the pending ones; the status is "active" exactly when some application is approved and "inactive" otherwise |
| ClientsPage.Clients | app/clients/page.tsx:24-43 | there is one client record per distinct client name |
| ClientsPage.ClientAt | app/clients/page.tsx:24-34 | the k-th record belongs to the k-th distinct name, has id `client-(k+1)` and counts that name's applications |
| ClientsPage.EveryClientListed | app/clients/page.tsx:24 | every application's client appears in the client list |
| ClientsPage.ClientsDistinct | app/clients/page.tsx:24-30 | two client records never share a name or an id |
| ClientsPage.EveryClientHasLoans | app/clients/page.tsx:25-34 | every listed client has at least one loan |
| ClientsPage.TotalLoansOfNames | app/clients/page.tsx:25-34 | the loans of a list of client records add up to the number of applications carrying their names |
| ClientsPage.TotalLoansCoverApplications | app/clients/page.tsx:24-34 | the clients' loan totals add up to the number of applications: every application is counted once |
| ClientsPage.FilteredClients | app/clients/page.tsx:50-56 | a client is shown exactly when their name or business name contains the search term, ignoring case, and their status matches the filter ("all" matches any); the shown clients keep their order; every copy of a kept record stays, as with `filter` |
| ClientsPage.StatusFiltersPartition | app/clients/page.tsx:38-56 | every client the "all" filter shows is shown by the "active" filter or by the "inactive" one, and conversely |
| FileIcon.Extension | components/documents/document-library.tsx:78 | the extension is the lower-cased last piece after a dot: it holds no dot and no upper-case letter |
| FileIcon.FileIcon | components/documents/document-library.tsx:77-95 | the PDF icon exactly for "pdf", the document icon exactly for "doc" and "docx", the spreadsheet icon exactly for "xls" and "xlsx", the image icon exactly for "jpg", "jpeg" and "png", and the generic icon otherwise |
| FileIcon.ExtensionAfterLastDot | components/documents/document-viewer.tsx:54 | a name ending in a dot and a dot-free suffix has the lower-cased suffix as its extension, whatever comes before |
| FileIcon.UpperCaseExtension | components/documents/document-viewer.tsx:53-71 | "report.PDF" gets the PDF icon: the extension is compared in lower case |
| FileIcon.OnlyLastExtensionCounts | components/documents/document-viewer.tsx:53-71 | "archive.pdf.zip" gets the generic icon: only the last extension counts |
| DocumentViewer.SubmitNeedsReasonToReject | components/documents/document-viewer.tsx:224 | a rejection can be submitted exactly when not loading and the comments hold a character that is not white space; an approval exactly when not loading |
| DocumentViewer.ReviewControlsShown | components/documents/document-viewer.tsx:169 | the approve and reject choices show to a reviewer on a pending document only |
| DocumentViewer.SubmitDisabled | components/documents/document-viewer.tsx:224 | submit is disabled while loading and for a rejection whose reason is blank after trimming |
| DocumentViewer.SubmitCall | components/documents/document-viewer.tsx:34-45 | a callback is called exactly when a document is shown, an action is chosen and its callback is provided; an approval calls the approve callback and a rejection the reject callback, with the document's id and the comments as the approval's comments or the rejection's reason |
| DocumentViewer.DocumentViewerState.constructor | components/documents/document-viewer.tsx:31-32 | no action is chosen and the comments are empty |
| DocumentViewer.DocumentViewerState.ChooseAction | components/documents/document-viewer.tsx:179-187 | choosing an action keeps the comments |
| DocumentViewer.DocumentViewerState.EnterComments | components/documents/document-viewer.tsx:208 | typing changes only the comments |
| DocumentViewer.DocumentViewerState.HandleSubmitReview | components/documents/document-viewer.tsx:34-45 | without a document or a chosen action nothing happens; otherwise the matching callback, if provided, gets the id and the comments, and action and comments are reset |
| DocumentViewer.DocumentViewerState.HandleClose | components/documents/document-viewer.tsx:47-51 | closing resets the action and the comments |
| DocumentLibrary.FilteredDocuments | components/documents/document-library.tsx:38-46 | a document is shown exactly when its name contains the search term, ignoring case, and its type and status match their filters ("all" matches any); the shown documents keep their order; every copy of a kept record stays, as with `filter` |
| DocumentLibrary.DefaultFiltersListAll | components/documents/document-library.tsx:31-46 | with the initial empty search and "all" filters every document is shown, in order |
| DocumentLibrary.DocumentTypes | components/documents/document-library.tsx:97 | the type filter offers exactly the types present among the documents, each once, in the order in which the types first occur |
| DocumentLibrary.EveryOfferedTypeListsSomething | components/documents/document-library.tsx:38-46 | choosing any offered type with an empty search shows at least one document |
| DocumentLibrary.DocumentLibraryState.constructor | components/documents/document-library.tsx:34-36 | no document is selected, the viewer is closed and no review is running |
| DocumentLibrary.DocumentLibraryState.HandleViewDocument | components/documents/document-library.tsx:48-51 | viewing selects the document and opens the viewer |
| DocumentLibrary.DocumentLibraryState.HandleApproveDocument | components/documents/document-library.tsx:53-63 | without an approve callback nothing happens; otherwise it gets the id and the comments, loading ends and the viewer closes with nothing selected |
| DocumentLibrary.DocumentLibraryState.HandleRejectDocument | components/documents/document-library.tsx:65-75 | without a reject callback nothing happens; otherwise it gets the id and the reason, loading ends and the viewer closes with nothing selected |
| DocumentLibrary.DocumentLibraryState.CloseViewer | components/documents/document-library.tsx:225-228 | closing the viewer clears the selection |
| DocumentLibrary.ViewerDecisionReachesPage | components/documents/document-library.tsx:229-231 | with the library's callbacks in place, a submitted approval reaches the library with the document's id and the typed comments, and a rejection with the typed reason |
| ApplicationDetailModal.SubmitCall | components/financier/application-detail-modal.tsx:39-52 | exactly one callback is called when an application is shown and an action is chosen, the one matching the action, with the application's id: approval with the comments, the training flag and the courses; rejection and change requests with the comments |
| ApplicationDetailModal.SubmitNeedsComment | components/financier/application-detail-modal.tsx:297 | submit is enabled exactly when an action is chosen, the comments hold a character that is not white space, and nothing is loading |
| ApplicationDetailModal.SubmitEnabled | components/financier/application-detail-modal.tsx:297 | submit is enabled once an action is chosen, the comments are not blank after trimming, and nothing is loading |
| ApplicationDetailModal.ToggledCourses | components/financier/application-detail-modal.tsx:264-269 | checking a course appends its id; unchecking removes every occurrence of it and keeps every other id |
| ApplicationDetailModal.CheckThenUncheckRestores | components/financier/application-detail-modal.tsx:264-269 | checking and then unchecking a course that was not selected restores the selection |
| ApplicationDetailModal.DetailModalState.constructor | components/financier/application-detail-modal.tsx:34-37 | no action, empty comments, no training and no courses |
| ApplicationDetailModal.DetailModalState.ChooseAction | components/financier/application-detail-modal.tsx:186-203 | the action buttons set only the chosen action |
| ApplicationDetailModal.DetailModalState.EnterComments | components/financier/application-detail-modal.tsx:232 | typing changes only the comments |
| ApplicationDetailModal.DetailModalState.SetRecommendTraining | components/financier/application-detail-modal.tsx:250 | the switch changes only the training flag |
| ApplicationDetailModal.DetailModalState.ToggleCourse | components/financier/application-detail-modal.tsx:264-269 | a course checkbox changes only the selected courses, as the toggle rule says |
| ApplicationDetailModal.DetailModalState.HandleSubmitReview | components/financier/application-detail-modal.tsx:39-59 | the dispatched call is determined by the state before the submit; after a dispatch the dialog is reset, and without an application or action nothing changes |
| ApplicationDetailModal.DetailModalState.HandleClose | components/financier/application-detail-modal.tsx:61-67 | closing resets action, comments, training flag and courses |
| LoanApplicationForm.MatchesPositionwise | components/forms/loan-application-form.tsx:23 | an anchored pattern of literal characters and digit classes matches a string exactly when the lengths agree and every character matches its atom |
| LoanApplicationForm.KycFormat | components/forms/loan-application-form.tsx:20-23 | a KYC number is accepted exactly when it is "KYC" followed by nine decimal digits and nothing else |
| LoanApplicationForm.LoanFormValid | components/forms/loan-application-form.tsx:18-40 | the schema: a KYC number in the KYC pattern, an amount from 1,000 to 1,000,000, a purpose and an address of at least ten characters, a phone number of at least ten, non-empty names and types, non-negative figures, and an accepted e-mail |
| LoanApplicationForm.ValidFormShape | components/forms/loan-application-form.tsx:18-40 | a form that passes the schema has a twelve-character KYC number "KYC" plus nine digits, an amount in range, and figures for which the cash warning means expenses exceed revenue |
| LoanApplicationForm.DefaultValuesRejected | components/forms/loan-application-form.tsx:56-70 | the form's default values do not pass the schema, whatever the e-mail check says |
| LoanApplicationForm.CashRatioWarning | components/forms/loan-application-form.tsx:79-80 | a fifth of the expenses over the revenue exceeds 0.2, with a zero revenue read as the JavaScript division gives it (Infinity above, NaN below) |
| LoanApplicationForm.CashRatioWarningMeansExpensesExceedRevenue | components/forms/loan-application-form.tsx:79-84 | for non-negative revenue and expenses the cash-expenditure warning is raised exactly when expenses exceed revenue |
| LoanApplicationForm.Toggle | components/forms/loan-application-form.tsx:73-75 | toggling opens a closed section and closes an open one, leaving every other section as it was |
| LoanApplicationForm.ToggleTwiceRestores | components/forms/loan-application-form.tsx:73-75 | opening a closed section and closing it again restores the list of open sections |
| LoanApplicationForm.LoanApplicationFormState.constructor | components/forms/loan-application-form.tsx:50-52 | the form starts with the basic section open, no documents and no warning |
| LoanApplicationForm.LoanApplicationFormState.ToggleSection | components/forms/loan-application-form.tsx:73-75 | a section header changes only the open sections, as the toggle rule says |
| LoanApplicationForm.LoanApplicationFormState.HandleDocumentUpload | components/forms/loan-application-form.tsx:89-91 | uploaded files are appended after the earlier ones |
| LoanApplicationForm.LoanApplicationFormState.HandleFormSubmit | components/forms/loan-application-form.tsx:77-87 | a valid form is always submitted, with the documents uploaded so far; the warning is set exactly when expenses exceed revenue |
| FileUpload.ValidFiles | components/ui/file-upload.tsx:45-48 | the accepted files are exactly those of at most the size limit in megabytes, in input order; every copy of a kept record stays, as with `filter` |
| FileUpload.NewEntries | components/ui/file-upload.tsx:51-56 | one new entry per accepted file, in order, each at progress 0 and uploading under a fresh id |
| FileUpload.Advance | components/ui/file-upload.tsx:73-77 | one tick adds ten points of progress up to 100 and marks the entry completed at 100 |
| FileUpload.Ticked | components/ui/file-upload.tsx:70-81 | a tick advances the entries with the given id and leaves the others as they are, in order |
| FileUpload.AdvanceKeepsWellFormed | components/ui/file-upload.tsx:73-77 | a tick keeps progress within 0..100 in steps of ten, complete exactly at 100; it never lowers the progress and leaves a completed entry alone |
| FileUpload.ProgressAfterTicks | components/ui/file-upload.tsx:68-86 | from a fresh entry n ticks give progress 10n capped at 100, and the upload completes exactly from the tenth tick on |
| FileUpload.FileUploadState.constructor | components/ui/file-upload.tsx:37 | the control starts with no files |
| FileUpload.FileUploadState.HandleFileSelect | components/ui/file-upload.tsx:41-66 | with no selection, or no file within the limit, neither the list nor the callback is touched; otherwise the accepted files are appended as new entries and handed to the callback |
| FileUpload.FileUploadState.Tick | components/ui/file-upload.tsx:70-81 | a tick sets the list to its ticked rewrite and keeps every entry well formed |
| FileUpload.FileUploadState.RemoveFile | components/ui/file-upload.tsx:88-90 | removing drops exactly the entries with the id and keeps the rest in order |

## Left out

- JSX, styling, icons, badge colours and the presentation-only components (sidebar, stepper, status badge, recent activity, analytics, loading screens, layout navigation).
- Timers: `setTimeout` and `setInterval` waits are left out. Each handler is one atomic step, and each upload tick is an explicit `Tick` call, so interleavings of ticks are not modelled.
- `console.log`: the reviews-page review request and the reconciliation notes and reasons are only logged, so the model keeps them only as the values a handler would pass on.
- Clocks and randomness: `Date.now()` ids, `new Date()` timestamps, the random client phone numbers and join dates, and the random upload ids are all parameters.
- Floating point: amounts are exact reals, so rounding, NaN and `toFixed`/`toLocaleString` formatting are not modelled. A division by zero is modelled where a comparison depends on it.
- `localeCompare` is modelled as lexicographic order by character code.
- Lower-casing and `trim` cover ASCII letters and ASCII white space only.
- The zod e-mail check is the boolean parameter `emailAccepted`. String-to-number parsing is not modelled: the form holds numbers.
- `components/expenditure/excel-upload.tsx` is not part of this model (progress timers, a stubbed parser, a file download). The rows it hands to the page are given as `UploadRow` values.
- `app/loans/apply/page.tsx`, `app/applications/page.tsx` and `components/admin/system-analytics.tsx` are not part of this model: they only wait, log, close dialogs or draw charts.
- The clients page's selected-client dialog is not modelled; it only displays a client.
- The "Available Credit" figure of the dashboard is display only and is not modelled.
- `Array.prototype.sort` is modelled as a stable sort of the filtered copy. Any stable sort gives the same result.
- The fixtures `mockFinanciers` and `mockSystemSettings` are not part of this model, so every property is stated for any starting list.
- Fields that pages read but `lib/types.ts` does not declare (`businessName` on applications, `clientName` on claims) are optional fields. The reviews page's `submittedAt`, `priority` and claim `category` only feed the display and are not modelled.
- ReviewsPage.FilteredApplications: an application without a business name never matches a search term on that field. Where the client name does not match, the source would throw on such an application instead. (The pending list is always empty anyway, see `ReviewsPage.NothingNeedsReview`.)
- There is no status or stage transition function, and claim approval does not update spent or remaining amounts. The source has neither, and the model adds neither.
- The claim form's schema has no remaining-budget check: an over-budget claim only disables the submit button. The model follows that (`ExpenseClaimModal.SchemaIgnoresBudget`).
