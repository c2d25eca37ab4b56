# Fynace ledger and payment reconciliation, in Dafny

Fynace is a personal-finance tracker. Each user's transactions live in a Google spreadsheet,
and payments through Mercado Pago decide whether the user's plan is `free` or `premium`. This
project models the core of the backend and proves properties of it:

- **Spreadsheet store.** Spreadsheets map tab names to rows of text cells. A provisioned sheet
  has tabs `Despesas`, `Ganhos` and `Resumo`, with a fixed header in the first two. The five
  remote calls (create, batch add of tabs, header update, append, get) are methods of an
  in-memory `Backend` class (module `Sheets`). Provisioning is shared by the service
  (`SheetsService`) and the legacy helpers (`LegacySheets`).
- **Row codec.** A draft transaction becomes the row
  `[date, description, category, amount, capitalised type]`. Read rows are decoded back into
  transaction records, tolerating short rows and non-numeric amounts (`Transactions`).
- **Aggregation.** `get_summary` folds the amount column of both tabs. `get_category_breakdown`
  groups by category, in first-seen order, and keeps the positive totals (`SheetsService`).
- **Transaction service.** Validation order, routing by type, listing, and the category, type
  and date-range filters (`Transactions`).
- **Input utilities.** `sanitize_input`, `mask_sensitive_data`, `validate_email`, and the two
  dictionary validators (`Security`, `Validation`).
- **Payment reconciliation.**
  - The webhook path (`Webhook`) and the polled-status path (`Pagamentos`) both map a payment
    status to a plan.
  - Both read the payment's owner from the prefix of `external_reference` before its first dash.
  - Both update the `user_profiles` row of that owner (`PaymentRecords`).

Amounts are exact decimals (`Decimals`). Untyped JSON payloads are values of `PyValues.Value`
with Python truthiness, and `bool` counts as an `int`.

Four behaviours of the code that are easy to misread, modelled as written:

- `create_transaction` stamps the date **before** validating, not after.
- The webhook **updates** the owner's row and never inserts one. It is not an upsert.
- `append_transaction` turns an `HttpError` into `False`. Only other exceptions propagate.
- The "type in {expense, income}" check can never fail, because the type is an enum.

## Model

| member | source | states |
|---|---|---|
| Models.TransactionTypeOf | backend/models/transaction.py:7-9 | exactly "despesa" and "ganho" name an enum member, and the member's value is that text |
| Models.TransactionTypeMembers | backend/models/transaction.py:7-9 | the enum has exactly two members with distinct values that name them back |
| Sheets.Window | backend/services/google_sheets_service.py:89-93 | a range `A<skip+1>:E` holds the rows after the first `skip`, each cut to columns A to E, nothing else |
| Sheets.WindowAppend | backend/services/google_sheets_service.py:72-78 | appending a row after the skipped rows appends its A to E cells to the window |
| Sheets.Backend.Create | backend/services/google_sheets_service.py:30-34 | a healthy call adds an empty spreadsheet under a fresh id; a faulty one changes nothing and raises |
| Sheets.Backend.AddSheets | backend/services/google_sheets_service.py:37-46 | the batch succeeds iff the spreadsheet exists and the names are new and distinct; it adds exactly those empty tabs and keeps the others |
| Sheets.Backend.UpdateFirstRow | backend/services/google_sheets_service.py:50-55 | row 1 of an existing tab becomes the header and the other rows stay; a missing tab or fault changes nothing |
| Sheets.Backend.Append | backend/services/google_sheets_service.py:72-78 | one row goes after the last row of an existing tab and nothing else changes; otherwise an error and no change |
| Sheets.Backend.Get | backend/services/google_sheets_service.py:89-93 | a healthy read of an existing tab is its window; a fault or a missing tab raises |
| Sheets.Provision | backend/services/google_sheets_service.py:30-55 | success iff none of the four calls fails, leaving a fresh spreadsheet with the three tabs and both headers; a failure at call k leaves exactly the earlier calls' effects |
| LegacySheets.CreateUserSheet | backend/legacy/gsheet.py:19-49 | the provisioning sequence under the given title: success iff none of the four calls fails, with a fresh spreadsheet; a failing first call changes nothing, and a failure at call 2, 3 or 4 leaves the partial spreadsheet of the earlier calls; every error is raised to the caller |
| LegacySheets.CellText | backend/legacy/gsheet.py:55-61 | a list or object is refused and every other value gets a cell: text is kept, null becomes empty, and a non-negative float is read back as its value |
| LegacySheets.CellsOf | backend/legacy/gsheet.py:55-61 | the cells exist iff no value is a list or object, one cell per value |
| LegacySheets.AppendRow | backend/legacy/gsheet.py:52-64 | success iff no fault, the tab exists and every value is storable, appending exactly that row; every failure is raised and changes nothing |
| LegacySheets.ReadRange | backend/legacy/gsheet.py:67-77 | a healthy read of an existing tab returns all its rows, header included, cut to A to E; every failure raises |
| LegacySheets.ReadRangeAfterProvision | backend/legacy/gsheet.py:67-74 | a freshly provisioned spreadsheet reads back as one header row in Despesas and Ganhos and nothing in Resumo |
| LegacySheets.TabFor | backend/legacy/gsheet.py:82 | a type whose lower case is "despesa" goes to Despesas, any other to Ganhos |
| LegacySheets.SavedRow | backend/legacy/gsheet.py:82-89 | a missing `tipo` raises KeyError, a non-text one AttributeError; otherwise the tab and the five fetched values in column order |
| LegacySheets.SalvarNoGoogleSheets | backend/legacy/gsheet.py:79-94 | the saved row is appended to its tab, or the exception is re-raised with the spreadsheet unchanged |
| SheetsService.SpreadsheetTitle | backend/services/google_sheets_service.py:29 | the title is the fixed prefix followed by the longest prefix of the email without "@" |
| SheetsService.TabOf | backend/services/google_sheets_service.py:63 | expenses go to Despesas and incomes to Ganhos, and the two tabs differ |
| SheetsService.TransactionRow | backend/services/google_sheets_service.py:64-70 | five cells: the draft's date (or now) in ISO form, description, category, amount text and capitalised type |
| SheetsService.WindowSkipsHeader | backend/services/google_sheets_service.py:86-93 | the default range `A2:E` of a tab is exactly its rows after the header |
| SheetsService.Contribution | backend/services/google_sheets_service.py:103-104 | a row adds a non-negative amount, and zero unless its fourth cell is a digit string with at most one dot |
| SheetsService.SumAmounts | backend/services/google_sheets_service.py:103-104 | the total of the counted amounts of a run of rows, never negative |
| SheetsService.SumAmountsAppend | backend/services/google_sheets_service.py:103-104 | the total over two runs of rows is the sum of their totals |
| SheetsService.Summarize | backend/services/google_sheets_service.py:103-110 | both totals are non-negative and the balance is incomes minus expenses |
| SheetsService.AppendCountedRow | backend/services/google_sheets_service.py:103-110 | one more counted row raises its tab's total and moves the balance by exactly its amount |
| SheetsService.AppendUncountedRow | backend/services/google_sheets_service.py:103-104 | a short or non-numeric row leaves the summary unchanged |
| SheetsService.NegativeAmountNotCounted | backend/services/google_sheets_service.py:103 | a negative amount is written with a minus sign, so the summary skips it |
| SheetsService.CountedTransactionRow | backend/services/google_sheets_service.py:64-70 | the row of a non-negative draft is counted at exactly the draft's amount |
| SheetsService.SummaryAfterIncomeAppend | backend/services/google_sheets_service.py:98-110 | appending an income of v raises total income and the balance by v and leaves expenses unchanged |
| SheetsService.SummaryAfterExpenseAppend | backend/services/google_sheets_service.py:98-110 | appending an expense of v raises total expense by v and lowers the balance by v |
| SheetsService.ContributionOfListed | backend/services/google_sheets_service.py:121-123 | the breakdown and the summary read the same amount off every row |
| SheetsService.Categories | backend/services/google_sheets_service.py:120-135 | the dict's keys in insertion order, without repeats |
| SheetsService.CategoriesFirstSeen | backend/services/google_sheets_service.py:124-125 | a category is a key iff some row carries it, and keys appear in first-seen order |
| SheetsService.CategoriesContain | backend/services/google_sheets_service.py:120-125 | every row with at least four cells puts its category among the keys |
| SheetsService.CategoriesOnlyListed | backend/services/google_sheets_service.py:120-125 | every key comes from a row with at least four cells |
| SheetsService.CategoriesPrefix | backend/services/google_sheets_service.py:129-135 | the income loop only appends keys after those of the expense loop |
| SheetsService.SumCatPositive | backend/services/google_sheets_service.py:140 | a category with a positive total is a key |
| SheetsService.SumCatUnseen | backend/services/google_sheets_service.py:124-126 | a category that is not a key totals zero |
| SheetsService.Breakdown | backend/services/google_sheets_service.py:112-147 | the reference list of the breakdown: the entries of each category in first-seen order; `BreakdownEntries`, `BreakdownOrder` and `BreakdownTotals` state what it holds |
| SheetsService.BreakdownEntries | backend/services/google_sheets_service.py:137-145 | an entry is listed iff it is (category, "Despesa" or "Ganho", that category's total in that tab) with a positive total |
| SheetsService.BreakdownOrder | backend/services/google_sheets_service.py:138-139 | entries follow first-seen category order, with "Despesa" before "Ganho" within a category |
| SheetsService.BreakdownTotals | backend/services/google_sheets_service.py:117-145 | the breakdown's Despesa entries sum to the summary's total expense, and its Ganho entries to total income |
| SheetsService.TallyExpenses | backend/services/google_sheets_service.py:119-126 | the expense loop inserts the keys in first-seen order, each holding its expense total |
| SheetsService.TallyIncomes | backend/services/google_sheets_service.py:128-135 | the income loop extends the keys and fills in each category's income total |
| SheetsService.TallyExpenseRow | backend/services/google_sheets_service.py:120-126 | one more expense row keeps the loop's invariant: the keys are the categories of the rows so far, in first-seen order, each holding its expense total over them |
| SheetsService.TallyIncomeRow | backend/services/google_sheets_service.py:129-135 | one more income row keeps the loop's invariant: the keys extend those of the expenses in first-seen order, each holding its expense total and its income total over the rows so far |
| SheetsService.ListEntries | backend/services/google_sheets_service.py:137-145 | the nested loop lists exactly the reference breakdown |
| SheetsService.GoogleSheetsService.CreateUserSpreadsheet | backend/services/google_sheets_service.py:27-58 | provisioning under the title derived from the email: success iff none of the four calls fails; a failing first call changes nothing, and a failure at call 2, 3 or 4 leaves the partial spreadsheet of the earlier calls |
| SheetsService.GoogleSheetsService.AppendTransaction | backend/services/google_sheets_service.py:60-84 | true iff the row was appended to the tab of the type; HttpError or a missing tab gives false with no change; other errors propagate |
| SheetsService.GoogleSheetsService.ReadTransactions | backend/services/google_sheets_service.py:86-96 | the rows after the header, or [] on HttpError or a missing tab, or the propagated error |
| SheetsService.GoogleSheetsService.ReadSkipsHeader | backend/services/google_sheets_service.py:86-93 | reading a tab that holds the header and rows gives back exactly those rows |
| SheetsService.GoogleSheetsService.GetSummary | backend/services/google_sheets_service.py:98-110 | the totals of the two reads, failing only when a read raises something other than HttpError |
| SheetsService.GoogleSheetsService.GetCategoryBreakdown | backend/services/google_sheets_service.py:112-147 | the reference breakdown of the two reads, or the first read's error |
| Transactions.ValidateTransaction | backend/services/transaction_service.py:41-60 | each rejection holds exactly when its check is the first to fail, in source order; acceptance iff description and category are non-blank and the value is positive |
| Transactions.TypeCheckUnreachable | backend/services/transaction_service.py:52-54 | the type check never rejects, since the type is an enum |
| Transactions.Stamped | backend/services/transaction_service.py:21-22 | the draft's date is kept when present and set to now when absent |
| Transactions.DecodeRow | backend/services/transaction_service.py:73-79 | the first three cells are kept, the type is the tab's, and the amount is the cell's number or 0 |
| Transactions.Decoded | backend/services/transaction_service.py:71-79 | no more records than rows, all tagged with the tab's type |
| Transactions.DecodedMembers | backend/services/transaction_service.py:71-79 | every row with five cells yields its record, placed after the records of the earlier rows and before those of the later ones |
| Transactions.DecodedFrom | backend/services/transaction_service.py:71-79 | every record comes from a row with at least five cells |
| Transactions.AllTransactions | backend/services/transaction_service.py:62-92 | every record is tagged "despesa" or "ganho", and all expenses come before all incomes |
| Transactions.RowRoundTrip | backend/services/transaction_service.py:73-79 | decoding the row of a non-negative draft gives back its date text, description, category, amount and type |
| Transactions.AppendedIsListed | backend/services/transaction_service.py:62-92 | after an append, the listing is the old one with the new record at the end of its type's run |
| Transactions.ByCategory | backend/services/transaction_service.py:97-100 | a subsequence that keeps every copy of each record whose category matches when both are lowercased, and no other record |
| Transactions.ByType | backend/services/transaction_service.py:102-105 | a subsequence that keeps every copy of each record of the type, and no other record |
| Transactions.ByTypePartitions | backend/services/transaction_service.py:102-105 | filtering by expense gives the expense tab's records and by income the income tab's; together they are the whole listing |
| Transactions.ParseDate | backend/services/transaction_service.py:126-137 | the ISO parse with "Z" read as "+00:00" when it succeeds, otherwise the `%Y-%m-%d` parse |
| Transactions.DecodeRows | backend/services/transaction_service.py:71-79 | the loop yields exactly the decoded records |
| Transactions.InRange | backend/services/transaction_service.py:113-121 | the test of the date filter: a non-empty date that parses and lies between the bounds, compared only with dates of the same kind |
| Transactions.FilterInRange | backend/services/transaction_service.py:110-124 | the loop keeps, in order and with every copy, exactly the records with a parseable date between the bounds and comparable to them |
| Transactions.TransactionService.CreateTransaction | backend/services/transaction_service.py:17-39 | true iff the stamped draft passes validation and its row was appended; the spreadsheet is unchanged otherwise |
| Transactions.TransactionService.GetAllTransactions | backend/services/transaction_service.py:62-95 | the records of both reads, or [] when either read raises |
| Transactions.TransactionService.GetTransactionsByCategory | backend/services/transaction_service.py:97-100 | the category filter over the listing |
| Transactions.TransactionService.GetTransactionsByType | backend/services/transaction_service.py:102-105 | the type filter over the listing |
| Transactions.TransactionService.GetTransactionsByDateRange | backend/services/transaction_service.py:107-124 | the date-range filter over the listing |
| Security.SanitizeInput | backend/utils/security.py:67-74 | the six chained `replace` calls in the source's order; `SanitizeIsEscapeMap` proves it escapes each character on its own |
| Security.Escape | backend/utils/security.py:71-73 | each of the six characters becomes its entity and any other character stays |
| Security.SanitizeIsEscapeMap | backend/utils/security.py:67-74 | the six chained replacements escape every character independently |
| Security.SanitizedHasNoSpecials | backend/utils/security.py:67-74 | the output holds none of `< > " ' / \` |
| Security.SanitizeFixedPoints | backend/utils/security.py:67-74 | a text is unchanged iff it holds none of the six characters |
| Security.SanitizeIdempotent | backend/utils/security.py:67-74 | sanitizing twice is sanitizing once |
| Security.SliceTo | backend/utils/security.py:88 | Python's `s[:i]`, which is `s[..i]` for an in-range `i` |
| Security.SliceFrom | backend/utils/security.py:88 | Python's `s[i:]`, which is `s[i..]` for an in-range `i` |
| Security.MaskSensitiveData | backend/utils/security.py:83-88 | all stars when the text is at most twice the visible count, otherwise the first and last visible characters around stars; `MaskKeepsLength` and `MaskZeroDoubles` state its results |
| Security.MaskKeepsLength | backend/utils/security.py:83-88 | with at least one visible character, the length is kept; a short text is all stars, a longer one keeps its first and last v characters |
| Security.MaskZeroDoubles | backend/utils/security.py:83-88 | with no visible characters, `data[-0:]` is the whole text, so a non-empty text doubles |
| Security.EmailShapeIsLanguage | backend/utils/security.py:79-81 | the direct test accepts exactly the strings of the pattern's language |
| Security.ValidateEmail | backend/utils/security.py:76-81 | accepted iff the text, or the text minus one final newline, is in the pattern's language |
| Security.LanguageHasOneAt | backend/utils/security.py:79 | an address of the pattern holds exactly one "@" |
| Security.AcceptedEmailHasOneAt | backend/utils/security.py:76-81 | every accepted address holds exactly one "@" |
| Security.FirstMissing | backend/utils/security.py:117-119 | none iff all fields are present; otherwise a listed field that is absent |
| Security.FirstMissingIsFirst | backend/utils/security.py:117-119 | the field reported is absent and every field before it is present |
| Security.RequiredFieldsPresent | backend/utils/security.py:115-119 | no field is missing iff all four keys are present |
| Security.ValidateTransactionData | backend/utils/security.py:112-141 | each check in order has its own message: the first missing field, then a non-positive or non-numeric value, then an unknown type, then an empty or blank description, then one holding a character `sanitize_input` escapes; AttributeError exactly when the earlier checks pass and the description is truthy but not text; success iff every check passes |
| Security.DescriptionVerdict | backend/utils/security.py:131-141 | "empty" iff the description is falsy or blank text; AttributeError iff it is truthy but not text; "unsafe" iff it is non-blank text holding a character `sanitize_input` escapes; acceptance iff non-blank text free of those characters |
| Security.CategoryValueIgnored | backend/utils/security.py:115-141 | the value under `categoria` never changes the verdict; only its presence matters |
| Security.ValidateUserData | backend/utils/security.py:143-150 | success iff the email is text the pattern accepts; a truthy non-text email raises TypeError; otherwise "Email inválido" |
| Validation.ValidateTransactionData | backend/utils/validation.py:8-31 | an HTTP 400 with its own detail for each check in order: the first missing field, a non-positive or non-numeric value, an unknown type, an empty or blank description; AttributeError exactly when the earlier checks pass and the description is truthy but not text; true iff every check passes |
| Validation.ValidatorsAgree | backend/utils/validation.py:8-31 | the HTTP validator rejects with the message the pair validator returns and raises where it raises; it accepts what the pair validator accepts, and more only for descriptions `sanitize_input` would change |
| PaymentRecords.OwnerOf | backend/payments/webhook.py:40 | the longest dash-free prefix of the reference, which is the whole reference when it has no dash |
| PaymentRecords.OwnerRoundTrip | backend/routes/pagamentos.py:105-107 | the owner read from `"{id}-{ref}"` is the id iff the id has no dash; otherwise it is the id's own prefix |
| PaymentRecords.DashedIdExample | backend/routes/pagamentos.py:105-107 | a dashed, UUID-like id is not read back as the owner |
| PaymentRecords.WithPayment | backend/payments/webhook.py:55-60 | only the matching row takes the new columns, no row is added, and the others are unchanged |
| PaymentRecords.WithPlan | backend/routes/pagamentos.py:118-122 | only the matching row gets the new plan and status, keeping its payment id; no row is added |
| PaymentRecords.ProfileStore.SetPayment | backend/payments/webhook.py:55-60 | the table becomes the three-column update of the matching row |
| PaymentRecords.ProfileStore.SetPlan | backend/routes/pagamentos.py:118-122 | the table becomes the plan-and-status update of the matching row |
| PaymentRecords.ProfileStore.Upsert | backend/routes/pagamentos.py:53-60 | the row of the user is created or replaced |
| Webhook.PaymentFor | backend/payments/webhook.py:18-31 | a falsy topic or resource is refused, a topic other than "payment" is unsupported, and otherwise the provider's record is returned when it exists |
| Webhook.WebhookPlan | backend/payments/webhook.py:46-52 | premium iff the status is "approved", free otherwise |
| Webhook.WebhookProfile | backend/payments/webhook.py:43-60 | the written status is the reported one (default "pending") and the id its text; premium iff approved |
| Webhook.WebhookRows | backend/payments/webhook.py:37-69 | a missing or empty reference is an error; otherwise only the owner's row changes and no row is added |
| Webhook.WebhookIdempotent | backend/payments/webhook.py:47-60 | delivering the same payment twice leaves the table as after once |
| Webhook.WebhookLatestWins | backend/payments/webhook.py:47-60 | of two payments of the same owner, the later one alone decides the owner's row |
| Webhook.ApprovedThenRefunded | backend/payments/webhook.py:43-60 | an approved payment of "U1-ref1" makes U1 premium, and the same payment reported refunded makes U1 free |
| Webhook.HandleWebhook | backend/payments/webhook.py:9-69 | every refusal leaves the table unchanged; otherwise the table is the owner's update |
| Pagamentos.InitiatedProfile | backend/routes/pagamentos.py:53-60 | a started payment writes plan free and status initiated, with the preference id or "" |
| Pagamentos.CriarPagamento | backend/routes/pagamentos.py:14-68 | an email mismatch is refused before any effect; the row is upserted as initiated before the response is built; the response echoes `"{id}-{ref}"`; no row becomes premium |
| Pagamentos.StartedPaymentOwned | backend/routes/pagamentos.py:104-107 | a payment started by a user passes that user's ownership test iff the user's id has no dash |
| Pagamentos.PolledPlan | backend/routes/pagamentos.py:114-115 | premium iff the status is "approved", free otherwise |
| Pagamentos.PlansAgree | backend/routes/pagamentos.py:115 | polling and the webhook map every status to the same plan |
| Pagamentos.GetPaymentStatus | backend/routes/pagamentos.py:87-129 | an unknown payment fails and a non-owner is forbidden, both with no change; otherwise only the plan and status of the caller's row change, and the report says so |
| Decimals.DecimalTextRoundTrip | backend/services/google_sheets_service.py:103 | a non-negative amount written as text is counted and read back as exactly its value |

## Left out

- Google API client: credentials, `build`, `get_service` and `.execute()` are not modelled. The remote spreadsheet store is the in-memory `Backend`.
- Transport errors: whether a remote call fails is a `Fault` parameter of each call. A missing spreadsheet or tab acts as an `HttpError`.
- The default `Sheet1` tab that `spreadsheets().create` adds is not modelled. A new spreadsheet starts with no tabs.
- `USER_ENTERED` re-parsing and locale formatting are not modelled. Cells are read back exactly as written.
- Only the default ranges of `read_transactions` (`A2:E`) and `read_range` (`A:E`) are modelled.
- Floating point: amounts are exact decimals. `float()` rounding, NaN and infinities are not modelled.
- Digit tests: only ASCII digits are modelled. Python's `isdigit` also accepts other Unicode digits.
- `lower` and `capitalize` follow Latin-1 case mapping only.
- Dates: dates, `datetime.now()`, `isoformat`, `fromisoformat` and `strptime` are abstract, supplied by a `Calendar` parameter. Comparing an aware with a naive date raises in Python; the model treats it as the exclusion that the `except` at backend/services/transaction_service.py:120-122 makes of it.
- `create_transaction` mutates the draft's `data` in place. The model returns the stamped draft as an out-parameter instead.
- `get_category_breakdown`: its three loops are separate helper methods, and the dict's insertion order is an explicit list of keys.
- Logging is not modelled, including the `email` argument of `salvar_no_google_sheets`, which only feeds a log line.
- HTTP status codes are not modelled, and errors are result values. The `except` blocks of backend/payments/webhook.py:71-76 and backend/routes/pagamentos.py:70-75, 131-136 re-raise through `status.HTTP_500_INTERNAL_ERROR`. Starlette has no such name, so in the source every such error surfaces as an AttributeError.
- Mercado Pago SDK:
  - The provider's payment records are a map from payment id to record.
  - `create_preference` is abstract. Its answer is a parameter, and the payment data sent to it (title, price, URLs) is not recorded.
- Supabase: `user_profiles` is a map from user id to the three payment columns. `created_at`, `updated_at` and the other columns are not modelled.
- Identity: the authenticated user's id is a text input. A user dict without an `id` is not modelled.
- Webhook payloads: a body that is not a JSON object, and a failing `request.json()`, are not modelled.
- Out of scope, being library calls: `hash_data`, `verify_hash`, `encrypt_data`, `decrypt_data`, `generate_secure_token`, `SecurityMiddleware` and `handle_error`.
- The routing rule of backend/routes/financas.py:17 differs from backend/legacy/gsheet.py:82. It is route wiring outside the core.
- Security.MaskSensitiveData: the default `visible_chars=2` is not built in. The count is an explicit argument.
