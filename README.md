# Household ledger core in Dafny

This project models the core of a household-ledger web service. Users keep accounts, income and expense categories, and transactions. A transaction may be linked to an account. Creating, updating or deleting a transaction moves that account's balance:

- an income counts `+amount`;
- an expense counts `-amount`.

The model covers:

- the transaction command service, the ledger engine (`ledger.dfy`, `transaction_command_service.dfy`, `transaction.dfy`);
- the category registry (`category_rules.dfy`, `category_command_service.dfy`, `category.dfy`);
- the account store (`account_rules.dfy`, `account_command_service.dfy`);
- the read-side projections:
  - the monthly summary and the default search window (`transaction_query.dfy`);
  - the CSV export (`csv_export.dfy`);
  - the account lookup and summary (`account_query.dfy`);
- the error table (`error_code.dfy`);
- the bearer-token step of the authentication filter (`jwt_filter.dfy`).

How the model is built:

- **Persisted state.** It is one value of type `Entities.Store`. It holds maps from key to account, category and transaction rows, plus the next key each identity column will hand out.
- **Repositories.** They are the fields of one object, `Persistence.Db`.
- **Commands.** Each command service is a class over that object. Its methods change the store in place, and each method is proved equal to a pure specification function over `Store`: `Ledger`, `CategoryRules` or `AccountRules`.
  - Each specification function returns a `Step`: the result, which is either a value or an `ErrorCode`, paired with the new store.
  - A failing step leaves the store exactly as it was. This models the rollback of the unit of work.
- **Entities.** The transaction and category entities are classes. Fields the source never reassigns are `const`. The update methods assign exactly the mutable fields.

The main theorems are in `ledger_invariant.dfy`.

- **The ledger invariant.** `Net(s, a)` is the account's balance minus the signed amounts of the transactions linked to it. Create, update and delete keep it unchanged for every account.
- **Overwriting a balance.** Updating an account overwrites its balance, and this shifts `Net` by exactly the difference.
- **Non-negative balances.** They are proved where the code guarantees them: create, delete, and updates whose old transaction is not a linked income.
- **Where the update guard falls short.** Concrete updates pass the update's sufficiency check and still leave a balance below zero. See "Findings". `ledger_guard.dfy` holds the corrected guard.

## Model

| member | source | states |
|---|---|---|
| ErrorCodes.StatusValue | backend/src/main/java/com/mycompany/_thstudy/exception/ErrorCode.java:12-39 | every status in the table is a 4xx or 5xx code, and it is 5xx only for the internal-server-error status |
| ErrorCodes.Code | backend/src/main/java/com/mycompany/_thstudy/exception/ErrorCode.java:12-39 | every code string starts with its status family's prefix (BAD_REQUEST_, UNAUTHORIZED_, FORBIDDEN_, NOT_FOUND_, CONFLICT_, SERVER_ERROR_) followed by three characters |
| ErrorCodes.CodeRoundTrip | backend/src/main/java/com/mycompany/_thstudy/exception/ErrorCode.java:12-39 | looking an error up by its code string gives back that error |
| ErrorCodes.CodesDistinct | backend/src/main/java/com/mycompany/_thstudy/exception/ErrorCode.java:12-39 | no two errors share a code string |
| ErrorCodes.LedgerValidationErrorsAreBadRequest | backend/src/main/java/com/mycompany/_thstudy/exception/ErrorCode.java:15-18 | NEGATIVE_AMOUNT, CATEGORY_TYPE_MISMATCH, INSUFFICIENT_BALANCE and BALANCE_WOULD_BE_NEGATIVE map to 400 |
| ErrorCodes.AuthErrorStatuses | backend/src/main/java/com/mycompany/_thstudy/exception/ErrorCode.java:21-25 | ACCESS_DENIED maps to 403; INVALID_TOKEN and EXPIRED_TOKEN map to 401 |
| ErrorCodes.NotFoundAndConflictStatuses | backend/src/main/java/com/mycompany/_thstudy/exception/ErrorCode.java:28-35 | the status is 404 exactly for the four not-found errors, and 409 exactly for CATEGORY_HAS_TRANSACTIONS and CATEGORY_DUPLICATE_NAME |
| TransactionEntity.Transaction.Load | backend/src/main/java/com/mycompany/_thstudy/transaction/command/domain/aggregate/Transaction.java:24-55 | a loaded entity has the stored key and exactly the stored row |
| TransactionEntity.Transaction.Update | backend/src/main/java/com/mycompany/_thstudy/transaction/command/domain/aggregate/Transaction.java:57-64 | account, category, type, amount, description and date become exactly the arguments; key, owner and creation time are unchanged; there is no validation |
| CategoryEntity.Category.Load | backend/src/main/java/com/mycompany/_thstudy/category/command/domain/aggregate/Category.java:20-37 | a loaded entity has the stored key and exactly the stored row |
| CategoryEntity.Category.UpdateName | backend/src/main/java/com/mycompany/_thstudy/category/command/domain/aggregate/Category.java:39-42 | the name becomes the argument and only the name may change: key, owner, type and creation time are kept |
| Ledger.Adjust | backend/src/main/java/com/mycompany/_thstudy/transaction/command/application/service/TransactionCommandService.java:162-174 | only the linked account's balance moves, by exactly the delta; no account is added or removed and no other field changes |
| Ledger.ResolveAccount | backend/src/main/java/com/mycompany/_thstudy/transaction/command/application/service/TransactionCommandService.java:176-185 | succeeds exactly when no account is requested, or the requested one exists and belongs to the caller, and then yields the request; otherwise ACCOUNT_NOT_FOUND for a missing account and ACCESS_DENIED for another user's |
| Ledger.ViewOf | backend/src/main/java/com/mycompany/_thstudy/transaction/command/application/service/TransactionCommandService.java:78-88 | the response carries the row's key, account link, type, category key, amount, description and date, and the category's name; it has an account name exactly when the linked account exists, and then it is that account's name |
| Ledger.CreateTransaction | backend/src/main/java/com/mycompany/_thstudy/transaction/command/application/service/TransactionCommandService.java:31-89 | each error happens exactly when its check is the first to fail, in the order USER_NOT_FOUND, CATEGORY_NOT_FOUND, CATEGORY_TYPE_MISMATCH, ACCESS_DENIED, NEGATIVE_AMOUNT (amount <= 0), ACCOUNT_NOT_FOUND/ACCESS_DENIED, INSUFFICIENT_BALANCE; an error changes nothing; success stores one new row with the requested fields under the next key and moves only the linked balance, by the signed amount; a linked expense leaves a non-negative balance |
| Ledger.UpdateTransaction | backend/src/main/java/com/mycompany/_thstudy/transaction/command/application/service/TransactionCommandService.java:91-160 | errors in the order TRANSACTION_NOT_FOUND, ACCESS_DENIED, CATEGORY_NOT_FOUND, ACCESS_DENIED (category owner before type), CATEGORY_TYPE_MISMATCH, ACCOUNT_NOT_FOUND/ACCESS_DENIED, INSUFFICIENT_BALANCE; never NEGATIVE_AMOUNT; a new linked expense is refused exactly when the balance plus the old amount (only if the old transaction was an expense on the same account) is below the new amount; it succeeds exactly when every check passes (and the old account link is not dangling); success reverses the old effect, rewrites the row in place and applies the new effect, so each balance changes by minus the old effect plus the new one |
| Ledger.DeleteTransaction | backend/src/main/java/com/mycompany/_thstudy/transaction/command/application/service/TransactionCommandService.java:187-210 | TRANSACTION_NOT_FOUND, then ACCESS_DENIED; BALANCE_WOULD_BE_NEGATIVE exactly for a linked income larger than its account's balance, changing nothing; it succeeds exactly when the caller owns the transaction and that guard does not fire (and the account link is not dangling), and then removes exactly that row and reverses its effect |
| TransactionCommands.TransactionCommandService.ApplyBalance | backend/src/main/java/com/mycompany/_thstudy/transaction/command/application/service/TransactionCommandService.java:162-167 | the store afterwards differs only in the linked account, moved up by an income and down by an expense |
| TransactionCommands.TransactionCommandService.ReverseBalance | backend/src/main/java/com/mycompany/_thstudy/transaction/command/application/service/TransactionCommandService.java:169-174 | the store afterwards differs only in the linked account, moved down by an income and up by an expense |
| TransactionCommands.TransactionCommandService.ResolveAccount | backend/src/main/java/com/mycompany/_thstudy/transaction/command/application/service/TransactionCommandService.java:176-185 | succeeds exactly when the requested account is absent or is the caller's, returning it; changes nothing |
| TransactionCommands.TransactionCommandService.CreateTransaction | backend/src/main/java/com/mycompany/_thstudy/transaction/command/application/service/TransactionCommandService.java:31-89 | result and new state are those of `Ledger.CreateTransaction` on the old state |
| TransactionCommands.TransactionCommandService.UpdateTransaction | backend/src/main/java/com/mycompany/_thstudy/transaction/command/application/service/TransactionCommandService.java:91-160 | result and new state are those of `Ledger.UpdateTransaction` on the old state; the row is rewritten through the entity's `Update` |
| TransactionCommands.TransactionCommandService.DeleteTransaction | backend/src/main/java/com/mycompany/_thstudy/transaction/command/application/service/TransactionCommandService.java:187-210 | result and new state are those of `Ledger.DeleteTransaction` on the old state |
| LedgerInvariant.ReverseUndoesApply | backend/src/main/java/com/mycompany/_thstudy/transaction/command/application/service/TransactionCommandService.java:162-174 | reversing a transaction's effect exactly undoes applying it, for the same account, type and amount |
| LedgerInvariant.CreatePreservesNet | backend/src/main/java/com/mycompany/_thstudy/transaction/command/application/service/TransactionCommandService.java:53-75 | creating a transaction keeps every account and its balance minus the signed sum of its linked transactions |
| LedgerInvariant.UpdatePreservesNet | backend/src/main/java/com/mycompany/_thstudy/transaction/command/application/service/TransactionCommandService.java:114-147 | updating a transaction keeps every account's net value, whether or not the account or the type changes |
| LedgerInvariant.DeletePreservesNet | backend/src/main/java/com/mycompany/_thstudy/transaction/command/application/service/TransactionCommandService.java:198-209 | deleting a transaction keeps every account's net value |
| LedgerInvariant.LedgerKeepsWellFormed | backend/src/main/java/com/mycompany/_thstudy/transaction/command/application/service/TransactionCommandService.java:62-75 | the three operations keep every stored key below the next key its identity column hands out |
| LedgerInvariant.CreateThenDeleteRestores | backend/src/main/java/com/mycompany/_thstudy/transaction/command/application/service/TransactionCommandService.java:162-174 | creating a transaction and then deleting it restores all balances and the transaction table, unless a retracted income would go below zero |
| LedgerInvariant.CreateKeepsNonNegative | backend/src/main/java/com/mycompany/_thstudy/transaction/command/application/service/TransactionCommandService.java:55-59 | a create never makes a non-negative balance negative |
| LedgerInvariant.CreateKeepsPositiveAmounts | backend/src/main/java/com/mycompany/_thstudy/transaction/command/application/service/TransactionCommandService.java:48-51 | a create stores only positive amounts |
| LedgerInvariant.DeleteKeepsNonNegative | backend/src/main/java/com/mycompany/_thstudy/transaction/command/application/service/TransactionCommandService.java:198-206 | with positive amounts, a delete never makes a non-negative balance negative |
| LedgerInvariant.UpdateExpenseTargetNonNegative | backend/src/main/java/com/mycompany/_thstudy/transaction/command/application/service/TransactionCommandService.java:121-131 | a new expense on the same account as an old expense, or on a different account, leaves that account non-negative |
| LedgerInvariant.UpdateKeepsNonNegativeUnlessOldIncome | backend/src/main/java/com/mycompany/_thstudy/transaction/command/application/service/TransactionCommandService.java:121-147 | when the old transaction is not a linked income and the new amount is positive, every balance stays non-negative |
| LedgerInvariant.UpdateIncomeToExpenseGoesNegative | backend/src/main/java/com/mycompany/_thstudy/transaction/command/application/service/TransactionCommandService.java:121-131 | changing an income of 100 into an expense of 50 on an account holding 100 succeeds and leaves -50 |
| LedgerInvariant.UpdateMoveIncomeGoesNegative | backend/src/main/java/com/mycompany/_thstudy/transaction/command/application/service/TransactionCommandService.java:121-134 | moving an income of 100 off an account holding 40 succeeds and leaves -60 |
| LedgerInvariant.UpdateShrinkIncomeGoesNegative | backend/src/main/java/com/mycompany/_thstudy/transaction/command/application/service/TransactionCommandService.java:121-134 | shrinking an income of 100 to 10 on an account holding 40 succeeds and leaves -50 |
| LedgerInvariant.UpdateAcceptsNonPositiveAmount | backend/src/main/java/com/mycompany/_thstudy/transaction/command/application/service/TransactionCommandService.java:91-147 | the update itself stores a zero amount, because it has no amount check |
| LedgerGuard.UpdateTransactionGuarded | backend/src/main/java/com/mycompany/_thstudy/transaction/command/application/service/TransactionCommandService.java:121-134 | BALANCE_WOULD_BE_NEGATIVE exactly when the update as written would succeed but leave the old linked income's account negative; otherwise the same as the update as written |
| LedgerGuard.GuardedAgreesUnlessOldIncome | backend/src/main/java/com/mycompany/_thstudy/transaction/command/application/service/TransactionCommandService.java:121-131 | the guarded update equals the written one whenever the old transaction is not a linked income |
| LedgerGuard.GuardedUpdateKeepsNonNegative | backend/src/main/java/com/mycompany/_thstudy/transaction/command/application/service/TransactionCommandService.java:121-147 | with the guard, every update with a positive amount keeps all balances non-negative |
| LedgerGuard.GuardedPreservesNet | backend/src/main/java/com/mycompany/_thstudy/transaction/command/application/service/TransactionCommandService.java:133-147 | the guarded update also keeps every account's net value |
| LedgerGuard.GuardedRefusesIncomeToExpense | backend/src/main/java/com/mycompany/_thstudy/transaction/command/application/service/TransactionCommandService.java:121-131 | the guard refuses the income-to-expense update that goes to -50 |
| CategoryRules.CreateCategory | backend/src/main/java/com/mycompany/_thstudy/category/command/application/service/CategoryCommandService.java:34-65 | CATEGORY_DUPLICATE_NAME exactly when the caller already has a category with that name and type, checked before the user lookup; then USER_NOT_FOUND; an error changes nothing; success stores one category with the requested name and type, owned by the caller, under the next key |
| CategoryRules.UpdateCategory | backend/src/main/java/com/mycompany/_thstudy/category/command/application/service/CategoryCommandService.java:67-100 | CATEGORY_NOT_FOUND, then ACCESS_DENIED, then CATEGORY_DUPLICATE_NAME exactly when another of the caller's categories of the same type has the new name; it succeeds exactly when none of these fire, and success changes only the name |
| CategoryRules.DeleteCategory | backend/src/main/java/com/mycompany/_thstudy/category/command/application/service/CategoryCommandService.java:102-122 | CATEGORY_NOT_FOUND, then ACCESS_DENIED, then CATEGORY_HAS_TRANSACTIONS exactly when a transaction references the category; it succeeds exactly when none of these fire, and success removes exactly that category |
| CategoryRules.SeedCategories | backend/src/main/java/com/mycompany/_thstudy/category/command/application/service/CategoryCommandService.java:124-133 | each default entry becomes one new category under consecutive keys, with its name and type and owned by the user; other keys are untouched |
| CategoryRules.CreateDefaultCategories | backend/src/main/java/com/mycompany/_thstudy/category/command/application/service/CategoryCommandService.java:124-133 | adds exactly one category per default entry, with no duplicate check, and advances the next key by the number of entries |
| CategoryRules.CreateKeepsUniqueNames | backend/src/main/java/com/mycompany/_thstudy/category/command/application/service/CategoryCommandService.java:36-57 | create keeps (owner, name, type) unique across categories |
| CategoryRules.UpdateKeepsUniqueNames | backend/src/main/java/com/mycompany/_thstudy/category/command/application/service/CategoryCommandService.java:78-92 | rename keeps (owner, name, type) unique across categories |
| CategoryRules.RenameToCurrentNameSucceeds | backend/src/main/java/com/mycompany/_thstudy/category/command/application/service/CategoryCommandService.java:78-92 | with unique names, renaming one's own category to its current name succeeds and changes nothing, because the duplicate check excludes the category itself |
| CategoryRules.DeleteKeepsCategoriesResolved | backend/src/main/java/com/mycompany/_thstudy/category/command/application/service/CategoryCommandService.java:113-121 | after a delete, every transaction still refers to an existing category |
| CategoryRules.SeedKeepsUniqueNames | backend/src/main/java/com/mycompany/_thstudy/category/command/application/service/CategoryCommandService.java:124-133 | seeding a user who has no categories, from distinct defaults, keeps names unique |
| CategoryRules.SeedTwiceDuplicates | backend/src/main/java/com/mycompany/_thstudy/category/command/application/service/CategoryCommandService.java:124-133 | seeding a user who already has a default category creates a duplicate, because no duplicate check is made |
| CategoryCommands.CategoryCommandService.CreateCategory | backend/src/main/java/com/mycompany/_thstudy/category/command/application/service/CategoryCommandService.java:34-65 | result and new state are those of `CategoryRules.CreateCategory` on the old state |
| CategoryCommands.CategoryCommandService.UpdateCategory | backend/src/main/java/com/mycompany/_thstudy/category/command/application/service/CategoryCommandService.java:67-100 | result and new state are those of `CategoryRules.UpdateCategory`; the rename goes through the entity's `UpdateName` |
| CategoryCommands.CategoryCommandService.DeleteCategory | backend/src/main/java/com/mycompany/_thstudy/category/command/application/service/CategoryCommandService.java:102-122 | result and new state are those of `CategoryRules.DeleteCategory` on the old state |
| CategoryCommands.CategoryCommandService.CreateDefaultCategories | backend/src/main/java/com/mycompany/_thstudy/category/command/application/service/CategoryCommandService.java:124-133 | saving the defaults one at a time gives the state of `CategoryRules.CreateDefaultCategories` |
| AccountRules.CreateAccount | backend/src/main/java/com/mycompany/_thstudy/account/command/application/service/AccountCommandService.java:24-35 | USER_NOT_FOUND exactly for an unknown user, changing nothing; otherwise stores one account owned by the caller with exactly the requested name and balance under the next key |
| AccountRules.UpdateAccount | backend/src/main/java/com/mycompany/_thstudy/account/command/application/service/AccountCommandService.java:37-49 | ACCOUNT_NOT_FOUND, then ACCESS_DENIED, changing nothing; it succeeds exactly for an existing account of the caller, and success overwrites that account's name and balance and nothing else |
| AccountRules.DeleteAccount | backend/src/main/java/com/mycompany/_thstudy/account/command/application/service/AccountCommandService.java:51-60 | ACCOUNT_NOT_FOUND, then ACCESS_DENIED; it succeeds exactly for an existing account of the caller, and success removes exactly that account, with no reference check |
| AccountRules.UpdateAccountShiftsNet | backend/src/main/java/com/mycompany/_thstudy/account/command/application/service/AccountCommandService.java:45-46 | overwriting a balance shifts that account's net value by the difference and leaves every other account's net value as it was |
| AccountRules.CreateAccountPreservesNet | backend/src/main/java/com/mycompany/_thstudy/account/command/application/service/AccountCommandService.java:24-35 | creating an account keeps every existing account's net value |
| AccountRules.AccountCommandsKeepNonNegative | backend/src/main/java/com/mycompany/_thstudy/account/command/application/service/AccountCommandService.java:24-49 | with a non-negative requested balance, create and update keep all balances non-negative |
| AccountRules.DeleteAccountLeavesDanglingLink | backend/src/main/java/com/mycompany/_thstudy/account/command/application/service/AccountCommandService.java:51-60 | deleting an account that a transaction links to leaves the link dangling, and that transaction then cannot be deleted |
| AccountCommands.AccountCommandService.CreateAccount | backend/src/main/java/com/mycompany/_thstudy/account/command/application/service/AccountCommandService.java:24-35 | result and new state are those of `AccountRules.CreateAccount` on the old state |
| AccountCommands.AccountCommandService.UpdateAccount | backend/src/main/java/com/mycompany/_thstudy/account/command/application/service/AccountCommandService.java:37-49 | result and new state are those of `AccountRules.UpdateAccount` on the old state |
| AccountCommands.AccountCommandService.DeleteAccount | backend/src/main/java/com/mycompany/_thstudy/account/command/application/service/AccountCommandService.java:51-60 | result and new state are those of `AccountRules.DeleteAccount` on the old state |
| TransactionQuery.OfType | backend/src/main/java/com/mycompany/_thstudy/transaction/query/service/TransactionQueryService.java:56-59 | keeps exactly the rows whose type text equals the given text, and no more rows than the input |
| TransactionQuery.OtherTypes | backend/src/main/java/com/mycompany/_thstudy/transaction/query/service/TransactionQueryService.java:56-59 | keeps exactly the rows whose type is neither "INCOME" nor "EXPENSE" |
| TransactionQuery.OfTypeKeepsMultiplicity | backend/src/main/java/com/mycompany/_thstudy/transaction/query/service/TransactionQueryService.java:56-59 | each row of the selected type occurs in the selection as often as in the input, and no other row occurs |
| TransactionQuery.OtherTypesKeepsMultiplicity | backend/src/main/java/com/mycompany/_thstudy/transaction/query/service/TransactionQueryService.java:56-59 | each row of neither type is kept as often as it occurs, and no income or expense row is |
| TransactionQuery.OfTypeAppend | backend/src/main/java/com/mycompany/_thstudy/transaction/query/service/TransactionQueryService.java:56-59 | selecting from two lists joined is the selection from the first followed by the selection from the second, so input order is kept |
| TransactionQuery.Summaries | backend/src/main/java/com/mycompany/_thstudy/transaction/query/service/TransactionQueryService.java:66-76 | one entry per row in input order, with name and amount copied; the percentage is zero whenever the total is zero |
| TransactionQuery.GetMonthlySummary | backend/src/main/java/com/mycompany/_thstudy/transaction/query/service/TransactionQueryService.java:50-84 | echoes year and month; the income and expense totals are the sums over the "INCOME" and "EXPENSE" rows; the balance is income minus expense; the income and expense summaries are the per-row summaries of exactly those rows, in input order; zero percentages under a zero total |
| TransactionQuery.TotalsPartition | backend/src/main/java/com/mycompany/_thstudy/transaction/query/service/TransactionQueryService.java:56-63 | the sum of all rows is income plus expense plus the rows of any other type |
| TransactionQuery.BalanceIsSignedSum | backend/src/main/java/com/mycompany/_thstudy/transaction/query/service/TransactionQueryService.java:78-82 | when every row is income or expense, the balance is the signed sum of all rows |
| TransactionQuery.FirstDayOfMonth | backend/src/main/java/com/mycompany/_thstudy/transaction/query/service/TransactionQueryService.java:41-43 | the first day of the given date's month |
| TransactionQuery.FillDefaultDates | backend/src/main/java/com/mycompany/_thstudy/transaction/query/service/TransactionQueryService.java:40-48 | a missing start date becomes day 1 of today's month and a missing end date becomes today; given dates are kept |
| TransactionQuery.DefaultWindowOrdered | backend/src/main/java/com/mycompany/_thstudy/transaction/query/service/TransactionQueryService.java:41-46 | the default window starts no later than it ends |
| CsvExport.NatTextDigits | backend/src/main/java/com/mycompany/_thstudy/transaction/query/service/TransactionQueryService.java:105 | a natural number prints as decimal digits only, one digit exactly when it is below ten |
| CsvExport.IntTextShape | backend/src/main/java/com/mycompany/_thstudy/transaction/query/service/TransactionQueryService.java:105 | an amount prints with a leading minus exactly when negative, and otherwise digits only |
| CsvExport.IntTextChars | backend/src/main/java/com/mycompany/_thstudy/transaction/query/service/TransactionQueryService.java:105 | an amount's text is digits and sign characters only, so it holds no comma, quote or newline |
| CsvExport.DateTextChars | backend/src/main/java/com/mycompany/_thstudy/transaction/query/service/TransactionQueryService.java:102 | a date's text is digits and signs or hyphens only |
| CsvExport.TypeLabel | backend/src/main/java/com/mycompany/_thstudy/transaction/query/service/TransactionQueryService.java:103 | the type column reads income exactly for the text "INCOME", and expense for anything else |
| CsvExport.ExportCsv | backend/src/main/java/com/mycompany/_thstudy/transaction/query/service/TransactionQueryService.java:94-111 | appending the BOM, the header and then one line per row, in order, builds exactly the export text |
| CsvExport.CsvBodyStep | backend/src/main/java/com/mycompany/_thstudy/transaction/query/service/TransactionQueryService.java:101-109 | each loop step appends exactly the next row's line |
| CsvExport.CsvTextAppend | backend/src/main/java/com/mycompany/_thstudy/transaction/query/service/TransactionQueryService.java:101-109 | adding a row to the list appends its line to the export |
| CsvExport.CsvLineHasOneNewline | backend/src/main/java/com/mycompany/_thstudy/transaction/query/service/TransactionQueryService.java:102-108 | a row whose category name and description contain no newline prints as exactly one line |
| CsvExport.PreambleHasOneNewline | backend/src/main/java/com/mycompany/_thstudy/transaction/query/service/TransactionQueryService.java:99-100 | the BOM and header make up exactly one line |
| CsvExport.CsvBodyNewlines | backend/src/main/java/com/mycompany/_thstudy/transaction/query/service/TransactionQueryService.java:101-109 | the body has one newline per row |
| CsvExport.CsvLineCount | backend/src/main/java/com/mycompany/_thstudy/transaction/query/service/TransactionQueryService.java:99-109 | the export has one line more than the list has rows |
| CsvExport.DescriptionNotEscaped | backend/src/main/java/com/mycompany/_thstudy/transaction/query/service/TransactionQueryService.java:107 | a quote inside a description is copied as it is, leaving an odd number of quotes in the field |
| AccountQuery.FindByIdAndOwner | backend/src/main/java/com/mycompany/_thstudy/account/query/service/AccountQueryService.java:26 | an account is found exactly when the key exists and the caller owns it |
| AccountQuery.GetAccount | backend/src/main/java/com/mycompany/_thstudy/account/query/service/AccountQueryService.java:25-31 | ACCOUNT_NOT_FOUND exactly when the owner-scoped lookup finds nothing; otherwise that account's key, name and balance |
| AccountQuery.OtherOwnersAccountIsNotFound | backend/src/main/java/com/mycompany/_thstudy/account/query/service/AccountQueryService.java:26-29 | another user's account yields ACCOUNT_NOT_FOUND, never ACCESS_DENIED |
| AccountQuery.GetAccountSummary | backend/src/main/java/com/mycompany/_thstudy/account/query/service/AccountQueryService.java:33-39 | the total is the sum of the listed balances (0 for no accounts), the count is the list's length, and the list is returned unchanged |
| AccountQuery.SumBalancesAppend | backend/src/main/java/com/mycompany/_thstudy/account/query/service/AccountQueryService.java:35-37 | the total of two lists joined is the sum of their totals |
| AccountQuery.SumBalancesNonNegative | backend/src/main/java/com/mycompany/_thstudy/account/query/service/AccountQueryService.java:35-37 | non-negative balances give a non-negative total |
| AccountQuery.SumBalancesPermutation | backend/src/main/java/com/mycompany/_thstudy/account/query/service/AccountQueryService.java:35-37 | the total does not depend on the order in which the lookup lists the accounts |
| JwtFilter.GetJwtFromRequest | backend/src/main/java/com/mycompany/_thstudy/security/JwtAuthenticationFilter.java:55-62 | a token exactly when the header has text and starts with "Bearer ", and then `"Bearer " + token` is the header |
| JwtFilter.BearerRoundTrip | backend/src/main/java/com/mycompany/_thstudy/security/JwtAuthenticationFilter.java:58-59 | the header "Bearer " + t yields exactly t |
| JwtFilter.BlankHeaderHasNoToken | backend/src/main/java/com/mycompany/_thstudy/security/JwtAuthenticationFilter.java:56-61 | a missing or whitespace-only header yields no token |
| JwtFilter.PrefixIsExact | backend/src/main/java/com/mycompany/_thstudy/security/JwtAuthenticationFilter.java:58 | "bearer x" and "Bearerx" yield no token |
| JwtFilter.DoFilterInternal | backend/src/main/java/com/mycompany/_thstudy/security/JwtAuthenticationFilter.java:26-53 | authentication is attempted exactly when the token has text; the user is authenticated exactly when it was attempted and the token checked out; the request goes on unless a failure other than bad credentials was raised |
| JwtFilter.NoTokenProceedsAnonymously | backend/src/main/java/com/mycompany/_thstudy/security/JwtAuthenticationFilter.java:29-52 | without a token the request goes on unauthenticated |
| JwtFilter.BlankTokenIsNotChecked | backend/src/main/java/com/mycompany/_thstudy/security/JwtAuthenticationFilter.java:32 | "Bearer " followed only by whitespace never reaches the token checker |
| JwtFilter.BadCredentialsProceed | backend/src/main/java/com/mycompany/_thstudy/security/JwtAuthenticationFilter.java:47-52 | bad credentials are swallowed: the request goes on unauthenticated |

## Left out

- Java `long` overflow: balances, amounts and sums are unbounded integers, so wrap-around in `applyBalance`, `reverseBalance` and the stream sums is not modelled.
- Persistence and SQL: the repositories are in-memory maps. The mapper queries are modelled by what their names state, since their SQL is not part of this model:
  - the duplicate-name check is an exact match on owner, name and type, with no collation or case folding;
  - the owner-scoped account lookup;
  - the monthly raw summary, which is an input list;
  - the filtered transaction list, which is an input list.
- The transaction rows given to the summary and the CSV export are inputs. `findByFilter` and `findMonthlySummary` are not part of this model.
- The account list given to `AccountQuery.GetAccountSummary` is an input: it stands for what `findAllByUserEmail` returns, which is not part of this model.
- Clocks: "today" and the creation timestamp are parameters. The `updatedAt` auditing column is not modelled.
- The percentage values in the monthly summary are floating point. Only the zero-total guard is modelled, as `Percentage = Zero | Share(part, total)`.
- `exportXlsx`, `getDailySummary`, `getRecentTransactions` and `getAccounts` are plain delegations or library calls. The final UTF-8 encoding of the CSV text is also not modelled: the model stops at the character string.
- `@Transactional`: each service method is one atomic step, and concurrency and row locks are not modelled.
- A transaction linked to an account that no longer exists fails with `INTERNAL_ERROR` and changes nothing. This stands for the lazy load failing and the unit of work rolling back. On update this happens after the balance check, and on delete before the income check. This assumes the schema has no foreign key from transactions to accounts, which the sources in this model neither show nor rule out. With such a key, `deleteAccount` itself would fail for a referenced account (reported as `INTERNAL_ERROR`), and the dangling states, together with `AccountRules.DeleteAccountLeavesDanglingLink`, could not arise.
- JWT signing and parsing, the user lookup and the security context are not part of this model. `JwtFilter.Verification` stands for their combined answer.
- The request DTOs' bean validation (`@Min(1)` on amounts, `@Min(0)` on the account balance) is not modelled as a precondition. The service is modelled on every input, and the lemmas that rely on it say so in their `requires`.
- `Account.java` is not part of this model. Its fields (owner, name, balance) are inferred from how the services use it.
- `Transaction.java` shows a five-argument `update` with no account field, while the service calls a six-argument `update(account, …)`. `TransactionEntity.Transaction.Update` follows the service.
- `TransactionCreateRequest` shows no account key, yet the service reads one, so `Ledger.TransactionRequest` has one.
- Deleting an account does not check for transactions that reference it. The model follows the code: `AccountRules.DeleteAccountLeavesDanglingLink` shows the consequence.
- `JwtFilter.DoFilterInternal`: the filter swallows only bad-credentials failures. Any other failure from the token checker or the user lookup propagates, and the request then does not continue down the chain; the model says exactly that.

## Findings

| source | as written | input that shows it | evidently intended | confidence | as-written member | corrected member |
|---|---|---|---|---|---|---|
| backend/src/main/java/com/mycompany/_thstudy/transaction/command/application/service/TransactionCommandService.java:121-134 | the update's balance check only covers the new account when the new transaction is an expense, and only adds back an old expense on the same account; reversing an old linked income is never checked, unlike in delete (backend/src/main/java/com/mycompany/_thstudy/transaction/command/application/service/TransactionCommandService.java:198-203) | an account holding 100 with a linked income of 100, updated to an expense of 50 on the same account: succeeds and leaves -50 (moving or shrinking the income also goes negative) | an update, like a delete, should refuse to take a balance below zero when it retracts a linked income | not executed | LedgerInvariant.UpdateIncomeToExpenseGoesNegative | LedgerGuard.UpdateTransactionGuarded |
