# ticto-financial: transaction bookkeeping, modelled in Dafny

This project models the bookkeeping layer of the ticto-financial personal-finance tracker and proves properties of it. The layer covers:

- the browser store of per-user transaction lists, users and the signed-in user;
- the summary aggregator (income, expenses, balance);
- the request client that guards every service call with an authentication gate and turns any outcome into a response record;
- the transaction and authentication services;
- the `useTransactions` session state machine;
- pagination, both the hook and the inline copy the transaction table uses;
- the form schemas;
- the non-rendering state of the transaction table and the transaction dialog.

One Dafny module per source file, plus `Seqs` (seqs.dfy), a small library of sequence lemmas shared by the others that has no counterpart in the source:

| module | file | form |
|---|---|---|
| `Seqs` | (none) | lemmas about sequences |
| `Model` | models/api.model.ts | datatypes |
| `Storage` | lib/storage.ts | pure list functions and lemmas, plus `class LocalStorage` whose fields are the stored keys |
| `ApiClient` | services/api/config.ts | pure: `Request` branches on the gate and the operation's outcome |
| `TransactionService` | services/rest/transactions.rest.ts | methods over a `LocalStorage`, with the pure `UpdateById` and `GetSummary` |
| `AuthService` | services/rest/auth.rest.ts | methods over a `LocalStorage` |
| `Validation` | lib/validations.ts | pure predicates and the parseFloat model |
| `TransactionsHook` | hooks/use-transactions.ts | `class TransactionSession` holding the state record |
| `Pagination` | hooks/use-pagination.ts | pure page arithmetic, plus `class Paginator` |
| `TransactionList` | components/transaction-list.tsx | `class TransactionListView` |
| `TransactionModal` | components/transaction-modal.tsx | pure form functions, plus `class TransactionModalView` |

Modelling choices:

- Amounts are exact `real`s. `Number.parseFloat` is modelled on decimal text. The parser skips leading ASCII white space, takes an optional sign, then the longest prefix of digits, optionally followed by '.' and more digits. `None` stands for NaN.
- String lengths are counted as JavaScript counts them, in UTF-16 code units (`Validation.Utf16Length`): a character beyond U+FFFF counts twice, as it does for the validation library's `min` and `max`.
- The source's `type` field is `kind` here.
- The clock is a set of inputs. The id and date of a new record are parameters. Whether the request lost its race against the timer is the input `timedOut`. The race does not cancel the operation, so the store writes happen either way.
- In the hook, what the service call produced is an input `ServiceResult`: either `Delivered(list)` or `Failed(message)`. This makes the hook's failure paths reachable.
- Notifications are an appended log of `Toast` records.
- Props that are callbacks (`onDelete`, `onUpdate`, `onSubmit`, `onClose`) are call logs. What `onUpdate` resolves to is an input.

## Model

| member | source | states |
|---|---|---|
| Storage.WithoutId | lib/storage.ts:71 | deleting never lengthens the list, and every kept record comes from the input and has another id |
| Storage.WithoutIdCounts | lib/storage.ts:66-74 | every record with another id keeps its multiplicity; every record with the id is gone (ids may repeat) |
| Storage.WithoutIdIsSubsequence | lib/storage.ts:71 | the kept records stay in their original order |
| Storage.WithoutAbsentId | lib/storage.ts:71 | deleting an id that no record carries leaves the list unchanged |
| Storage.WithoutIdIdempotent | lib/storage.ts:71 | deleting an id twice is the same as deleting it once |
| Storage.OfKind | lib/storage.ts:77-83 | the filtered list holds only records of that type, all taken from the input |
| Storage.OfKindCounts | lib/storage.ts:77-83 | every record of the type is kept as often as it occurs in the input, and every other record is dropped |
| Storage.CalculateSummary | lib/storage.ts:76-88 | balance is income minus expenses; the empty list gives the zero summary |
| Storage.TotalOfCons | lib/storage.ts:79 | the left fold of amounts equals the head's amount plus the total of the tail |
| Storage.Total | lib/storage.ts:79 | the sum of the amounts, which is non-negative when every amount is positive |
| Storage.SummaryNonNegative | lib/storage.ts:76-88 | with positive amounts, income and expenses are both non-negative |
| Storage.SummaryOfPrepend | lib/storage.ts:76-88 | prepending a record raises its own type's total by its amount, leaves the other total, and moves the balance by ±amount |
| Storage.SalaryRentScenario | lib/storage.ts:56-88 | salary 1000, then rent 400, then deleting the salary gives summaries 1000/0/1000, 1000/400/600 and 0/400/−400 |
| Storage.LocalStorage.constructor | lib/storage.ts:3-33 | a fresh store reads as no lists, no users and no current user |
| Storage.LocalStorage.GetUsers | lib/storage.ts:3-7 | returns the user table |
| Storage.LocalStorage.SaveUser | lib/storage.ts:9-13 | appends the user without looking for an existing entry |
| Storage.LocalStorage.GetCurrentUser | lib/storage.ts:15-19 | returns the current-user record |
| Storage.LocalStorage.SetCurrentUser | lib/storage.ts:21-23 | afterwards the current user is that email |
| Storage.LocalStorage.ClearCurrentUser | lib/storage.ts:25-27 | afterwards there is no current user |
| Storage.LocalStorage.GetTransactions | lib/storage.ts:29-33 | an email with no entry reads as []; otherwise its saved list |
| Storage.LocalStorage.SaveTransactions | lib/storage.ts:35-43 | a later read of this email returns the saved list; every other email reads as before |
| Storage.LocalStorage.AddTransaction | lib/storage.ts:56-64 | returns and saves `[t] + old`: one longer, head t, tail the previous list |
| Storage.LocalStorage.DeleteTransaction | lib/storage.ts:66-74 | returns and saves the previous list without the records carrying the id |
| ApiClient.IsAuthenticated | services/api/config.ts:54-57 | true exactly when a current-user record is present |
| ApiClient.Race | services/api/config.ts:44-52 | the operation's value comes through exactly when the timer did not win |
| ApiClient.Request | services/api/config.ts:11-42 | never throws. Success ⇔ data present ⇔ no error ⇔ the gate admits and the operation returned. The returned value is the data. A refused gate gives "User not authenticated". A thrown Error gives its message, any other thrown value gives "Unknown error", a timeout gives "Request timeout" |
| TransactionService.NewTransaction | services/rest/transactions.rest.ts:29-36 | the new record carries the given id and date, the form's fields, and the parsed amount |
| TransactionService.UpdateById | services/rest/transactions.rest.ts:53-66 | same length; ids and dates kept in order; matching records get the four new fields; other records are unchanged; no match leaves the list unchanged |
| TransactionService.GetTransactions | services/rest/transactions.rest.ts:14-21 | the stored list when signed in and in time, [] otherwise |
| TransactionService.CreateTransaction | services/rest/transactions.rest.ts:23-44 | signed in: exactly one new record goes in front of the stored list, even on timeout; the caller sees that list, or [] when the request failed |
| TransactionService.UpdateTransaction | services/rest/transactions.rest.ts:46-74 | signed in: the updated list is saved; the caller sees it, or [] when the request failed |
| TransactionService.DeleteTransaction | services/rest/transactions.rest.ts:76-86 | signed in: the list without the id is saved; the caller sees it, or [] when the request failed |
| TransactionService.DeleteRequest | services/rest/transactions.rest.ts:80-83 | the response is the request client's answer for the filtered list; the store is written only when the gate admits |
| TransactionService.DeleteTransactionChecked | services/rest/transactions.rest.ts:76-86 | corrected service: delivers the list exactly when signed in and in time; otherwise fails with the client's message |
| TransactionService.GetSummary | services/rest/transactions.rest.ts:88-95 | no sign-in needed; the summary of the argument, or all zeros when the request fails |
| AuthService.FindByEmail | services/rest/auth.rest.ts:43 | finds an entry exactly when the email is registered, and the entry it finds has that email |
| AuthService.FindByCredentials | services/rest/auth.rest.ts:19-21 | finds an entry exactly when some entry holds both email and password |
| AuthService.AppendKeepsDistinct | services/rest/auth.rest.ts:43-45 | appending an unregistered email keeps the table's emails pairwise distinct |
| AuthService.RegisteredCanLogIn | services/rest/auth.rest.ts:19-21 | after an append, the same credentials pass the login lookup |
| AuthService.LoginDecidedByEntry | services/rest/auth.rest.ts:19-21 | with distinct emails, login succeeds exactly when the one entry for the email holds the password |
| AuthService.Register | services/rest/auth.rest.ts:37-56 | a registered email fails with "Este email já está cadastrado" and changes nothing; a new email is appended and becomes the current user; distinct emails are preserved |
| AuthService.Login | services/rest/auth.rest.ts:13-35 | succeeds exactly when the credentials match and in time, and then sets the current user; otherwise "Email ou senha incorretos" (or the timeout), with the current user unchanged |
| AuthService.Logout | services/rest/auth.rest.ts:58-66 | afterwards there is no current user, whether or not the gate admitted |
| AuthService.GetCurrentUser | services/rest/auth.rest.ts:68-70 | returns the current-user record |
| AuthService.IsAuthenticated | services/rest/auth.rest.ts:72-74 | true exactly when a current user is stored, the same test as the request client's gate |
| Validation.LeadingDigits | lib/validations.ts:17 | the longest digit prefix: a prefix, all digits, followed by a non-digit or the end |
| Validation.FractionValue | lib/validations.ts:17 | the digits after the point are worth at least 0 and less than 1 (their exact value is FractionScaled) |
| Validation.TrimStart | lib/validations.ts:17 | drops exactly the leading white space: a suffix of the input, everything cut off is white space, and it does not start with white space |
| Validation.FractionDigits | lib/validations.ts:17 | after a leading '.', the whole run of digits that follows it; without a leading '.', nothing |
| Validation.ParseUnsigned | lib/validations.ts:17 | a number exactly when the text starts with a digit, or with '.' and a digit; never negative (its exact value is ParseUnsignedValue) |
| Validation.ReplaceFirstComma | lib/validations.ts:17 | same length; only a comma can change, and it changes to '.' |
| Validation.FirstCommaReplaced | lib/validations.ts:17 | the first comma becomes '.', and the text before and after it is kept, later commas included |
| Validation.ParseFloat | lib/validations.ts:17 | after the leading white space a number needs a digit, '.', '+' or '-'; only a '-' gives a negative; text starting with a digit reads as the unsigned decimal |
| Validation.ParseAmount | lib/validations.ts:17 | text without a comma is read by parseFloat unchanged |
| Validation.NaturalValueOfCons | lib/validations.ts:17 | the first digit of n digits is worth d·10^(n−1) |
| Validation.NaturalValueOfAppend | lib/validations.ts:17 | digits written after digits shift the first part left by the second part's length |
| Validation.FractionScaled | lib/validations.ts:17 | the fraction digits d1..dn are worth exactly the integer d1..dn divided by 10^n |
| Validation.ParseUnsignedValue | lib/validations.ts:17 | a decimal w.f is worth the integer of all its digits divided by 10^(length of f): "12.50" is 1250/100 |
| Validation.ParseFloatSkipsSpace | lib/validations.ts:17 | leading white space does not change the number read |
| Validation.ParseFloatNegative | lib/validations.ts:17 | a '-' in front negates the number, and NaN stays NaN |
| Validation.ParseFloatPlus | lib/validations.ts:17 | a '+' in front changes nothing |
| Validation.Utf16Length | lib/validations.ts:9-12 | a string's JavaScript length lies between its character count and twice that, and is 0 only for the empty string |
| Validation.Utf16LengthOfBmp | lib/validations.ts:9-12 | text without characters beyond U+FFFF has one unit per character |
| Validation.Utf16LengthOfAstral | lib/validations.ts:9-12 | text of characters beyond U+FFFF has two units per character |
| Validation.EmojiDescriptionTooLong | lib/validations.ts:12 | sixty emoji are 120 units, so the description is too long |
| Validation.EmojiPasswordLongEnough | lib/validations.ts:5 | three emoji are six units, enough for the password |
| Validation.FieldIssues | lib/validations.ts:9-23 | a field reports nothing exactly when both of its checks pass; at most two issues, all naming that field |
| Validation.TypeIssues | lib/validations.ts:24-26 | nothing exactly when the type is "income" or "expense"; otherwise one issue on `type` |
| Validation.TransactionIssues | lib/validations.ts:8-27 | no issue exactly when every rule holds; at most seven, each naming a schema field |
| Validation.ValidateTransaction | lib/validations.ts:8-27 | accepted ⇔ description of 1..100 UTF-16 units, amount non-empty and positive after parsing, category of 1..50 units, type "income" or "expense"; the typed record keeps the fields; a rejection lists at least one issue |
| Validation.ValidateLogin | lib/validations.ts:3-6 | accepted ⇔ a well-formed, non-empty email and a password of at least six UTF-16 units; the accepted form is unchanged; a short password is reported last, with its message |
| Validation.NaturalValueOfZeros | lib/validations.ts:16-19 | a string of zeros is worth 0 |
| Validation.FractionValueOfZeros | lib/validations.ts:16-19 | decimals that are all zeros are worth 0 |
| Validation.NaturalValuePositive | lib/validations.ts:16-19 | a digit string is worth more than 0 exactly when one digit is not '0' |
| Validation.ZeroTextValue | lib/validations.ts:16-19 | text of zeros, commas and dots parses as 0 or as NaN |
| Validation.ZeroAmountsRejected | lib/validations.ts:16-19 | amounts like "0", "0,00" and "," are rejected |
| Validation.ReplaceWithoutComma | lib/validations.ts:17 | text without a comma is left unchanged by the replacement |
| Validation.LeadingDigitsOfDigits | lib/validations.ts:17 | an all-digit string is its own digit prefix |
| Validation.ParseDigits | lib/validations.ts:16-19 | a digit string parses as its integer value |
| Validation.DigitAmounts | lib/validations.ts:16-19 | a digit string is an accepted amount exactly when some digit is not '0' |
| Validation.CommaToDotExample | lib/validations.ts:17 | "12,50" becomes "12.50" |
| Validation.TwelveAndAHalf | lib/validations.ts:17 | "12.50" parses as 12.5 |
| Validation.DecimalCommaExample | lib/validations.ts:16-19 | "12,50" is the amount 12.5, and is accepted |
| TransactionsHook.ErrorFor | hooks/use-transactions.ts:34-50 | the error is always tagged retry and never blank; it carries the thrown message when there is a non-empty one, otherwise "Erro ao <action>" |
| TransactionsHook.InitialStateConsistent | hooks/use-transactions.ts:25-32 | the initial state has no error, no busy flag, and a summary matching its (empty) list |
| TransactionsHook.TransactionSession.constructor | hooks/use-transactions.ts:24-32 | a session starts in the initial state with no notifications |
| TransactionsHook.TransactionSession.HandleError | hooks/use-transactions.ts:34-50 | returns ErrorFor's record and shows its message as one destructive toast |
| TransactionsHook.TransactionSession.RejectWithoutUser | hooks/use-transactions.ts:86-92 | without a user: failure with "Erro ao <action> - usuário não autenticado", one destructive toast, state untouched |
| TransactionsHook.TransactionSession.LoadTransactions | hooks/use-transactions.ts:54-80 | no user: only the error changes, to "Usuário não autenticado" tagged reload. Delivered: list and its summary shown, no error, not loading. Failed: the error is reported, list and summary kept. The summary stays consistent with the list |
| TransactionsHook.TransactionSession.CreateTransaction | hooks/use-transactions.ts:82-126 | no user: state untouched. Delivered: list and summary replaced, success toast, success. Failed: only the error and the busy flag change |
| TransactionsHook.TransactionSession.UpdateTransaction | hooks/use-transactions.ts:128-184 | as create, with the update toast; a failure leaves exactly the list found on entry |
| TransactionsHook.TransactionSession.BeginDelete | hooks/use-transactions.ts:198-204 | before the service call, every record with the id leaves the shown list; the summary is not yet recomputed; the old list is returned |
| TransactionsHook.TransactionSession.FinishDelete | hooks/use-transactions.ts:206-238 | a delivered list and its summary are shown with the delete toast; a failure puts the snapshot back with a retry error |
| TransactionsHook.TransactionSession.DeleteTransaction | hooks/use-transactions.ts:186-241 | no user: untouched. Delivered: list and summary replaced. Failed: exactly the entry list back, summary untouched, retry error, not deleting |
| TransactionsHook.TransactionSession.RetryLastAction | hooks/use-transactions.ts:243-248 | only a retry-tagged error clears and reloads; anything else changes nothing |
| TransactionsHook.TransactionSession.DeleteViaService | hooks/use-transactions.ts:186-241 | wired as written: with a user, always success and the delete toast, with the service's list (or [] on any failure) shown; without one, state untouched, one destructive "Erro ao deletar transação - usuário não autenticado" toast and that error returned |
| TransactionsHook.TransactionSession.DeleteViaCheckedService | hooks/use-transactions.ts:186-241 | wired to the corrected service: a refused or late request rolls back with the client's message tagged retry and shows it as a destructive toast; success shows the list, its summary and the delete toast; without a user, state untouched and the no-user toast |
| TransactionsHook.SwallowedDeleteFailure | services/rest/transactions.rest.ts:85 | see Findings: an empty list and a success toast are shown while the store keeps both records |
| TransactionsHook.CheckedDeleteRestores | hooks/use-transactions.ts:229-237 | see Findings: the list comes back and "User not authenticated" is reported for retry |
| Pagination.CeilDiv | hooks/use-pagination.ts:14 | the ceiling: (q−1)·b < a ≤ q·b, for negative a too |
| Pagination.CeilDivUnique | hooks/use-pagination.ts:14 | only one integer satisfies the ceiling's bounds |
| Pagination.PageCount | hooks/use-pagination.ts:14 | the fewest pages of `size` that hold n items; zero pages exactly for no items |
| Pagination.ClampIndex | hooks/use-pagination.ts:16 | a slice bound lies in [0, len] and equals min(i, len) for non-negative i |
| Pagination.Slice | hooks/use-pagination.ts:16 | for a non-negative start: the items from start up to the clamped end, in order |
| Pagination.PageOf | hooks/use-pagination.ts:15-16 | at most `size` items; item k is data[(page−1)·size + k]; full length when the data reaches; empty past the end |
| Pagination.PageNonEmptyInRange | hooks/use-pagination.ts:15-16 | a page is non-empty exactly when 1 ≤ page ≤ totalPages |
| Pagination.PagesCover | hooks/use-pagination.ts:15-16 | item i is on the in-range page i/size + 1, at position i mod size |
| Pagination.AfterDeletion | hooks/use-pagination.ts:42-47 | the page never moves forward and stays ≥ 1; it moves exactly when it lies past the new last page ceil((n−1)/size) and that page exists, and then it moves to it |
| Pagination.AfterDeletionInRange | hooks/use-pagination.ts:42-47 | an in-range page, once adjusted, is in range for one item fewer |
| Pagination.AdjustElevenOnPageThree | hooks/use-pagination.ts:42-47 | 11 items, size 5, page 3: three pages, and the page moves to 2 |
| Pagination.AdjustTwelveOnPageThree | hooks/use-pagination.ts:42-47 | 12 items, size 5, page 3: page 3 holds 2 items and the page stays |
| Pagination.Paginator.constructor | hooks/use-pagination.ts:11 | starts on page 1, which is in range |
| Pagination.Paginator.SetData | hooks/use-pagination.ts:7-10 | a new `data` prop replaces the data and keeps the page |
| Pagination.Paginator.GoToPage | hooks/use-pagination.ts:24-27 | moves only to a page in [1, totalPages]; otherwise no change; keeps the page in range |
| Pagination.Paginator.GoToNextPage | hooks/use-pagination.ts:29-32 | one step forward exactly when canGoNext; keeps the page in range |
| Pagination.Paginator.GoToPreviousPage | hooks/use-pagination.ts:34-36 | one step back exactly when canGoPrevious; keeps the page in range |
| Pagination.Paginator.ResetToFirstPage | hooks/use-pagination.ts:38-40 | back on page 1 |
| Pagination.Paginator.AdjustPageAfterDeletion | hooks/use-pagination.ts:42-47 | applies AfterDeletion; an in-range page is in range for the list one shorter |
| Pagination.Paginator.TotalPages | hooks/use-pagination.ts:14 | the fewest pages of pageSize that hold the data |
| Pagination.Paginator.PaginatedData | hooks/use-pagination.ts:15-16 | at most a page of items, all from the data; on an in-range page, empty only when the data is |
| Pagination.Paginator.CanGoNext | hooks/use-pagination.ts:56 | true exactly when the next page has items |
| Pagination.Paginator.CanGoPrevious | hooks/use-pagination.ts:57 | on a page not past the end, true exactly when a previous page exists and has items |
| TransactionList.PaginationFor | components/transaction-list.tsx:67-79 | the inline copy agrees with the hook at size 5: same page count and same rows, at most five |
| TransactionList.MultiplePagesIffOverPageSize | components/transaction-list.tsx:68 | more than one page exactly when there are more than five transactions |
| TransactionList.TransactionListView.ShowsPagination | components/transaction-list.tsx:314 | the page controls show exactly when there are more than five transactions |
| TransactionList.TransactionListView.ShowsEmptyState | components/transaction-list.tsx:372 | the empty state shows exactly when there are no pages and no rows, and never together with the page controls |
| TransactionList.TransactionListView.constructor | components/transaction-list.tsx:61-65 | no pending delete, page 1, dialog closed, nothing being edited |
| TransactionList.TransactionListView.ReceiveTransactions | components/transaction-list.tsx:56-60 | a new `transactions` prop replaces the list and keeps the local state |
| TransactionList.TransactionListView.HandleDeleteClick | components/transaction-list.tsx:81 | the id becomes the pending delete |
| TransactionList.TransactionListView.HandleCancelDelete | components/transaction-list.tsx:127 | no pending delete |
| TransactionList.TransactionListView.HandleConfirmDelete | components/transaction-list.tsx:83-93 | no pending id: nothing happens. Otherwise: exactly one onDelete call with that id, pending cleared, page adjusted by AfterDeletion, and an in-range page stays in range for the shorter list |
| TransactionList.TransactionListView.HandleUpdateTransaction | components/transaction-list.tsx:107-120 | without an id or onUpdate, nothing happens; otherwise one onUpdate call, and the dialog closes only on success |
| TransactionList.TransactionListView.HandleEditClick | components/transaction-list.tsx:122-125 | the record is being edited and the dialog is open |
| TransactionList.TransactionListView.HandleCloseModal | components/transaction-list.tsx:129-132 | the dialog is closed and nothing is being edited |
| TransactionList.TransactionListView.NavigateToPage | components/transaction-list.tsx:134-142 | "next" steps forward only below the last page; "previous" steps back only above page 1; the page stays in range |
| TransactionModal.MessagesFor | components/transaction-modal.tsx:91-92 | the edit texts exactly in edit mode (initialData present), the create texts otherwise |
| TransactionModal.DefaultValues | components/transaction-modal.tsx:81-86 | without initialData only the type is set, to income; with it, every field comes from the record |
| TransactionModal.BuildSubmit | components/transaction-modal.tsx:103-109 | the record carries initialData's id (none in create mode), the form's fields and the parsed amount |
| TransactionModal.SubmitOfAcceptedForm | components/transaction-modal.tsx:94-96 | a form the schema accepted yields a positive numeric amount |
| TransactionModal.SanitizeAmountInput | components/transaction-modal.tsx:123-125 | the output holds only 0-9 and ',' and is no longer than the input |
| TransactionModal.SanitizeIsSubsequence | components/transaction-modal.tsx:123-125 | the output is a subsequence of the input, in order |
| TransactionModal.SanitizeCounts | components/transaction-modal.tsx:123-125 | every digit and comma survives as often as it occurs; every other character is gone |
| TransactionModal.SanitizeFixpoint | components/transaction-modal.tsx:123-125 | text of only digits and commas is returned unchanged |
| TransactionModal.SanitizeIdempotent | components/transaction-modal.tsx:123-125 | filtering twice equals filtering once |
| TransactionModal.TransactionModalView.constructor | components/transaction-modal.tsx:70-82 | not loading, default form values, nothing submitted or closed |
| TransactionModal.TransactionModalView.ResetOnOpen | components/transaction-modal.tsx:84-88 | opening resets the form to its defaults; otherwise the form is kept |
| TransactionModal.TransactionModalView.BeginSubmit | components/transaction-modal.tsx:98-99 | the dialog is busy |
| TransactionModal.TransactionModalView.FinishSubmit | components/transaction-modal.tsx:103-113 | one record handed to onSubmit, not busy, form reset |
| TransactionModal.TransactionModalView.OnSubmitForm | components/transaction-modal.tsx:98-114 | one record handed to onSubmit, not busy, form reset |
| TransactionModal.TransactionModalView.HandleSubmit | components/transaction-modal.tsx:169 | a rejected form reports its issues and changes nothing; an accepted one is submitted once, the dialog is not busy and the form is reset to its defaults; every submitted amount is positive |
| TransactionModal.TransactionModalView.HandleClose | components/transaction-modal.tsx:116-121 | does nothing while busy; otherwise resets the form and calls onClose once |
| TransactionModal.TransactionModalView.HandleAmountChange | components/transaction-modal.tsx:127-130 | the amount field becomes the filtered text, made only of digits and commas |

## Left out

- The server-side guards `typeof window === "undefined"` (lib/storage.ts, services/api/config.ts) are left out. The model is always in the browser.
- JSON (de)serialisation of localStorage is left out. Each key holds its value, and the round trip is taken as exact.
- saveTransactionsById is left out. Nothing calls it, and its order depends on JavaScript object key order.
- Floating point is not modelled. Amounts are exact reals, so the sums are exact where the source's may round.
- Validation.ParseFloat: no exponents, no "Infinity", only ASCII white space, and no other Unicode white space.
- `amount.toString().replace(".", ",")` is left out: transaction-list.tsx:102 and :233 format a number as text. The edit dialog's initial amount text and the text `onUpdate` receives are not built. The update log records the numeric record instead.
- Timers are inputs. The race is the `timedOut` flag. The modal's 500 ms delay is the split between BeginSubmit and FinishSubmit. The timeouts of getSummary calls made from the hook are not modelled: there it always answers in time.
- React scheduling is left out: stale closures, batched `setState`, and overlapping calls (for example a load running while a delete is in flight). Each operation runs to completion before the next starts.
- console.error is left out. Toasts are a log, without the toast library's display, dismissal or limit.
- Validation.ValidateLogin: the email format check of the validation library is the input `wellFormedEmail`.
- Validation.ValidateTransaction: the record arrives with text fields. Missing description, amount or category fields (the library's "Required" issues) are not modelled; a missing type is.
- Pagination: a page size of 0 is excluded by `requires pageSize > 0`. In JavaScript `n / 0` gives Infinity or NaN without throwing, so the source would show no usable page. The inline copy in the transaction table uses the constant 5.
- TransactionModal.TransactionModalView: react-hook-form is reduced to a values record. `reset()` returns the form to DefaultValues(initialData). Field registration, watched values and per-field error display are not modelled.
- AuthService.Login and AuthService.Register: for a thrown error, the timer winning the race is the `timedOut` input. The error is then reported as "Request timeout".
- The artificial delays and router navigation of hooks/use-auth.ts are outside this model, as are summary cards, the header, the loader and the pages.

## Findings

| source | as written | input that shows it | evidently intended | confidence | as-written member | corrected member |
|---|---|---|---|---|---|---|
| services/rest/transactions.rest.ts:85 | `response.data ?? []` turns every failed request into a delivered empty list. The hook's catch and rollback (hooks/use-transactions.ts:229-237) can never run, so the hook shows [] and "Transação excluída com sucesso!". create, update and get share the pattern. | The hook holds "ana@example.com" while the store has no current-user record (signed out in another tab). The list is [Salary, Rent]; delete Salary. | The failure reaches the hook: the list [Salary, Rent] is restored and "User not authenticated" is shown for retry. The store is untouched either way. | not executed; medium | TransactionsHook.SwallowedDeleteFailure | TransactionsHook.CheckedDeleteRestores |
