# ege-takip: a Dafny model of the page logic

ege-takip is a single-page web application that a group of restaurants uses to
track supplier accounts (purchases and payments), end-of-day cash reports,
and a shared cash ledger. Its logic lives in one client component,
`app/page.js`. This project models the pure part of that component in Dafny
and proves properties of it:

- **Supplier ledger** (`ledger.dfy`). Covers a supplier's balance (purchases
  minus payments), the suppliers of the selected business, and that business's
  total debt.
- **Reconciliation** (`reconciliation.dfy`). Covers a report's expense total,
  the counted-cash difference, the expense list being edited (add and remove),
  the consolidated daily summary over all businesses, and the day's cash-ledger
  totals in and out.
- **Access** (`access.dfy`). Covers the edit/delete policy (an admin may
  always edit; anyone else only records dated today), the cash-ledger gate,
  and the list of businesses a user may open.
- **Patches** (`patches.dfy`). Covers the in-memory patches the page applies
  after a successful backend call: the per-kind filters of the final delete
  step, and the by-id replace of a supplier edit.
- **Delete flow** (`delete_flow.dfy`). Covers the two-step delete
  confirmation as a state machine driven by clicks.
- **Recent edits** (`recent_edits.dfy`). Covers the "last five edits" box:
  records with an editor name, newest first, cut after five.
- **Search** (`search.dfy`). Covers the case-insensitive supplier search.

`common.dfy` holds the two array operations the page uses everywhere:
`filter` and a summing `reduce`. `records.dfy` holds the records the page
loads from its backend.

Amounts are integers, for example kuruş. Dates are the backend's `YYYY-MM-DD`
strings, compared for equality. "Today" (the page's Istanbul-time
`getTurkeyDate()`) is passed in as a parameter. An editor name of `""` stands
for every falsy `updated_by_name`. A backend call that throws is a `failed`
flag. When it is set, no local patch is applied.

## Model

| member | source | states |
|---|---|---|
| Ledger.SupplierBalance | app/page.js:309-313 | A supplier with no transactions of its own has balance 0; one whose own transactions are all non-negative purchases has a non-negative balance |
| Ledger.BalanceStep | app/page.js:309-313 | One more transaction moves a supplier's balance by exactly its signed effect: +amount for the supplier's purchase, −amount for its payment, 0 for another supplier's |
| Ledger.BalanceIsSignedSum | app/page.js:309-313 | The filter-then-two-reduces balance equals a single signed sum over all transactions |
| Ledger.BalanceIsPurchasesMinusPayments | app/page.js:309-313 | The balance is the sum of the supplier's ALIM amounts minus the sum of its ODEME amounts |
| Ledger.BalanceOnlyOwnTransactions | app/page.js:310 | Transactions of other suppliers never affect a balance |
| Ledger.BalanceExample | app/page.js:309-313 | ALIM 500, ALIM 300 and ODEME 200 give a balance of 600 |
| Ledger.BusinessSuppliers | app/page.js:303 | A supplier is listed iff a business is selected and the supplier belongs to it; no business selected lists none; the list keeps the loaded order (a subsequence of all suppliers) |
| Ledger.TotalDebt | app/page.js:315 | With no business selected the total debt is 0 |
| Ledger.TotalDebtAddSupplier | app/page.js:315 | A supplier adds its balance to its own business's total debt and nothing to any other business's |
| Ledger.TotalDebtDependsOnIdsOnly | app/page.js:315 | Total debt depends only on the suppliers' ids and owning businesses, not on names, phones or notes |
| Ledger.FilterKeepsUniqueIds | app/page.js:303 | Filtering a supplier list with unique ids keeps the ids unique |
| Ledger.EffectHitsOneSupplier | app/page.js:315 | With unique supplier ids, a transaction changes at most one supplier's balance |
| Ledger.TotalDebtByTransactions | app/page.js:309-315 | With unique ids, a business's total debt is the signed sum over all transactions owned by one of its suppliers |
| Reconciliation.ExpTotal | app/page.js:603 | A missing expense list totals 0; non-negative expenses give a non-negative total |
| Reconciliation.ExpTotalAppend | app/page.js:603 | The total of two expense lists back to back is the sum of their totals |
| Reconciliation.CashDiff | app/page.js:604 | The difference is negative, zero or positive exactly when counted cash is below, at or above cash takings minus expenses |
| Reconciliation.CashDiffExample | app/page.js:604 | Cash 1000 with expenses 30 and 20 and counted 950 gives 0; counted 850 gives −100 |
| Reconciliation.AddExpense | app/page.js:439-443 | An empty description or a missing amount leaves the list unchanged; otherwise exactly one expense with the fresh id is appended |
| Reconciliation.RemoveExpense | app/page.js:445 | An expense is kept iff its id differs from the removed id, and the kept ones stay in list order (a subsequence of the list) |
| Reconciliation.AddExpenseTotal | app/page.js:439-446 | An accepted expense raises the running total by its amount; a rejected one leaves it unchanged |
| Reconciliation.RemoveExpenseTotal | app/page.js:445-446 | Removing an id lowers the total by exactly the amounts that carried that id |
| Reconciliation.RemoveUndoesAdd | app/page.js:439-445 | Removing the expense just added under a fresh id restores the list |
| Reconciliation.CashDiffAddExpense | app/page.js:603-604 | One more expense of amount a on a report raises its cash difference by a |
| Reconciliation.FindReport | app/page.js:610 | No report is found iff none belongs to the business; a found report belongs to it and is the first in list order |
| Reconciliation.LineFor | app/page.js:617-625 | A business's line carries its name and its report's card, cash and meal-card figures, the report's expense total, total = card + cash + meal cards and net total = total − expenses |
| Reconciliation.LinesAppend | app/page.js:613-617 | Appending a line raises every column sum by that line's figure |
| Reconciliation.AddLine | app/page.js:611-626 | Handling a business that has a report keeps the running totals equal to the column sums of the emitted lines |
| Reconciliation.Visit | app/page.js:610-626 | One loop step: a business without a report leaves the running totals as they are; one with a report appends exactly its line; the totals stay the column sums |
| Reconciliation.Accumulate | app/page.js:609-627 | After the loop, every running total equals the column sum of the emitted lines, and there are no more lines than businesses |
| Reconciliation.AccumulateSnoc | app/page.js:609-627 | Running the loop over one more business is one more step after the loop over the others |
| Reconciliation.AccumulateSkips | app/page.js:609-627 | A business without a report can be taken out of the business list, wherever it stands, without changing the loop's result |
| Reconciliation.DailySummary | app/page.js:606-630 | total = card + cash + meal cards; net total = total − expenses; each line is internally consistent; every total is the column sum of the lines |
| Reconciliation.SummaryOmitsBusinessWithoutReport | app/page.js:609-627 | A business without a report on the date, wherever it stands among the businesses, contributes no line and nothing to any total: the summary is that of the list without it |
| Reconciliation.FindReportOnDate | app/page.js:607-610 | When each business has at most one report per day, the lookup among the date's reports finds exactly the business's report on that date |
| Reconciliation.SummaryAddsFoundReport | app/page.js:610-626 | A business whose lookup among the date's reports finds a report appends exactly that report's line and adds its figures to the totals |
| Reconciliation.SummaryAddsBusinessWithReport | app/page.js:610-626 | When each business has at most one report per day, a business with a report on the date appends exactly its line and adds its figures to the totals |
| Reconciliation.SummaryDependsOnDayReports | app/page.js:607 | Report lists that agree on the date's reports give the same summary |
| Reconciliation.SummaryIgnoresOtherDates | app/page.js:607 | A report of another date, wherever it stands in the report list (a new one goes in front, app/page.js:484), never changes the summary |
| Reconciliation.CashDayTotals | app/page.js:839-841 | The day's in and out totals together account for every movement on that date; with no movement on the date both are 0, so with CashDayAddMovement each column is fixed |
| Reconciliation.CashDayAddMovement | app/page.js:839-841 | A movement counts only towards its own date, and only in the column of its kind |
| Access.CanEdit | app/page.js:74-79 | An admin may always edit; anyone else (staff, or nobody signed in) may edit iff the record's date is today |
| Access.CanEditStaffIsOneDay | app/page.js:74-80 | An admin may edit whatever a non-admin may; a non-admin may edit records of one date only, today's |
| Access.CashLedgerOpenToAll | app/page.js:82-85 | Every signed-in user, admin or staff alike, may open the cash ledger; with nobody signed in it stays closed |
| Access.UserAllowedBusinesses | app/page.js:298-301 | A business is listed iff someone is signed in and their allowed list contains its id; a missing list allows none; the businesses keep their order (a subsequence of all businesses) |
| Access.AllowedBusinessesIgnoreRole | app/page.js:298-301 | The role plays no part in the list: an admin is held to the allowed list like staff |
| Access.AllowedBusinessesAll | app/page.js:298-301 | A user whose list allows every business sees all of them, in order |
| Patches.DeleteFromStore | app/page.js:573-588 | Per kind: a deleted supplier takes its transactions with it and closes the detail pane; a transaction, report or cash movement is removed by id; every other record and collection is kept in order |
| Patches.DeleteSupplierKeepsOtherBalances | app/page.js:576-577 | Deleting a supplier leaves every other supplier's balance unchanged |
| Patches.DeleteSupplierDebt | app/page.js:576-577 | Deleting a supplier lowers its business's total debt by exactly its balance and leaves other businesses' debts unchanged |
| Patches.EditSupplier | app/page.js:337-357 | Nothing changes without an edited supplier, with an empty name, or when the update throws; otherwise the suppliers with the edited id and the open supplier with that id take the form's fields, and ids, businesses and order stay |
| Patches.EditSupplierKeepsDebt | app/page.js:347 | Editing a supplier never changes any business's total debt |
| Patches.EditSupplierIdempotent | app/page.js:347-350 | Submitting the same form twice has the effect of submitting it once |
| DeleteFlow.InitiateDelete | app/page.js:566 | The modal opens on step 1 with the target and name given |
| DeleteFlow.ConfirmStep1 | app/page.js:567 | The modal moves to step 2, keeping target, name and visibility |
| DeleteFlow.CancelDelete | app/page.js:597 | The modal closes and forgets the target, from any step |
| DeleteFlow.ConfirmStep2 | app/page.js:569-595 | The modal always closes; the data change iff there is a target and no call threw, and then by exactly that target's patch |
| DeleteFlow.Apply | app/page.js:566-597 | Only the final confirmation can change the data |
| DeleteFlow.ModalButtons | app/page.js:652-660 | With the modal hidden only the trash buttons are offered; with it shown the trash buttons are not, cancel always is, "continue" exactly on step 1, and the final confirmation exactly when "continue" is not |
| DeleteFlow.EnabledKeepsWellFormed | app/page.js:566-597 | Clicking an offered button keeps the record either hidden with no target, or shown on step 1 or 2 with a target |
| DeleteFlow.NoFinalConfirmKeepsStore | app/page.js:566-597 | A run of clicks without the final confirmation never changes the data |
| DeleteFlow.InitiateThenCancel | app/page.js:566-597 | Opening the modal and cancelling leaves everything as it was |
| DeleteFlow.InitiateContinueConfirm | app/page.js:566-595 | Opening, continuing and confirming deletes exactly the chosen target and closes the modal |
| DeleteFlow.PrefixShape | app/page.js:566-597 | After any run of offered clicks, step 1 means the last click opened the modal, and step 2 means the last two clicks opened it and continued |
| DeleteFlow.TwoConfirmationsBeforeDeletion | app/page.js:566-595 | Every final confirmation comes right after "continue", which comes right after the trash button, and deletes exactly that button's target, or nothing if a call threw |
| RecentEdits.TransactionItems | app/page.js:91-96 | Every transaction with an editor name yields an entry, and every entry comes from such a transaction |
| RecentEdits.ReportItems | app/page.js:98-103 | Every report with an editor name yields an entry, and every entry comes from such a report |
| RecentEdits.CashItems | app/page.js:105-110 | Every cash movement with an editor name yields an entry, and every entry comes from such a movement |
| RecentEdits.Items | app/page.js:88-111 | Every entry of any page carries a non-empty editor name |
| RecentEdits.PrependNewest | app/page.js:112 | An entry at least as new as the head of a newest-first list can be put in front and the list stays newest first |
| RecentEdits.Insert | app/page.js:112 | Inserting into a newest-first list keeps it newest first and adds exactly that one entry |
| RecentEdits.SortNewestFirst | app/page.js:112 | The sort yields a newest-first permutation of the entries |
| RecentEdits.TakeKeepsNewest | app/page.js:112 | Cutting a newest-first list leaves out only entries no newer than any kept one |
| RecentEdits.Newest | app/page.js:112 | The first k sorted entries: min(k, n) of them, newest first, drawn from the entries, and none left out is newer than a kept one |
| RecentEdits.RecentEdits | app/page.js:88-113 | At most five entries, min(5, n) in number, newest first, all with editors, drawn from the page's entries; none left out is newer than a shown one |
| RecentEdits.FewEditsAllShown | app/page.js:112 | With no more entries than the box holds (five), every entry is shown |
| RecentEdits.UnsignedTransactionIgnored | app/page.js:91 | A transaction without an editor name, wherever it stands in the list, never changes the box; a freshly inserted transaction carries none and goes in front (app/page.js:375-385, 390) |
| RecentEdits.TransactionEditShownOrOutdated | app/page.js:88-113 | Every transaction entry shown is an edited transaction; an edited transaction is shown, or five entries at least as new fill the box |
| Search.ToLower | app/page.js:306 | A–Z map to a–z; Ç, Ğ, Ö, Ş and Ü map to ç, ğ, ö, ş and ü, each pair named; other characters are kept; no capital remains |
| Search.LowerString | app/page.js:306 | Lower-casing keeps the length and maps each character |
| Search.LowerStringIdempotent | app/page.js:306 | Lower-casing twice is lower-casing once |
| Search.Includes | app/page.js:306 | `includes` is true iff the query occurs at some position of the name |
| Search.IncludesEmpty | app/page.js:306 | The empty query occurs in every name |
| Search.FilteredSuppliers | app/page.js:304-307 | A supplier is listed iff it belongs to the selected business and the query is empty or its lower-cased name contains the lower-cased query; order is kept |
| Search.EmptyQueryIsFilter | app/page.js:304-307 | The empty-query shortcut gives the same list as filtering with "" |
| Search.SearchIgnoresCase | app/page.js:306 | Queries that lower-case alike give the same list |
| Search.SearchLowerQuery | app/page.js:306 | Searching for a query or for its lower-cased form gives the same list |

The daily summary is stated under the rule that each business has at most one
report per date (`OneReportPerBusinessDay`). The page keeps that rule only in
its UI: the "add report" button is hidden when a report exists
(app/page.js:932). Nothing enforces it on the backend, so it is a
precondition of `FindReportOnDate` and `SummaryAddsBusinessWithReport` only.
`SummaryAddsFoundReport` needs no such rule: it speaks of whatever report the
lookup finds.

Take a report with cash 1000 and expenses 30 and 20. The page's formula
`actual_cash − (cash − expenses)` gives a difference of 0 when 950 is counted,
and −100 when 850 is counted. `CashDiffExample` states both cases.

## Left out

- Backend I/O (Supabase queries, inserts, updates, deletes), `localStorage`, `useEffect` loading and JSX rendering. They are effects outside the page's logic; a thrown call is the `failed` flag.
- `confirmDeleteStep2` reading the `{error}` result: the page never checks it, so a backend error that does not throw still applies the local patch. The model reproduces this: only `failed` (a throw) skips the patch.
- `confirmDeleteStep1`/`confirmDeleteStep2` not checking the current step. They are modelled as written; `Enabled` describes which buttons the modal offers.
- The clock and time zone (`getTurkeyDate`, `Intl`, `toLocaleString`) and the display helpers `formatMoney`, `formatDateTR` and `formatTimeTR`. "Today" is a parameter, and entries carry numbers, not formatted text.
- `parseTurkishNumber`, `Number()` and floating point. Amounts are exact integers; NaN and rounding are not modelled.
- `handleAddSupplier`, `handleAddTransaction`, `handleAddReport` and `handleAddCashMovement`: each is a backend insert, and none reloads. The inserted supplier is appended to the list (app/page.js:328); a new transaction, report or cash movement is put in front (app/page.js:390, 484, 557). Inserts are not in this model.
- `handleEditTransaction` and `handleEditReport`, and the report-save confirmation gate. After the backend update, the record with the edited id is replaced in place by one carrying the form's fields (app/page.js:421-425, 525-529); nothing reloads. Only the supplier edit (`Patches.EditSupplier`) is modelled; these two follow the same by-id pattern.
- `app/layout.js` is not part of this model; it is markup only.
- RecentEdits.SortNewestFirst: `Array.prototype.sort` is stable. The model's insertion sort also keeps equally new entries in list order, but stability is not stated in its contract.
- RecentEdits.RecentEdits: `updated_at` is an integer timestamp here. An unparsable date (NaN in the comparator) is not modelled.
- Search.ToLower: covers A–Z and Ç, Ğ, Ö, Ş, Ü only; every other capital is kept as it is. JavaScript's `toLowerCase` also lower-cases the other Latin capitals (Â, Î, Û, É, …), capital İ (to two code units) and the capitals of other scripts; none of these is modelled.
- The stale `updated_at` after a local patch: edited records keep their loaded timestamps until the next reload. The model does not track timestamps across patches.
- Reconciliation.SummaryAddsBusinessWithReport: requires at most one report per business and date, which only the page's UI upholds (app/page.js:932). Reconciliation.SummaryAddsFoundReport states the same without that rule, for the report the lookup finds.
