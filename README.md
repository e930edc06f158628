# Production records: a verified model

A browser application keeps the records of a produce-processing business:
production runs (weight, waste, head count, infestation), purchases of raw
material, stock-outs, two kinds of service work done for clients
(production services and drying, "étuvage"), user accounts with per-tab
permissions, and the master-data lists the forms offer. Under its screens
sit small in-memory computations over these records. This project models
them in Dafny and proves what they promise:

- **Stock** (`stock.dfy`, `stock_journal.dfy`, `stock_forms.dfy`):
  - the per-item reconciliation of purchases against stock-outs, built by the
    two tallying loops over a key-ordered dictionary and then sorted by stock;
  - the searchable journals;
  - the stock-in form: its upper-cased lot field, its total that follows
    quantity and price, and its partial reset;
  - the edit-or-add dispatch of the two stock forms.
- **Lot traceability** (`lot.dfy`): an outer join of purchases and production
  on the lot number. It gives per-lot sums, the last purchase of each lot, the
  mean production infestation, yield and infestation drift, and lists lots by
  descending lot number.
- **Dashboard** (`dashboard.dfy`): today's figures and trend arrow, the month's
  metrics with their two division guards, the per-client summary loop, and
  the share bar.
- **History** (`history.dfy`): the case-insensitive search and the month
  grouping. The grouping pushes each record into its month, writes each
  group's summary, sorts its records newest first, and sorts the groups by
  descending month.
- **Purchases** (`purchase.dfy`): the month and global spending, the
  per-category loop, the six monthly trend buckets, the purchase form and the
  history order.
- **Services** (`prestation_prod.dfy`, `prestation_etuvage.dfy`,
  `editflow.dfy`): the monthly statistics with distinct working days, the
  forms and their resets, the drying form's shared weight field, and the
  edit-or-add flow of both modules.
- **Administration** (`management.dfy`):
  - adding and removing master-data values (trimmed, duplicates refused);
  - toggling a user's tabs;
  - creating an operator, with a user name unique up to case;
  - writing a backup into the browser store under the "prod_" key prefix.
- **Frame and sign-in** (`layout.dfy`, `login.dfy`): tab permissions, the menu,
  tab headings, first-run administrator creation and the credential lookup.
- **Top-level component** (`app.dfy`, `record_form.dfy`): today's totals, the
  production log with prepend-on-add and filter-on-delete, the quick form, the
  small admin list editor, and the full production form.

Shared modules:
- `types.dfy`: the records and drafts.
- `seqs.dfy`: map, filter, sum, group-by-key and first-seen order, with their
  lemmas.
- `sorting.dfy`: a stable insertion sort that stands for the comparator sorts.
- `strings.dfy`: case mapping, JavaScript `trim`, substring search and string
  order.
- `metrics.dfy`: the field projections and the `x || 1` guard.
- `options.dfy`: an Option type.

Each dictionary-building loop (`forEach` with `+=`, `++` or `push` into an
object) is a method over a `map` and the list of its keys in insertion order
(the order `Object.entries` and `Object.keys` follow). Each such method is
proved equal to a pure specification function. The properties are lemmas
about that function. Form and screen state are classes whose methods state
the whole new state. Dates are not parsed: the day is a string parameter,
and a month is a `YearMonth` computed by a `monthOf` parameter.

Two points of the code are kept as they are, though they are inconsistent:
- The code guards its divisions by the head count in two ways. Today's yield
  on the dashboard (components/Dashboard.tsx:34) is 0 when nobody is
  counted. The month metrics, the client summary and the month groups
  instead divide by `employees || 1`, which gives the whole weight.
  `Dashboard.GuardsDiffer` exhibits the difference.
- Lot numbers are not normalised before the join. Every lot field of the
  forms upper-cases what is typed, and the service forms have no lot field
  (their lot is "N/A"). Lots that differ only in case can therefore come only
  from imported or restored data, and they are then different lots.

## Model

| member | source | states |
|---|---|---|
| StockModule.StockSummary | components/StockModule.tsx:36-55 | the two tallying loops, the listing in key order and the sort compute exactly StockSummarySpec |
| StockModule.StockSummaryItems | components/StockModule.tsx:39-49 | an item has exactly one line when some purchase or stock-out names it, and none otherwise |
| StockModule.StockSummaryTotals | components/StockModule.tsx:39-53 | a line's totalIn and totalOut are the quantity sums of its item's purchases and stock-outs; currentStock is their difference |
| StockModule.StockSummarySorted | components/StockModule.tsx:54 | lines come in non-increasing currentStock order |
| StockModule.StockSummaryOverdrawn | components/StockModule.tsx:49-53 | 200 kg in and 250 kg out gives a stock of -50: a negative stock is kept, not clamped |
| StockModule.AddPurchase | components/StockModule.tsx:39-42 | one purchase callback keeps the tallies equal to the per-item sums over the purchases seen, in first-seen key order |
| StockModule.AddStockOut | components/StockModule.tsx:44-47 | one stock-out callback keeps the tallies equal to the per-item in and out sums, in first-seen key order |
| StockModule.TallyPurchases | components/StockModule.tsx:39-42 | after the purchase loop each item seen holds the sum of its purchases and no stock-out, in first-seen order |
| StockModule.TallyStockOuts | components/StockModule.tsx:44-47 | after the stock-out loop each item holds its in and out sums; an item first met in a stock-out starts at zero |
| StockModule.ListTallies | components/StockModule.tsx:49-53 | the listing gives, for each key in order, the line with its totals and their difference |
| StockModule.ItemNamed | components/StockModule.tsx:39-47 | an item is among the keys exactly when some purchase or stock-out names it |
| StockJournal.FilteredPurchases | components/StockModule.tsx:57-62 | the purchase journal is newest first and never longer than the purchases; with no term it is every purchase as often as it occurs |
| StockJournal.FilteredPurchasesSpec | components/StockModule.tsx:57-62 | with no term every purchase is listed; with one, exactly the purchases whose lot, item or supplier contains it, ignoring case |
| StockJournal.FilteredStockOuts | components/StockModule.tsx:64-69 | the stock-out journal is newest first and never longer than the stock-outs; with no term it is every stock-out as often as it occurs |
| StockJournal.FilteredStockOutsSpec | components/StockModule.tsx:64-69 | the same membership for stock-outs, searching lot, item or reason |
| StockForms.StockInForm.constructor | components/StockModule.tsx:271-302 | the form holds the defaults, or the edited purchase's fields |
| StockForms.StockInForm.SetLotNumber | components/StockModule.tsx:327 | the lot is stored upper-cased; nothing else changes |
| StockForms.StockInForm.SetQuantity | components/StockModule.tsx:347 | the quantity is set and totalAmount == quantity × unitPrice afterwards |
| StockForms.StockInForm.SetUnitPrice | components/StockModule.tsx:351 | the unit price is set and totalAmount == quantity × unitPrice afterwards |
| StockForms.StockInForm.Submit | components/StockModule.tsx:304-311 | an empty lot sends nothing and changes nothing; otherwise the form is sent as is; a new entry then clears lot, quantity, price and total and keeps the rest; an edit keeps everything |
| StockForms.StockView.constructor | components/StockModule.tsx:31-33 | the screen opens on the real-time tab with nothing being edited |
| StockForms.StockView.SelectSubTab | components/StockModule.tsx:94-97 | the tab changes; each edit survives only on its own form's tab |
| StockForms.StockView.StartEditPurchase | components/StockModule.tsx:73-76 | the purchase is being edited and the stock-in tab is shown |
| StockForms.StockView.StartEditStockOut | components/StockModule.tsx:78-81 | the stock-out is being edited and the stock-out tab is shown |
| StockForms.StockView.SubmitPurchase | components/StockModule.tsx:160-168 | while editing: an update of the edited id, edit mode cleared, journal shown; otherwise: an addition |
| StockForms.StockView.SubmitStockOut | components/StockModule.tsx:176-183 | the same dispatch for stock-outs |
| LotTraceability.LotData | components/LotTraceability.tsx:11-55 | the purchase loop, the production loop, the averaging loop, the listing and the sort compute exactly LotDataSpec |
| LotTraceability.CollectPurchase | components/LotTraceability.tsx:26-33 | one purchase callback keeps every lot equal to its sums and its last purchase over the purchases seen |
| LotTraceability.CollectRecord | components/LotTraceability.tsx:36-43 | one production callback appends the record to its lot and keeps the lot's sums right |
| LotTraceability.WriteAverage | components/LotTraceability.tsx:46-52 | one averaging step finishes exactly one more lot of the key order |
| LotTraceability.CollectPurchases | components/LotTraceability.tsx:26-33 | after the purchase loop every lot bought holds its sums and last purchase, in first-seen order |
| LotTraceability.CollectRecords | components/LotTraceability.tsx:36-43 | after the production loop every lot holds its records and sums, lots only produced included |
| LotTraceability.WriteAverages | components/LotTraceability.tsx:46-52 | after the averaging loop every lot holds its mean production infestation |
| LotTraceability.ListLots | components/LotTraceability.tsx:54 | the listing gives each lot's joined and averaged entry, in first-seen order |
| LotTraceability.LotNamed | components/LotTraceability.tsx:26-43 | a lot number is among the keys exactly when a purchase or a production record carries it |
| LotTraceability.LotEntryMember | components/LotTraceability.tsx:26-52 | every listed lot is the joined and averaged entry of its lot number |
| LotTraceability.LotDataLots | components/LotTraceability.tsx:26-43 | the join is outer: a lot number has exactly one line when a purchase or a production record carries it, and none otherwise |
| LotTraceability.LotDataTotals | components/LotTraceability.tsx:30-52 | production is the lot's records in input order; producedKg, wasteKg and purchasedKg are sums; infestationProdAvg is the mean, or 0 without production |
| LotTraceability.LotDataPurchase | components/LotTraceability.tsx:30-38 | purchase and infestationPurchase come from the lot's last purchase; a lot never bought has no purchase, 0 kg bought and a purchase infestation of 0 |
| LotTraceability.LastPurchaseIsLast | components/LotTraceability.tsx:30-32 | the stored purchase is absent exactly when no purchase has the lot; otherwise it has the lot and no later purchase has it |
| LotTraceability.LotDataSorted | components/LotTraceability.tsx:54 | lines come by descending lot number |
| LotTraceability.YieldPercent | components/LotTraceability.tsx:70-72 | yield × purchasedKg == producedKg × 100 when something was bought, 0 otherwise |
| LotTraceability.YieldPercentBounded | components/LotTraceability.tsx:70-72 | producing between 0 and the bought weight gives a yield between 0 and 100 |
| LotTraceability.UnboughtLotNoYield | components/LotTraceability.tsx:70-72 | a lot never bought shows a yield of 0 |
| LotTraceability.InfestationDrift | components/LotTraceability.tsx:155-157 | drift added to the purchase infestation gives the production mean; it is marked positive exactly when the mean is larger |
| Dashboard.TodayMetrics | components/Dashboard.tsx:30-35 | totalKg, totalEmp and totalWaste are the sums over the day's records; yield × totalEmp == totalKg when totalEmp > 0, and the yield is exactly 0 otherwise |
| Dashboard.TrendArrow | components/Dashboard.tsx:109-111 | no arrow without production; up exactly when today's kg is at least yesterday's |
| Dashboard.OtherDayIgnored | components/Dashboard.tsx:22-37 | a record of another day changes neither today's metrics nor the arrow |
| Dashboard.MonthlyRecords | components/Dashboard.tsx:24-27 | exactly the records whose date falls in the current month |
| Dashboard.MonthlyMetrics | components/Dashboard.tsx:40-59 | the four totals are the sums of units, weight, waste and head count over the month's records; all zero for an empty month; otherwise both yields times (employees or 1) give the totals, and the infestation and head-count means times the record count give their sums |
| Dashboard.GuardsDiffer | components/Dashboard.tsx:34-55 | on records without employees, today's yield is 0 while the month's weight yield is the whole weight |
| Dashboard.ClientSummary | components/Dashboard.tsx:61-88 | the client loop, the listing and the sort compute exactly ClientSummarySpec |
| Dashboard.AddToClient | components/Dashboard.tsx:70-79 | one callback keeps each client's count and sums equal to those over the month's records seen, in first-seen order |
| Dashboard.TallyClients | components/Dashboard.tsx:70-79 | after the loop each client of the month holds its count and sums, in first-seen order |
| Dashboard.ListClients | components/Dashboard.tsx:81-86 | the listing turns each client's sums into its line, in first-seen order |
| Dashboard.ClientLineMember | components/Dashboard.tsx:70-86 | every line is the entry of a client that has a record in the month |
| Dashboard.ClientSummaryClients | components/Dashboard.tsx:70-87 | a client has exactly one line when it has a record in the month, and none otherwise |
| Dashboard.ClientSummaryLine | components/Dashboard.tsx:81-86 | a line's weight is its records' sum; yieldPerEmp divides it by (employees or 1); avgInf and avgWaste are means over at least one record |
| Dashboard.ClientSummarySorted | components/Dashboard.tsx:87 | lines come in non-increasing totalKg order |
| Dashboard.ClientSummaryWeight | components/Dashboard.tsx:70-87 | the lines' weights add up to the month's weight |
| Dashboard.ShareWidth | components/Dashboard.tsx:189 | the bar is the share in percent, capped at 100 |
| Dashboard.ClientShareExact | components/Dashboard.tsx:189 | with no negative weight, a client's bar is its exact percentage of the month's weight |
| Dashboard.ShareUncapped | components/Dashboard.tsx:189 | a part between 0 and the whole is drawn at its exact percentage |
| History.FilteredRecords | components/History.tsx:15-23 | the filtered list holds only records of the log and is never longer than it |
| History.FilteredRecordsSpec | components/History.tsx:15-23 | no term returns the records unchanged; a term keeps exactly those whose client, lot or product contains it, ignoring case |
| History.FilterIgnoresCase | components/History.tsx:17-22 | searching a term or its lower-cased form gives the same list |
| History.GroupedRecords | components/History.tsx:25-60 | the grouping loop, the summary-and-sort loop and the final sort compute exactly GroupedSpec |
| History.PushRecord | components/History.tsx:32-41 | one callback keeps every group equal to its month's records in input order, in first-seen order |
| History.FinishGroup | components/History.tsx:43-57 | one step writes the summary of exactly one more group and sorts its records |
| History.FillGroups | components/History.tsx:32-41 | after the loop each month seen holds its records in input order, in first-seen order |
| History.FinishGroups | components/History.tsx:43-57 | after the loop every group holds its summary and its records newest first |
| History.ListGroups | components/History.tsx:59 | the listing gives each month's finished group in first-seen order |
| History.GroupMember | components/History.tsx:32-57 | every group is the finished group of a month that has a record |
| History.GroupedKeys | components/History.tsx:32-41 | a month has exactly one group when a record falls in it, and none otherwise |
| History.GroupRecords | components/History.tsx:40-56 | a group holds exactly its month's records, as often as they occur, newest first |
| History.NewestFirstSorted | components/History.tsx:56 | sorting a month's records newest first keeps exactly its records and orders them by non-increasing timestamp |
| Sorting.SortNewestFirst | components/History.tsx:56 | the `b.timestamp - a.timestamp` sort keeps every record as often as it occurs and leaves no older record ahead of a newer one |
| History.GroupSummaryValues | components/History.tsx:45-55 | totalU, totalKg and totalWaste are sums; avgYieldKg divides by (employees or 1); avgInf is the mean over at least one record |
| History.GroupCountsSum | components/History.tsx:32-41 | the group sizes add up to the number of filtered records |
| History.GroupedSorted | components/History.tsx:59 | groups come by descending month |
| PurchaseModule.CurrentMonthRecords | components/PurchaseModule.tsx:23-26 | exactly the purchases dated in the current month |
| PurchaseModule.Stats | components/PurchaseModule.tsx:18-64 | the sums, the category loop, the bucket loops and the listings compute exactly StatsSpec |
| PurchaseModule.AddToCategory | components/PurchaseModule.tsx:30-32 | one callback keeps each category's total equal to the amounts of the month's purchases seen, in first-seen order |
| PurchaseModule.TallyCategories | components/PurchaseModule.tsx:29-32 | after the loop each category of the month holds its spending, in first-seen order |
| PurchaseModule.ListCategories | components/PurchaseModule.tsx:61 | the listing gives each category with its spending |
| PurchaseModule.TrendKeys | components/PurchaseModule.tsx:37-40 | six months, the i-th being 5 - i months before now |
| PurchaseModule.TrendKeysDistinct | components/PurchaseModule.tsx:37-41 | the six months are all different |
| PurchaseModule.OpenBuckets | components/PurchaseModule.tsx:36-41 | the counted loop opens the six buckets, five months back up to now, each at 0 |
| PurchaseModule.AddToBucket | components/PurchaseModule.tsx:43-49 | a purchase adds to its month's bucket only if that bucket exists |
| PurchaseModule.FillBuckets | components/PurchaseModule.tsx:43-49 | after the loop each of the six buckets holds its month's spending over all purchases |
| PurchaseModule.ListBuckets | components/PurchaseModule.tsx:51-55 | the listing gives the six bars in bucket order |
| PurchaseModule.CountMonth | components/PurchaseModule.tsx:60 | countMonth is the number of the month's purchases, and each month purchase is counted as often as it occurs |
| PurchaseModule.MonthWithinGlobal | components/PurchaseModule.tsx:28-34 | with no negative amount, 0 <= month spending <= global spending |
| PurchaseModule.ByCategoryKeys | components/PurchaseModule.tsx:29-32 | one entry per category bought this month, none for others |
| PurchaseModule.ByCategorySum | components/PurchaseModule.tsx:29-34 | the category values add up to the month's spending |
| PurchaseModule.TrendShape | components/PurchaseModule.tsx:36-55 | six bars for five months back up to now, oldest first, all different, each holding its month's spending |
| PurchaseModule.TrendIgnores | components/PurchaseModule.tsx:43-49 | a purchase outside the six months changes no bar |
| PurchaseModule.TrendEndsWithMonth | components/PurchaseModule.tsx:28-49 | the last bar equals the month's spending |
| PurchaseModule.PurchaseForm.constructor | components/PurchaseModule.tsx:146-159 | the form opens with the first supplier, item and category, and zeros |
| PurchaseModule.PurchaseForm.SetLotNumber | components/PurchaseModule.tsx:202 | the lot is stored upper-cased |
| PurchaseModule.PurchaseForm.UpdateAmount | components/PurchaseModule.tsx:179-181 | quantity, price and total are set together, with total == quantity × price |
| PurchaseModule.PurchaseForm.Submit | components/PurchaseModule.tsx:161-177 | a missing supplier, item or lot sends nothing and changes nothing; otherwise the form is sent, then lot, variety, quantity, price, total and infestation are cleared and the rest kept |
| PurchaseModule.PurchaseHistory | components/PurchaseModule.tsx:283 | the history is every purchase as often as it occurs, newest first |
| PrestationProd.MonthlyRecords | components/PrestationProdModule.tsx:22-25 | exactly the services dated in the current month |
| Seqs.DistinctCount | components/PrestationProdModule.tsx:32 | the number of different dates (`uniqueDays`, as also in the drying module) is at most the record count, and positive exactly when there is a record |
| Seqs.DistinctCountFirstSeen | components/PrestationProdModule.tsx:32 | each different date is counted once: as many as the first-seen list of dates holds |
| PrestationProd.ServiceStats | components/PrestationProdModule.tsx:17-43 | the totals and the count are over exactly the month's services; a month without one shows only zeros |
| PrestationProd.PerDayAverages | components/PrestationProdModule.tsx:32-41 | the per-day averages times uniqueDays give back the head count and the weight; with no record they are 0 |
| PrestationProd.YieldPerEmployee | components/PrestationProdModule.tsx:27-40 | avgYield times the head count gives the output weight, and it is 0 when nobody is counted |
| PrestationProd.EmptyMonth | components/PrestationProdModule.tsx:27-41 | a month without services shows only zeros |
| PrestationProd.PrestationProdForm.constructor | components/PrestationProdModule.tsx:168-196 | the form holds the defaults, or the edited service's ten fields |
| PrestationProd.PrestationProdForm.Submit | components/PrestationProdModule.tsx:198-211 | the form is sent as is; a new entry then zeroes the weights, waste, total and head count and keeps date, lot, client, service type and price; an edit keeps the form |
| PrestationProd.Journal | components/PrestationProdModule.tsx:132 | the journal is every service as often as it occurs, newest first |
| EditFlow.EditController.constructor | components/PrestationProdModule.tsx:13-14 | a service screen opens on the statistics tab with nothing being edited |
| EditFlow.EditController.SelectSubTab | components/PrestationProdModule.tsx:62-65 | the tab changes; leaving the entry tab clears the edit (the drying module, lines 60-63 of its file, behaves alike) |
| EditFlow.EditController.StartEdit | components/PrestationProdModule.tsx:45-48 | the record is being edited and the entry tab is shown |
| EditFlow.EditController.Submit | components/PrestationProdModule.tsx:115-122 | while editing: an update of the edited id, edit cleared, journal shown; otherwise: an addition (the drying module, lines 103-110 of its file, behaves alike) |
| PrestationEtuvage.MonthlyRecords | components/PrestationEtuvageModule.tsx:22-25 | exactly the drying jobs dated in the current month |
| PrestationEtuvage.DryingStats | components/PrestationEtuvageModule.tsx:17-41 | turnover, intake weight and count are over exactly the month's drying jobs; a month without one shows only zeros |
| PrestationEtuvage.PerDayAverages | components/PrestationEtuvageModule.tsx:31-39 | the per-day averages times uniqueDays give back the head count and the intake weight; with no record they are 0 |
| PrestationEtuvage.YieldPerEmployee | components/PrestationEtuvageModule.tsx:28-38 | avgYield times the head count gives the intake weight (weightIn), and it is 0 when nobody is counted |
| PrestationEtuvage.EmptyMonth | components/PrestationEtuvageModule.tsx:27-39 | a month without drying jobs shows only zeros |
| PrestationEtuvage.PrestationEtuvageForm.constructor | components/PrestationEtuvageModule.tsx:156-184 | the form holds the defaults, or the edited job's ten fields |
| PrestationEtuvage.PrestationEtuvageForm.UpdateAmount | components/PrestationEtuvageModule.tsx:186-194 | weightIn and weightOut both become the quantity, and total == quantity × price |
| PrestationEtuvage.PrestationEtuvageForm.Submit | components/PrestationEtuvageModule.tsx:196-209 | the form is sent as is; a new entry then zeroes weights, humidity, total and head count and keeps duration and price; an edit keeps the form |
| PrestationEtuvage.Journal | components/PrestationEtuvageModule.tsx:120 | the journal is every drying job as often as it occurs, newest first |
| ManagementPanel.WithList | components/Management.tsx:42 | the category's list is replaced and the five others are kept |
| ManagementPanel.AddItem | components/Management.tsx:35-45 | a value empty after trimming is ignored; a value already listed is refused; otherwise the trimmed value is appended to that list only and its input is cleared |
| ManagementPanel.AddKeepsListsDistinct | components/Management.tsx:36-43 | an addition keeps a list free of repeats, and the value added has no edge spaces |
| ManagementPanel.AddTwice | components/Management.tsx:36-44 | pressing add again right after an addition does nothing; the same value typed again is refused |
| ManagementPanel.RemoveItem | components/Management.tsx:47-51 | once confirmed, the list becomes the old list without that value, the others in their order, and the other lists are untouched; unconfirmed, nothing changes |
| ManagementPanel.RemoveUndoesAdd | components/Management.tsx:42-49 | removing the value just added gives back the master data as it was |
| ManagementPanel.TogglePermission | components/Management.tsx:53-61 | the tab is granted exactly when it was not; other tabs are unaffected; a missing tab is appended |
| ManagementPanel.ToggleTwice | components/Management.tsx:54-59 | toggling twice restores the granted tabs, and the very list when the tab was missing |
| ManagementPanel.ToggleKeepsDistinct | components/Management.tsx:54-59 | toggling never lists a tab twice |
| ManagementPanel.CreateOperator | components/Management.tsx:63-84 | refused exactly when a field is empty or the user name is taken up to case; otherwise an operator with the lower-cased user name, the password and only the production tab |
| ManagementPanel.CreatedKeepsLoginsUnique | components/Management.tsx:67-79 | adding the created operator keeps user names unique up to case |
| ManagementPanel.ImportKeepsForeignKeys | components/Management.tsx:105-109 | a key without the "prod_" prefix is neither added, removed nor changed |
| ManagementPanel.ImportWritesPrefixed | components/Management.tsx:148-150 | every prefixed key of the backup takes the backup's value |
| ManagementPanel.ImportIdempotent | components/Management.tsx:148-150 | importing the same backup twice is importing it once |
| ManagementPanel.ImportSpec | components/Management.tsx:147-150 | every prefixed key of the backup takes the backup's value, every unprefixed key of the store keeps its value, and no key outside store and backup appears |
| ManagementPanel.LocalStore.ImportBackup | components/Management.tsx:147-150 | once confirmed, the key loop leaves the store equal to ImportSpec whatever the key order; unconfirmed, nothing changes |
| Layout.TabLabel | components/Layout.tsx:15-25 | every tab has a non-empty heading |
| Layout.TabLabelInjective | components/Layout.tsx:15-25 | no two tabs share a heading |
| Layout.IsTabAllowed | components/Layout.tsx:27-31 | an administrator opens every tab; the management tab only an administrator; anyone else a tab exactly when it was granted |
| Layout.MenuItems | components/Layout.tsx:33-40 | the six entries, in the fixed tab order |
| Layout.MenuAgreesWithPermissions | components/Layout.tsx:27-40 | each entry's allowed flag agrees with isTabAllowed, the management entry included |
| Layout.VisibleMenu | components/Layout.tsx:52 | at most one entry per tab, each one allowed and a tab the user may open |
| Layout.VisibleMenuTabs | components/Layout.tsx:52 | the visible menu offers exactly the allowed tabs, in the fixed order |
| Layout.AdminSeesEverything | components/Layout.tsx:28 | an administrator sees the whole menu |
| Layout.OperatorNeverManages | components/Layout.tsx:29-39 | an operator's menu never offers management, whatever was granted |
| Login.FindUser | components/Login.tsx:27 | none exactly when no account matches; otherwise the first account whose user name matches up to case and whose password matches exactly |
| Login.HandleSubmit | components/Login.tsx:16-31 | first run exactly when there is no account, creating an administrator with the lower-cased name and all tabs; later a login of the first matching account in list order, or the error exactly when none matches |
| Login.FindUserSkips | components/Login.tsx:27 | accounts that do not match are skipped |
| Login.FirstAdminSignsIn | components/Login.tsx:20-28 | the first administrator signs in with the same name in any case and the same password |
| Login.FirstAdminSeesEverything | components/Login.tsx:20-25 | the first administrator may open every tab and sees the whole menu |
| Login.CreatedOperatorSignsIn | components/Login.tsx:27-28 | a created operator signs in with its user name in any case and its password |
| App.DayTotalsOf | App.tsx:37-45 | today's count is at most the number of records, and a log with no record dated today gives zero totals |
| App.DayTotalsOfAdded | App.tsx:37-45 | a record added to the log counts in today's totals exactly when dated today |
| App.ProductionLog.constructor | App.tsx:20-24 | the log as loaded, on the dashboard |
| App.ProductionLog.AddRecord | App.tsx:47-51 | the new record at index 0, the earlier ones after it unchanged, the dashboard shown |
| App.ProductionLog.DeleteRecord | App.tsx:53-57 | once confirmed, exactly the records with that id go and the others stay in order; unconfirmed, nothing changes |
| App.DeleteUndoesAdd | App.tsx:47-55 | deleting by the id just given gives back the log as it was |
| App.QuickSubmit | App.tsx:198-202 | refused exactly when the lot is empty; otherwise the form is passed on unchanged |
| App.FreshQuickFormRefused | App.tsx:186-202 | the quick form as it opens is refused |
| App.ProductionLog.SubmitQuickForm | App.tsx:198-202 | accepted exactly when the lot is set, and then the record is prepended |
| App.AppendIfNonEmpty | App.tsx:250-251 | a non-empty entry is appended at the end; an empty one changes nothing |
| App.AddProduct | App.tsx:250 | a non-empty name is appended to the products, an empty one changes nothing, and every other list is untouched |
| App.AddClient | App.tsx:251 | a non-empty name is appended to the clients, an empty one changes nothing, and every other list is untouched |
| App.AdminAddsDuplicates | App.tsx:250-251 | there is no duplicate check: a listed product or client added again is listed twice |
| RecordForm.LoadRecordDraft | components/RecordForm.tsx:25-40 | the ten fields of the edited record are copied |
| RecordForm.LoadKeepsEveryField | components/RecordForm.tsx:25-40 | two records that load alike agree on all ten fields |
| RecordForm.Form.constructor | components/RecordForm.tsx:12-40 | the form holds the defaults, or the edited record's fields |
| RecordForm.Form.SetLotNumber | components/RecordForm.tsx:81 | the lot is stored upper-cased, and upper-casing it again changes nothing |
| RecordForm.Form.Submit | components/RecordForm.tsx:42-58 | no client or no lot sends nothing; otherwise the form is sent unchanged; a new entry then clears the four figures and keeps the rest; an edit keeps the form |
| RecordForm.NewFormIncomplete | components/RecordForm.tsx:12-23 | a new form is never accepted as it opens |

## Left out

- Rendering, styling and charts are not modelled.
- The AI analysis (the text-generation service, the insights screen, `runAiAnalysis`) is an external call and is not modelled.
- Google Drive sign-in, upload and download are network I/O. Restore and import are modelled from the backup object on.
- Loading and saving `localStorage`, the export download and the page reload are I/O.
- `Date` parsing and formatting are not modelled. The current day is a string parameter; the month of a date is a `monthOf` parameter returning a `YearMonth`; "now" is a `YearMonth` parameter. The French month labels of the history and the purchase trend are not modelled.
- Random ids (`generateId`, `crypto.randomUUID`) and `Date.now()` are parameters.
- `confirm` dialogs are a `confirmed` parameter. An `alert` is an outcome (`None`, `Duplicate`, `MissingField`, …).
- Numbers are exact reals. IEEE rounding, `NaN` and `parseFloat` are not modelled, so `x || 0` on a number is the number itself. `x || 1` is kept (`Metrics.OrOne`).
- `toLowerCase`/`toUpperCase` are modelled on ASCII and Latin-1 letters, with ÿ upper-cased to Ÿ and µ to the Greek capital mu. Full Unicode case mapping is not modelled. `Upper` keeps ß as it is, where JavaScript gives "SS", because `Upper` preserves length. A lot typed with ß therefore keeps it in the model.
- `localeCompare` is plain code-point order. The history orders its "YYYY-MM" month keys by (year, month), which is their string order only for four-digit years.
- The browser's own check of `required` fields runs before every submit handler. It refuses an empty date, text or select, and a numeric field whose 0 is drawn as an empty box (`value={x || ''}`). The submits below model the handler only, so each accepts drafts the browser would have stopped first:
- RecordForm.Form.Submit: the browser first refuses an empty date, lot, client, product or packaging and a 0 head count, unit count, weight or waste (components/RecordForm.tsx:72-130); after a new entry the cleared unit count, weight and waste must be typed again.
- PrestationProd.PrestationProdForm.Submit: the browser first refuses an empty date, client or service type and a 0 head count, weight in, weight out or waste (components/PrestationProdModule.tsx:220-254).
- PrestationEtuvage.PrestationEtuvageForm.Submit: the browser first refuses an empty date or client and a 0 weight brought in, head count, duration, humidity or unit price (components/PrestationEtuvageModule.tsx:218-262).
- PurchaseModule.PurchaseForm.Submit: the browser first refuses an empty date, lot, supplier, item or category and a 0 quantity or unit price (components/PurchaseModule.tsx:193-243).
- StockForms.StockInForm.Submit: the browser first refuses an empty date, lot, item or supplier and a 0 quantity or unit price (components/StockModule.tsx:323-351).
- Login.HandleSubmit: the browser first refuses an empty user name or password (components/Login.tsx:47,51); on the first run the model would register an administrator with empty credentials.
- ManagementPanel.CreateOperator: the browser first refuses an empty full name, login or password (components/Management.tsx:256-258); the handler refuses them too, and the model gives the handler's alert where the browser shows its own message.
- The dictionaries are plain JavaScript objects that test `!obj[name]` or read `obj[name] || 0`. A name that is a member of `Object.prototype` (`constructor`, `toString`, `valueOf`, `hasOwnProperty`, `__proto__`, …) is then found on the prototype. It gets no entry of its own, and `Object.entries` leaves it out. The model treats such a name like any other, so the following lemmas promise a line that the code loses:
- StockModule.StockSummaryItems: an item named after an `Object.prototype` member gets no line in the code (components/StockModule.tsx:40,45); the model lists it.
- Dashboard.ClientSummaryClients: a client named after an `Object.prototype` member gets no line in the code (components/Dashboard.tsx:71); the model lists it.
- LotTraceability.LotDataLots: a lot numbered after an `Object.prototype` member gets no line in the code (components/LotTraceability.tsx:27,37). Only imported data can carry such a lot, since the forms upper-case lots; the model lists it.
- PurchaseModule.ByCategoryKeys: a category named `constructor` or `toString` gets a string total in the code, and one named `__proto__` is dropped (components/PurchaseModule.tsx:31); the model gives each its sum.
- Object keys are taken in insertion order. JavaScript lists integer-like keys (a lot or item named "12") first, and that exception is not modelled.
- JavaScript `sort` is modelled by a stable insertion sort that returns a new list. The in-place mutation of the records arrays by the purchase history and the service journals is not modelled.
- Production records carry `totalProduction`, which the dashboard and the history read. The quick form of `App.tsx` sets no such field, and the model gives it 0.
- A user's password is an `Option`: accounts without one never sign in.
- Plain field setters of the forms (date, client, product, supplier, …) are not modelled. The lot setters, the amount setters and the submits are.
- The stock-out form (`StockOutForm`) and its reset are not modelled. The dispatch of its submit is (`StockForms.StockView.SubmitStockOut`).
- The purchase screen's sub-tab state and the closing of the operator form after a creation are not modelled.
- The shortened captions of the mobile bottom bar are not modelled.
