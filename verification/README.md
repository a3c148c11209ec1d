# Delivery ledger — a Dafny model

This project models the ledger arithmetic and list handling of a courier
delivery-tracking web app. The app's React components copy that logic
inline:

- the main dashboard and the per-area ("pincode") dashboards filter
  delivery entries by a date window and by courier; the area dashboard
  filters cash advances the same way, the main dashboard by date only;
- they total the entries on summary cards and in a per-courier earnings
  chart;
- the area dashboard exports one spreadsheet row per entry, plus a
  per-courier summary block;
- the delivery form validates a new entry;
- the courier directory keeps names unique regardless of case.

The model has one module per component. All of them share a superset
delivery-entry record.

| module | file | models |
|---|---|---|
| `Seqs` | seqs.dfy | generic filter, sum, map, de-duplication and stable insertion sort, with their lemmas |
| `Domain` | domain.dfy | the entry, advance and courier records, the two rates, the `"All"` sentinel, end of day |
| `Filters` | filters.dfy | the date-window and courier filters that both dashboards use |
| `PincodeDashboard` | pincode_dashboard.dfy | the area page: its query, `addEntry`, the spreadsheet rows and summary block |
| `PincodeSummaryCards` | pincode_summary_cards.dfy | `calculateMetrics` |
| `SummaryCards` | summary_cards.dfy | the main dashboard's card totals, and the COD-card finding |
| `EarningsChart` | earnings_chart.dfy | `dataByBoy` and the sorted `chartData` |
| `Dashboard` | dashboard.dfy | `addEntry`, `addAdvance`, `deleteEntry`, `deliveryBoys`, the filtered lists |
| `DeliveryForm` | delivery_form.dfy | the entry schema, the COD check, the reset, the shortage-reason field as written (a string comparison) and as intended |
| `DeliveryBoysManager` | delivery_boys_manager.dfy | the name-sorted directory, case-insensitive duplicate check, removal |

Representation choices:

- Money and parcel counts are `int`.
- An instant is an `int` count of milliseconds of local wall-clock time.
  `setHours(23, 59, 59, 999)` is `Domain.EndOfDay`, the last millisecond of
  the instant's day.
- JavaScript's `Array.prototype.sort` is stable. It is modelled by a stable
  insertion sort over a total order, which gives the same result for the
  comparators used here.
- The per-area rate `COMPANY_RATES[pincode]` is defined outside the modelled
  files. It is the parameter `companyRate`.
- Fresh ids (`crypto.randomUUID()`, store document ids) and store timestamps
  are parameters.

## Model

| member | source | states |
|---|---|---|
| Domain.EndOfDay | src/components/PincodeDashboard.tsx:70-71 | The window's upper bound is on the same day as the picked date, at or after it, and at or after every instant of that day; the next millisecond starts the next day. |
| Filters.InWindow | src/components/PincodeDashboard.tsx:69-72 | Without a `from` date every instant is in the window. With one, an instant is in the window iff it is at or after `from` and its day is no later than the last day (`to`, or `from` when `to` is missing), whatever its time of day. |
| Filters.ByDate | src/components/PincodeDashboard.tsx:68-73 | With no `from` date every element is kept, in order. Otherwise an element is kept iff its date is in the window. The result is always a subsequence of the input, and every copy of a kept element is kept. |
| Filters.ByCourier | src/components/PincodeDashboard.tsx:75-77 | `"All"` keeps the input unchanged. Any other selection keeps exactly the elements whose name equals it. The result is always a subsequence. |
| Filters.FilteredAdvances | src/components/PincodeDashboard.tsx:80-88 | An advance is kept iff it belongs to the selected courier (or the selection is `"All"`) and lies in the date window. The result is a subsequence of the advances, and every copy of a kept advance is kept. |
| Filters.DateThenCourier | src/components/Dashboard.tsx:56-75 | Date filtering followed by courier filtering equals a single filter by both tests, and yields a subsequence of the original list. |
| Filters.AdvancesEitherOrder | src/components/PincodeDashboard.tsx:121-128 | Filtering advances by name and then by date, as the export does, gives the same list as the page's combined advance filter. |
| PincodeDashboard.AddAreaEntry | src/components/PincodeDashboard.tsx:52-61 | Adding stores exactly one more document: the form's values stamped with the page's pincode, whatever pincode they carried. |
| PincodeDashboard.AddedEntryStaysInArea | src/components/PincodeDashboard.tsx:37-37 | After an add on an area page, that area's query holds its old entries plus the stamped entry, once. Every other area's query is unchanged. |
| PincodeDashboard.ExportRowOf | src/components/PincodeDashboard.tsx:92-109 | The row copies the entry's date, courier, pincode, delivered, returned, RVP, expected and collected COD, on-spot advance and shortage reason (empty when absent). Total parcels is delivered plus RVP. The shortage column is never negative: it is zero iff collected COD covers expected COD, and otherwise equals the gap. Final payout is parcels × 14 less the on-spot advance less the unclamped gap. |
| PincodeDashboard.ExcelExport | src/components/PincodeDashboard.tsx:91-116 | The export has one row per shown entry, in the same order: row i is the export row of shown entry i. With a courier selected, every row is that courier's. The summary block exists iff the selection is not `"All"`, and it is then the summary of the shown entries. |
| PincodeDashboard.SummaryOf | src/components/PincodeDashboard.tsx:117-131 | The block names the selected courier. Its delivered, RVP, parcels and COD-shortage totals sum the shown entries, the shortage unclamped. Advance paid is their on-spot advances plus the courier's separate advances in the window. Net payout is parcels × 14 less the shortage total less advance paid. |
| PincodeDashboard.SummaryMatchesRows | src/components/PincodeDashboard.tsx:116-142 | The summary's parcels are the sum of the rows' parcels, and its advance paid is the rows' on-spot advances plus the courier's separate advances in the window. Its net payout is the sum of the rows' final payouts less those separate advances, which are exactly the advances the page lists. |
| PincodeDashboard.ShortageTotalMatchesColumn | src/components/PincodeDashboard.tsx:105-119 | When no shown entry over-collected, the summary's unclamped COD-shortage total equals the sum of the rows' clamped shortage column. |
| PincodeSummaryCards.CalculateMetrics | src/components/PincodeSummaryCards.tsx:11-31 | Total work is Σdelivered + Σrvp. The COD Collected card is ΣactualCodCollected. The net payout is the sum of the export rows' per-entry payouts. Profit is work × (company rate − 14). An empty list gives all zeros. |
| PincodeDashboard.RowPayoutSum | src/components/PincodeSummaryCards.tsx:18-23 | Work × 14 − Σadvance − Σ(unclamped COD gap) is the sum of the per-entry payouts, and work is Σdelivered + Σrvp. |
| PincodeSummaryCards.MetricsPermutation | src/components/PincodeSummaryCards.tsx:12-20 | Every metric is unchanged by reordering the entries. |
| PincodeSummaryCards.MetricsAppend | src/components/PincodeSummaryCards.tsx:12-30 | The metrics of two lists concatenated are the field-wise sums of their metrics. |
| PincodeSummaryCards.ProfitIgnoresCash | src/components/PincodeSummaryCards.tsx:25-28 | Work and profit depend only on delivered and RVP counts, never on COD figures or advances. |
| PincodeSummaryCards.CardsMatchExport | src/components/PincodeDashboard.tsx:190-190 | The area cards and the export read the same entries. The cards' net payout is the sum of the rows' final payouts, and their work is the sum of the rows' parcels. |
| SummaryCards.SummaryTotals | src/components/SummaryCards.tsx:11-17 | Total delivered and total advance are Σdelivered and Σ on-spot advance. Net payout plus advances is gross payout. Gross payout is delivered × 14; RVP is not counted. Profit is delivered × (19 − 14). The COD card is the corrected one: it sums `actualCodCollected`, where the source sums `codCollected` (see Findings). An empty list gives all zeros. |
| SummaryCards.TotalsPermutation | src/components/SummaryCards.tsx:11-17 | Every card total is unchanged by reordering the entries. |
| SummaryCards.RvpNotCounted | src/components/SummaryCards.tsx:11-17 | Lists that agree on delivered, collected COD and advance have equal totals, whatever their RVP and expected COD. |
| SummaryCards.CodCollectedAsWritten | src/components/SummaryCards.tsx:12-12 | The card as written is a finite number iff every entry carries `codCollected`. |
| SummaryCards.CodCardShowsNaN | src/components/SummaryCards.tsx:12-12 | On the first demo entry, the card as written is NaN, while the corrected card shows the 15000 collected. |
| SummaryCards.CorrectedAgreesWhenFieldPresent | src/components/SummaryCards.tsx:12-12 | When every entry's `codCollected` equals its collected COD, the written sum and the corrected total agree. |
| EarningsChart.Credit | src/components/EarningsChart.tsx:27-31 | Crediting an entry adds delivered × 14 to its courier's payout and delivered × 5 to their profit, or opens that courier's bar at the end. Other bars are untouched and names stay distinct. |
| EarningsChart.DataByBoy | src/components/EarningsChart.tsx:26-33 | The grouped bars carry pairwise distinct courier names. |
| EarningsChart.BarsCoverNames | src/components/EarningsChart.tsx:26-29 | There is a bar for a name iff some entry carries it. |
| EarningsChart.BarSums | src/components/EarningsChart.tsx:30-31 | Each bar's payout is 14 × Σdelivered over its courier's entries, and its profit is (19 − 14) × the same sum. |
| EarningsChart.CreditPayoutTotal | src/components/EarningsChart.tsx:30-31 | One credit raises the summed payout by delivered × 14 and the summed profit by delivered × 5. |
| EarningsChart.BarsTotal | src/components/EarningsChart.tsx:26-33 | Summed over all bars, payout is 14 × total delivered and profit is 5 × total delivered. |
| EarningsChart.ChartData | src/components/EarningsChart.tsx:35-35 | The chart holds exactly the grouped bars, ordered by payout + profit, tallest first. It is empty iff there are no entries. |
| EarningsChart.BarsIffEntries | src/components/EarningsChart.tsx:26-35 | There are bars iff there are entries. |
| Dashboard.AddEntry | src/components/Dashboard.tsx:38-40 | After adding, the list holds the old entries plus the new one under its fresh id, newest first. |
| Dashboard.AddEntryToSorted | src/components/Dashboard.tsx:38-40 | Adding to a list already newest first keeps the old entries in order. The new entry lands after every strictly newer entry and before all the others. |
| Dashboard.InsertPosition | src/components/Dashboard.tsx:40-40 | Inserting into a newest-first list places the entry just after the entries strictly newer than it. |
| Dashboard.AddAdvance | src/components/Dashboard.tsx:44-46 | After adding, the advances are the old ones plus the new one under its fresh id, newest first. |
| Dashboard.DeleteEntry | src/components/Dashboard.tsx:50-52 | Exactly the entries with that id leave. The others stay in order. An id that matches nothing changes nothing. |
| Dashboard.DeliveryBoys | src/components/Dashboard.tsx:54-54 | The offered names have no duplicates. A name is offered iff some entry or advance carries it. |
| Dashboard.FilteredAdvancesByDate | src/components/Dashboard.tsx:64-70 | The main dashboard keeps an advance iff it lies in the date window, every copy and in order. No courier test is applied. |
| Dashboard.MainAdvancesIgnoreCourier | src/components/Dashboard.tsx:64-70 | Whatever courier is selected, the main dashboard lists the same advances as the area page's advance filter under `"All"`. |
| Dashboard.FinalFilteredEntries | src/components/Dashboard.tsx:56-75 | The table's entries are a subsequence of the date-filtered entries, which are a subsequence of all entries. An entry is shown iff it is in the window and matches the courier selection. |
| Dashboard.ChartMatchesCards | src/components/Dashboard.tsx:132-145 | On the main dashboard, the chart's bars sum to the cards' gross payout and to the cards' profit. |
| DeliveryForm.SchemaIssues | src/components/DeliveryForm.tsx:21-33 | A field is reported iff its rule is broken: a name under two characters, a missing date, or a negative number. |
| DeliveryForm.PassingValues | src/components/DeliveryForm.tsx:21-33 | Values with no schema issue have a name of at least two characters, a date, and no negative number. |
| DeliveryForm.Submit | src/components/DeliveryForm.tsx:61-86 | A submission is accepted iff the schema passes and collected COD does not exceed expected COD; otherwise nothing is handed on. Schema-clean values with excess COD get only the COD error. An accepted submission hands on the values unchanged. The form then resets the name, the reason and every number, and keeps the date. |
| DeliveryForm.ShortageBoxAsWritten | src/components/DeliveryForm.tsx:254-254 | The reason box as written. While either amount still holds its reset number, it compares the numbers. Once both are typed it compares the numerals as strings, which matches the numeric comparison when the non-negative amounts have equally many digits. |
| DeliveryForm.ShortageReasonShown | src/components/DeliveryForm.tsx:254-254 | The intended reason box, shown while collected COD is below expected COD. It agrees with the box as written while both amounts hold their reset numbers, and, once both are typed, whenever the two non-negative amounts have equally many digits. |
| DeliveryForm.SameDigitCountAgrees | src/components/DeliveryForm.tsx:254-254 | Two decimal numerals with equally many digits compare as strings the way their numbers compare. |
| DeliveryForm.ShortageBoxHiddenOnShortfall | src/components/DeliveryForm.tsx:254-254 | With 10000 expected and 9000 collected typed in, the box as written stays hidden. The entry is still accepted, the intended box would show, and the export row carries a 1000 shortage. |
| DeliveryForm.ShortageShownIffExported | src/components/DeliveryForm.tsx:254-254 | The intended reason box is shown iff the stored entry's export row carries a positive COD shortage. For accepted values that column equals the gap deducted from the payout. |
| DeliveryBoysManager.LowerIdempotent | src/components/DeliveryBoysManager.tsx:62-62 | Lower-casing a lower-cased name changes nothing. |
| DeliveryBoysManager.AddBoyIgnoresCase | src/components/DeliveryBoysManager.tsx:62-62 | Lower-casing the typed name first changes neither whether the add succeeds nor the error it reports. |
| DeliveryBoysManager.NameLeTotal | src/components/DeliveryBoysManager.tsx:51-51 | Any two names are ordered one way or the other. |
| DeliveryBoysManager.NameLeTransitive | src/components/DeliveryBoysManager.tsx:51-51 | The name order is transitive. |
| DeliveryBoysManager.NameLeAntisymmetric | src/components/DeliveryBoysManager.tsx:51-51 | Two names ordered both ways are equal. |
| DeliveryBoysManager.SortedBoys | src/components/DeliveryBoysManager.tsx:51-51 | The shown directory is a permutation of the stored couriers, ordered by name over every pair. |
| DeliveryBoysManager.SortedBoysIdempotent | src/components/DeliveryBoysManager.tsx:51-51 | Sorting the sorted directory again changes nothing. |
| DeliveryBoysManager.AddBoy | src/components/DeliveryBoysManager.tsx:60-81 | A name under two characters is refused. A name equal up to case to a stored courier's is refused, and nothing is added. Any other name is stored as a new courier, kept last in the model's list. An accepted add keeps names pairwise distinct up to case. |
| DeliveryBoysManager.DeleteBoy | src/components/DeliveryBoysManager.tsx:83-84 | Exactly the courier with that id leaves. The others stay in order, every copy kept. |
| DeliveryBoysManager.NameFreeAfterDelete | src/components/DeliveryBoysManager.tsx:62-84 | In a directory with distinct names and ids, once a courier is removed their name, in any case, can be added again. |

## Left out

- Store I/O: `useCollection`, `addDoc`/`deleteDoc` and the non-blocking writes, `serverTimestamp`, and `Timestamp` conversion. The stored lists are values. New ids and creation times are parameters.
- Spreadsheet output: the workbook, the sheet layout, `Blob`, `saveAs` and the file name. Only the cell values of the rows and the summary block are modelled. The blank spacer row and the title row of the summary block are left out.
- Locale formatting of dates and currency (`toLocaleDateString`, `Intl.NumberFormat`, `date-fns format`). A row's date is the instant it would print.
- Rendering, React state, sheets, popovers, toasts and the combobox; the header, layout and route wrappers.
- The advance, owner-expense and company-COD forms: they are positive-amount and minimum-length schemas around UI.
- The delivery table: it is presentation. Its one product, delivered × 14, is the rate already used by the chart and cards.
- The area page's list of courier names for its selector (`PincodeDashboard.tsx:50`): it is the directory's name sort applied to the names alone, which `DeliveryBoysManager.SortedBoys` models.
- Time zones and daylight saving: a day is 86 400 000 ms of local time.
- `DeliveryBoysManager.SortedBoys`: `localeCompare` is modelled as lexicographic order on Unicode code points. Locale collation (case and accent folding) is not modelled.
- Strings are sequences of Unicode code points, while JavaScript counts UTF-16 code units. So the two-character minimum of both name schemas (`DeliveryBoysManager.AddBoy`, `DeliveryForm.SchemaIssues`) counts code points: a name made of one character outside the Basic Multilingual Plane, such as one emoji, passes the source's `.min(2)` but is refused here.
- `DeliveryBoysManager.AddBoy`: the directory store lists documents by generated id, and the page reads it only through the name sort. The model keeps the stored list with new couriers last, and that position is not a promise of the source.
- `DeliveryBoysManager.AddBoy`: `toLowerCase` is modelled on ASCII letters only. Unicode case mapping is not modelled.
- `DeliveryForm.Submit`: the schema's `.int()` checks and fractional money amounts are not modelled, since every number is an `int`. The values `onSubmit` receives are the schema's coerced numbers, so they are modelled as numbers.
- `EarningsChart.Credit`: the chart's accumulator is a plain object. Names such as `"constructor"` would collide with inherited members, and integer-like names would change `Object.values` order. Bars are modelled as a list in first-mention order.
- `DeliveryForm.ShortageBoxAsWritten`: a typed amount is the plain decimal numeral of an integer. Leading zeros, fractions, exponents and a cleared box are not modelled.
- `PincodeDashboard.AddAreaEntry`: a query returns documents in the store's own order, by document id, and the ids are generated. The model keeps the store as a list with new documents last, so after an add it promises only the contents of the area's query, not where the new entry appears.
- `PincodeSummaryCards.CalculateMetrics`: `COMPANY_RATES` is defined outside the modelled files. It is the parameter `companyRate`.
- Concurrency between browser tabs or clients editing the same store is not modelled.

## Findings

| source | as written | input that shows it | evidently intended | confidence | as-written member | corrected member |
|---|---|---|---|---|---|---|
| src/components/DeliveryForm.tsx:254 | The reason box appears when `watch('actualCodCollected') < watch('expectedCod')`. The number boxes store the typed text, so once both are typed this compares strings. | Type 10000 expected and 9000 collected. `"9000" < "10000"` is false, so the box stays hidden. The entry is still accepted and exports a 1000 shortage with an empty reason. | Compare the amounts as numbers. | not executed | DeliveryForm.ShortageBoxHiddenOnShortfall | DeliveryForm.ShortageShownIffExported |
| src/components/SummaryCards.tsx:12 | The COD card sums `entry.codCollected`. That field is in the declared entry type, but neither the delivery form nor the demo entries (`Dashboard.tsx:19-24`) ever set it, so the sum is `0 + undefined`, which is NaN. | The first demo entry: Ramesh, 20 July 2024, 50 delivered, 15000 expected and collected, no `codCollected`. | Sum the collected COD, `actualCodCollected`, which the area cards also total (`PincodeSummaryCards.tsx:16`); this gives 15000. | not executed | SummaryCards.CodCardShowsNaN | SummaryCards.SummaryTotals |
