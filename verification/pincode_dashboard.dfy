/** The per-area dashboard (PincodeDashboard.tsx): the lists it filters and
    the values of the spreadsheet it exports. */
module PincodeDashboard {
  import opened Domain
  import opened Seqs
  import opened Filters

  /** What the page holds when the export button is pressed. */
  datatype View = View(
    entries: seq<Entry>,
    advances: seq<Advance>,
    range: Option<DateRange>,
    selectedBoy: string)

  /** One spreadsheet row.  `date` is the instant the sheet prints as a
      local date. */
  datatype ExportRow = ExportRow(
    date: Time,
    deliveryBoy: string,
    pincode: string,
    delivered: int,
    returned: int,
    rvp: int,
    totalParcels: int,
    expectedCod: int,
    actualCod: int,
    codShortage: int,
    shortageReason: string,
    onSpotAdvance: int,
    finalPayout: int)

  /** The block appended under the rows for one courier. */
  datatype SummaryBlock = SummaryBlock(
    deliveryBoy: string,
    totalDelivered: int,
    totalRvp: int,
    totalParcels: int,
    totalCodShortage: int,
    totalAdvancePaid: int,
    finalNetPayout: int)

  datatype Sheet = Sheet(rows: seq<ExportRow>, summary: Option<SummaryBlock>)

  function PincodeOf(e: Entry): string { e.pincode }

  /** The page's query: the stored records of one area, in store order. */
  function AreaEntries(stored: seq<Entry>, pincode: string): seq<Entry> {
    Named(stored, PincodeOf, pincode)
  }

  /** `addEntry` on an area page: the form's values stamped with the page's
      pincode and stored as one more document. */
  function AddAreaEntry(stored: seq<Entry>, values: Entry, pincode: string): (r: seq<Entry>)
    ensures multiset(r) == multiset(stored) + multiset{values.(pincode := pincode)}
    ensures values.(pincode := pincode) in r
  {
    stored + [values.(pincode := pincode)]
  }

  /** An entry added on an area page joins that page's list, once, and
      changes no other area's list, whatever pincode the form's values
      carried. */
  lemma AddedEntryStaysInArea(stored: seq<Entry>, values: Entry, pincode: string, other: string)
    requires other != pincode
    ensures multiset(AreaEntries(AddAreaEntry(stored, values, pincode), pincode))
         == multiset(AreaEntries(stored, pincode)) + multiset{values.(pincode := pincode)}
    ensures AreaEntries(AddAreaEntry(stored, values, pincode), other) == AreaEntries(stored, other)
  {
    var e := values.(pincode := pincode);
    assert AddAreaEntry(stored, values, pincode) == stored + [e];
    FilterSnoc(stored, e, NameTest(PincodeOf, pincode));
    FilterSnoc(stored, e, NameTest(PincodeOf, other));
    assert NameTest(PincodeOf, pincode)(e) == (PincodeOf(e) == pincode);
    assert NameTest(PincodeOf, other)(e) == (PincodeOf(e) == other);
  }

  /** The entries the table, cards, chart and export all show. */
  function FinalFilteredEntries(v: View): seq<Entry> {
    ByCourier(ByDate(v.entries, EntryDate, v.range), EntryName, v.selectedBoy)
  }

  /** The advances passed to the table and chart. */
  function FilteredAdvancesByDate(v: View): seq<Advance> {
    FilteredAdvances(v.advances, v.range, v.selectedBoy)
  }

  /** A row's `Final Payout`: pay for delivered and reverse-pickup parcels,
      less the on-spot advance and the unclamped COD gap. */
  function RowPayout(e: Entry): int {
    Work(e) * DeliveryBoyRate - e.advance - CodGap(e)
  }

  /** One row of the sheet: the entry's own figures, its parcel total, the
      clamped COD shortage and the final payout. */
  function ExportRowOf(e: Entry): (r: ExportRow)
    ensures r.date == e.date && r.deliveryBoy == e.deliveryBoyName && r.pincode == e.pincode
    ensures r.delivered == e.delivered && r.returned == e.returned && r.rvp == e.rvp
    ensures r.expectedCod == e.expectedCod && r.actualCod == e.actualCodCollected
    ensures r.onSpotAdvance == e.advance && r.shortageReason == e.codShortageReason.GetOr("")
    ensures r.totalParcels == r.delivered + r.rvp
    ensures r.codShortage >= 0
    ensures r.codShortage == 0 <==> r.actualCod >= r.expectedCod
    ensures r.codShortage > 0 ==> r.codShortage == r.expectedCod - r.actualCod
    ensures r.finalPayout == r.totalParcels * DeliveryBoyRate - r.onSpotAdvance - (r.expectedCod - r.actualCod)
    ensures r.actualCod <= r.expectedCod ==>
      r.finalPayout == r.totalParcels * DeliveryBoyRate - r.onSpotAdvance - r.codShortage
    ensures r.finalPayout == RowPayout(e)
  {
    var gap := CodGap(e);
    ExportRow(
      e.date, e.deliveryBoyName, e.pincode, e.delivered, e.returned, e.rvp,
      e.delivered + e.rvp, e.expectedCod, e.actualCodCollected,
      if gap > 0 then gap else 0,
      e.codShortageReason.GetOr(""),
      e.advance,
      RowPayout(e))
  }

  function RowFinalPayout(r: ExportRow): int { r.finalPayout }
  function RowParcels(r: ExportRow): int { r.totalParcels }
  function RowOnSpotAdvance(r: ExportRow): int { r.onSpotAdvance }
  function RowCodShortage(r: ExportRow): int { r.codShortage }

  /** The selected courier's separate advances in the window, found as the
      export finds them: by name first, then by date. */
  function SeparateAdvances(v: View): seq<Advance> {
    ByDate(Named(v.advances, AdvanceName, v.selectedBoy), AdvanceDate, v.range)
  }

  /** The summary block for the shown entries `es`: parcels, the unclamped
      COD shortage and every advance paid in the window, and the net payout
      left after deducting them. */
  function SummaryOf(v: View, es: seq<Entry>): (b: SummaryBlock)
    ensures b.deliveryBoy == v.selectedBoy
    ensures b.totalDelivered == Sum(es, Delivered) && b.totalRvp == Sum(es, Rvp)
    ensures b.totalParcels == Sum(es, Work)
    ensures b.totalCodShortage == Sum(es, CodGap)
    ensures b.totalAdvancePaid == Sum(es, OnSpotAdvance) + Sum(SeparateAdvances(v), AdvanceAmount)
    ensures b.finalNetPayout == b.totalParcels * DeliveryBoyRate - b.totalCodShortage - b.totalAdvancePaid
  {
    SumAdd(es, Delivered, Rvp, Work);
    var totalDelivered := Sum(es, Delivered);
    var totalRvp := Sum(es, Rvp);
    var totalCodShortage := Sum(es, CodGap);
    var totalOnSpotAdvance := Sum(es, OnSpotAdvance);
    var totalSeparateAdvance := Sum(SeparateAdvances(v), AdvanceAmount);
    var totalAdvance := totalOnSpotAdvance + totalSeparateAdvance;
    SummaryBlock(
      v.selectedBoy, totalDelivered, totalRvp, totalDelivered + totalRvp, totalCodShortage, totalAdvance,
      (totalDelivered + totalRvp) * DeliveryBoyRate - totalCodShortage - totalAdvance)
  }

  /** `handleExcelExport`, values only: one row per shown entry and, for a
      single courier, the summary block. */
  function ExcelExport(v: View): (s: Sheet)
    ensures |s.rows| == |FinalFilteredEntries(v)|
    ensures forall i :: 0 <= i < |s.rows| ==> s.rows[i] == ExportRowOf(FinalFilteredEntries(v)[i])
    ensures v.selectedBoy != AllBoys ==> forall i :: 0 <= i < |s.rows| ==> s.rows[i].deliveryBoy == v.selectedBoy
    ensures s.summary.Some? <==> v.selectedBoy != AllBoys
    ensures v.selectedBoy != AllBoys ==> s.summary.value == SummaryOf(v, FinalFilteredEntries(v))
  {
    var es := FinalFilteredEntries(v);
    var rows := Map(es, ExportRowOf);
    if v.selectedBoy != AllBoys then
      forall i | 0 <= i < |es| ensures es[i].deliveryBoyName == v.selectedBoy {
        assert es[i] in es;
      }
      Sheet(rows, Some(SummaryOf(v, es)))
    else
      Sheet(rows, None)
  }

  /** The row columns the summary and the cards add up, term by term. */
  lemma RowColumns(rows: seq<ExportRow>, es: seq<Entry>)
    requires |rows| == |es|
    requires forall i :: 0 <= i < |rows| ==> rows[i] == ExportRowOf(es[i])
    ensures Sum(rows, RowFinalPayout) == Sum(es, RowPayout)
    ensures Sum(rows, RowParcels) == Sum(es, Work)
    ensures Sum(rows, RowOnSpotAdvance) == Sum(es, OnSpotAdvance)
  {
    SumPointwise(rows, es, RowFinalPayout, RowPayout);
    SumPointwise(rows, es, RowParcels, Work);
    SumPointwise(rows, es, RowOnSpotAdvance, OnSpotAdvance);
  }

  /** Summed over entries, the per-row payouts are the parcel pay less every
      on-spot advance and every unclamped COD gap. */
  lemma RowPayoutSum(es: seq<Entry>)
    ensures Sum(es, Work) == Sum(es, Delivered) + Sum(es, Rvp)
    ensures Sum(es, RowPayout)
         == Sum(es, Work) * DeliveryBoyRate - Sum(es, OnSpotAdvance) - Sum(es, CodGap)
  {
    var pay := (e: Entry) => Work(e) * DeliveryBoyRate;
    var minus := (e: Entry) => -(e.advance + CodGap(e));
    var deduct := (e: Entry) => e.advance + CodGap(e);
    SumAdd(es, pay, minus, RowPayout);
    SumScale(es, DeliveryBoyRate, Work, pay);
    SumScale(es, -1, deduct, minus);
    SumAdd(es, OnSpotAdvance, CodGap, deduct);
    SumAdd(es, Delivered, Rvp, Work);
  }

  /** The summary's net payout is the sum of the rows' final payouts less
      the courier's separate advances in the window, and those advances are
      exactly the ones the page lists beside the table. */
  lemma {:induction false} SummaryMatchesRows(v: View)
    requires v.selectedBoy != AllBoys
    ensures var s := ExcelExport(v);
      s.summary.value.finalNetPayout
        == Sum(s.rows, RowFinalPayout) - Sum(FilteredAdvancesByDate(v), AdvanceAmount)
    ensures var s := ExcelExport(v);
      s.summary.value.totalParcels == Sum(s.rows, RowParcels)
    ensures var s := ExcelExport(v);
      s.summary.value.totalAdvancePaid
        == Sum(s.rows, RowOnSpotAdvance) + Sum(FilteredAdvancesByDate(v), AdvanceAmount)
  {
    var es := FinalFilteredEntries(v);
    var s := ExcelExport(v);
    // The rows agree term by term with the entries they project.
    RowColumns(s.rows, es);
    // Sum of row payouts splits into the summary's totals.
    RowPayoutSum(es);
    // The export's own advance search finds the page's filtered advances.
    AdvancesEitherOrder(v.advances, v.range, v.selectedBoy);
  }

  /** The summary's `Total COD Shortage` sums the unclamped gaps; it equals
      the sum of the rows' clamped `COD Shortage` column when no shown entry
      collected more than expected, which the delivery form guarantees for
      the entries it creates. */
  lemma {:induction false} ShortageTotalMatchesColumn(v: View)
    requires v.selectedBoy != AllBoys
    requires forall e :: e in FinalFilteredEntries(v) ==> e.actualCodCollected <= e.expectedCod
    ensures var s := ExcelExport(v);
      s.summary.value.totalCodShortage == Sum(s.rows, RowCodShortage)
  {
    var es := FinalFilteredEntries(v);
    var s := ExcelExport(v);
    forall i | 0 <= i < |s.rows| ensures RowCodShortage(s.rows[i]) == CodGap(es[i]) {
      assert es[i] in es;
    }
    SumPointwise(s.rows, es, RowCodShortage, CodGap);
  }
}
