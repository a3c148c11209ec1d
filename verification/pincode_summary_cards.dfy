/** The per-area summary cards (PincodeSummaryCards.tsx, `calculateMetrics`). */
module PincodeSummaryCards {
  import opened Domain
  import opened Seqs
  import PincodeDashboard

  datatype AreaMetrics = AreaMetrics(totalWork: int, totalActualCod: int, totalNetPayout: int, totalProfit: int)

  /** Field-wise sum of two metric sets. */
  function Plus(a: AreaMetrics, b: AreaMetrics): AreaMetrics {
    AreaMetrics(a.totalWork + b.totalWork, a.totalActualCod + b.totalActualCod,
                a.totalNetPayout + b.totalNetPayout, a.totalProfit + b.totalProfit)
  }

  /** `calculateMetrics(entries, pincode)`; `companyRate` stands for
      `COMPANY_RATES[pincode]`.  The net payout agrees with the export: it is
      the sum of the rows' final payouts. */
  function CalculateMetrics(entries: seq<Entry>, companyRate: int): (m: AreaMetrics)
    ensures m.totalWork == Sum(entries, Work)
    ensures m.totalActualCod == Sum(entries, ActualCod)
    ensures m.totalNetPayout == Sum(entries, PincodeDashboard.RowPayout)
    ensures m.totalProfit == m.totalWork * (companyRate - DeliveryBoyRate)
    ensures |entries| == 0 ==> m == AreaMetrics(0, 0, 0, 0)
  {
    var totalDelivered := Sum(entries, Delivered);
    var totalRvp := Sum(entries, Rvp);
    var totalWork := totalDelivered + totalRvp;
    var totalActualCod := Sum(entries, ActualCod);
    var totalOnSpotAdvance := Sum(entries, OnSpotAdvance);
    var totalCodShortage := Sum(entries, CodGap);
    var totalGrossPayout := totalWork * DeliveryBoyRate;
    var totalNetPayout := totalGrossPayout - totalOnSpotAdvance - totalCodShortage;
    var totalCompanyEarning := totalWork * companyRate;
    var totalProfit := totalCompanyEarning - totalGrossPayout;
    PincodeDashboard.RowPayoutSum(entries);
    AreaMetrics(totalWork, totalActualCod, totalNetPayout, totalProfit)
  }

  /** Every metric is independent of the order of the entries. */
  lemma MetricsPermutation(a: seq<Entry>, b: seq<Entry>, companyRate: int)
    requires multiset(a) == multiset(b)
    ensures CalculateMetrics(a, companyRate) == CalculateMetrics(b, companyRate)
  {
    SumPermutation(a, b, Delivered);
    SumPermutation(a, b, Rvp);
    SumPermutation(a, b, ActualCod);
    SumPermutation(a, b, OnSpotAdvance);
    SumPermutation(a, b, CodGap);
  }

  /** The metrics of two entry lists together are the sums of their
      metrics. */
  lemma MetricsAppend(a: seq<Entry>, b: seq<Entry>, companyRate: int)
    ensures CalculateMetrics(a + b, companyRate)
         == Plus(CalculateMetrics(a, companyRate), CalculateMetrics(b, companyRate))
  {
    var m, ma, mb := CalculateMetrics(a + b, companyRate), CalculateMetrics(a, companyRate), CalculateMetrics(b, companyRate);
    SumAppend(a, b, Work);
    SumAppend(a, b, ActualCod);
    SumAppend(a, b, PincodeDashboard.RowPayout);
    var k := companyRate - DeliveryBoyRate;
    assert (ma.totalWork + mb.totalWork) * k == ma.totalWork * k + mb.totalWork * k;
    assert m.totalProfit == ma.totalProfit + mb.totalProfit;
  }

  /** Profit and work depend only on the parcel counts: COD figures and
      advances never move them. */
  lemma ProfitIgnoresCash(a: seq<Entry>, b: seq<Entry>, companyRate: int)
    requires |a| == |b|
    requires forall i :: 0 <= i < |a| ==> a[i].delivered == b[i].delivered && a[i].rvp == b[i].rvp
    ensures CalculateMetrics(a, companyRate).totalWork == CalculateMetrics(b, companyRate).totalWork
    ensures CalculateMetrics(a, companyRate).totalProfit == CalculateMetrics(b, companyRate).totalProfit
  {
    SumPointwise(a, b, Work, Work);
  }

  /** The area page's cards and its export agree: both read the shown
      entries, and the cards' net payout is the sum of the exported rows'
      final payouts. */
  lemma CardsMatchExport(v: PincodeDashboard.View, companyRate: int)
    ensures CalculateMetrics(PincodeDashboard.FinalFilteredEntries(v), companyRate).totalNetPayout
         == Sum(PincodeDashboard.ExcelExport(v).rows, PincodeDashboard.RowFinalPayout)
    ensures CalculateMetrics(PincodeDashboard.FinalFilteredEntries(v), companyRate).totalWork
         == Sum(PincodeDashboard.ExcelExport(v).rows, PincodeDashboard.RowParcels)
  {
    var es := PincodeDashboard.FinalFilteredEntries(v);
    var rows := PincodeDashboard.ExcelExport(v).rows;
    PincodeDashboard.RowColumns(rows, es);
  }
}
