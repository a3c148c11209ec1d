/** The main dashboard's summary cards (SummaryCards.tsx). */
module SummaryCards {
  import opened Domain
  import opened Seqs

  datatype Totals = Totals(
    totalDelivered: int,
    totalCodCollected: int,
    totalAdvance: int,
    totalGrossPayout: int,
    totalNetPayout: int,
    totalProfit: int)

  /** The card totals.  Only delivered parcels are paid or billed here
      (reverse pickups are not counted), only on-spot advances are
      deducted, and the COD card sums `actualCodCollected` of every entry
      (the card as written sums `codCollected`; see `CodCollectedAsWritten`). */
  function SummaryTotals(entries: seq<Entry>): (t: Totals)
    ensures t.totalDelivered == Sum(entries, Delivered)
    ensures t.totalAdvance == Sum(entries, OnSpotAdvance)
    ensures t.totalNetPayout + t.totalAdvance == t.totalGrossPayout
    ensures t.totalGrossPayout == DeliveryBoyRate * t.totalDelivered
    ensures t.totalProfit == (CompanyRate - DeliveryBoyRate) * t.totalDelivered
    ensures t.totalCodCollected == Sum(entries, ActualCod)
    ensures |entries| == 0 ==> t == Totals(0, 0, 0, 0, 0, 0)
  {
    var totalDelivered := Sum(entries, Delivered);
    var totalCodCollected := Sum(entries, ActualCod);
    var totalAdvance := Sum(entries, OnSpotAdvance);
    var totalGrossPayout := totalDelivered * DeliveryBoyRate;
    var totalNetPayout := totalGrossPayout - totalAdvance;
    var totalCompanyEarning := totalDelivered * CompanyRate;
    var totalProfit := totalCompanyEarning - totalGrossPayout;
    Totals(totalDelivered, totalCodCollected, totalAdvance, totalGrossPayout, totalNetPayout, totalProfit)
  }

  /** Every total is independent of the order of the entries. */
  lemma TotalsPermutation(a: seq<Entry>, b: seq<Entry>)
    requires multiset(a) == multiset(b)
    ensures SummaryTotals(a) == SummaryTotals(b)
  {
    SumPermutation(a, b, Delivered);
    SumPermutation(a, b, ActualCod);
    SumPermutation(a, b, OnSpotAdvance);
  }

  /** Reverse pickups and expected COD never change a total: two lists that
      agree on delivered parcels, collected COD and advances have equal
      totals. */
  lemma RvpNotCounted(a: seq<Entry>, b: seq<Entry>)
    requires |a| == |b|
    requires forall i :: 0 <= i < |a| ==>
      a[i].delivered == b[i].delivered && a[i].actualCodCollected == b[i].actualCodCollected &&
      a[i].advance == b[i].advance
    ensures SummaryTotals(a) == SummaryTotals(b)
  {
    SumPointwise(a, b, Delivered, Delivered);
    SumPointwise(a, b, ActualCod, ActualCod);
    SumPointwise(a, b, OnSpotAdvance, OnSpotAdvance);
  }

  // The COD card as written sums `entry.codCollected`, a field of the
  // declared entry type that the delivery form and the demo data never set.

  /** A JavaScript number as far as this sum needs: adding `undefined`
      yields NaN, and NaN absorbs every later addition. */
  datatype Num = Finite(n: int) | NaN

  function AddField(acc: Num, field: Option<int>): (r: Num)
    ensures r.Finite? <==> acc.Finite? && field.Some?
  {
    match (acc, field)
    case (Finite(n), Some(x)) => Finite(n + x)
    case _ => NaN
  }

  /** `entries.reduce((acc, entry) => acc + entry.codCollected, 0)`. */
  function CodCollectedAsWritten(entries: seq<Entry>): (r: Num)
    ensures r.Finite? <==> forall i :: 0 <= i < |entries| ==> entries[i].codCollected.Some?
    decreases |entries|
  {
    if |entries| == 0 then Finite(0)
    else
      var prefix := entries[..|entries| - 1];
      assert forall i :: 0 <= i < |prefix| ==> prefix[i] == entries[i];
      AddField(CodCollectedAsWritten(prefix), entries[|entries| - 1].codCollected)
  }

  /** The first demo entry of the main dashboard (Ramesh, 20 July 2024),
      which, like every entry the delivery form builds, has no
      `codCollected`. */
  function DemoEntry(): Entry {
    Entry("1", 1721433600000, "Ramesh", "", 50, 2, 3, 15000, 15000, None, None, 500)
  }

  /** As written, the card shows NaN for the demo data although 15000 was
      collected; the corrected card shows 15000. */
  lemma CodCardShowsNaN()
    ensures CodCollectedAsWritten([DemoEntry()]) == NaN
    ensures SummaryTotals([DemoEntry()]).totalCodCollected == 15000
  {
    assert [DemoEntry()][..0] == [];
  }

  /** Where an entry does carry `codCollected` equal to its collected COD,
      the written sum and the corrected card agree. */
  lemma {:induction false} CorrectedAgreesWhenFieldPresent(entries: seq<Entry>)
    requires forall i :: 0 <= i < |entries| ==> entries[i].codCollected == Some(entries[i].actualCodCollected)
    ensures CodCollectedAsWritten(entries) == Finite(SummaryTotals(entries).totalCodCollected)
    decreases |entries|
  {
    if |entries| > 0 {
      var prefix := entries[..|entries| - 1];
      var last := entries[|entries| - 1];
      assert entries == prefix + [last];
      CorrectedAgreesWhenFieldPresent(prefix);
      SumSnoc(prefix, last, ActualCod);
    }
  }
}
