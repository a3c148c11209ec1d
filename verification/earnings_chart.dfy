/** The per-courier earnings chart (EarningsChart.tsx): `dataByBoy` and the
    sorted `chartData`. */
module EarningsChart {
  import opened Domain
  import opened Seqs
  import opened Filters

  /** One bar of the chart. */
  datatype BoyTotals = BoyTotals(name: string, payout: int, profit: int)

  /** `COMPANY_RATE - DELIVERY_BOY_RATE`. */
  const ProfitRate: int := CompanyRate - DeliveryBoyRate

  function BarName(g: BoyTotals): string { g.name }
  function BarPayout(g: BoyTotals): int { g.payout }
  function BarProfit(g: BoyTotals): int { g.profit }
  function BarHeight(g: BoyTotals): int { g.payout + g.profit }

  /** Is `n` already a key of the accumulator? */
  predicate HasBar(gs: seq<BoyTotals>, n: string) {
    exists i :: 0 <= i < |gs| && gs[i].name == n
  }

  /** Position of the bar named `n`, or `|gs|` when there is none. */
  function FindBar(gs: seq<BoyTotals>, n: string): (k: nat)
    ensures k <= |gs|
    ensures k < |gs| ==> gs[k].name == n
    ensures forall j :: 0 <= j < k ==> gs[j].name != n
    ensures k == |gs| <==> !HasBar(gs, n)
    decreases |gs|
  {
    if |gs| == 0 then 0
    else if gs[0].name == n then 0
    else 1 + FindBar(gs[1..], n)
  }

  /** One step of the reduce: credit `e` to its courier's bar, opening a new
      bar (zero payout and profit) at the end when the courier has none.
      The accumulator is an object keyed by name, so its names are
      distinct. */
  function Credit(gs: seq<BoyTotals>, e: Entry): (r: seq<BoyTotals>)
    requires NoDups(Map(gs, BarName))
    ensures NoDups(Map(r, BarName))
    ensures |r| == if HasBar(gs, e.deliveryBoyName) then |gs| else |gs| + 1
    ensures forall i :: 0 <= i < |gs| ==> r[i].name == gs[i].name
    ensures forall i :: 0 <= i < |gs| && gs[i].name != e.deliveryBoyName ==> r[i] == gs[i]
    ensures forall i :: 0 <= i < |gs| && gs[i].name == e.deliveryBoyName ==>
      r[i].payout == gs[i].payout + e.delivered * DeliveryBoyRate &&
      r[i].profit == gs[i].profit + e.delivered * ProfitRate
    ensures !HasBar(gs, e.deliveryBoyName) ==>
      r[|gs|] == BoyTotals(e.deliveryBoyName, e.delivered * DeliveryBoyRate, e.delivered * ProfitRate)
  {
    var n := e.deliveryBoyName;
    var k := FindBar(gs, n);
    if k == |gs| then
      var b := BoyTotals(n, e.delivered * DeliveryBoyRate, e.delivered * ProfitRate);
      OpenBar(gs, b);
      gs + [b]
    else
      var b := gs[k].(payout := gs[k].payout + e.delivered * DeliveryBoyRate,
                      profit := gs[k].profit + e.delivered * ProfitRate);
      RaiseBar(gs, k, b);
      gs[k := b]
  }

  /** A bar under a new name keeps the names distinct. */
  lemma OpenBar(gs: seq<BoyTotals>, b: BoyTotals)
    requires NoDups(Map(gs, BarName))
    requires !HasBar(gs, b.name)
    ensures NoDups(Map(gs + [b], BarName))
  {
    MapAppend(gs, [b], BarName);
    assert Map(gs + [b], BarName) == Map(gs, BarName) + [b.name];
    assert forall i :: 0 <= i < |gs| ==> Map(gs, BarName)[i] != b.name;
  }

  /** Updating the only bar of a name keeps the names and leaves the other
      bars of that name (there are none) alone. */
  lemma RaiseBar(gs: seq<BoyTotals>, k: nat, b: BoyTotals)
    requires NoDups(Map(gs, BarName))
    requires k < |gs| && b.name == gs[k].name
    ensures Map(gs[k := b], BarName) == Map(gs, BarName)
    ensures forall i :: 0 <= i < |gs| && gs[i].name == b.name ==> i == k
  {
    assert forall i :: 0 <= i < |gs| && gs[i].name == b.name ==> Map(gs, BarName)[i] == Map(gs, BarName)[k];
  }

  /** `entries.reduce(...)`: the bars in the order their couriers first
      appear. */
  function DataByBoy(entries: seq<Entry>): (r: seq<BoyTotals>)
    ensures NoDups(Map(r, BarName))
    decreases |entries|
  {
    if |entries| == 0 then []
    else Credit(DataByBoy(entries[..|entries| - 1]), entries[|entries| - 1])
  }

  function EntryNames(entries: seq<Entry>): seq<string> {
    Map(entries, EntryName)
  }

  /** There is exactly one bar per distinct courier name of the entries. */
  lemma {:induction false} BarsCoverNames(entries: seq<Entry>)
    ensures forall n :: HasBar(DataByBoy(entries), n) <==> n in EntryNames(entries)
    decreases |entries|
  {
    if |entries| > 0 {
      var prefix := entries[..|entries| - 1];
      var e := entries[|entries| - 1];
      assert entries == prefix + [e];
      BarsCoverNames(prefix);
      CoverStep(DataByBoy(prefix), prefix, e);
    }
  }

  /** Crediting an entry adds its courier's name to the bars and no other. */
  lemma CoverStep(gs: seq<BoyTotals>, prefix: seq<Entry>, e: Entry)
    requires NoDups(Map(gs, BarName))
    requires forall n :: HasBar(gs, n) <==> n in EntryNames(prefix)
    ensures forall n :: HasBar(Credit(gs, e), n) <==> n in EntryNames(prefix + [e])
  {
    var r := Credit(gs, e);
    MapAppend(prefix, [e], EntryName);
    assert EntryNames(prefix + [e]) == EntryNames(prefix) + [e.deliveryBoyName];
    forall n ensures HasBar(r, n) <==> HasBar(gs, n) || n == e.deliveryBoyName {
      CreditNames(gs, e, n);
    }
  }

  /** After crediting, the bar names are the old ones and the entry's. */
  lemma CreditNames(gs: seq<BoyTotals>, e: Entry, n: string)
    requires NoDups(Map(gs, BarName))
    ensures HasBar(Credit(gs, e), n) <==> HasBar(gs, n) || n == e.deliveryBoyName
  {
    var r := Credit(gs, e);
    if HasBar(r, n) {
      var i :| 0 <= i < |r| && r[i].name == n;
      if i < |gs| {
        assert gs[i].name == n;
      }
    }
    if HasBar(gs, n) {
      var i :| 0 <= i < |gs| && gs[i].name == n;
      assert r[i].name == n;
    }
    if n == e.deliveryBoyName && !HasBar(gs, n) {
      assert r[|gs|].name == n;
    }
  }

  /** A courier with no name among the entries has no entries. */
  lemma NamedEmpty(entries: seq<Entry>, n: string)
    requires n !in EntryNames(entries)
    ensures Named(entries, EntryName, n) == []
  {
    forall x | x in entries ensures EntryName(x) != n {
      var k :| 0 <= k < |entries| && entries[k] == x;
      assert EntryNames(entries)[k] == EntryName(x);
    }
  }

  /** Each bar carries its courier's delivered parcels, at the courier's
      rate for the payout and at the margin for the profit. */
  ghost predicate BarsMatch(gs: seq<BoyTotals>, entries: seq<Entry>) {
    forall i :: 0 <= i < |gs| ==>
      gs[i].payout == DeliveryBoyRate * Sum(Named(entries, EntryName, gs[i].name), Delivered) &&
      gs[i].profit == ProfitRate * Sum(Named(entries, EntryName, gs[i].name), Delivered)
  }

  /** Appending an entry adds its parcels to its own courier's total. */
  lemma GrowBar(prefix: seq<Entry>, e: Entry)
    ensures Sum(Named(prefix + [e], EntryName, e.deliveryBoyName), Delivered)
         == Sum(Named(prefix, EntryName, e.deliveryBoyName), Delivered) + e.delivered
  {
    var n := e.deliveryBoyName;
    FilterSnoc(prefix, e, NameTest(EntryName, n));
    assert NameTest(EntryName, n)(e) == (EntryName(e) == n);
    SumSnoc(Named(prefix, EntryName, n), e, Delivered);
  }

  /** Appending an entry leaves every other courier's entries alone. */
  lemma OtherBar(prefix: seq<Entry>, e: Entry, n: string)
    requires n != e.deliveryBoyName
    ensures Named(prefix + [e], EntryName, n) == Named(prefix, EntryName, n)
  {
    FilterSnoc(prefix, e, NameTest(EntryName, n));
    assert NameTest(EntryName, n)(e) == (EntryName(e) == n);
  }

  /** The bar opened for a courier's first entry holds that entry alone. */
  lemma NewBarMatches(gs: seq<BoyTotals>, prefix: seq<Entry>, e: Entry)
    requires NoDups(Map(gs, BarName))
    requires !HasBar(gs, e.deliveryBoyName)
    requires e.deliveryBoyName !in EntryNames(prefix)
    ensures |Credit(gs, e)| == |gs| + 1
    ensures Credit(gs, e)[|gs|].name == e.deliveryBoyName
    ensures Credit(gs, e)[|gs|].payout == DeliveryBoyRate * Sum(Named(prefix + [e], EntryName, e.deliveryBoyName), Delivered)
    ensures Credit(gs, e)[|gs|].profit == ProfitRate * Sum(Named(prefix + [e], EntryName, e.deliveryBoyName), Delivered)
  {
    GrowBar(prefix, e);
    NamedEmpty(prefix, e.deliveryBoyName);
  }

  /** The entry's courier's existing bar grows by the entry's parcels. */
  lemma SameBarMatches(gs: seq<BoyTotals>, prefix: seq<Entry>, e: Entry, i: nat)
    requires NoDups(Map(gs, BarName))
    requires i < |gs| && gs[i].name == e.deliveryBoyName
    requires gs[i].payout == DeliveryBoyRate * Sum(Named(prefix, EntryName, gs[i].name), Delivered)
    requires gs[i].profit == ProfitRate * Sum(Named(prefix, EntryName, gs[i].name), Delivered)
    ensures |Credit(gs, e)| >= |gs|
    ensures Credit(gs, e)[i].name == gs[i].name
    ensures Credit(gs, e)[i].payout == DeliveryBoyRate * Sum(Named(prefix + [e], EntryName, gs[i].name), Delivered)
    ensures Credit(gs, e)[i].profit == ProfitRate * Sum(Named(prefix + [e], EntryName, gs[i].name), Delivered)
  {
    var before := Sum(Named(prefix, EntryName, gs[i].name), Delivered);
    GrowBar(prefix, e);
    CreditOwnBar(gs, e, i);
    Distribute(DeliveryBoyRate, before, e.delivered);
    Distribute(ProfitRate, before, e.delivered);
  }

  lemma Distribute(rate: int, before: int, d: int)
    ensures rate * (before + d) == rate * before + d * rate
  {
  }

  /** Crediting raises the entry's own bar by its parcels' pay and profit. */
  lemma CreditOwnBar(gs: seq<BoyTotals>, e: Entry, i: nat)
    requires NoDups(Map(gs, BarName))
    requires i < |gs| && gs[i].name == e.deliveryBoyName
    ensures |Credit(gs, e)| == |gs|
    ensures Credit(gs, e)[i] == BoyTotals(gs[i].name, gs[i].payout + e.delivered * DeliveryBoyRate,
                                          gs[i].profit + e.delivered * ProfitRate)
  {
    assert HasBar(gs, e.deliveryBoyName);
  }

  /** Every other courier's bar is unchanged and still matches. */
  lemma OtherBarMatches(gs: seq<BoyTotals>, prefix: seq<Entry>, e: Entry, i: nat)
    requires NoDups(Map(gs, BarName))
    requires i < |gs| && gs[i].name != e.deliveryBoyName
    requires gs[i].payout == DeliveryBoyRate * Sum(Named(prefix, EntryName, gs[i].name), Delivered)
    requires gs[i].profit == ProfitRate * Sum(Named(prefix, EntryName, gs[i].name), Delivered)
    ensures |Credit(gs, e)| >= |gs|
    ensures Credit(gs, e)[i].name == gs[i].name
    ensures Credit(gs, e)[i].payout == DeliveryBoyRate * Sum(Named(prefix + [e], EntryName, gs[i].name), Delivered)
    ensures Credit(gs, e)[i].profit == ProfitRate * Sum(Named(prefix + [e], EntryName, gs[i].name), Delivered)
  {
    OtherBar(prefix, e, gs[i].name);
  }

  lemma {:induction false} BarSums(entries: seq<Entry>)
    ensures BarsMatch(DataByBoy(entries), entries)
    decreases |entries|
  {
    if |entries| > 0 {
      var prefix := entries[..|entries| - 1];
      var e := entries[|entries| - 1];
      assert entries == prefix + [e];
      BarSums(prefix);
      BarsCoverNames(prefix);
      var gs := DataByBoy(prefix);
      forall i | 0 <= i < |Credit(gs, e)|
        ensures Credit(gs, e)[i].payout == DeliveryBoyRate * Sum(Named(entries, EntryName, Credit(gs, e)[i].name), Delivered)
        ensures Credit(gs, e)[i].profit == ProfitRate * Sum(Named(entries, EntryName, Credit(gs, e)[i].name), Delivered)
      {
        if i == |gs| {
          assert !HasBar(gs, e.deliveryBoyName);
          NewBarMatches(gs, prefix, e);
        } else if gs[i].name == e.deliveryBoyName {
          SameBarMatches(gs, prefix, e, i);
        } else {
          OtherBarMatches(gs, prefix, e, i);
        }
      }
    }
  }

  /** Crediting an entry raises the bars' total payout by its pay. */
  lemma CreditPayoutTotal(gs: seq<BoyTotals>, e: Entry)
    requires NoDups(Map(gs, BarName))
    ensures Sum(Credit(gs, e), BarPayout) == Sum(gs, BarPayout) + e.delivered * DeliveryBoyRate
    ensures Sum(Credit(gs, e), BarProfit) == Sum(gs, BarProfit) + e.delivered * ProfitRate
  {
    var k := FindBar(gs, e.deliveryBoyName);
    var r := Credit(gs, e);
    if k == |gs| {
      assert r == gs + [r[|gs|]];
      SumSnoc(gs, r[|gs|], BarPayout);
      SumSnoc(gs, r[|gs|], BarProfit);
    } else {
      assert r == gs[k := r[k]];
      SumUpdate(gs, k, r[k], BarPayout);
      SumUpdate(gs, k, r[k], BarProfit);
    }
  }

  /** Across all bars, the payout is the pay for every delivered parcel and
      the profit is the margin on every delivered parcel. */
  lemma {:induction false} BarsTotal(entries: seq<Entry>)
    ensures Sum(DataByBoy(entries), BarPayout) == DeliveryBoyRate * Sum(entries, Delivered)
    ensures Sum(DataByBoy(entries), BarProfit) == ProfitRate * Sum(entries, Delivered)
    decreases |entries|
  {
    if |entries| > 0 {
      var prefix := entries[..|entries| - 1];
      var e := entries[|entries| - 1];
      assert entries == prefix + [e];
      BarsTotal(prefix);
      CreditPayoutTotal(DataByBoy(prefix), e);
      SumSnoc(prefix, e, Delivered);
    }
  }

  /** Taller bars first: `(b.payout + b.profit) - (a.payout + a.profit)`. */
  function TallerFirst(a: BoyTotals, b: BoyTotals): bool {
    BarHeight(a) >= BarHeight(b)
  }

  /** `chartData`: the bars, sorted by height, tallest first. */
  function ChartData(entries: seq<Entry>): (r: seq<BoyTotals>)
    ensures multiset(r) == multiset(DataByBoy(entries))
    ensures forall i, j :: 0 <= i < j < |r| ==> BarHeight(r[i]) >= BarHeight(r[j])
    ensures |r| == 0 <==> |entries| == 0
  {
    var bars := DataByBoy(entries);
    var r := SortBy(bars, TallerFirst);
    forall i, j | 0 <= i < j < |r| ensures BarHeight(r[i]) >= BarHeight(r[j]) {
      SortedPairwise(r, TallerFirst, i, j);
    }
    BarsIffEntries(entries);
    r
  }

  /** There is a bar exactly when there is an entry. */
  lemma BarsIffEntries(entries: seq<Entry>)
    ensures |DataByBoy(entries)| == 0 <==> |entries| == 0
  {
    BarsCoverNames(entries);
    if |entries| > 0 {
      assert EntryNames(entries)[0] in EntryNames(entries);
      assert HasBar(DataByBoy(entries), EntryNames(entries)[0]);
    }
  }
}
