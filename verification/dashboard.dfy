/** The main dashboard's list state (Dashboard.tsx): inserting entries and
    advances newest first, deleting entries, the courier names it offers,
    and the lists it hands to the cards, table and chart. */
module Dashboard {
  import opened Domain
  import opened Seqs
  import opened Filters
  import SummaryCards
  import EarningsChart

  /** The order both lists are kept in: `b.date.getTime() - a.date.getTime()`. */
  function NewerEntryFirst(a: Entry, b: Entry): bool { a.date >= b.date }
  function NewerAdvanceFirst(a: Advance, b: Advance): bool { a.date >= b.date }

  /** Newest first, compared over every pair. */
  predicate NewestFirst<T>(xs: seq<T>, date: T -> Time) {
    forall i, j :: 0 <= i < j < |xs| ==> date(xs[i]) >= date(xs[j])
  }

  /** `addEntry`: the form's values under a fresh id, put in front of the
      list, and the list re-sorted newest first. */
  function AddEntry(entries: seq<Entry>, values: Entry, id: string): (r: seq<Entry>)
    ensures multiset(r) == multiset(entries) + multiset{values.(id := id)}
    ensures NewestFirst(r, EntryDate)
  {
    var r := SortBy([values.(id := id)] + entries, NewerEntryFirst);
    forall i, j | 0 <= i < j < |r| ensures r[i].date >= r[j].date {
      SortedPairwise(r, NewerEntryFirst, i, j);
    }
    r
  }

  /** `addAdvance`: the same insertion for advances. */
  function AddAdvance(advances: seq<Advance>, values: Advance, id: string): (r: seq<Advance>)
    ensures multiset(r) == multiset(advances) + multiset{values.(id := id)}
    ensures NewestFirst(r, AdvanceDate)
  {
    var r := SortBy([values.(id := id)] + advances, NewerAdvanceFirst);
    forall i, j | 0 <= i < j < |r| ensures r[i].date >= r[j].date {
      SortedPairwise(r, NewerAdvanceFirst, i, j);
    }
    r
  }

  /** How many entries of a newest-first list are strictly newer than `t`. */
  function NewerCount(ys: seq<Entry>, t: Time): (k: nat)
    ensures k <= |ys|
    decreases |ys|
  {
    if |ys| == 0 || ys[0].date <= t then 0 else 1 + NewerCount(ys[1..], t)
  }

  /** Inserting into a list that is already newest first leaves the old
      entries in their order: the new entry lands after the strictly newer
      entries and before all the rest. */
  lemma AddEntryToSorted(entries: seq<Entry>, values: Entry, id: string)
    requires Sorted(entries, NewerEntryFirst)
    ensures var k := NewerCount(entries, values.date);
      && AddEntry(entries, values, id) == entries[..k] + [values.(id := id)] + entries[k..]
      && (forall i :: 0 <= i < k ==> entries[i].date > values.date)
      && (forall i :: k <= i < |entries| ==> entries[i].date <= values.date)
  {
    var x := values.(id := id);
    var xs := [x] + entries;
    NewerEntryFirstTotal();
    assert xs[0] == x && xs[1..] == entries;
    assert AddEntry(entries, values, id) == Insert(x, SortBy(entries, NewerEntryFirst), NewerEntryFirst);
    SortSorted(entries, NewerEntryFirst);
    InsertPosition(x, entries);
    NewerCountSplits(entries, values.date);
  }

  lemma NewerEntryFirstTotal()
    ensures Total(NewerEntryFirst)
  {
  }

  lemma {:induction false} InsertPosition(x: Entry, ys: seq<Entry>)
    requires Total(NewerEntryFirst)
    requires Sorted(ys, NewerEntryFirst)
    ensures var k := NewerCount(ys, x.date);
      Insert(x, ys, NewerEntryFirst) == ys[..k] + [x] + ys[k..]
    decreases |ys|
  {
    if |ys| == 0 {
      assert ys[..0] + [x] + ys[0..] == [x];
    } else if NewerEntryFirst(x, ys[0]) {
      assert NewerCount(ys, x.date) == 0;
      assert ys[..0] + [x] + ys[0..] == [x] + ys;
    } else {
      var tail := ys[1..];
      SortedTail(ys);
      InsertPosition(x, tail);
      var k := NewerCount(tail, x.date);
      assert NewerCount(ys, x.date) == k + 1;
      assert Insert(x, ys, NewerEntryFirst) == [ys[0]] + Insert(x, tail, NewerEntryFirst);
      Splice(ys, x, k);
    }
  }

  lemma SortedTail(ys: seq<Entry>)
    requires |ys| > 0 && Sorted(ys, NewerEntryFirst)
    ensures Sorted(ys[1..], NewerEntryFirst)
  {
    var tail := ys[1..];
    forall i | 0 < i < |tail| ensures NewerEntryFirst(tail[i - 1], tail[i]) {
      assert tail[i - 1] == ys[i] && tail[i] == ys[i + 1];
    }
  }

  /** Putting the head back in front of a spliced tail splices the whole. */
  lemma Splice<T>(ys: seq<T>, x: T, k: nat)
    requires 0 < |ys| && k < |ys|
    ensures [ys[0]] + (ys[1..][..k] + [x] + ys[1..][k..]) == ys[..k + 1] + [x] + ys[k + 1..]
  {
    assert ys[..k + 1] == [ys[0]] + ys[1..][..k];
    assert ys[k + 1..] == ys[1..][k..];
  }

  /** In a newest-first list the strictly newer entries come first. */
  lemma {:induction false} NewerCountSplits(ys: seq<Entry>, t: Time)
    requires Sorted(ys, NewerEntryFirst)
    ensures var k := NewerCount(ys, t);
      && (forall i :: 0 <= i < k ==> ys[i].date > t)
      && (forall i :: k <= i < |ys| ==> ys[i].date <= t)
    decreases |ys|
  {
    if |ys| > 0 {
      if ys[0].date <= t {
        forall i | 0 <= i < |ys| ensures ys[i].date <= t {
          SortedPairwise(ys, NewerEntryFirst, 0, i);
        }
      } else {
        var tail := ys[1..];
        NewerCountSplits(tail, t);
        forall i | 0 < i < |ys| ensures ys[i] == tail[i - 1] { }
      }
    }
  }

  function WithoutId(id: string): Entry -> bool { (e: Entry) => e.id != id }
  function WithId(id: string): Entry -> bool { (e: Entry) => e.id == id }

  /** `deleteEntry(id)`: drops exactly the entries with that id and keeps
      the others in order. */
  function DeleteEntry(entries: seq<Entry>, id: string): (r: seq<Entry>)
    ensures forall e :: e in r <==> e in entries && e.id != id
    ensures Subseq(r, entries)
    ensures |r| == |entries| - |Filter(entries, WithId(id))|
    ensures (forall i :: 0 <= i < |entries| ==> entries[i].id != id) ==> r == entries
  {
    var r := Filter(entries, WithoutId(id));
    assert forall e :: WithoutId(id)(e) == (e.id != id);
    assert forall e :: WithId(id)(e) == !WithoutId(id)(e);
    FilterPartition(entries, WithoutId(id), WithId(id));
    r
  }

  function AdvanceNames(advances: seq<Advance>): seq<string> {
    Map(advances, AdvanceName)
  }

  /** `[...new Set([...entry names, ...advance names])]`: every courier
      named anywhere, once, in order of first mention. */
  function DeliveryBoys(entries: seq<Entry>, advances: seq<Advance>): (r: seq<string>)
    ensures NoDups(r)
    ensures forall n :: n in r <==>
      (exists e :: e in entries && e.deliveryBoyName == n) || (exists a :: a in advances && a.deliveryBoyName == n)
  {
    var all := EarningsChart.EntryNames(entries) + AdvanceNames(advances);
    var r := Dedup(all);
    forall n ensures n in all <==>
      (exists e :: e in entries && e.deliveryBoyName == n) || (exists a :: a in advances && a.deliveryBoyName == n)
    {
      if n in EarningsChart.EntryNames(entries) {
        var k :| 0 <= k < |entries| && EarningsChart.EntryNames(entries)[k] == n;
        assert entries[k] in entries;
      }
      if n in AdvanceNames(advances) {
        var k :| 0 <= k < |advances| && AdvanceNames(advances)[k] == n;
        assert advances[k] in advances;
      }
      if exists e :: e in entries && e.deliveryBoyName == n {
        var e :| e in entries && e.deliveryBoyName == n;
        var k :| 0 <= k < |entries| && entries[k] == e;
        assert EarningsChart.EntryNames(entries)[k] == n;
      }
      if exists a :: a in advances && a.deliveryBoyName == n {
        var a :| a in advances && a.deliveryBoyName == n;
        var k :| 0 <= k < |advances| && advances[k] == a;
        assert AdvanceNames(advances)[k] == n;
      }
    }
    r
  }

  /** What the cards and the chart receive. */
  function FilteredEntriesByDate(entries: seq<Entry>, range: Option<DateRange>): seq<Entry> {
    ByDate(entries, EntryDate, range)
  }

  /** The main dashboard's advances: filtered by the date window only,
      whichever courier is selected. */
  function FilteredAdvancesByDate(advances: seq<Advance>, range: Option<DateRange>): (r: seq<Advance>)
    ensures forall a :: a in r <==> a in advances && InWindow(range, a.date)
    ensures forall a :: multiset(r)[a] == if InWindow(range, a.date) then multiset(advances)[a] else 0
    ensures Subseq(r, advances)
  {
    ByDate(advances, AdvanceDate, range)
  }

  /** The main dashboard lists the advances the area page lists under
      "All", whatever courier the main dashboard has selected. */
  lemma MainAdvancesIgnoreCourier(advances: seq<Advance>, range: Option<DateRange>)
    ensures FilteredAdvancesByDate(advances, range) == FilteredAdvances(advances, range, AllBoys)
  {
    forall a ensures WindowTest(AdvanceDate, range)(a) == AdvanceTest(range, AllBoys)(a) {
      assert CourierTest(AdvanceName, AllBoys)(a);
    }
    FilterExt(advances, WindowTest(AdvanceDate, range), AdvanceTest(range, AllBoys));
  }

  /** What the table receives: the date-filtered entries of the selected
      courier, a subsequence of the date-filtered list and so of the whole
      list. */
  function FinalFilteredEntries(entries: seq<Entry>, range: Option<DateRange>, selected: string): (r: seq<Entry>)
    ensures Subseq(r, FilteredEntriesByDate(entries, range))
    ensures Subseq(r, entries)
    ensures forall e :: e in r <==>
      e in entries && InWindow(range, e.date) && (selected == AllBoys || e.deliveryBoyName == selected)
  {
    DateThenCourier(entries, EntryDate, EntryName, range, selected);
    ByCourier(FilteredEntriesByDate(entries, range), EntryName, selected)
  }

  /** The cards and the chart agree: summed over the bars, payout is the
      cards' gross payout and profit is the cards' profit. */
  lemma ChartMatchesCards(entries: seq<Entry>, range: Option<DateRange>)
    ensures var shown := FilteredEntriesByDate(entries, range);
      Sum(EarningsChart.ChartData(shown), EarningsChart.BarPayout) == SummaryCards.SummaryTotals(shown).totalGrossPayout &&
      Sum(EarningsChart.ChartData(shown), EarningsChart.BarProfit) == SummaryCards.SummaryTotals(shown).totalProfit
  {
    var shown := FilteredEntriesByDate(entries, range);
    EarningsChart.BarsTotal(shown);
    SumPermutation(EarningsChart.ChartData(shown), EarningsChart.DataByBoy(shown), EarningsChart.BarPayout);
    SumPermutation(EarningsChart.ChartData(shown), EarningsChart.DataByBoy(shown), EarningsChart.BarProfit);
  }
}
