/** The date-window and courier filters that both dashboards apply to
    entries and advances (Dashboard.tsx and PincodeDashboard.tsx). */
module Filters {
  import opened Domain
  import opened Seqs

  /** The picker's selection; `None` is an absent range. */
  datatype DateRange = DateRange(from: Option<Time>, to: Option<Time>)

  /** No lower bound was picked, so nothing is filtered out. */
  predicate Unbounded(range: Option<DateRange>) {
    range.None? || range.value.from.None?
  }

  /** The day whose end closes the window: `to`, or `from` when `to` is
      missing. */
  function LastDay(r: DateRange): Time
    requires r.from.Some?
  {
    r.to.GetOr(r.from.value)
  }

  /** The window test of both dashboards: inclusive at the exact `from`
      instant, and inclusive through the end of the last day, so any instant
      on the last day is in the window whatever its time of day, and an
      instant on a later day is not. */
  function InWindow(range: Option<DateRange>, t: Time): (inside: bool)
    ensures Unbounded(range) ==> inside
    ensures !Unbounded(range) ==>
      (inside <==> range.value.from.value <= t && DayOf(t) <= DayOf(LastDay(range.value)))
  {
    Unbounded(range) || (
      var last := LastDay(range.value);
      assert t <= EndOfDay(last) <==> DayOf(t) <= DayOf(last) by {
        if DayOf(t) <= DayOf(last) {
          assert t < (DayOf(t) + 1) * DayMs;
        } else {
          assert t >= DayOf(t) * DayMs;
        }
      }
      range.value.from.value <= t && t <= EndOfDay(last))
  }

  function WindowTest<T>(date: T -> Time, range: Option<DateRange>): T -> bool {
    x => InWindow(range, date(x))
  }

  /** `xs.filter(x => ...date window...)`. */
  function ByDate<T(==,!new)>(xs: seq<T>, date: T -> Time, range: Option<DateRange>): (r: seq<T>)
    ensures Unbounded(range) ==> r == xs
    ensures !Unbounded(range) ==>
      forall x :: x in r <==>
        x in xs && range.value.from.value <= date(x) && DayOf(date(x)) <= DayOf(LastDay(range.value))
    ensures Subseq(r, xs)
    ensures forall x :: multiset(r)[x] == if InWindow(range, date(x)) then multiset(xs)[x] else 0
  {
    var r := Filter(xs, WindowTest(date, range));
    FilterCounts(xs, WindowTest(date, range));
    assert forall x :: WindowTest(date, range)(x) == InWindow(range, date(x));
    r
  }

  function CourierTest<T>(name: T -> string, selected: string): T -> bool {
    x => selected == AllBoys || name(x) == selected
  }

  function NameTest<T>(name: T -> string, n: string): T -> bool {
    x => name(x) == n
  }

  /** The elements recorded under exactly the name `n`. */
  function Named<T(==,!new)>(xs: seq<T>, name: T -> string, n: string): seq<T> {
    Filter(xs, NameTest(name, n))
  }

  /** `xs.filter(x => selected === 'All' || name(x) === selected)`. */
  function ByCourier<T(==,!new)>(xs: seq<T>, name: T -> string, selected: string): (r: seq<T>)
    ensures selected == AllBoys ==> r == xs
    ensures selected != AllBoys ==> forall x :: x in r <==> x in xs && name(x) == selected
    ensures selected != AllBoys ==> r == Named(xs, name, selected)
    ensures Subseq(r, xs)
  {
    var r := Filter(xs, CourierTest(name, selected));
    if selected != AllBoys then
      FilterExt(xs, CourierTest(name, selected), NameTest(name, selected));
      r
    else
      r
  }

  function AdvanceTest(range: Option<DateRange>, selected: string): Advance -> bool {
    a => CourierTest(AdvanceName, selected)(a) && WindowTest(AdvanceDate, range)(a)
  }

  /** The advances the area page shows: the selected courier's (every
      courier's under "All") inside the window.  The main dashboard filters
      its advances by the window alone. */
  function FilteredAdvances(advances: seq<Advance>, range: Option<DateRange>, selected: string): (r: seq<Advance>)
    ensures forall a :: a in r <==>
      a in advances && (selected == AllBoys || a.deliveryBoyName == selected) && InWindow(range, a.date)
    ensures Subseq(r, advances)
    ensures forall a :: multiset(r)[a] ==
                        if (selected == AllBoys || a.deliveryBoyName == selected) && InWindow(range, a.date)
                        then multiset(advances)[a] else 0
  {
    FilterCounts(advances, AdvanceTest(range, selected));
    forall a ensures AdvanceTest(range, selected)(a) ==
      ((selected == AllBoys || a.deliveryBoyName == selected) && InWindow(range, a.date))
    {
      assert CourierTest(AdvanceName, selected)(a) == (selected == AllBoys || AdvanceName(a) == selected);
      assert WindowTest(AdvanceDate, range)(a) == InWindow(range, AdvanceDate(a));
    }
    Filter(advances, AdvanceTest(range, selected))
  }

  /** Filtering by date and then by courier is one filter by both tests, so
      the doubly filtered list is itself a subsequence of the input. */
  lemma DateThenCourier<T(!new)>(xs: seq<T>, date: T -> Time, name: T -> string, range: Option<DateRange>, selected: string)
    ensures ByCourier(ByDate(xs, date, range), name, selected)
         == Filter(xs, x => InWindow(range, date(x)) && (selected == AllBoys || name(x) == selected))
    ensures Subseq(ByCourier(ByDate(xs, date, range), name, selected), xs)
  {
    var both := x => InWindow(range, date(x)) && (selected == AllBoys || name(x) == selected);
    FilterFilter(xs, WindowTest(date, range), CourierTest(name, selected), both);
  }

  /** Applying the courier test and the window test in either order gives
      the same advances. */
  lemma AdvancesEitherOrder(advances: seq<Advance>, range: Option<DateRange>, selected: string)
    ensures FilteredAdvances(advances, range, selected)
         == ByDate(ByCourier(advances, AdvanceName, selected), AdvanceDate, range)
  {
    FilterFilter(advances, CourierTest(AdvanceName, selected), WindowTest(AdvanceDate, range),
                 AdvanceTest(range, selected));
  }
}
