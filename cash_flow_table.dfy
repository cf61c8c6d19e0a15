/** The cash-flow schedule table (src/components/CashFlowTable.tsx): a
    placeholder for a missing or empty schedule, otherwise a copy of the
    schedule sorted on `period` in the direction of the `sortAscending`
    state, a sort button whose arrow shows that direction, and a
    pluralised count of payment periods. */
module CashFlowTable {
  import opened BondTypes
  import Decimal

  type Item = CashFlowScheduleItem

  /** The comparator handed to `sort`: negative or zero keeps `a` before
      `b`, positive puts `b` first. */
  function Compare(a: Item, b: Item, ascending: bool): (r: int)
    ensures r == 0 <==> a.period == b.period
    ensures r < 0 <==> (if ascending then a.period < b.period else a.period > b.period)
  {
    if ascending then a.period - b.period else b.period - a.period
  }

  /** Every pair of rows is in the order the comparator asks for: periods
      non-decreasing when ascending, non-increasing when descending. */
  predicate Sorted(s: seq<Item>, ascending: bool)
  {
    forall i, j :: 0 <= i < j < |s| ==> Compare(s[i], s[j], ascending) <= 0
  }

  /** The rows of `s` whose period is `k`, in their order in `s`. */
  function WithPeriod(s: seq<Item>, k: int): (r: seq<Item>)
  {
    if s == [] then []
    else (if s[0].period == k then [s[0]] else []) + WithPeriod(s[1..], k)
  }

  /** Places `x` before the first row it does not come after; rows equal
      to `x` under the comparator stay after it. */
  function Insert(x: Item, t: seq<Item>, ascending: bool): (r: seq<Item>)
    ensures |r| == |t| + 1
    ensures multiset(r) == multiset(t) + multiset{x}
  {
    if t == [] || Compare(x, t[0], ascending) <= 0 then [x] + t
    else
      assert t == [t[0]] + t[1..];
      [t[0]] + Insert(x, t[1..], ascending)
  }

  /** A row that comes before `x` and before every row of `t` comes
      before every row of `Insert(x, t)`. */
  lemma {:induction false} InsertBounded(y: Item, x: Item, t: seq<Item>, ascending: bool)
    requires Compare(y, x, ascending) <= 0
    requires forall j :: 0 <= j < |t| ==> Compare(y, t[j], ascending) <= 0
    ensures forall j :: 0 <= j < |t| + 1 ==> Compare(y, Insert(x, t, ascending)[j], ascending) <= 0
  {
    if t != [] && Compare(x, t[0], ascending) > 0 {
      InsertBounded(y, x, t[1..], ascending);
    }
  }

  lemma {:induction false} InsertSorted(x: Item, t: seq<Item>, ascending: bool)
    requires Sorted(t, ascending)
    ensures Sorted(Insert(x, t, ascending), ascending)
  {
    var r := Insert(x, t, ascending);
    if t != [] && Compare(x, t[0], ascending) > 0 {
      var rest := Insert(x, t[1..], ascending);
      InsertSorted(x, t[1..], ascending);
      InsertBounded(t[0], x, t[1..], ascending);
      assert r == [t[0]] + rest;
    }
  }

  lemma WithPeriodCons(y: Item, s: seq<Item>, k: int)
    ensures WithPeriod([y] + s, k) == (if y.period == k then [y] else []) + WithPeriod(s, k)
  {
    assert ([y] + s)[1..] == s;
  }

  /** Inserting `x` adds it in front of the rows with its period and
      leaves every other period's rows as they were: the sort is stable. */
  lemma {:induction false} InsertWithPeriod(x: Item, t: seq<Item>, ascending: bool, k: int)
    ensures WithPeriod(Insert(x, t, ascending), k) ==
      (if x.period == k then [x] else []) + WithPeriod(t, k)
  {
    if t == [] || Compare(x, t[0], ascending) <= 0 {
      WithPeriodCons(x, t, k);
    } else {
      var rest := Insert(x, t[1..], ascending);
      WithPeriodCons(t[0], rest, k);
      InsertWithPeriod(x, t[1..], ascending, k);
      WithPeriodCons(t[0], t[1..], k);
      assert t == [t[0]] + t[1..];
      assert t[0].period != x.period;
    }
  }

  /** `[...cashFlowSchedule].sort(compare)`: a copy of the schedule in the
      comparator's order. The sort of the JavaScript standard library is
      stable, so it is modelled as an insertion sort, which is. */
  function SortByPeriod(s: seq<Item>, ascending: bool): (r: seq<Item>)
    ensures |r| == |s|
    ensures multiset(r) == multiset(s)
  {
    if s == [] then []
    else
      assert s == [s[0]] + s[1..];
      Insert(s[0], SortByPeriod(s[1..], ascending), ascending)
  }

  /** The copy is sorted by period in the chosen direction. */
  lemma {:induction false} SortByPeriodSorted(s: seq<Item>, ascending: bool)
    ensures Sorted(SortByPeriod(s, ascending), ascending)
  {
    if s != [] {
      SortByPeriodSorted(s[1..], ascending);
      InsertSorted(s[0], SortByPeriod(s[1..], ascending), ascending);
    }
  }

  /** Rows with the same period keep their order in the schedule. */
  lemma {:induction false} SortByPeriodStable(s: seq<Item>, ascending: bool, k: int)
    ensures WithPeriod(SortByPeriod(s, ascending), k) == WithPeriod(s, k)
  {
    if s != [] {
      SortByPeriodStable(s[1..], ascending, k);
      InsertWithPeriod(s[0], SortByPeriod(s[1..], ascending), ascending, k);
    }
  }

  const PlaceholderText: string := "Cash flow schedule will appear here after calculation"

  /** The text of the sort button. */
  function SortLabel(ascending: bool): (r: string)
    ensures r == "Sort \U{2193}" <==> ascending
    ensures r == "Sort \U{2191}" <==> !ascending
  {
    assert "Sort \U{2193}"[5] != "Sort \U{2191}"[5];
    "Sort " + (if ascending then "\U{2193}" else "\U{2191}")
  }

  const CountPrefix: string := "Showing "
  const CountNoun: string := " payment period"

  /** "Showing <n> payment period", with an "s" unless n is 1. */
  function CountText(n: nat): (r: string)
    ensures |r| > |CountPrefix| && r[..|CountPrefix|] == CountPrefix
    ensures r[|r| - 1] == 's' <==> n != 1
    ensures |r| == |CountPrefix| + |Decimal.NatToString(n)| + |CountNoun| + (if n != 1 then 1 else 0)
    ensures r[|CountPrefix| + |Decimal.NatToString(n)|..] ==
      CountNoun + (if n != 1 then "s" else "")
  {
    CountPrefix + Decimal.NatToString(n) + CountNoun + (if n != 1 then "s" else "")
  }

  /** The count text carries the number: after "Showing " comes a run of
      digits, ended by a space, that reads back as the number. */
  lemma CountTextReports(n: nat)
    ensures var d := |Decimal.NatToString(n)|;
      var r := CountText(n);
      |r| > |CountPrefix| + d &&
      (forall i :: |CountPrefix| <= i < |CountPrefix| + d ==> Decimal.IsDigit(r[i])) &&
      Decimal.ParseDigits(r[|CountPrefix|..|CountPrefix| + d]) == n &&
      r[|CountPrefix| + d] == ' '
  {
    var digits := Decimal.NatToString(n);
    var r := CountText(n);
    assert r[|CountPrefix|..|CountPrefix| + |digits|] == digits;
    assert r[|CountPrefix| + |digits|] == CountNoun[0];
    Decimal.ParseNatToString(n);
  }

  /** What the component renders for a schedule and a sort direction. */
  datatype View =
    | Placeholder(text: string)
    | Table(sortLabel: string, rows: seq<Item>, countText: string)

  function Render(schedule: Option<seq<Item>>, ascending: bool): (v: View)
    ensures v.Placeholder? <==> schedule == None || schedule == Some([])
    ensures v.Placeholder? ==> v.text == PlaceholderText
    ensures v.Table? ==>
      |v.rows| == |schedule.value| &&
      multiset(v.rows) == multiset(schedule.value) &&
      Sorted(v.rows, ascending) &&
      v.sortLabel == SortLabel(ascending) &&
      v.countText == CountText(|schedule.value|)
  {
    match schedule
    case None => Placeholder(PlaceholderText)
    case Some(s) =>
      if |s| == 0 then Placeholder(PlaceholderText)
      else
        SortByPeriodSorted(s, ascending);
        Table(SortLabel(ascending), SortByPeriod(s, ascending), CountText(|s|))
  }

  /** The rendered rows keep the relative order of rows that share a
      period. */
  lemma RenderStable(schedule: seq<Item>, ascending: bool, k: int)
    requires schedule != []
    ensures Render(Some(schedule), ascending).Table?
    ensures WithPeriod(Render(Some(schedule), ascending).rows, k) == WithPeriod(schedule, k)
  {
    SortByPeriodStable(schedule, ascending, k);
  }

  /** The three-row schedule of the component's tests reads "Showing 3
      payment periods". */
  lemma CountTextThree()
    ensures CountText(3) == "Showing 3 payment periods"
  {
    assert Decimal.NatToString(3) == "3";
  }

  /** A single row is not pluralised. */
  lemma CountTextOne()
    ensures CountText(1) == "Showing 1 payment period"
  {
    assert Decimal.NatToString(1) == "1";
  }

  /** One mounted table: the schedule it was given and its
      `sortAscending` state. */
  class CashFlowTableState {
    var cashFlowSchedule: Option<seq<Item>>
    var sortAscending: bool

    /** `useState(true)`: a new table sorts ascending. */
    constructor (schedule: Option<seq<Item>>)
      ensures cashFlowSchedule == schedule && sortAscending
    {
      cashFlowSchedule := schedule;
      sortAscending := true;
    }

    /** The parent passes a new schedule; the sort state is kept. */
    method Receive(schedule: Option<seq<Item>>)
      modifies this
      ensures cashFlowSchedule == schedule && sortAscending == old(sortAscending)
    {
      cashFlowSchedule := schedule;
    }

    /** `toggleSort`: flips the direction and nothing else. */
    method ToggleSort()
      modifies this
      ensures sortAscending == !old(sortAscending)
      ensures cashFlowSchedule == old(cashFlowSchedule)
    {
      sortAscending := !sortAscending;
    }

    /** What the table shows in its current state. */
    function CurrentView(): (v: View)
      reads this
    {
      Render(cashFlowSchedule, sortAscending)
    }
  }

  /** Two toggles restore the original direction and view. */
  method ToggleTwice(t: CashFlowTableState)
    modifies t
    ensures t.sortAscending == old(t.sortAscending)
    ensures t.CurrentView() == old(t.CurrentView())
  {
    t.ToggleSort();
    t.ToggleSort();
  }

  /** A new table shows the down arrow; one click shows the up arrow. */
  method FirstToggle(schedule: seq<Item>) returns (before: View, after: View)
    requires schedule != []
    ensures before.Table? && before.sortLabel == "Sort \U{2193}"
    ensures after.Table? && after.sortLabel == "Sort \U{2191}"
  {
    var t := new CashFlowTableState(Some(schedule));
    before := t.CurrentView();
    t.ToggleSort();
    after := t.CurrentView();
  }
}
