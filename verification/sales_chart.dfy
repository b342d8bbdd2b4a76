/**
 * The weekly sales chart (src/components/market/SalesChart.tsx): per-item
 * totals across the shown days, the five best sellers, one zero-filled row
 * per day, and the label and colour of each charted item.
 */
module SalesChart {
  import opened Base
  import opened ItemCounts
  import opened SalesLedger

  /** Weekday abbreviations, Sunday first, as `Date.getDay()` numbers them. */
  const WeekdayNames: seq<string> := ["Paz", "Pzt", "Sal", "Çar", "Per", "Cum", "Cmt"]

  /** The bar colours; the i-th charted item gets the colour at i modulo 5. */
  const Colors: seq<string> := ["hsl(var(--primary))", "hsl(var(--secondary))", "hsl(var(--accent))",
                                "hsl(142, 76%, 36%)", "hsl(48, 96%, 53%)"]

  /** The five colours are pairwise different, so up to five bars coloured by position never share one. */
  lemma ColorsDistinct()
    ensures forall a, b :: 0 <= a < b < |Colors| ==> Colors[a] != Colors[b]
  {
    assert |Colors[0]| == 19 && |Colors[1]| == 21 && |Colors[2]| == 18 && |Colors[3]| == 18 && |Colors[4]| == 17;
    assert Colors[2][4] == 'v' && Colors[3][4] == '1';
  }

  /** The weekday number (0 = Sunday) of a day number; day 0, 1970-01-01, was a Thursday. */
  function Weekday(date: int): (r: int)
    ensures 0 <= r < 7
    ensures date % 7 == 3 ==> r == 0
  {
    (date + 4) % 7
  }

  /** Consecutive days have consecutive weekdays, and the week repeats every seven days. */
  lemma WeekdayCycle(date: int)
    ensures Weekday(date + 1) == (Weekday(date) + 1) % 7
    ensures Weekday(date + 7) == Weekday(date)
  {
  }

  /** `formatDate` as written: the weekday of the UTC midnight of `date`, read in local time `utcOffsetMinutes` east of UTC. */
  function DayLabelAsWritten(date: int, utcOffsetMinutes: int): string {
    var localDay := (date * DayMs + utcOffsetMinutes * 60000) / DayMs;
    WeekdayNames[Weekday(localDay)]
  }

  /** `formatDate` as intended: the weekday of the calendar date itself. */
  function DayLabel(date: int): string {
    WeekdayNames[Weekday(date)]
  }

  /** East of UTC, and in UTC itself, the written label is the intended one. */
  lemma DayLabelEastOfUtc(date: int, utcOffsetMinutes: int)
    requires 0 <= utcOffsetMinutes < 1440
    ensures DayLabelAsWritten(date, utcOffsetMinutes) == DayLabel(date)
  {
    var ms := date * DayMs + utcOffsetMinutes * 60000;
    assert date * DayMs <= ms < (date + 1) * DayMs;
    assert ms / DayMs == date;
  }

  /** West of UTC, up to a day behind, the written label is the previous day's. */
  lemma DayLabelBehindUtc(date: int, utcOffsetMinutes: int)
    requires -1440 <= utcOffsetMinutes < 0
    ensures DayLabelAsWritten(date, utcOffsetMinutes) == DayLabel(date - 1)
  {
    var ms := date * DayMs + utcOffsetMinutes * 60000;
    assert (date - 1) * DayMs <= ms < date * DayMs;
    assert ms / DayMs == date - 1;
  }

  /** An instance: 1970-01-01 (a Thursday, "Per") shows "Çar" at UTC-3. */
  lemma DayLabelWestOfUtc()
    ensures DayLabel(0) == "Per"
    ensures DayLabelAsWritten(0, -180) == "Çar"
  {
    assert (0 * DayMs + -180 * 60000) / DayMs == -1;
  }

  /**
   * The running per-item totals after adding one day's counts in their
   * order: `itemTotals[itemId] = (itemTotals[itemId] || 0) + qty`.
   */
  function AddCounts(totals: seq<Count>, items: seq<Count>): seq<Count> {
    if items == [] then totals
    else
      var n := |items| - 1;
      var t := AddCounts(totals, items[..n]);
      Put(t, items[n].id, Get(t, items[n].id) + items[n].n)
  }

  /** The per-item totals across `days`, in the order ids were first seen. */
  function TotalsOf(days: seq<DailySales>): seq<Count> {
    if days == [] then []
    else AddCounts(TotalsOf(days[..|days| - 1]), days[|days| - 1].items)
  }

  /** Units of `id` across all entries with that id (one entry at most in a JS object). */
  function Occurrences(items: seq<Count>, id: string): int {
    if items == [] then 0
    else
      var n := |items| - 1;
      Occurrences(items[..n], id) + (if items[n].id == id then items[n].n else 0)
  }

  /** The summary total of an item: `salesData.reduce((sum, day) => sum + (day.items[itemId] || 0), 0)`. */
  function DaySum(days: seq<DailySales>, id: string): int {
    if days == [] then 0
    else DaySum(days[..|days| - 1], id) + Get(days[|days| - 1].items, id)
  }

  /** Adding a day's counts raises each item's running total by its units that day. */
  lemma {:induction false} AddCountsGet(totals: seq<Count>, items: seq<Count>, id: string)
    ensures Get(AddCounts(totals, items), id) == Get(totals, id) + Occurrences(items, id)
  {
    if items != [] {
      var n := |items| - 1;
      var t := AddCounts(totals, items[..n]);
      AddCountsGet(totals, items[..n], id);
      GetPut(t, items[n].id, Get(t, items[n].id) + items[n].n, id);
    }
  }

  /** Running totals never hold an id twice. */
  lemma {:induction false} AddCountsKeys(totals: seq<Count>, items: seq<Count>)
    requires DistinctKeys(totals)
    ensures DistinctKeys(AddCounts(totals, items))
  {
    if items != [] {
      var n := |items| - 1;
      AddCountsKeys(totals, items[..n]);
      PutKeys(AddCounts(totals, items[..n]), items[n].id, Get(AddCounts(totals, items[..n]), items[n].id) + items[n].n);
    }
  }

  /** In a JS object each id has one entry, so its units are what the lookup returns. */
  lemma {:induction false} OccurrencesDistinct(items: seq<Count>, id: string)
    requires DistinctKeys(items)
    ensures Occurrences(items, id) == Get(items, id)
  {
    if items != [] {
      var n := |items| - 1;
      assert DistinctKeys(items[..n]);
      OccurrencesDistinct(items[..n], id);
      GetLast(items);
    }
  }

  /** Each day is a JS object: no item id twice in a bucket. */
  predicate DaysHaveDistinctKeys(days: seq<DailySales>) {
    forall k :: 0 <= k < |days| ==> DistinctKeys(days[k].items)
  }

  /**
   * The total of every item is the sum over the days of its daily count, which
   * is also the summary figure shown under the chart; no id appears twice.
   */
  lemma {:induction false} TotalsOfSpec(days: seq<DailySales>, id: string)
    requires DaysHaveDistinctKeys(days)
    ensures Get(TotalsOf(days), id) == DaySum(days, id)
    ensures DistinctKeys(TotalsOf(days))
  {
    if days != [] {
      var n := |days| - 1;
      assert DaysHaveDistinctKeys(days[..n]);
      TotalsOfSpec(days[..n], id);
      AddCountsGet(TotalsOf(days[..n]), days[n].items, id);
      AddCountsKeys(TotalsOf(days[..n]), days[n].items);
      OccurrencesDistinct(days[n].items, id);
    }
  }

  /** `TotalsOfSpec` for every item at once. */
  lemma TotalsOfSpecAll(days: seq<DailySales>)
    requires DaysHaveDistinctKeys(days)
    ensures DistinctKeys(TotalsOf(days))
    ensures forall id :: Get(TotalsOf(days), id) == DaySum(days, id)
  {
    TotalsOfSpec(days, "");
    forall id ensures Get(TotalsOf(days), id) == DaySum(days, id) {
      TotalsOfSpec(days, id);
    }
  }

  /** The `itemTotals` loop: every day's entries added to a dictionary in order. */
  method ItemTotals(days: seq<DailySales>) returns (totals: seq<Count>)
    ensures totals == TotalsOf(days)
  {
    totals := [];
    var d := 0;
    while d < |days|
      invariant 0 <= d <= |days|
      invariant totals == TotalsOf(days[..d])
    {
      totals := AddDay(totals, days[d].items);
      assert days[..d + 1][..d] == days[..d];
      d := d + 1;
    }
    assert days[..d] == days;
  }

  /** The inner `forEach`: `itemTotals[itemId] = (itemTotals[itemId] || 0) + qty` for each entry in turn. */
  method AddDay(totals: seq<Count>, items: seq<Count>) returns (r: seq<Count>)
    ensures r == AddCounts(totals, items)
  {
    r := totals;
    var j := 0;
    while j < |items|
      invariant 0 <= j <= |items|
      invariant r == AddCounts(totals, items[..j])
    {
      assert items[..j + 1][..j] == items[..j];
      r := Put(r, items[j].id, Get(r, items[j].id) + items[j].n);
      j := j + 1;
    }
    assert items[..j] == items;
  }

  /** Totals in non-increasing order. */
  predicate NonIncreasing(s: seq<Count>) {
    forall i, j :: 0 <= i < j < |s| ==> s[i].n >= s[j].n
  }

  /** Insert `x` after every entry whose total is at least its own. */
  function Insert(s: seq<Count>, x: Count): seq<Count> {
    if s == [] then [x]
    else if s[0].n < x.n then [x] + s
    else [s[0]] + Insert(s[1..], x)
  }

  /**
   * `Object.entries(itemTotals).sort((a, b) => b[1] - a[1])`: the stable
   * descending sort, so ties keep the order in which ids were first seen.
   */
  function SortByTotal(s: seq<Count>): seq<Count> {
    if s == [] then []
    else Insert(SortByTotal(s[..|s| - 1]), s[|s| - 1])
  }

  /** Insertion adds exactly the inserted entry, once. */
  lemma {:induction false} InsertMultiset(s: seq<Count>, x: Count)
    ensures multiset(Insert(s, x)) == multiset(s) + multiset{x}
  {
    if s != [] && s[0].n >= x.n {
      InsertMultiset(s[1..], x);
      assert s == [s[0]] + s[1..];
    }
  }

  /** Insertion keeps the totals in non-increasing order. */
  lemma {:induction false} InsertSorted(s: seq<Count>, x: Count)
    requires NonIncreasing(s)
    ensures NonIncreasing(Insert(s, x))
  {
    if s != [] && s[0].n >= x.n {
      var tail := Insert(s[1..], x);
      InsertSorted(s[1..], x);
      InsertMembers(s[1..], x);
      var r := [s[0]] + tail;
      forall i, j | 0 <= i < j < |r| ensures r[i].n >= r[j].n {
        if i > 0 {
          assert r[i] == tail[i - 1] && r[j] == tail[j - 1];
        } else {
          assert r[j] in tail;
          if r[j] != x {
            var k :| 0 <= k < |s[1..]| && s[1..][k] == r[j];
            assert s[k + 1] == r[j];
          }
        }
      }
    }
  }

  /** Insertion keeps the totals sorted and adds exactly the inserted entry. */
  lemma InsertSpec(s: seq<Count>, x: Count)
    requires NonIncreasing(s)
    ensures NonIncreasing(Insert(s, x))
    ensures multiset(Insert(s, x)) == multiset(s) + multiset{x}
  {
    InsertSorted(s, x);
    InsertMultiset(s, x);
  }

  /** The sort orders by non-increasing total and is a permutation of its input. */
  lemma SortSpec(s: seq<Count>)
    ensures NonIncreasing(SortByTotal(s))
    ensures multiset(SortByTotal(s)) == multiset(s)
  {
    SortSorted(s);
    SortMultiset(s);
  }

  /** The sort orders by non-increasing total. */
  lemma {:induction false} SortSorted(s: seq<Count>)
    ensures NonIncreasing(SortByTotal(s))
  {
    if s != [] {
      var n := |s| - 1;
      SortSorted(s[..n]);
      InsertSorted(SortByTotal(s[..n]), s[n]);
    }
  }

  /** The sort is a permutation of its input. */
  lemma {:induction false} SortMultiset(s: seq<Count>)
    ensures multiset(SortByTotal(s)) == multiset(s)
  {
    if s != [] {
      var n := |s| - 1;
      SortMultiset(s[..n]);
      InsertKeepsPermutation(SortByTotal(s[..n]), s, s[n]);
    }
  }

  /** Inserting the last entry of `u` into a permutation of the rest gives a permutation of `u`. */
  lemma InsertKeepsPermutation(t: seq<Count>, u: seq<Count>, x: Count)
    requires u != [] && x == u[|u| - 1]
    requires multiset(t) == multiset(u[..|u| - 1])
    ensures multiset(Insert(t, x)) == multiset(u)
  {
    InsertMultiset(t, x);
    assert u[..|u| - 1] + [x] == u;
  }

  /** Inserting an entry whose id is new keeps the ids distinct. */
  lemma {:induction false} InsertKeys(s: seq<Count>, x: Count)
    requires DistinctKeys(s) && forall c :: c in s ==> c.id != x.id
    ensures DistinctKeys(Insert(s, x))
  {
    if s != [] && s[0].n >= x.n {
      var tail := Insert(s[1..], x);
      assert DistinctKeys(s[1..]);
      InsertKeys(s[1..], x);
      assert s == [s[0]] + s[1..];
      InsertMembers(s[1..], x);
      forall c | c in tail ensures c.id != s[0].id {
        assert c in s[1..] || c == x;
      }
      var r := [s[0]] + tail;
      forall i, j | 0 <= i < j < |r| ensures r[i].id != r[j].id {
        if i > 0 {
          assert r[i] == tail[i - 1] && r[j] == tail[j - 1];
        } else {
          assert r[j] in tail;
        }
      }
    }
  }

  /** Insertion adds exactly the inserted entry. */
  lemma {:induction false} InsertMembers(s: seq<Count>, x: Count)
    ensures forall c :: c in Insert(s, x) <==> c in s || c == x
  {
    if s != [] && s[0].n >= x.n {
      InsertMembers(s[1..], x);
      assert s == [s[0]] + s[1..];
    }
  }

  /** The sort keeps ids distinct. */
  lemma {:induction false} SortKeys(s: seq<Count>)
    requires DistinctKeys(s)
    ensures DistinctKeys(SortByTotal(s))
    ensures forall c :: c in SortByTotal(s) <==> c in s
  {
    if s != [] {
      var n := |s| - 1;
      assert DistinctKeys(s[..n]);
      SortKeys(s[..n]);
      assert s == s[..n] + [s[n]];
      forall c | c in SortByTotal(s[..n]) ensures c.id != s[n].id {
        var k :| 0 <= k < n && s[..n][k] == c;
      }
      InsertKeys(SortByTotal(s[..n]), s[n]);
      InsertMembers(SortByTotal(s[..n]), s[n]);
    }
  }

  /** The ids of a list of entries, in order. */
  function Ids(c: seq<Count>): (r: seq<string>)
    ensures |r| == |c| && forall i :: 0 <= i < |c| ==> r[i] == c[i].id
  {
    if c == [] then [] else Ids(c[..|c| - 1]) + [c[|c| - 1].id]
  }

  /** `.slice(0, 5)` of the sorted entries. */
  function TopEntries(totals: seq<Count>): seq<Count> {
    var s := SortByTotal(totals);
    if |s| <= 5 then s else s[..5]
  }

  /** `topItems`: the ids of the five best-selling entries. */
  function TopItems(totals: seq<Count>): seq<string> {
    Ids(TopEntries(totals))
  }

  /** The top entries are the first min(5, n) entries of the sorted totals. */
  lemma TopEntriesPrefix(totals: seq<Count>)
    ensures var s := SortByTotal(totals);
            |s| == |totals| && NonIncreasing(s) && multiset(s) == multiset(totals)
            && TopEntries(totals) == s[..|TopEntries(totals)|]
            && |TopEntries(totals)| == if |totals| < 5 then |totals| else 5
  {
    SortSpec(totals);
    assert |SortByTotal(totals)| == |multiset(SortByTotal(totals))| == |totals|;
  }

  /**
   * The top list holds min(5, n) of the totals, best first, and every item
   * left out sold no more than any item kept.
   */
  lemma TopItemsSpec(totals: seq<Count>)
    ensures |TopItems(totals)| == if |totals| < 5 then |totals| else 5
    ensures NonIncreasing(TopEntries(totals))
    ensures forall x :: x in TopEntries(totals) ==> x in totals
    ensures forall c, x :: c in totals && c.id !in TopItems(totals) && x in TopEntries(totals) ==> x.n >= c.n
  {
    var s := SortByTotal(totals);
    var top := TopEntries(totals);
    TopEntriesPrefix(totals);
    forall x | x in top ensures x in totals {
      assert x in multiset(s);
    }
    forall c, x | c in totals && c.id !in TopItems(totals) && x in top ensures x.n >= c.n {
      LeftOutBelowTop(totals, c, x);
    }
  }

  /** An entry whose id is not in the top list sits after every top entry in the sorted order. */
  lemma LeftOutBelowTop(totals: seq<Count>, c: Count, x: Count)
    requires c in totals && c.id !in TopItems(totals) && x in TopEntries(totals)
    ensures x.n >= c.n
  {
    var s := SortByTotal(totals);
    var top := TopEntries(totals);
    TopEntriesPrefix(totals);
    assert c in multiset(s);
    var j :| 0 <= j < |s| && s[j] == c;
    var i :| 0 <= i < |top| && top[i] == x;
    assert j >= |top| by {
      assert forall k :: 0 <= k < |top| ==> Ids(top)[k] == s[k].id;
    }
  }

  /** With distinct item ids in the totals, the top list names each item once. */
  lemma TopItemsDistinct(totals: seq<Count>)
    requires DistinctKeys(totals)
    ensures forall a, b :: 0 <= a < b < |TopItems(totals)| ==> TopItems(totals)[a] != TopItems(totals)[b]
  {
    SortKeys(totals);
  }

  /** One chart row: the weekday label, the date and a count per charted item. */
  datatype ChartRow = ChartRow(date: string, fullDate: int, values: seq<Count>)

  /** A day's counts for the charted ids, 0 where the day sold none. */
  function ZeroFilled(items: seq<Count>, ids: seq<string>): seq<Count> {
    if ids == [] then []
    else
      var n := |ids| - 1;
      Put(ZeroFilled(items, ids[..n]), ids[n], Get(items, ids[n]))
  }

  /** Every charted id has the day's count, 0 if it sold none; ids not charted have no value. */
  lemma {:induction false} ZeroFilledGet(items: seq<Count>, ids: seq<string>, id: string)
    ensures Get(ZeroFilled(items, ids), id) == if id in ids then Get(items, id) else 0
  {
    if ids != [] {
      var n := |ids| - 1;
      ZeroFilledGet(items, ids[..n], id);
      GetPut(ZeroFilled(items, ids[..n]), ids[n], Get(items, ids[n]), id);
      if id in ids && id != ids[n] {
        var k :| 0 <= k < |ids| && ids[k] == id;
        assert ids[..n][k] == id;
      }
      assert ids == ids[..n] + [ids[n]];
    }
  }

  /** With distinct ids the row holds one value per charted id, in chart order. */
  lemma {:induction false} ZeroFilledIds(items: seq<Count>, ids: seq<string>)
    requires forall a, b :: 0 <= a < b < |ids| ==> ids[a] != ids[b]
    ensures |ZeroFilled(items, ids)| == |ids|
    ensures forall j :: 0 <= j < |ids| ==> ZeroFilled(items, ids)[j].id == ids[j]
  {
    if ids != [] {
      var n := |ids| - 1;
      var v := ZeroFilled(items, ids[..n]);
      ZeroFilledIds(items, ids[..n]);
      assert forall j :: 0 <= j < n ==> v[j].id != ids[n];
      assert KeyIndex(v, ids[n]) == -1;
      assert ZeroFilled(items, ids) == v + [Count(ids[n], Get(items, ids[n]))];
    }
  }

  /** The `topItems.forEach` loop filling one day's row. */
  method RowValues(items: seq<Count>, top: seq<string>) returns (values: seq<Count>)
    ensures values == ZeroFilled(items, top)
    ensures forall id :: Get(values, id) == if id in top then Get(items, id) else 0
  {
    values := [];
    var j := 0;
    while j < |top|
      invariant 0 <= j <= |top|
      invariant values == ZeroFilled(items, top[..j])
    {
      assert top[..j + 1][..j] == top[..j];
      values := Put(values, top[j], Get(items, top[j]));
      j := j + 1;
    }
    assert top[..j] == top;
    forall id ensures Get(values, id) == if id in top then Get(items, id) else 0 {
      ZeroFilledGet(items, top, id);
    }
  }

  /** `chartData`: one row per shown day, in the same order, zero-filled for the top items. */
  method ChartData(days: seq<DailySales>) returns (rows: seq<ChartRow>)
    ensures |rows| == |days|
    ensures forall k :: 0 <= k < |days| ==>
              && rows[k].date == DayLabel(days[k].date)
              && rows[k].fullDate == days[k].date
              && rows[k].values == ZeroFilled(days[k].items, TopItems(TotalsOf(days)))
  {
    var totals := ItemTotals(days);
    rows := DayRows(days, TopItems(totals));
  }

  /** The rows of `days` for the chosen ids `top`, one per day in order. */
  method DayRows(days: seq<DailySales>, top: seq<string>) returns (rows: seq<ChartRow>)
    ensures |rows| == |days|
    ensures forall k :: 0 <= k < |days| ==> rows[k] == ChartRow(DayLabel(days[k].date), days[k].date, ZeroFilled(days[k].items, top))
  {
    rows := [];
    var k := 0;
    while k < |days|
      invariant 0 <= k <= |days|
      invariant |rows| == k
      invariant forall p :: 0 <= p < k ==> rows[p] == ChartRow(DayLabel(days[p].date), days[p].date, ZeroFilled(days[p].items, top))
    {
      var values := RowValues(days[k].items, top);
      var row := ChartRow(DayLabel(days[k].date), days[k].date, values);
      assert forall p :: 0 <= p < k ==> (rows + [row])[p] == rows[p];
      rows := rows + [row];
      k := k + 1;
    }
  }

  /** `itemNames`: display names by item id. */
  datatype ItemName = ItemName(id: string, name: string)

  /** The first name recorded for `id`, if any. */
  function NameOf(names: seq<ItemName>, id: string): (r: Option<string>)
    ensures r.Some? <==> exists k :: 0 <= k < |names| && names[k].id == id
    ensures r.Some? ==> exists k :: 0 <= k < |names| && names[k] == ItemName(id, r.value)
  {
    if names == [] then None
    else if names[0].id == id then Some(names[0].name)
    else
      var r := NameOf(names[1..], id);
      if r.Some? then
        var k :| 0 <= k < |names| - 1 && names[1..][k] == ItemName(id, r.value);
        assert names[k + 1] == ItemName(id, r.value);
        r
      else
        assert forall k :: 1 <= k < |names| ==> names[k] == names[1..][k - 1];
        r
  }

  /** `itemNames[itemId] || itemId`: the name when there is a non-empty one, else the id. */
  function LabelOf(names: seq<ItemName>, id: string): (r: string)
    ensures (NameOf(names, id).Some? && NameOf(names, id).value != "") ==> r == NameOf(names, id).value
    ensures (NameOf(names, id).None? || NameOf(names, id).value == "") ==> r == id
    ensures id != "" ==> r != ""
  {
    match NameOf(names, id)
    case Some(n) => if n != "" then n else id
    case None => id
  }

  /** One `chartConfig` entry. */
  datatype ConfigEntry = ConfigEntry(id: string, legend: string, color: string)

  /**
   * `chartConfig`: the i-th top item gets its label and colour i modulo 5;
   * as there are at most five (and the five colours differ), no two bars
   * share a colour.
   */
  method BuildChartConfig(days: seq<DailySales>, names: seq<ItemName>) returns (config: seq<ConfigEntry>)
    ensures |config| == |TopItems(TotalsOf(days))| <= 5
    ensures forall i :: 0 <= i < |config| ==>
              config[i] == ConfigEntry(TopItems(TotalsOf(days))[i], LabelOf(names, TopItems(TotalsOf(days))[i]), Colors[i % 5])
  {
    var totals := ItemTotals(days);
    var top := TopItems(totals);
    config := [];
    var i := 0;
    while i < |top|
      invariant 0 <= i <= |top|
      invariant |config| == i
      invariant forall p :: 0 <= p < i ==> config[p] == ConfigEntry(top[p], LabelOf(names, top[p]), Colors[p % 5])
    {
      config := config + [ConfigEntry(top[i], LabelOf(names, top[i]), Colors[i % 5])];
      i := i + 1;
    }
  }
}
