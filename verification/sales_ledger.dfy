/**
 * The daily sales ledger of the React storefront (src/hooks/useSalesData.ts):
 * one bucket per calendar day with units sold per item and their total.
 * Days are whole day numbers since 1970-01-01 (UTC), instants are
 * milliseconds since then; both come from the clock, which is an input here.
 */
module SalesLedger {
  import opened ItemCounts

  const DayMs: int := 86400000

  /** A day's sales: units per item and the day's total. */
  datatype DailySales = DailySales(date: int, items: seq<Count>, total: int)

  /** A bucket whose total is the sum of its per-item counts. */
  predicate Consistent(d: DailySales) {
    DistinctKeys(d.items) && d.total == SumCounts(d.items)
  }

  /** Every bucket is consistent and no two buckets share a date. */
  predicate WellFormed(ledger: seq<DailySales>) {
    && (forall k :: 0 <= k < |ledger| ==> Consistent(ledger[k]))
    && (forall a, b :: 0 <= a < b < |ledger| ==> ledger[a].date != ledger[b].date)
  }

  /** `prev.findIndex(d => d.date === date)`. */
  function DayIndex(ledger: seq<DailySales>, date: int): (r: int)
    ensures -1 <= r < |ledger|
    ensures r >= 0 ==> ledger[r].date == date && forall j :: 0 <= j < r ==> ledger[j].date != date
    ensures r == -1 <==> forall j :: 0 <= j < |ledger| ==> ledger[j].date != date
  {
    if ledger == [] then -1
    else if ledger[0].date == date then 0
    else
      var k := DayIndex(ledger[1..], date);
      assert forall j :: 1 <= j < |ledger| ==> ledger[j] == ledger[1..][j - 1];
      if k < 0 then -1 else k + 1
  }

  /** The UTC day of an instant, as `toISOString().split('T')[0]` names it. */
  function DayOf(now: int): int {
    now / DayMs
  }

  /**
   * `recordSale`: find today's bucket and add `quantity` units of `itemId` to
   * it and to its total, or append a new bucket holding just this sale.
   */
  function RecordSale(ledger: seq<DailySales>, today: int, itemId: string, quantity: int): seq<DailySales> {
    var i := DayIndex(ledger, today);
    if i >= 0 then
      ledger[i := AddSale(ledger[i], itemId, quantity)]
    else
      ledger + [DailySales(today, [Count(itemId, quantity)], quantity)]
  }

  /** A copy of bucket `d` with `items[itemId] = (items[itemId] || 0) + quantity` and `total += quantity`. */
  function AddSale(d: DailySales, itemId: string, quantity: int): DailySales {
    DailySales(d.date, Put(d.items, itemId, Get(d.items, itemId) + quantity), d.total + quantity)
  }

  /**
   * When today's bucket exists, it gains `quantity` units of the item and in
   * its total, and every other bucket is unchanged.
   */
  lemma RecordSaleExisting(ledger: seq<DailySales>, today: int, itemId: string, quantity: int)
    requires DayIndex(ledger, today) >= 0
    ensures var i := DayIndex(ledger, today);
            var r := RecordSale(ledger, today, itemId, quantity);
            && |r| == |ledger|
            && (forall k :: 0 <= k < |ledger| && k != i ==> r[k] == ledger[k])
            && r[i].date == today
            && Get(r[i].items, itemId) == Get(ledger[i].items, itemId) + quantity
            && r[i].total == ledger[i].total + quantity
  {
    var i := DayIndex(ledger, today);
    var d := ledger[i];
    var r := RecordSale(ledger, today, itemId, quantity);
    assert r == ledger[i := AddSale(d, itemId, quantity)];
    GetPut(d.items, itemId, Get(d.items, itemId) + quantity, itemId);
  }

  /** Recording a sale of one item leaves the counts of every other item of the day unchanged. */
  lemma RecordSaleOtherItems(ledger: seq<DailySales>, today: int, itemId: string, quantity: int, other: string)
    requires DayIndex(ledger, today) >= 0 && other != itemId
    ensures var i := DayIndex(ledger, today);
            Get(RecordSale(ledger, today, itemId, quantity)[i].items, other) == Get(ledger[i].items, other)
  {
    var i := DayIndex(ledger, today);
    var d := ledger[i];
    assert RecordSale(ledger, today, itemId, quantity)[i] == AddSale(d, itemId, quantity);
    GetPut(d.items, itemId, Get(d.items, itemId) + quantity, other);
  }

  /** Without a bucket for today, exactly one bucket is appended, holding only this sale. */
  lemma RecordSaleNew(ledger: seq<DailySales>, today: int, itemId: string, quantity: int)
    requires DayIndex(ledger, today) < 0
    ensures RecordSale(ledger, today, itemId, quantity)
            == ledger + [DailySales(today, [Count(itemId, quantity)], quantity)]
  {
  }

  /** Replacing a bucket by a consistent one of the same date keeps the ledger well formed. */
  lemma ReplaceBucketKeepsWellFormed(ledger: seq<DailySales>, i: int, nd: DailySales)
    requires WellFormed(ledger) && 0 <= i < |ledger|
    requires Consistent(nd) && nd.date == ledger[i].date
    ensures WellFormed(ledger[i := nd])
    ensures forall k :: 0 <= k < |ledger| ==> ledger[i := nd][k].date == ledger[k].date
  {
    var r := ledger[i := nd];
    assert forall k :: 0 <= k < |r| ==> r[k].date == ledger[k].date;
  }

  /** Appending a consistent bucket of a new date keeps the ledger well formed. */
  lemma AppendBucketKeepsWellFormed(ledger: seq<DailySales>, nd: DailySales)
    requires WellFormed(ledger) && Consistent(nd)
    requires forall k :: 0 <= k < |ledger| ==> ledger[k].date != nd.date
    ensures WellFormed(ledger + [nd])
    ensures forall k :: 0 <= k < |ledger| ==> (ledger + [nd])[k] == ledger[k]
  {
    var r := ledger + [nd];
    assert forall k :: 0 <= k < |ledger| ==> r[k] == ledger[k];
  }

  /**
   * Recording keeps every total equal to the sum of its item counts and keeps
   * one bucket per date; no stored bucket is dropped or re-dated.
   */
  lemma RecordSaleKeepsWellFormed(ledger: seq<DailySales>, today: int, itemId: string, quantity: int)
    requires WellFormed(ledger)
    ensures WellFormed(RecordSale(ledger, today, itemId, quantity))
    ensures |RecordSale(ledger, today, itemId, quantity)| >= |ledger|
    ensures forall k :: 0 <= k < |ledger| ==> RecordSale(ledger, today, itemId, quantity)[k].date == ledger[k].date
  {
    if DayIndex(ledger, today) >= 0 {
      ExistingBucketWellFormed(ledger, today, itemId, quantity);
    } else {
      NewBucketWellFormed(ledger, today, itemId, quantity);
    }
  }

  /** Recording into an existing day keeps the ledger well formed and its dates in place. */
  lemma ExistingBucketWellFormed(ledger: seq<DailySales>, today: int, itemId: string, quantity: int)
    requires WellFormed(ledger) && DayIndex(ledger, today) >= 0
    ensures WellFormed(RecordSale(ledger, today, itemId, quantity))
    ensures |RecordSale(ledger, today, itemId, quantity)| == |ledger|
    ensures forall k :: 0 <= k < |ledger| ==> RecordSale(ledger, today, itemId, quantity)[k].date == ledger[k].date
  {
    var i := DayIndex(ledger, today);
    UpdatedBucketConsistent(ledger[i], itemId, quantity);
    ReplaceBucketKeepsWellFormed(ledger, i, AddSale(ledger[i], itemId, quantity));
  }

  /** A consistent bucket stays consistent when one item and the total grow by the same quantity. */
  lemma UpdatedBucketConsistent(d: DailySales, itemId: string, quantity: int)
    requires Consistent(d)
    ensures Consistent(AddSale(d, itemId, quantity))
  {
    var v := Get(d.items, itemId) + quantity;
    PutKeys(d.items, itemId, v);
    SumPut(d.items, itemId, v);
  }

  /** The bucket that recording into a new day appends is consistent and of a new date. */
  lemma NewBucketWellFormed(ledger: seq<DailySales>, today: int, itemId: string, quantity: int)
    requires WellFormed(ledger) && DayIndex(ledger, today) < 0
    ensures WellFormed(RecordSale(ledger, today, itemId, quantity))
    ensures |RecordSale(ledger, today, itemId, quantity)| == |ledger| + 1
    ensures forall k :: 0 <= k < |ledger| ==> RecordSale(ledger, today, itemId, quantity)[k] == ledger[k]
  {
    var nd := DailySales(today, [Count(itemId, quantity)], quantity);
    assert SumCounts([Count(itemId, quantity)]) == quantity by {
      assert [Count(itemId, quantity)][..0] == [];
    }
    assert RecordSale(ledger, today, itemId, quantity) == ledger + [nd];
    AppendBucketKeepsWellFormed(ledger, nd);
  }

  /** Whether a bucket falls in the window: its date, read as UTC midnight, is at or after a week before `now`. */
  predicate InLastWeek(d: DailySales, now: int) {
    d.date * DayMs >= now - 7 * DayMs
  }

  /** `lastWeekSales`: the buckets of the last week, in stored order; the ledger itself is not pruned. */
  function LastWeekSales(ledger: seq<DailySales>, now: int): (r: seq<DailySales>)
    ensures |r| <= |ledger|
  {
    if ledger == [] then []
    else
      var last := ledger[|ledger| - 1];
      LastWeekSales(ledger[..|ledger| - 1], now) + (if InLastWeek(last, now) then [last] else [])
  }

  /** The window holds exactly the stored buckets that are recent. */
  lemma {:induction false} LastWeekSalesMembers(ledger: seq<DailySales>, now: int)
    ensures forall d :: d in LastWeekSales(ledger, now) <==> d in ledger && InLastWeek(d, now)
  {
    if ledger != [] {
      var n := |ledger| - 1;
      LastWeekSalesMembers(ledger[..n], now);
      assert ledger == ledger[..n] + [ledger[n]];
    }
  }

  /** The window of a ledger grown by one bucket is the old window, then that bucket if it is recent. */
  lemma LastWeekSalesSnoc(s: seq<DailySales>, x: DailySales, now: int)
    ensures LastWeekSales(s + [x], now) == LastWeekSales(s, now) + (if InLastWeek(x, now) then [x] else [])
  {
    var sx := s + [x];
    assert sx[..|sx| - 1] == s;
    assert sx[|sx| - 1] == x;
  }

  /** The window keeps stored order: filtering distributes over concatenation. */
  lemma {:induction false} LastWeekSalesAppend(a: seq<DailySales>, b: seq<DailySales>, now: int)
    ensures LastWeekSales(a + b, now) == LastWeekSales(a, now) + LastWeekSales(b, now)
  {
    if b == [] {
      assert a + b == a;
    } else {
      var n := |b| - 1;
      var x := b[n];
      var tail := if InLastWeek(x, now) then [x] else [];
      LastWeekSalesAppend(a, b[..n], now);
      assert a + b == (a + b[..n]) + [x];
      assert b == b[..n] + [x];
      LastWeekSalesSnoc(a + b[..n], x, now);
      LastWeekSalesSnoc(b[..n], x, now);
      assert LastWeekSales(a, now) + LastWeekSales(b[..n], now) + tail
          == LastWeekSales(a, now) + (LastWeekSales(b[..n], now) + tail);
    }
  }

  /**
   * Which days the window keeps: at exactly midnight the eight days from
   * today-7 to today; at any later moment of the day only the seven days from
   * today-6 to today, because the bucket of today-7 sits at midnight, before
   * the instant a week ago.
   */
  lemma LastWeekDays(d: DailySales, now: int)
    ensures now % DayMs == 0 ==> (InLastWeek(d, now) <==> d.date >= DayOf(now) - 7)
    ensures now % DayMs != 0 ==> (InLastWeek(d, now) <==> d.date >= DayOf(now) - 6)
  {
    var t := DayOf(now);
    assert now == t * DayMs + now % DayMs;
    if d.date >= t - 6 {
      assert d.date * DayMs >= (t - 6) * DayMs;
    } else if d.date <= t - 8 {
      assert d.date * DayMs <= (t - 8) * DayMs;
    }
  }

  /** The six items of the generated history. */
  const DemoItemIds: seq<string> := ["sandwich", "burger", "water", "cola", "bandage", "medkit"]

  lemma DemoItemIdsDistinct()
    ensures forall a, b :: 0 <= a < b < |DemoItemIds| ==> DemoItemIds[a] != DemoItemIds[b]
  {
    assert DemoItemIds[0][0] == 's' && DemoItemIds[1][0] == 'b' && DemoItemIds[2][0] == 'w';
    assert DemoItemIds[3][0] == 'c' && DemoItemIds[4][0] == 'b' && DemoItemIds[5][0] == 'm';
    assert DemoItemIds[1][1] == 'u' && DemoItemIds[4][1] == 'a';
  }

  /** A random demo quantity: `Math.floor(Math.random() * 50) + 5`. */
  predicate DemoQuantity(q: int) {
    5 <= q <= 54
  }

  /** Bucket `d` is the demo day `date` built from the draws `row`: the six demo items in order. */
  predicate DemoBucket(d: DailySales, date: int, row: seq<int>) {
    && d.date == date
    && |d.items| == |DemoItemIds| == |row|
    && (forall j :: 0 <= j < |DemoItemIds| ==> d.items[j] == Count(DemoItemIds[j], row[j]))
    && (forall j :: 0 <= j < |DemoItemIds| ==> Get(d.items, DemoItemIds[j]) == row[j])
  }

  /**
   * `generateDemoSalesData`: seven consecutive days ending today, oldest
   * first; day `k` sells `draws[k][j]` units of the `j`-th demo item, and each
   * day's total is the sum of its counts. Each day holds exactly the six demo
   * items, in catalogue order. The random draws are an input.
   */
  method GenerateDemoSalesData(today: int, draws: seq<seq<int>>) returns (data: seq<DailySales>)
    requires |draws| == 7
    requires forall k :: 0 <= k < 7 ==> |draws[k]| == |DemoItemIds|
    requires forall k, j :: 0 <= k < 7 && 0 <= j < |draws[k]| ==> DemoQuantity(draws[k][j])
    ensures |data| == 7
    ensures forall k :: 0 <= k < 7 ==> data[k].date == today - 6 + k
    ensures forall k :: 0 <= k < 7 ==> |data[k].items| == |DemoItemIds|
    ensures forall k, j :: 0 <= k < 7 && 0 <= j < |DemoItemIds| ==> data[k].items[j] == Count(DemoItemIds[j], draws[k][j])
    ensures forall k, j :: 0 <= k < 7 && 0 <= j < |DemoItemIds| ==> Get(data[k].items, DemoItemIds[j]) == draws[k][j]
    ensures WellFormed(data)
  {
    DemoItemIdsDistinct();
    data := [];
    var i := 6;
    while i >= 0
      invariant -1 <= i <= 6
      invariant |data| == 6 - i
      invariant forall k :: 0 <= k < |data| ==> DemoBucket(data[k], today - 6 + k, draws[k])
      invariant WellFormed(data)
    {
      var items, total := DemoDay(DemoItemIds, draws[6 - i]);
      var day := DailySales(today - i, items, total);
      assert DemoBucket(day, today - i, draws[6 - i]);
      AppendBucketKeepsWellFormed(data, day);
      assert forall p :: 0 <= p < |data| ==> (data + [day])[p] == data[p];
      data := data + [day];
      i := i - 1;
    }
  }

  /**
   * One day of the demo data: `items[item.id] = qty` and `total += qty` for
   * each demo item `ids` lists, in turn, with the day's draws as the quantities.
   */
  method DemoDay(ids: seq<string>, row: seq<int>) returns (items: seq<Count>, total: int)
    requires |row| == |ids|
    requires forall a, b :: 0 <= a < b < |ids| ==> ids[a] != ids[b]
    ensures |items| == |ids|
    ensures forall x :: 0 <= x < |ids| ==> items[x] == Count(ids[x], row[x])
    ensures forall x :: 0 <= x < |ids| ==> Get(items, ids[x]) == row[x]
    ensures DistinctKeys(items) && total == SumCounts(items)
  {
    items := [];
    total := 0;
    var j := 0;
    while j < |ids|
      invariant 0 <= j <= |ids|
      invariant |items| == j
      invariant forall x :: 0 <= x < j ==> items[x] == Count(ids[x], row[x])
      invariant DistinctKeys(items)
      invariant total == SumCounts(items)
    {
      var c := Count(ids[j], row[j]);
      assert KeyIndex(items, c.id) == -1;
      SumCountsAppend(items, c);
      items := Put(items, c.id, c.n);
      total := total + row[j];
      j := j + 1;
    }
    forall x | 0 <= x < |ids|
      ensures Get(items, ids[x]) == row[x]
    {
      GetStored(items, x);
    }
  }
}
