/** The analytics page (app/dashboard/analytics/page.tsx): revenue, order
    count, average order value and a per-day sales series over the store's
    last 30 days of non-cancelled orders. The calendar-day label of a timestamp
    (a locale-formatting call) and the 30-day window (a clock reading) are
    parameters. */
module Analytics {
  import opened Common
  import opened Orders
  import opened Grouping

  /** One bar of the sales chart. */
  datatype ChartPoint = ChartPoint(date: string, amount: int)

  /** The query: orders of `storeId` created inside the window, not cancelled.
      Ordering by `created_at` is left to the database; the model takes the
      rows in the order the database returns them. */
  function WindowQuery(all: seq<Order>, storeId: string, inWindow: string -> bool): (r: seq<Order>)
    ensures forall o :: o in r <==> o in all && o.storeId == storeId && inWindow(o.createdAt) && o.status != Cancelled
    ensures |r| <= |all|
  {
    if all == [] then []
    else
      var rest := WindowQuery(all[1..], storeId, inWindow);
      var o := all[0];
      assert forall x :: x in all <==> x == o || x in all[1..];
      if o.storeId == storeId && inWindow(o.createdAt) && o.status != Cancelled then [o] + rest else rest
  }

  /** The query is a filter: it works row by row, so it keeps order and
      multiplicity. Querying a concatenation concatenates the results, and a
      single row is returned exactly when it matches. */
  lemma {:induction false} WindowQueryAppend(a: seq<Order>, b: seq<Order>, storeId: string, inWindow: string -> bool)
    ensures WindowQuery(a + b, storeId, inWindow) == WindowQuery(a, storeId, inWindow) + WindowQuery(b, storeId, inWindow)
    ensures forall o :: WindowQuery([o], storeId, inWindow)
                     == if o.storeId == storeId && inWindow(o.createdAt) && o.status != Cancelled then [o] else []
  {
    if a != [] {
      assert (a + b)[1..] == a[1..] + b;
      WindowQueryAppend(a[1..], b, storeId, inWindow);
    } else {
      assert a + b == b;
    }
    forall o ensures WindowQuery([o], storeId, inWindow)
      == if o.storeId == storeId && inWindow(o.createdAt) && o.status != Cancelled then [o] else []
    {
      assert [o][1..] == [];
    }
  }

  /** `orders || []`: a null result is no rows. */
  function Rows(orders: Option<seq<Order>>): seq<Order>
  {
    if orders.Some? then orders.value else []
  }

  /** The grouping key: the calendar-day label of the order's creation time. */
  function ByDate(dateKey: string -> string): Order -> string
  {
    (o: Order) => dateKey(o.createdAt)
  }

  /** An order's contribution to revenue. */
  function Amount(o: Order): int { o.totalAmount }

  /** The `forEach` over the orders: fills `salesByDate` (a JavaScript `Map`,
      modelled as its keys in insertion order plus a Dafny map) and the two
      counters. `null` orders leave everything empty. */
  method SalesByDate(orders: Option<seq<Order>>, dateKey: string -> string)
    returns (dates: seq<string>, salesByDate: map<string, int>, totalRevenue: int, totalOrders: int)
    ensures dates == FirstKeys(Rows(orders), ByDate(dateKey))
    ensures forall k :: k in salesByDate <==> k in dates
    ensures forall k :: k in dates ==> salesByDate[k] == SumKey(Rows(orders), ByDate(dateKey), k, Amount)
    ensures totalRevenue == Total(Rows(orders), Amount)
    ensures totalOrders == |Rows(orders)|
  {
    dates, salesByDate, totalRevenue, totalOrders := [], map[], 0, 0;
    var s := Rows(orders);
    if orders.Some? {
      ghost var key := ByDate(dateKey);
      for i := 0 to |s|
        invariant Summed(s[..i], key, dates, salesByDate)
        invariant totalRevenue == Total(s[..i], Amount)
        invariant totalOrders == i
      {
        var order := s[i];
        var date := dateKey(order.createdAt);
        ghost var dates0, salesByDate0 := dates, salesByDate;
        var current := if date in salesByDate then salesByDate[date] else 0;
        if date !in salesByDate {
          dates := dates + [date];
        }
        salesByDate := salesByDate[date := current + order.totalAmount];
        SalesStep(s, i, key, dates0, salesByDate0, dates, salesByDate);
        assert s[..i + 1][..i] == s[..i];
        assert Total(s[..i + 1], Amount) == Total(s[..i], Amount) + order.totalAmount;
        totalRevenue := totalRevenue + order.totalAmount;
        totalOrders := totalOrders + 1;
      }
      assert s[..|s|] == s;
    }
  }

  /** `dates` (in insertion order) and `salesByDate` hold exactly the per-date
      sums of the orders `p`. */
  ghost predicate Summed(p: seq<Order>, key: Order -> string, dates: seq<string>, salesByDate: map<string, int>)
  {
    && dates == FirstKeys(p, key)
    && (forall k :: k in salesByDate <==> k in dates)
    && (forall k :: k in dates ==> salesByDate[k] == SumKey(p, key, k, Amount))
  }

  /** One turn of the `forEach` keeps `Summed`: order `i`'s date is listed if
      new, and its amount is added to that date's sum. */
  lemma {:induction false} SalesStep(s: seq<Order>, i: nat, key: Order -> string,
                                     dates: seq<string>, salesByDate: map<string, int>,
                                     dates': seq<string>, salesByDate': map<string, int>)
    requires i < |s|
    requires Summed(s[..i], key, dates, salesByDate)
    requires var d := key(s[i]);
      && dates' == (if d in salesByDate then dates else dates + [d])
      && salesByDate' == salesByDate[d := (if d in salesByDate then salesByDate[d] else 0) + s[i].totalAmount]
    ensures Summed(s[..i + 1], key, dates', salesByDate')
  {
    var d := key(s[i]);
    var p := s[..i + 1];
    assert p[..i] == s[..i] && p[i] == s[i];
    if d !in salesByDate {
      FirstKeysMember(s[..i], key, d);
      SumKeyAbsent(s[..i], key, d, Amount);
    }
  }

  /** `Array.from(salesByDate.entries())`: one point per date, in insertion order. */
  function ChartData(dates: seq<string>, salesByDate: map<string, int>): (chart: seq<ChartPoint>)
    requires forall k :: k in dates ==> k in salesByDate
    ensures |chart| == |dates|
    ensures forall j :: 0 <= j < |dates| ==> chart[j] == ChartPoint(dates[j], salesByDate[dates[j]])
  {
    if dates == [] then [] else [ChartPoint(dates[0], salesByDate[dates[0]])] + ChartData(dates[1..], salesByDate)
  }

  /** Average order value: revenue over count, and 0 when there are no orders. */
  function AverageOrderValue(totalRevenue: int, totalOrders: int): (avg: real)
    ensures totalOrders > 0 ==> avg * totalOrders as real == totalRevenue as real
    ensures totalOrders <= 0 ==> avg == 0.0
  {
    if totalOrders > 0 then totalRevenue as real / totalOrders as real else 0.0
  }

  /** `Math.max(...amounts, 1)`: the chart's scale. */
  function MaxAmount(chart: seq<ChartPoint>): (m: int)
    ensures m >= 1
    ensures forall j :: 0 <= j < |chart| ==> chart[j].amount <= m
    ensures m == 1 || exists j :: 0 <= j < |chart| && chart[j].amount == m
  {
    if chart == [] then 1
    else
      var rest := MaxAmount(chart[1..]);
      if chart[0].amount > rest then chart[0].amount else rest
  }

  /** Displayed bar height in percent: `max(amount / maxAmount * 100, 1)`. */
  function BarHeight(amount: int, maxAmount: int): (h: real)
    requires maxAmount >= 1
    ensures h >= 1.0
    ensures 0 <= amount <= maxAmount ==> h <= 100.0
    ensures amount as real * 100.0 >= maxAmount as real ==> h * maxAmount as real == amount as real * 100.0
    ensures amount as real * 100.0 <= maxAmount as real ==> h == 1.0
  {
    var pct := amount as real / maxAmount as real * 100.0;
    ScaledShare(amount as real, maxAmount as real);
    if pct > 1.0 then pct else 1.0
  }

  /** The share `a / m` in percent, multiplied back by `m`, is `a * 100`; so it
      exceeds 1 exactly when `a * 100` exceeds `m`, and it is at most 100 when
      `0 <= a <= m`. */
  lemma ScaledShare(a: real, m: real)
    requires m > 0.0
    ensures var p := a / m * 100.0;
      && p * m == a * 100.0
      && (p > 1.0 <==> a * 100.0 > m)
      && (0.0 <= a <= m ==> p <= 100.0)
  {
    var q := a / m;
    assert q * m == a;
    var p := q * 100.0;
    assert p * m == (q * m) * 100.0;
    if 0.0 <= a <= m {
      assert q <= 1.0;
    }
  }

  /** Sum of a chart's amounts. */
  function ChartSum(chart: seq<ChartPoint>): int
  {
    if chart == [] then 0 else chart[0].amount + ChartSum(chart[1..])
  }

  lemma {:induction false} ChartSumIsKeySum(dates: seq<string>, salesByDate: map<string, int>, s: seq<Order>, key: Order -> string)
    requires forall k :: k in dates ==> k in salesByDate && salesByDate[k] == SumKey(s, key, k, Amount)
    ensures ChartSum(ChartData(dates, salesByDate)) == SumOverKeys(dates, s, key, Amount)
  {
    if dates != [] {
      ChartSumIsKeySum(dates[1..], salesByDate, s, key);
    }
  }

  /** The bars add up to the revenue card, and no date gets two bars. */
  lemma ChartMatchesRevenue(orders: Option<seq<Order>>, dateKey: string -> string,
                            dates: seq<string>, salesByDate: map<string, int>, totalRevenue: int)
    requires dates == FirstKeys(Rows(orders), ByDate(dateKey))
    requires forall k :: k in dates ==> k in salesByDate && salesByDate[k] == SumKey(Rows(orders), ByDate(dateKey), k, Amount)
    requires totalRevenue == Total(Rows(orders), Amount)
    ensures ChartSum(ChartData(dates, salesByDate)) == totalRevenue
    ensures NoDuplicates(dates)
  {
    var s := Rows(orders);
    ChartSumIsKeySum(dates, salesByDate, s, ByDate(dateKey));
    SumOverFirstKeys(s, ByDate(dateKey), Amount);
    FirstKeysDistinct(s, ByDate(dateKey));
  }

  /** A date has a bar exactly when some order falls on it. */
  lemma ChartDatesAreOrderDates(s: seq<Order>, dateKey: string -> string, d: string)
    ensures d in FirstKeys(s, ByDate(dateKey)) <==> exists i :: 0 <= i < |s| && dateKey(s[i].createdAt) == d
  {
    FirstKeysMember(s, ByDate(dateKey), d);
  }

  /** Everything the page shows. */
  datatype Report = Report(totalRevenue: int, totalOrders: int, averageOrderValue: real,
                           chart: seq<ChartPoint>, maxAmount: int)

  /** The page's computation from the fetched orders to the figures it renders. */
  method BuildReport(orders: Option<seq<Order>>, dateKey: string -> string) returns (r: Report)
    ensures r.totalRevenue == Total(Rows(orders), Amount)
    ensures r.totalOrders == |Rows(orders)|
    ensures r.averageOrderValue == AverageOrderValue(r.totalRevenue, r.totalOrders)
    ensures |r.chart| == |FirstKeys(Rows(orders), ByDate(dateKey))|
    ensures forall j :: 0 <= j < |r.chart| ==> r.chart[j].date == FirstKeys(Rows(orders), ByDate(dateKey))[j]
    ensures forall j :: 0 <= j < |r.chart| ==>
      r.chart[j].amount == SumKey(Rows(orders), ByDate(dateKey), r.chart[j].date, Amount)
    ensures ChartSum(r.chart) == r.totalRevenue
    ensures r.maxAmount >= 1
    ensures forall j :: 0 <= j < |r.chart| ==> r.chart[j].amount <= r.maxAmount
    ensures r.maxAmount == 1 || exists j :: 0 <= j < |r.chart| && r.chart[j].amount == r.maxAmount
  {
    var dates, salesByDate, totalRevenue, totalOrders := SalesByDate(orders, dateKey);
    ChartMatchesRevenue(orders, dateKey, dates, salesByDate, totalRevenue);
    var chart := ChartData(dates, salesByDate);
    r := Report(totalRevenue, totalOrders, AverageOrderValue(totalRevenue, totalOrders), chart, MaxAmount(chart));
  }

  /** Three orders of 1000, 2000 and a cancelled 5000 inside the window: the
      query drops the cancelled one, so revenue is 3000 over 2 orders. */
  lemma ThreeOrderExample(dateKey: string -> string)
    ensures var all := [Order("a", "st", "A", "a@x", Paid, 1000, "t1"),
                        Order("b", "st", "B", "b@x", Pending, 2000, "t2"),
                        Order("c", "st", "C", "c@x", Cancelled, 5000, "t3")];
      var s := WindowQuery(all, "st", (t: string) => true);
      && Total(s, Amount) == 3000 && |s| == 2
      && AverageOrderValue(Total(s, Amount), |s|) == 1500.0
  {
    var all := [Order("a", "st", "A", "a@x", Paid, 1000, "t1"),
                Order("b", "st", "B", "b@x", Pending, 2000, "t2"),
                Order("c", "st", "C", "c@x", Cancelled, 5000, "t3")];
    var s := WindowQuery(all, "st", (t: string) => true);
    assert s == all[..2];
    assert s[..1] == [all[0]];
    assert [all[0]][..0] == [];
    assert Total(s[..1], Amount) == 1000;
    assert Total(s, Amount) == Total(s[..1], Amount) + 2000;
  }
}
