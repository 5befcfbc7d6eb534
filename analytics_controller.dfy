/**
 * The admin analytics handler (backend/controllers/analytics.controller.js): the
 * all-time totals, the list of days of the last week, the per-day aggregation of the
 * orders in that window, and the merge that fills days without orders with zeros.
 *
 * Times are integer milliseconds since the epoch and every day lasts `DayMs`; a
 * "YYYY-MM-DD" label is modelled by its day number `DayOf(t)`, so two times carry the
 * same label exactly when they have the same day number.
 */
module AnalyticsController {
  import opened Wrappers

  const DayMs: int := 24 * 60 * 60 * 1000

  /** The handler looks back this many days from now. */
  const WindowDays: int := 7

  /** The day label of a time (its UTC date). */
  function DayOf(t: int): int {
    t / DayMs
  }

  /** One day later is the next label. */
  lemma DayOfShift(t: int, n: int)
    ensures DayOf(t + n * DayMs) == DayOf(t) + n
  {
  }

  /** How many times `start`, `start + DayMs`, ... lie at or before `end`. */
  function DayCount(start: int, end: int): (n: nat)
    ensures n == 0 <==> start > end
    ensures n > 0 ==> start + (n - 1) * DayMs <= end < start + n * DayMs
  {
    if start > end then 0 else (end - start) / DayMs + 1
  }

  /** The week the handler reports: eight labels, both ends included. */
  lemma WeekHasEightDays(now: int)
    ensures DayCount(now - WindowDays * DayMs, now) == 8
  {
  }

  /**
   * `getDateInRang`: starting at `start`, one label per day while the current time
   * is at or before `end`. The labels are consecutive day numbers beginning with the
   * day of `start`, and the last one is the last step that does not pass `end`.
   */
  method GetDateInRange(start: int, end: int) returns (dates: seq<int>)
    ensures |dates| == DayCount(start, end)
    ensures dates == [] <==> start > end
    ensures forall k :: 0 <= k < |dates| ==> dates[k] == DayOf(start) + k
    ensures dates != [] ==> start + (|dates| - 1) * DayMs <= end < start + |dates| * DayMs
  {
    dates := [];
    var current := start;
    while current <= end
      invariant current == start + |dates| * DayMs
      invariant forall k :: 0 <= k < |dates| ==> dates[k] == DayOf(start) + k
      invariant dates == [] || current - DayMs <= end
      decreases end - current
    {
      DayOfShift(start, |dates|);
      dates := dates + [DayOf(current)];
      current := current + DayMs;
    }
  }

  /** An order document: its creation time and its total. */
  datatype Order = Order(createdAt: int, totalAmount: int)

  /** One group of the daily aggregation: the day label, the order count and the revenue. */
  datatype DayGroup = DayGroup(day: int, sales: int, revenue: int)

  /** One entry of the daily series. */
  datatype DailyEntry = DailyEntry(date: int, sales: int, revenue: int)

  /** The `$match` stage: created at or after `start` and at or before `end`. */
  predicate InWindow(o: Order, start: int, end: int) {
    start <= o.createdAt <= end
  }

  /** The number of orders in the window created on day `d`. */
  function SalesOn(orders: seq<Order>, start: int, end: int, d: int): nat {
    if orders == [] then 0
    else (if InWindow(orders[0], start, end) && DayOf(orders[0].createdAt) == d then 1 else 0)
         + SalesOn(orders[1..], start, end, d)
  }

  /** The summed totals of the orders in the window created on day `d`. */
  function RevenueOn(orders: seq<Order>, start: int, end: int, d: int): int {
    if orders == [] then 0
    else (if InWindow(orders[0], start, end) && DayOf(orders[0].createdAt) == d then orders[0].totalAmount else 0)
         + RevenueOn(orders[1..], start, end, d)
  }

  /** A day without orders in the window has no revenue either. */
  lemma {:induction false} NoSalesNoRevenue(orders: seq<Order>, start: int, end: int, d: int)
    requires SalesOn(orders, start, end, d) == 0
    ensures RevenueOn(orders, start, end, d) == 0
  {
    if orders != [] {
      NoSalesNoRevenue(orders[1..], start, end, d);
    }
  }

  /** The position of the first group for day `d`, as `Array.prototype.find` scans. */
  function GroupIndex(groups: seq<DayGroup>, d: int): (r: Option<nat>)
    ensures r.Some? ==> r.value < |groups| && groups[r.value].day == d
    ensures r.Some? ==> forall j :: 0 <= j < r.value ==> groups[j].day != d
    ensures r.None? ==> forall j :: 0 <= j < |groups| ==> groups[j].day != d
  {
    if groups == [] then None
    else if groups[0].day == d then Some(0)
    else match GroupIndex(groups[1..], d)
      case None => None
      case Some(k) => Some(k + 1)
  }

  function FindGroup(groups: seq<DayGroup>, d: int): Option<DayGroup> {
    match GroupIndex(groups, d)
    case None => None
    case Some(i) => Some(groups[i])
  }

  /** The `$group` stage taking in one order: its day's group grows, or a new group starts. */
  function AddOrder(groups: seq<DayGroup>, o: Order): seq<DayGroup> {
    var d := DayOf(o.createdAt);
    match GroupIndex(groups, d)
    case None => groups + [DayGroup(d, 1, o.totalAmount)]
    case Some(i) => groups[i := DayGroup(d, groups[i].sales + 1, groups[i].revenue + o.totalAmount)]
  }

  /**
   * The daily aggregation: `$match` on the window, then `$group` by day label. The
   * `$sort` stage is not modelled; the merge looks groups up by label, so their order
   * does not change its result.
   */
  function Aggregate(orders: seq<Order>, start: int, end: int): seq<DayGroup> {
    if orders == [] then []
    else
      var rest := Aggregate(orders[1..], start, end);
      if InWindow(orders[0], start, end) then AddOrder(rest, orders[0]) else rest
  }

  /** Changing a group without changing its day leaves every lookup where it was. */
  lemma {:induction false} GroupIndexUpdate(groups: seq<DayGroup>, i: nat, g: DayGroup, d: int)
    requires i < |groups| && g.day == groups[i].day
    ensures GroupIndex(groups[i := g], d) == GroupIndex(groups, d)
  {
    if groups[0].day != d && i > 0 {
      assert groups[i := g][1..] == groups[1..][i - 1 := g];
      GroupIndexUpdate(groups[1..], i - 1, g, d);
    }
  }

  /** Appending a group only answers lookups that had no answer before. */
  lemma {:induction false} GroupIndexAppend(groups: seq<DayGroup>, g: DayGroup, d: int)
    ensures GroupIndex(groups + [g], d)
         == match GroupIndex(groups, d)
            case Some(i) => Some(i)
            case None => if g.day == d then Some(|groups|) else None
  {
    if groups != [] && groups[0].day != d {
      assert (groups + [g])[1..] == groups[1..] + [g];
      GroupIndexAppend(groups[1..], g, d);
    }
  }

  /** What one order does to the group of each day. */
  lemma AddOrderFind(groups: seq<DayGroup>, o: Order, d: int)
    ensures FindGroup(AddOrder(groups, o), d)
         == if d != DayOf(o.createdAt) then FindGroup(groups, d)
            else match FindGroup(groups, d)
              case None => Some(DayGroup(d, 1, o.totalAmount))
              case Some(g) => Some(DayGroup(d, g.sales + 1, g.revenue + o.totalAmount))
  {
    var od := DayOf(o.createdAt);
    match GroupIndex(groups, od)
    case None =>
      GroupIndexAppend(groups, DayGroup(od, 1, o.totalAmount), d);
    case Some(i) =>
      GroupIndexUpdate(groups, i, DayGroup(od, groups[i].sales + 1, groups[i].revenue + o.totalAmount), d);
  }

  /**
   * The aggregation has a group for day `d` exactly when some order in the window was
   * created that day, and the group holds their count and their summed totals.
   */
  lemma {:induction false} AggregateFind(orders: seq<Order>, start: int, end: int, d: int)
    ensures FindGroup(Aggregate(orders, start, end), d)
         == if SalesOn(orders, start, end, d) == 0 then None
            else Some(DayGroup(d, SalesOn(orders, start, end, d), RevenueOn(orders, start, end, d)))
  {
    if orders != [] {
      AggregateFind(orders[1..], start, end, d);
      if SalesOn(orders[1..], start, end, d) == 0 {
        NoSalesNoRevenue(orders[1..], start, end, d);
      }
      if InWindow(orders[0], start, end) {
        AddOrderFind(Aggregate(orders[1..], start, end), orders[0], d);
      }
    }
  }

  /**
   * One entry of the series: the label and the group's figures, zero when there is no
   * group. For a number `x`, `x || 0` is `x` (it is 0 only when `x` is already 0).
   */
  function EntryFor(date: int, groups: seq<DayGroup>): DailyEntry {
    match FindGroup(groups, date)
    case None => DailyEntry(date, 0, 0)
    case Some(g) => DailyEntry(date, g.sales, g.revenue)
  }

  /** The merge in `getDailySalesData`: one entry per label, in the labels' order. */
  function Merge(dates: seq<int>, groups: seq<DayGroup>): (r: seq<DailyEntry>)
    ensures |r| == |dates|
    ensures forall k :: 0 <= k < |r| ==> r[k].date == dates[k]
  {
    seq(|dates|, k requires 0 <= k < |dates| => EntryFor(dates[k], groups))
  }

  /**
   * Merging the aggregation onto any list of labels reports, for each label, the
   * number and summed totals of the window's orders created that day; days without
   * orders report 0 and 0.
   */
  lemma MergeCountsOrders(dates: seq<int>, orders: seq<Order>, start: int, end: int)
    ensures var r := Merge(dates, Aggregate(orders, start, end));
      forall k :: 0 <= k < |r| ==>
        r[k] == DailyEntry(dates[k], SalesOn(orders, start, end, dates[k]), RevenueOn(orders, start, end, dates[k]))
  {
    var r := Merge(dates, Aggregate(orders, start, end));
    forall k | 0 <= k < |r|
      ensures r[k] == DailyEntry(dates[k], SalesOn(orders, start, end, dates[k]), RevenueOn(orders, start, end, dates[k]))
    {
      AggregateFind(orders, start, end, dates[k]);
      if SalesOn(orders, start, end, dates[k]) == 0 {
        NoSalesNoRevenue(orders, start, end, dates[k]);
      }
    }
  }

  /** A day no order in the window was created on has no group and reports zeros. */
  lemma QuietDayIsZero(orders: seq<Order>, start: int, end: int, d: int)
    requires SalesOn(orders, start, end, d) == 0
    ensures FindGroup(Aggregate(orders, start, end), d) == None
    ensures EntryFor(d, Aggregate(orders, start, end)) == DailyEntry(d, 0, 0)
  {
    AggregateFind(orders, start, end, d);
    NoSalesNoRevenue(orders, start, end, d);
  }

  /** The summed totals of all orders. */
  function Revenue(orders: seq<Order>): int {
    if orders == [] then 0 else orders[0].totalAmount + Revenue(orders[1..])
  }

  /** The figures of the all-time aggregation group. */
  datatype SalesTotals = SalesTotals(totalSales: int, totalRevenue: int)

  /** The all-time aggregation (`_id: null`): no group at all when there are no orders. */
  function TotalsAggregate(orders: seq<Order>): (r: seq<SalesTotals>)
    ensures |r| <= 1
    ensures r == [] <==> orders == []
  {
    if orders == [] then [] else [SalesTotals(|orders|, Revenue(orders))]
  }

  /** What `getAnalyticsData` returns. */
  datatype Summary = Summary(users: nat, products: nat, totalSales: int, totalRevenue: int)

  /** `getAnalyticsData` from the two counts and the aggregation: the first group, or zeros. */
  function AnalyticsSummary(users: nat, products: nat, salesData: seq<SalesTotals>): Summary {
    var t := if salesData != [] then salesData[0] else SalesTotals(0, 0);
    Summary(users, products, t.totalSales, t.totalRevenue)
  }

  /** The summary counts every order and sums every total; with no orders both are 0. */
  lemma SummaryCountsOrders(users: nat, products: nat, orders: seq<Order>)
    ensures var r := AnalyticsSummary(users, products, TotalsAggregate(orders));
      && r == Summary(users, products, |orders|, Revenue(orders))
      && (orders == [] ==> r.totalSales == 0 && r.totalRevenue == 0)
  {
  }

  /** The 200 answer of the handler. */
  datatype AnalyticsResponse = AnalyticsResponse(analyticsData: Summary, dailySalesData: seq<DailyEntry>)

  /**
   * `analyticsData` at time `now`, over the stored orders and the two collection
   * counts: the all-time summary and one entry for each of the eight days from a week
   * ago to today, each counting the orders of the window created that day.
   */
  method AnalyticsData(users: nat, products: nat, orders: seq<Order>, now: int)
    returns (r: AnalyticsResponse)
    ensures r.analyticsData == Summary(users, products, |orders|, Revenue(orders))
    ensures |r.dailySalesData| == WindowDays + 1
    ensures var start := now - WindowDays * DayMs;
      forall k :: 0 <= k < |r.dailySalesData| ==>
        r.dailySalesData[k]
          == DailyEntry(DayOf(start) + k, SalesOn(orders, start, now, DayOf(start) + k),
                        RevenueOn(orders, start, now, DayOf(start) + k))
  {
    var summary := AnalyticsSummary(users, products, TotalsAggregate(orders));
    SummaryCountsOrders(users, products, orders);
    var endDate := now;
    var startDate := endDate - WindowDays * DayMs;
    var groups := Aggregate(orders, startDate, endDate);
    var dates := GetDateInRange(startDate, endDate);
    WeekHasEightDays(now);
    MergeCountsOrders(dates, orders, startDate, endDate);
    r := AnalyticsResponse(summary, Merge(dates, groups));
  }
}
