/** `/api/admin/stats`: the dashboard figures over the orders collection —
    the date bound the `filter` query selects, the revenue of paid orders,
    the payment and logistics counts, and the two order tables. */
module AdminStats {
  import opened Wrappers
  import opened Records
  import opened Http
  import Seqs
  import Ordering
  import opened OrderSchema

  const AdminsOnly := "Access denied. Admins only."
  const MethodRefused := "Method not allowed"
  const RecentLimit: nat := 10

  /** The three lower bounds the handler derives from the clock: local
      midnight today, seven calendar days ago, one calendar month ago. */
  datatype Clock = Clock(todayStart: int, weekStart: int, monthStart: int)

  /** `filter || 'all'`. */
  function FilterType(filter: Option<string>): (r: string)
    ensures filter.None? || filter == Some("") ==> r == "all"
    ensures Truthy(filter) ==> r == filter.value
  {
    StrOr(filter, "all")
  }

  /** The `switch` over the filter: the `createdAt` lower bound, or none. */
  function Bound(filterType: string, clock: Clock): (r: Option<int>)
    ensures r.Some? <==> filterType in {"today", "week", "month"}
    ensures filterType == "today" ==> r == Some(clock.todayStart)
    ensures filterType == "week" ==> r == Some(clock.weekStart)
    ensures filterType == "month" ==> r == Some(clock.monthStart)
  {
    match filterType
    case "today" => Some(clock.todayStart)
    case "week" => Some(clock.weekStart)
    case "month" => Some(clock.monthStart)
    case _ => None
  }

  /** `{ createdAt: { $gte: bound } }`, or `{}` when there is no bound. */
  predicate InRange(o: Order, bound: Option<int>) {
    bound.None? || o.createdAt >= bound.value
  }

  function InRangeTest(bound: Option<int>): Order -> bool {
    (o: Order) => InRange(o, bound)
  }

  function PaymentTest(status: string, bound: Option<int>): Order -> bool {
    (o: Order) => o.status == status && InRange(o, bound)
  }

  function LogisticsTest(orderStatus: string, bound: Option<int>): Order -> bool {
    (o: Order) => o.orderStatus == orderStatus && InRange(o, bound)
  }

  function Amount(o: Order): int { o.amountTotal }

  /** The `$match` + `$group` aggregate, with `|| 0` for an empty match. */
  function Revenue(docs: seq<Order>, bound: Option<int>): int {
    Seqs.Sum(Seqs.Filter(docs, PaymentTest("Paid", bound)), Amount)
  }

  /** `countDocuments({ status, ...dateFilter })`. */
  function PaymentCount(docs: seq<Order>, status: string, bound: Option<int>): nat {
    Seqs.CountIf(docs, PaymentTest(status, bound))
  }

  /** `countDocuments({ orderStatus, ...dateFilter })`. */
  function LogisticsCount(docs: seq<Order>, orderStatus: string, bound: Option<int>): nat {
    Seqs.CountIf(docs, LogisticsTest(orderStatus, bound))
  }

  /** The fields `.select(...)` keeps for the dashboard tables. */
  datatype OrderRow = OrderRow(
    id: Id,
    email: string,
    amountTotal: int,
    status: string,
    orderStatus: string,
    createdAt: int,
    items: seq<OrderItem>)

  function Row(o: Order): OrderRow {
    OrderRow(o.id, o.email, o.amountTotal, o.status, o.orderStatus, o.createdAt, o.items)
  }

  function Rows(s: seq<Order>): (r: seq<OrderRow>)
    ensures |r| == |s|
    ensures forall i :: 0 <= i < |s| ==> r[i] == Row(s[i])
  {
    seq(|s|, i requires 0 <= i < |s| => Row(s[i]))
  }

  /** `Order.find({}).sort({ createdAt: -1 }).limit(10)`. */
  function RecentOrders(docs: seq<Order>): seq<OrderRow> {
    Rows(Seqs.Take(Ordering.SortBy(docs, NegCreatedAt), RecentLimit))
  }

  /** `Order.find(dateFilter).sort({ createdAt: -1 })`. */
  function AllOrders(docs: seq<Order>, bound: Option<int>): seq<OrderRow> {
    Rows(Ordering.SortBy(Seqs.Filter(docs, InRangeTest(bound)), NegCreatedAt))
  }

  datatype Stats = Stats(
    totalRevenue: int,
    totalOrders: nat,
    productsCount: nat,
    pendingOrders: nat,
    paidOrders: nat,
    failedOrders: nat,
    processingOrders: nat,
    shippedOrders: nat,
    deliveredOrders: nat,
    cancelledOrders: nat,
    recentOrders: seq<OrderRow>,
    allOrders: seq<OrderRow>,
    filter: string)

  datatype Reply =
    | Report(stats: Stats)                     // 200
    | Refused(code: nat, message: string)      // 403, 405, 500

  /** The GET body for the orders `docs`; `productsCount` is the product
      count the handler reads alongside. */
  function Compute(docs: seq<Order>, filter: Option<string>, clock: Clock, productsCount: nat): Stats {
    var filterType := FilterType(filter);
    var bound := Bound(filterType, clock);
    var pending := PaymentCount(docs, "Pending", bound);
    var paid := PaymentCount(docs, "Paid", bound);
    var failed := PaymentCount(docs, "Failed", bound);
    Stats(Revenue(docs, bound), paid + pending + failed, productsCount,
          pending, paid, failed,
          LogisticsCount(docs, "Processing", bound), LogisticsCount(docs, "Shipped", bound),
          LogisticsCount(docs, "Delivered", bound), LogisticsCount(docs, "Cancelled", bound),
          RecentOrders(docs), AllOrders(docs, bound), filterType)
  }

  /** The handler: the admin gate first, then GET only; `failure` is the
      message of a query that threw. */
  function Handle(session: Session, m: Method, filter: Option<string>, docs: seq<Order>,
                  clock: Clock, productsCount: nat, failure: Option<string>): (r: Reply)
    ensures !IsAdmin(session) ==> r == Refused(403, AdminsOnly)
    ensures IsAdmin(session) && m != GET ==> r == Refused(405, MethodRefused)
    ensures IsAdmin(session) && m == GET && failure.Some? ==> r == Refused(500, failure.value)
    ensures r.Report? <==> IsAdmin(session) && m == GET && failure.None?
    ensures r.Report? ==> r.stats.productsCount == productsCount
  {
    if !IsAdmin(session) then Refused(403, AdminsOnly)
    else if m != GET then Refused(405, MethodRefused)
    else if failure.Some? then Refused(500, failure.value)
    else Report(Compute(docs, filter, clock, productsCount))
  }

  // ---------------------------------------------------------------- bounds

  /** A missing, empty or unrecognised filter selects every order, and the
      body echoes `all` for the first two. */
  lemma UnknownFilterIsAll(docs: seq<Order>, filter: Option<string>, clock: Clock, productsCount: nat)
    requires !Truthy(filter) || filter.value !in {"today", "week", "month"}
    ensures Bound(FilterType(filter), clock).None?
    ensures !Truthy(filter) ==> Compute(docs, filter, clock, productsCount).filter == "all"
    ensures Compute(docs, filter, clock, productsCount).allOrders == AllOrders(docs, None)
  {
  }

  // --------------------------------------------------------------- revenue

  /** Revenue grows by an order's amount exactly when that order is paid
      and inside the bound; any other order leaves it unchanged. */
  lemma RevenueAppend(docs: seq<Order>, o: Order, bound: Option<int>)
    ensures Revenue(docs + [o], bound) ==
      Revenue(docs, bound) + (if o.status == "Paid" && InRange(o, bound) then o.amountTotal else 0)
  {
    var keep := PaymentTest("Paid", bound);
    Seqs.FilterAppend(docs, [o], keep);
    Seqs.SumAppend(Seqs.Filter(docs, keep), Seqs.Filter([o], keep), Amount);
  }

  /** With no paid order in range the revenue is `0`, the `|| 0` case. */
  lemma {:induction false} RevenueEmpty(docs: seq<Order>, bound: Option<int>)
    requires forall i :: 0 <= i < |docs| ==> !(docs[i].status == "Paid" && InRange(docs[i], bound))
    ensures Revenue(docs, bound) == 0
  {
    Seqs.FilterNone(docs, PaymentTest("Paid", bound));
  }

  /** Revenue is never negative when no stored amount is. */
  lemma RevenueNonNegative(docs: seq<Order>, bound: Option<int>)
    requires forall i :: 0 <= i < |docs| ==> docs[i].amountTotal >= 0
    ensures Revenue(docs, bound) >= 0
  {
    var paid := Seqs.Filter(docs, PaymentTest("Paid", bound));
    Seqs.FilterMembers(docs, PaymentTest("Paid", bound));
    forall i | 0 <= i < |paid|
      ensures Amount(paid[i]) >= 0
    {
      assert paid[i] in docs;
    }
    Seqs.SumNonNegative(paid, Amount);
  }

  // ---------------------------------------------------------------- counts

  /** When every order in range carries one of the three payment statuses,
      `totalOrders` is the number of orders in range. */
  lemma {:induction false} PaymentCountsCover(docs: seq<Order>, bound: Option<int>)
    requires forall i :: 0 <= i < |docs| && InRange(docs[i], bound) ==> IsPaymentStatus(docs[i].status)
    ensures PaymentCount(docs, "Paid", bound) + PaymentCount(docs, "Pending", bound)
            + PaymentCount(docs, "Failed", bound) == Seqs.CountIf(docs, InRangeTest(bound))
  {
    if |docs| > 0 {
      PaymentCountsCover(docs[1..], bound);
    }
  }

  /** When every order in range carries a logistics status, the four
      counts plus the uncounted Returned orders are the orders in range. */
  lemma {:induction false} LogisticsCountsCover(docs: seq<Order>, bound: Option<int>)
    requires forall i :: 0 <= i < |docs| && InRange(docs[i], bound) ==> IsOrderStatus(docs[i].orderStatus)
    ensures LogisticsCount(docs, "Processing", bound) + LogisticsCount(docs, "Shipped", bound)
            + LogisticsCount(docs, "Delivered", bound) + LogisticsCount(docs, "Cancelled", bound)
            + LogisticsCount(docs, "Returned", bound) == Seqs.CountIf(docs, InRangeTest(bound))
  {
    if |docs| > 0 {
      LogisticsCountsCover(docs[1..], bound);
    }
  }

  /** A Returned order moves none of the figures the body reports. */
  lemma ReturnedUncounted(docs: seq<Order>, o: Order, filter: Option<string>, clock: Clock, productsCount: nat)
    requires o.orderStatus == "Returned"
    ensures var before := Compute(docs, filter, clock, productsCount);
      var after := Compute(docs + [o], filter, clock, productsCount);
      && after.processingOrders == before.processingOrders
      && after.shippedOrders == before.shippedOrders
      && after.deliveredOrders == before.deliveredOrders
      && after.cancelledOrders == before.cancelledOrders
  {
    var bound := Bound(FilterType(filter), clock);
    Seqs.CountIfAppend(docs, [o], LogisticsTest("Processing", bound));
    Seqs.CountIfAppend(docs, [o], LogisticsTest("Shipped", bound));
    Seqs.CountIfAppend(docs, [o], LogisticsTest("Delivered", bound));
    Seqs.CountIfAppend(docs, [o], LogisticsTest("Cancelled", bound));
  }

  /** With valid payment statuses, `totalOrders` counts exactly the rows
      of the report table. */
  lemma TotalMatchesReport(docs: seq<Order>, filter: Option<string>, clock: Clock, productsCount: nat)
    requires forall i :: 0 <= i < |docs| ==> IsPaymentStatus(docs[i].status)
    ensures var stats := Compute(docs, filter, clock, productsCount);
      stats.totalOrders == |stats.allOrders|
  {
    var bound := Bound(FilterType(filter), clock);
    PaymentCountsCover(docs, bound);
    Seqs.FilterCount(docs, InRangeTest(bound));
  }

  // ---------------------------------------------------------------- tables

  /** The report table holds a row for every order in range and for
      nothing else, newest first. */
  lemma AllOrdersSpec(docs: seq<Order>, bound: Option<int>)
    ensures var r := AllOrders(docs, bound);
      && (forall i, j :: 0 <= i < j < |r| ==> r[i].createdAt >= r[j].createdAt)
      && (forall o :: o in docs && InRange(o, bound) ==> Row(o) in r)
      && (forall x :: x in r ==> exists o :: o in docs && InRange(o, bound) && x == Row(o))
  {
    var kept := Seqs.Filter(docs, InRangeTest(bound));
    var sorted := Ordering.SortBy(kept, NegCreatedAt);
    var r := Rows(sorted);
    RowsNewestFirst(sorted, |sorted|);
    Seqs.FilterMembers(docs, InRangeTest(bound));
    forall o | o in docs && InRange(o, bound)
      ensures Row(o) in r
    {
      assert o in multiset(sorted);
      var k :| 0 <= k < |sorted| && sorted[k] == o;
      assert r[k] == Row(o);
    }
    forall x | x in r
      ensures exists o :: o in docs && InRange(o, bound) && x == Row(o)
    {
      var k :| 0 <= k < |r| && r[k] == x;
      assert sorted[k] in multiset(kept);
    }
  }

  /** The rows of a newest-first prefix are newest first. */
  lemma RowsNewestFirst(sorted: seq<Order>, n: nat)
    requires Ordering.SortedBy(sorted, NegCreatedAt) && n <= |sorted|
    ensures var r := Rows(sorted[..n]);
      forall i, j :: 0 <= i < j < |r| ==> r[i].createdAt >= r[j].createdAt
  {
    forall i, j | 0 <= i < j < n
      ensures sorted[i].createdAt >= sorted[j].createdAt
    {
      NewestFirstOrder(sorted, i, j);
    }
  }

  /** The dashboard table: at most ten rows, newest first, and no order
      left out of it is newer than any row in it. */
  lemma RecentSpec(docs: seq<Order>)
    ensures var r := RecentOrders(docs);
      && |r| == Seqs.Min(RecentLimit, |docs|)
      && (forall i, j :: 0 <= i < j < |r| ==> r[i].createdAt >= r[j].createdAt)
      && (forall o :: o in docs ==> Row(o) in r || forall i :: 0 <= i < |r| ==> r[i].createdAt >= o.createdAt)
  {
    var sorted := Ordering.SortBy(docs, NegCreatedAt);
    var top := Seqs.Take(sorted, RecentLimit);
    var r := Rows(top);
    RowsNewestFirst(sorted, |top|);
    forall o | o in docs
      ensures Row(o) in r || forall i :: 0 <= i < |r| ==> r[i].createdAt >= o.createdAt
    {
      assert o in multiset(sorted);
      var k :| 0 <= k < |sorted| && sorted[k] == o;
      if k < |r| {
        assert r[k] == Row(o);
      } else {
        forall i | 0 <= i < |r|
          ensures r[i].createdAt >= o.createdAt
        {
          NewestFirstOrder(sorted, i, k);
        }
      }
    }
  }

  /** The dashboard table does not depend on the filter. */
  lemma RecentIgnoresFilter(docs: seq<Order>, f1: Option<string>, f2: Option<string>, clock: Clock, productsCount: nat)
    ensures Compute(docs, f1, clock, productsCount).recentOrders
         == Compute(docs, f2, clock, productsCount).recentOrders
  {
  }
}
