/** The dashboard's figures, computed from the order and table lists:
    revenue over calendar windows, order and table counts by status, unique
    customers by phone, and four period-over-period changes. The calendar
    bounds that the hook derives from the current time ("today at
    midnight", "seven days ago", "one month ago", "one hour ago", ...) are
    passed in as a `Clock`. */
module UseMetrics {
  import opened Common
  import opened Records

  /** The window bounds, in milliseconds, read off one clock reading. */
  datatype Clock = Clock(
    now: int,
    todayStart: int,
    tomorrowStart: int,
    weekAgo: int,
    twoWeeksAgo: int,
    monthAgo: int,
    hourAgo: int,
    twoHoursAgo: int)

  /** The order calendar arithmetic gives: a month back is no later than a
      week back, which is before today's midnight, and so on. */
  predicate Consistent(c: Clock)
  {
    && c.monthAgo <= c.weekAgo && c.twoWeeksAgo <= c.weekAgo
    && c.weekAgo <= c.todayStart <= c.now < c.tomorrowStart
    && c.twoHoursAgo <= c.hourAgo <= c.now
  }

  /** `lo <= new Date(o.orderDate) < hi`. */
  function DatedIn(lo: int, hi: int): Order -> bool
  {
    (o: Order) => o.orderDate.Some? && lo <= o.orderDate.value < hi
  }

  /** `new Date(o.orderDate) >= lo`. */
  function DatedFrom(lo: int): Order -> bool
  {
    (o: Order) => o.orderDate.Some? && lo <= o.orderDate.value
  }

  /** `lo <= new Date(o.orderDate) <= hi`. */
  function DatedWithin(lo: int, hi: int): Order -> bool
  {
    (o: Order) => o.orderDate.Some? && lo <= o.orderDate.value <= hi
  }

  /** An order still in progress, placed at or after `lo` (and before `hi`
      when one is given). */
  function ActiveFrom(lo: int, hi: Option<int>): Order -> bool
  {
    (o: Order) => o.orderStatus == InProgress && o.orderDate.Some? && lo <= o.orderDate.value
                  && (hi.Some? ==> o.orderDate.value < hi.value)
  }

  // ---------------------------------------------------------------------
  // Revenue

  /** The revenue of the orders `p` selects; no data means 0. */
  function RevenueOf(data: Option<seq<Order>>, p: Order -> bool): (r: real)
    ensures data.None? ==> r == 0.0
    ensures data.Some? ==> r == Earnings(Filter(data.value, p))
  {
    if data.None? then 0.0 else Sum(Filter(data.value, p), AmountOf)
  }

  /** Today's orders: from midnight up to, but not including, tomorrow's
      midnight. */
  function TodayRevenue(data: Option<seq<Order>>, c: Clock): (r: real)
    ensures data.None? ==> r == 0.0
    ensures data.Some? ==> r == Earnings(Filter(data.value, DatedIn(c.todayStart, c.tomorrowStart)))
  {
    RevenueOf(data, DatedIn(c.todayStart, c.tomorrowStart))
  }

  /** The orders of the last seven days, with no upper bound. */
  function WeekRevenue(data: Option<seq<Order>>, c: Clock): (r: real)
    ensures data.None? ==> r == 0.0
    ensures data.Some? ==> r == Earnings(Filter(data.value, DatedFrom(c.weekAgo)))
  {
    RevenueOf(data, DatedFrom(c.weekAgo))
  }

  /** The orders of the last month, with no upper bound. */
  function MonthRevenue(data: Option<seq<Order>>, c: Clock): (r: real)
    ensures data.None? ==> r == 0.0
    ensures data.Some? ==> r == Earnings(Filter(data.value, DatedFrom(c.monthAgo)))
  {
    RevenueOf(data, DatedFrom(c.monthAgo))
  }

  /** All orders, dated or not. */
  function TotalRevenue(data: Option<seq<Order>>): (r: real)
    ensures data.None? ==> r == 0.0
    ensures data.Some? ==> r == Earnings(data.value)
  {
    if data.None? then 0.0 else Sum(data.value, AmountOf)
  }

  /** With non-negative order totals, the windows nest: today's revenue is
      part of the week's, the week's part of the month's, the month's part of
      the total. */
  lemma RevenueWindowsNest(data: Option<seq<Order>>, c: Clock)
    requires Consistent(c)
    requires data.Some? ==> forall o :: o in data.value ==> AmountOf(o) >= 0.0
    ensures 0.0 <= TodayRevenue(data, c) <= WeekRevenue(data, c)
    ensures WeekRevenue(data, c) <= MonthRevenue(data, c) <= TotalRevenue(data)
  {
    if data.Some? {
      var os := data.value;
      var today, week, month := DatedIn(c.todayStart, c.tomorrowStart), DatedFrom(c.weekAgo), DatedFrom(c.monthAgo);
      NestedSums(os, today, week);
      NestedSums(os, week, month);
      SumFilterAtMost(os, month, AmountOf);
    }
  }

  /** A narrower selection sums to no more than a wider one. */
  lemma NestedSums(os: seq<Order>, p: Order -> bool, q: Order -> bool)
    requires forall o :: p(o) ==> q(o)
    requires forall o :: o in os ==> AmountOf(o) >= 0.0
    ensures 0.0 <= Sum(Filter(os, p), AmountOf) <= Sum(Filter(os, q), AmountOf)
  {
    FilterOfFilter(os, p, q);
    SumFilterAtMost(Filter(os, q), p, AmountOf);
    SumNonNegative(Filter(os, p));
  }

  lemma {:induction false} SumNonNegative(os: seq<Order>)
    requires forall o :: o in os ==> AmountOf(o) >= 0.0
    ensures Sum(os, AmountOf) >= 0.0
  {
    if os != [] {
      assert forall o :: o in os[..|os| - 1] ==> o in os;
      SumNonNegative(os[..|os| - 1]);
    }
  }

  // ---------------------------------------------------------------------
  // Customers

  /** `new Set(orders.map(o => o.customerDetails?.phone).filter(Boolean))`. */
  function Phones(os: seq<Order>): (r: set<string>)
    ensures "" !in r && |r| <= |os|
    ensures forall o :: o in os && o.phone != "" ==> o.phone in r
    ensures forall ph :: ph in r ==> exists o :: o in os && o.phone == ph
  {
    if os == [] then {}
    else
      var init, o := os[..|os| - 1], os[|os| - 1];
      var rest := Phones(init);
      assert forall x :: x in init ==> x in os;
      assert forall x :: x in os ==> x in init || x == o;
      if o.phone == "" then rest
      else
        assert |rest + {o.phone}| <= |rest| + 1;
        rest + {o.phone}
  }

  /** `Phones` is exactly the set of the orders' non-empty phones. */
  lemma PhonesAreDistinctPhones(os: seq<Order>)
    ensures Phones(os) == set o | o in os && o.phone != "" :: o.phone
  {
    var r, want := Phones(os), set o | o in os && o.phone != "" :: o.phone;
    forall ph | ph in r ensures ph in want {
      var o :| o in os && o.phone == ph;
    }
  }

  /** The number of distinct non-empty phones among the orders `p`
      selects; no data means 0. */
  function CustomersOf(data: Option<seq<Order>>, p: Order -> bool): (r: nat)
    ensures data.None? ==> r == 0
    ensures data.Some? ==> r == |Phones(Filter(data.value, p))|
    ensures data.Some? ==> r <= Count(data.value, p) <= |data.value|
  {
    if data.None? then 0 else |Phones(Filter(data.value, p))|
  }

  /** Every phone on an order counts once, so there are never more
      customers than orders. */
  function UniqueCustomers(data: Option<seq<Order>>): (r: nat)
    ensures data.None? ==> r == 0
    ensures data.Some? ==> r == |Phones(data.value)|
    ensures data.Some? ==> r <= |data.value|
    ensures data.Some? ==> forall o :: o in data.value && o.phone != "" ==> r >= 1
  {
    if data.None? then 0 else
      var ps := Phones(data.value);
      assert forall o :: o in data.value && o.phone != "" ==> |ps| >= |{o.phone}|;
      |ps|
  }

  /** Two orders with the same phone are one customer. */
  lemma SamePhoneOneCustomer(a: Order, b: Order)
    requires a.phone == b.phone != ""
    ensures UniqueCustomers(Some([a, b])) == 1
  {
    var os := [a, b];
    var ps := Phones(os);
    assert os[..1] == [a];
    assert [a][..0] == [];
    assert Phones([a]) == {a.phone};
    assert ps == {a.phone};
  }

  // ---------------------------------------------------------------------
  // Counts

  datatype OrderMetrics = OrderMetrics(total: nat, inProgress: nat, ready: nat, completed: nat)

  datatype TableMetrics = TableMetrics(total: nat, booked: nat, available: nat)

  /** `ordersData?.length || 0` and the three `filter(...).length || 0`. */
  function OrderMetricsOf(data: Option<seq<Order>>): (m: OrderMetrics)
    ensures data.None? ==> m == OrderMetrics(0, 0, 0, 0)
    ensures data.Some? ==> m.total == |data.value|
    ensures data.Some? ==> m.inProgress == |Filter(data.value, StatusIs(InProgress))|
    ensures data.Some? ==> m.ready == |Filter(data.value, StatusIs(Ready))|
    ensures data.Some? ==> m.completed == |Filter(data.value, StatusIs(Completed))|
    ensures m.inProgress + m.ready + m.completed <= m.total
  {
    if data.None? then OrderMetrics(0, 0, 0, 0)
    else
      var os := data.value;
      StatusCountsBounded(os);
      OrderMetrics(|os|, Count(os, StatusIs(InProgress)), Count(os, StatusIs(Ready)), Count(os, StatusIs(Completed)))
  }

  function TableMetricsOf(data: Option<seq<DiningTable>>): (m: TableMetrics)
    ensures data.None? ==> m == TableMetrics(0, 0, 0)
    ensures data.Some? ==> m.total == |data.value|
    ensures data.Some? ==> m.booked == |Filter(data.value, TableStatusIs(Booked))|
    ensures data.Some? ==> m.available == |Filter(data.value, TableStatusIs(Available))|
    ensures m.booked + m.available <= m.total
  {
    if data.None? then TableMetrics(0, 0, 0)
    else
      var ts := data.value;
      TableCountsBounded(ts);
      TableMetrics(|ts|, Count(ts, TableStatusIs(Booked)), Count(ts, TableStatusIs(Available)))
  }

  // ---------------------------------------------------------------------
  // Period-over-period changes

  /** `{ value, isIncrease }`: `value` is the size of the change in percent
      (its one-decimal rendering is not modelled). */
  datatype Change = Change(value: real, isIncrease: bool)

  const NoChange: Change := Change(0.0, true)

  function Abs(x: real): real
  {
    if x < 0.0 then -x else x
  }

  /** The change from `prev` to `cur`: from nothing, any growth counts as
      100% and no growth as 0%, both as an increase; otherwise the relative
      change, an increase exactly when the current figure is at least the
      previous one. */
  function PercentChange(cur: real, prev: real): (r: Change)
    ensures r.value >= 0.0
    ensures prev == 0.0 ==> r.isIncrease && r.value == (if cur > 0.0 then 100.0 else 0.0)
    ensures prev > 0.0 ==> (r.isIncrease <==> cur >= prev)
    ensures prev > 0.0 ==> r.value * prev == Abs(cur - prev) * 100.0
    ensures prev < 0.0 ==> (r.isIncrease <==> cur <= prev)
    ensures prev < 0.0 ==> r.value * (-prev) == Abs(cur - prev) * 100.0
    ensures prev != 0.0 && cur == prev ==> r == NoChange
  {
    if prev == 0.0 then Change(if cur > 0.0 then 100.0 else 0.0, true)
    else
      var percentage := (cur - prev) / prev * 100.0;
      Change(Abs(percentage), percentage >= 0.0)
  }

  /** Orders with no data or no orders at all show no change. */
  predicate NoOrders(data: Option<seq<Order>>)
  {
    data.None? || |data.value| == 0
  }

  /** This week's revenue runs from seven days ago up to now; last week's
      from fourteen days ago up to, not including, seven days ago. */
  function RevenuePercentage(data: Option<seq<Order>>, c: Clock): (r: Change)
    ensures NoOrders(data) ==> r == NoChange
    ensures !NoOrders(data) ==>
              r == PercentChange(RevenueOf(data, DatedWithin(c.weekAgo, c.now)),
                                 RevenueOf(data, DatedIn(c.twoWeeksAgo, c.weekAgo)))
  {
    if NoOrders(data) then NoChange
    else
      var os := data.value;
      PercentChange(Sum(Filter(os, DatedWithin(c.weekAgo, c.now)), AmountOf),
                    Sum(Filter(os, DatedIn(c.twoWeeksAgo, c.weekAgo)), AmountOf))
  }

  /** The two weeks of `RevenuePercentage` are disjoint and together cover
      fourteen days back up to now: their revenues add up to that
      fortnight's. */
  lemma FortnightSplits(os: seq<Order>, c: Clock)
    requires c.twoWeeksAgo <= c.weekAgo <= c.now
    ensures Earnings(Filter(os, DatedWithin(c.twoWeeksAgo, c.now)))
            == Earnings(Filter(os, DatedWithin(c.weekAgo, c.now)))
               + Earnings(Filter(os, DatedIn(c.twoWeeksAgo, c.weekAgo)))
  {
    SumFilterUnion(os, DatedWithin(c.weekAgo, c.now), DatedIn(c.twoWeeksAgo, c.weekAgo),
                   DatedWithin(c.twoWeeksAgo, c.now), AmountOf);
  }

  /** Orders this week are counted from seven days ago with no upper
      bound. */
  function OrdersPercentage(data: Option<seq<Order>>, c: Clock): (r: Change)
    ensures NoOrders(data) ==> r == NoChange
    ensures !NoOrders(data) ==>
              r == PercentChange(Count(data.value, DatedFrom(c.weekAgo)) as real,
                                 Count(data.value, DatedIn(c.twoWeeksAgo, c.weekAgo)) as real)
  {
    if NoOrders(data) then NoChange
    else
      PercentChange(|Filter(data.value, DatedFrom(c.weekAgo))| as real,
                    |Filter(data.value, DatedIn(c.twoWeeksAgo, c.weekAgo))| as real)
  }

  function CustomersPercentage(data: Option<seq<Order>>, c: Clock): (r: Change)
    ensures NoOrders(data) ==> r == NoChange
    ensures !NoOrders(data) ==>
              r == PercentChange(CustomersOf(data, DatedFrom(c.weekAgo)) as real,
                                 CustomersOf(data, DatedIn(c.twoWeeksAgo, c.weekAgo)) as real)
  {
    if NoOrders(data) then NoChange
    else
      PercentChange(|Phones(Filter(data.value, DatedFrom(c.weekAgo)))| as real,
                    |Phones(Filter(data.value, DatedIn(c.twoWeeksAgo, c.weekAgo)))| as real)
  }

  /** In-progress orders of the last hour against those of the hour
      before. */
  function ActiveOrdersPercentage(data: Option<seq<Order>>, c: Clock): (r: Change)
    ensures NoOrders(data) ==> r == NoChange
    ensures !NoOrders(data) ==>
              r == PercentChange(Count(data.value, ActiveFrom(c.hourAgo, None)) as real,
                                 Count(data.value, ActiveFrom(c.twoHoursAgo, Some(c.hourAgo))) as real)
  {
    if NoOrders(data) then NoChange
    else
      PercentChange(|Filter(data.value, ActiveFrom(c.hourAgo, None))| as real,
                    |Filter(data.value, ActiveFrom(c.twoHoursAgo, Some(c.hourAgo)))| as real)
  }

  /** The counted changes never report a decrease when the earlier period
      was empty, and report an increase whenever the count did not drop. */
  lemma CountChangeDirection(cur: nat, prev: nat)
    ensures PercentChange(cur as real, prev as real).isIncrease <==> cur >= prev
  {
  }

  // ---------------------------------------------------------------------
  // The hook

  datatype Revenue = Revenue(today: real, week: real, month: real, total: real)

  datatype Customers = Customers(total: nat, today: nat, week: nat, month: nat)

  datatype Percentages = Percentages(revenue: Change, orders: Change, customers: Change, activeOrders: Change)

  /** The item figures are fixed placeholders in the hook. */
  const TotalCategories: nat := 8
  const TotalDishes: nat := 50

  datatype Metrics = Metrics(
    revenue: Revenue,
    orders: OrderMetrics,
    customers: Customers,
    tables: TableMetrics,
    totalCategories: nat,
    totalDishes: nat)

  datatype Dashboard = Dashboard(
    metrics: Metrics,
    percentages: Percentages,
    isLoading: bool,
    error: Option<string>)

  /** `useDashboardMetrics()` over the two queries' data, flags and errors.
      Without order data every order figure is zero and every change is
      none; the three status counts fit in the order count, the two table
      counts in the table count, and customers never outnumber orders; it
      is loading while either query is, and reports the order query's error
      first. */
  function UseDashboardMetrics(ordersData: Option<seq<Order>>, tablesData: Option<seq<DiningTable>>,
                               ordersLoading: bool, tablesLoading: bool,
                               ordersError: Option<string>, tablesError: Option<string>,
                               c: Clock): (d: Dashboard)
    ensures ordersData.None? ==>
              && d.metrics.revenue == Revenue(0.0, 0.0, 0.0, 0.0)
              && d.metrics.orders == OrderMetrics(0, 0, 0, 0)
              && d.metrics.customers == Customers(0, 0, 0, 0)
              && d.percentages == Percentages(NoChange, NoChange, NoChange, NoChange)
    ensures d.metrics.orders.inProgress + d.metrics.orders.ready + d.metrics.orders.completed
            <= d.metrics.orders.total
    ensures d.metrics.tables.booked + d.metrics.tables.available <= d.metrics.tables.total
    ensures d.metrics.customers.total <= d.metrics.orders.total
    ensures d.metrics.customers.week <= d.metrics.orders.total
    ensures d.metrics.revenue.total == TotalRevenue(ordersData)
    ensures d.isLoading <==> ordersLoading || tablesLoading
    ensures d.error == FirstPresent(ordersError, tablesError)
  {
    Dashboard(
      Metrics(
        Revenue(TodayRevenue(ordersData, c), WeekRevenue(ordersData, c),
                MonthRevenue(ordersData, c), TotalRevenue(ordersData)),
        OrderMetricsOf(ordersData),
        Customers(UniqueCustomers(ordersData),
                  CustomersOf(ordersData, DatedIn(c.todayStart, c.tomorrowStart)),
                  CustomersOf(ordersData, DatedFrom(c.weekAgo)),
                  CustomersOf(ordersData, DatedFrom(c.monthAgo))),
        TableMetricsOf(tablesData),
        TotalCategories,
        TotalDishes),
      Percentages(RevenuePercentage(ordersData, c), OrdersPercentage(ordersData, c),
                  CustomersPercentage(ordersData, c), ActiveOrdersPercentage(ordersData, c)),
      ordersLoading || tablesLoading,
      FirstPresent(ordersError, tablesError))
  }
}
