/** The home screen's summary cards, and how they agree with the dashboard
    and the orders page, which compute the same figures from the same
    lists. */
module HomePage {
  import opened Common
  import opened Records
  import UseMetrics
  import OrdersPage
  import TablesPage

  datatype HomeSummary = HomeSummary(
    totalEarnings: real,
    inProgressOrders: nat,
    totalOrders: nat,
    totalTables: nat,
    bookedTables: nat)

  /** The home figures; every one is 0 while its list has no data. */
  function HomeSummaryOf(ordersData: Option<seq<Order>>, tablesData: Option<seq<DiningTable>>): (h: HomeSummary)
    ensures ordersData.None? ==> h.totalEarnings == 0.0 && h.inProgressOrders == 0 && h.totalOrders == 0
    ensures tablesData.None? ==> h.totalTables == 0 && h.bookedTables == 0
    ensures ordersData.Some? ==> h.totalOrders == |ordersData.value| && h.totalEarnings == Earnings(ordersData.value)
    ensures tablesData.Some? ==> h.totalTables == |tablesData.value|
    ensures h.inProgressOrders <= h.totalOrders && h.bookedTables <= h.totalTables
  {
    var earnings := if ordersData.None? then 0.0 else Earnings(ordersData.value);
    var inProgress := if ordersData.None? then 0 else Count(ordersData.value, StatusIs(InProgress));
    var orders := if ordersData.None? then 0 else |ordersData.value|;
    var tables := if tablesData.None? then 0 else |tablesData.value|;
    var booked := if tablesData.None? then 0 else Count(tablesData.value, TableStatusIs(Booked));
    HomeSummary(earnings, inProgress, orders, tables, booked)
  }

  /** With non-negative order totals the earnings card is never negative. */
  lemma EarningsNonNegative(ordersData: Option<seq<Order>>, tablesData: Option<seq<DiningTable>>)
    requires ordersData.Some? ==> forall o :: o in ordersData.value ==> AmountOf(o) >= 0.0
    ensures HomeSummaryOf(ordersData, tablesData).totalEarnings >= 0.0
  {
    if ordersData.Some? {
      UseMetrics.SumNonNegative(ordersData.value);
    }
  }

  /** On the same lists, the home cards show what the dashboard shows (total
      revenue, in-progress orders, order and table totals, booked tables)
      and what the orders and tables pages show on their tabs. */
  lemma HomeAgreesWithOtherViews(ordersData: Option<seq<Order>>, tablesData: Option<seq<DiningTable>>,
                                 ordersLoading: bool, tablesLoading: bool,
                                 ordersError: Option<string>, tablesError: Option<string>,
                                 c: UseMetrics.Clock)
    ensures var h := HomeSummaryOf(ordersData, tablesData);
            var d := UseMetrics.UseDashboardMetrics(ordersData, tablesData, ordersLoading, tablesLoading,
                                                    ordersError, tablesError, c);
            && h.totalEarnings == d.metrics.revenue.total
            && h.inProgressOrders == d.metrics.orders.inProgress == OrdersPage.CountsOf(ordersData).progress
            && h.totalOrders == d.metrics.orders.total == OrdersPage.CountsOf(ordersData).all
            && h.totalTables == d.metrics.tables.total == TablesPage.CountsOf(tablesData).all
            && h.bookedTables == d.metrics.tables.booked == TablesPage.CountsOf(tablesData).booked
  {
  }

  /** The dashboard's three status figures are the lengths of the lists the
      orders page shows on the matching tabs. */
  lemma DashboardStatusCountsAreTabLists(ordersData: Option<seq<Order>>, tablesData: Option<seq<DiningTable>>,
                                         ordersLoading: bool, tablesLoading: bool,
                                         ordersError: Option<string>, tablesError: Option<string>,
                                         c: UseMetrics.Clock)
    requires ordersData.Some?
    ensures var d := UseMetrics.UseDashboardMetrics(ordersData, tablesData, ordersLoading, tablesLoading,
                                                    ordersError, tablesError, c);
            && d.metrics.orders.inProgress == |OrdersPage.FilteredOrders(ordersData, "progress").value|
            && d.metrics.orders.ready == |OrdersPage.FilteredOrders(ordersData, "ready").value|
            && d.metrics.orders.completed == |OrdersPage.FilteredOrders(ordersData, "completed").value|
  {
  }
}
