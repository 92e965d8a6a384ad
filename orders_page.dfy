/** The orders page: a status tab over the order list, and the count shown
    on each tab. The list is `None` until the query has data. */
module OrdersPage {
  import opened Common
  import opened Records

  /** The tab filter: "all" and any unknown tab keep every order; the three
      status tabs keep the orders with that exact status. */
  function TabKeeps(tab: string): Order -> bool
  {
    (o: Order) =>
      if tab == "all" then true
      else if tab == "progress" then o.orderStatus == InProgress
      else if tab == "ready" then o.orderStatus == Ready
      else if tab == "completed" then o.orderStatus == Completed
      else true
  }

  /** The status a tab selects, if it selects one. */
  function TabStatus(tab: string): Option<string>
  {
    if tab == "progress" then Some(InProgress)
    else if tab == "ready" then Some(Ready)
    else if tab == "completed" then Some(Completed)
    else None
  }

  /** `filteredOrders`: no data stays no data; a status tab shows exactly
      the orders of that status, in list order; any other tab shows the
      whole list. */
  function FilteredOrders(data: Option<seq<Order>>, tab: string): (r: Option<seq<Order>>)
    ensures r.Some? <==> data.Some?
    ensures data.Some? && TabStatus(tab).Some? ==> r.value == Filter(data.value, StatusIs(TabStatus(tab).value))
    ensures data.Some? && TabStatus(tab).None? ==> r.value == data.value
  {
    if data.None? then None
    else
      TabFilterMeaning(data.value, tab);
      Some(Filter(data.value, TabKeeps(tab)))
  }

  /** A status tab's filter is the status filter; any other tab's filter
      keeps the list. */
  lemma TabFilterMeaning(os: seq<Order>, tab: string)
    ensures TabStatus(tab).Some? ==> Filter(os, TabKeeps(tab)) == Filter(os, StatusIs(TabStatus(tab).value))
    ensures TabStatus(tab).None? ==> Filter(os, TabKeeps(tab)) == os
  {
    if TabStatus(tab).Some? {
      FilterCongruent(os, TabKeeps(tab), StatusIs(TabStatus(tab).value));
    } else {
      FilterKeepsAll(os, TabKeeps(tab));
    }
  }

  /** The list is shown when the filter leaves at least one order; otherwise
      the page shows its empty state. */
  predicate ShowsList(data: Option<seq<Order>>, tab: string)
  {
    var r := FilteredOrders(data, tab);
    r.Some? && |r.value| > 0
  }

  datatype TabCounts = TabCounts(all: nat, progress: nat, ready: nat, completed: nat)

  /** The count on each tab, 0 while there is no data. */
  function CountsOf(data: Option<seq<Order>>): (c: TabCounts)
    ensures data.None? ==> c == TabCounts(0, 0, 0, 0)
    ensures data.Some? ==> c.all == |data.value|
    ensures c.progress + c.ready + c.completed <= c.all
  {
    if data.None? then TabCounts(0, 0, 0, 0)
    else
      var os := data.value;
      StatusCountsBounded(os);
      TabCounts(|os|, Count(os, StatusIs(InProgress)), Count(os, StatusIs(Ready)), Count(os, StatusIs(Completed)))
  }

  /** The count on a tab is the number of orders that tab shows. */
  lemma CountsMatchTabs(data: Option<seq<Order>>)
    requires data.Some?
    ensures CountsOf(data).all == |FilteredOrders(data, "all").value|
    ensures CountsOf(data).progress == |FilteredOrders(data, "progress").value|
    ensures CountsOf(data).ready == |FilteredOrders(data, "ready").value|
    ensures CountsOf(data).completed == |FilteredOrders(data, "completed").value|
  {
  }

  /** The count shown on a tab's badge; a tab the page does not know shows
      the whole list and so the "all" count. */
  function CountOn(c: TabCounts, tab: string): nat
  {
    if tab == "progress" then c.progress
    else if tab == "ready" then c.ready
    else if tab == "completed" then c.completed
    else c.all
  }

  /** Every tab shows a list exactly when its count is non-zero. */
  lemma ShowsListIffCount(data: Option<seq<Order>>, tab: string)
    ensures ShowsList(data, tab) <==> CountOn(CountsOf(data), tab) > 0
  {
    if data.Some? {
      CountsMatchTabs(data);
      TabFilterMeaning(data.value, tab);
    }
  }
}
