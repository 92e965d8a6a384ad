/** The server-owned records the list and dashboard views read: orders,
    tables and payment transactions, with the status words the backend
    uses. A missing string field is the empty string (every view treats an
    absent string and "" alike); a date that is missing or does not parse
    is `None`, which no date comparison accepts. */
module Records {
  import opened Common

  const InProgress: string := "In Progress"
  const Ready: string := "Ready"
  const Completed: string := "Completed"

  const Booked: string := "Booked"
  const Available: string := "Available"

  /** An order as the order list returns it: its status, its date in
      milliseconds, `bills.totalWithTax` (absent when `bills` or the amount
      is missing) and `customerDetails.phone`. */
  datatype Order = Order(
    orderStatus: string,
    orderDate: Option<int>,
    totalWithTax: Option<real>,
    phone: string)

  datatype DiningTable = DiningTable(id: string, tableNo: int, status: string)

  /** A gateway payment transaction as the payments list returns it
      (`payMethod` is its `method` field). */
  datatype Payment = Payment(
    paymentId: string,
    orderId: string,
    amount: Option<real>,
    payMethod: string,
    status: string,
    email: string,
    contact: string,
    createdAt: Option<int>)

  /** `order.bills?.totalWithTax || 0`. */
  function AmountOf(o: Order): real
  {
    if o.totalWithTax.Some? then o.totalWithTax.value else 0.0
  }

  /** `o => o.orderStatus === st`. */
  function StatusIs(st: string): Order -> bool
  {
    (o: Order) => o.orderStatus == st
  }

  /** `t => t.status === st`. */
  function TableStatusIs(st: string): DiningTable -> bool
  {
    (t: DiningTable) => t.status == st
  }

  /** `orders.reduce((sum, o) => sum + (o.bills?.totalWithTax || 0), 0)`. */
  function Earnings(orders: seq<Order>): real
  {
    Sum(orders, AmountOf)
  }

  /** The earnings of two lists of orders, one after the other, add up. */
  lemma EarningsAppend(a: seq<Order>, b: seq<Order>)
    ensures Earnings(a + b) == Earnings(a) + Earnings(b)
  {
    SumAppend(a, b, AmountOf);
  }

  /** The three order statuses are exact, distinct strings, so no order is
      counted under two of them. */
  lemma OrderStatusesExclusive()
    ensures forall o :: !(StatusIs(InProgress)(o) && StatusIs(Ready)(o))
    ensures forall o :: !(StatusIs(InProgress)(o) && StatusIs(Completed)(o))
    ensures forall o :: !(StatusIs(Ready)(o) && StatusIs(Completed)(o))
  {
  }

  lemma TableStatusesExclusive()
    ensures forall t :: !(TableStatusIs(Booked)(t) && TableStatusIs(Available)(t))
  {
  }

  /** The in-progress, ready and completed counts of any list of orders
      add up to at most its length. */
  lemma StatusCountsBounded(orders: seq<Order>)
    ensures Count(orders, StatusIs(InProgress)) + Count(orders, StatusIs(Ready))
            + Count(orders, StatusIs(Completed)) <= |orders|
  {
    OrderStatusesExclusive();
    CountDisjoint3(orders, StatusIs(InProgress), StatusIs(Ready), StatusIs(Completed));
  }

  /** Booked and available tables add up to at most the number of tables. */
  lemma TableCountsBounded(tables: seq<DiningTable>)
    ensures Count(tables, TableStatusIs(Booked)) + Count(tables, TableStatusIs(Available)) <= |tables|
  {
    TableStatusesExclusive();
    CountDisjoint2(tables, TableStatusIs(Booked), TableStatusIs(Available));
  }
}
