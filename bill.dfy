/** The bill panel: the bill of the cart under the fixed tax rate, the
    checks before an order may be placed, the order request, and the
    callbacks that run when the order and then the table update come back.
    The backend's answers are inputs: a created order (with its id) or a
    failure, and whether the table update succeeded. */
module Bill {
  import opened Common
  import opened Records
  import opened Cart
  import opened CustomerSlice
  import opened Api

  /** Tax, in percent of the subtotal. */
  const TaxRate: real := 5.25

  datatype BillSummary = BillSummary(total: real, tax: real, totalWithTax: real)

  /** The bill of a cart whose lines add up to `total`. */
  function Summarize(total: real): (b: BillSummary)
    ensures b.total == total && b.tax * 100.0 == total * TaxRate
    ensures b.totalWithTax == b.total + b.tax
  {
    var tax := total * TaxRate / 100.0;
    BillSummary(total, tax, total + tax)
  }

  /** The grand total is the subtotal plus 5.25% of it; the tax vanishes
      exactly when the subtotal does (so an empty cart bills 0, 0, 0); for a
      non-negative subtotal, tax <= subtotal <= grand total. */
  lemma BillLaws(total: real)
    ensures Summarize(total).total == total
    ensures Summarize(total).totalWithTax == Summarize(total).total + Summarize(total).tax
    ensures Summarize(total).totalWithTax == total * 1.0525
    ensures Summarize(total).tax == 0.0 <==> total == 0.0
    ensures total == 0.0 ==> Summarize(total) == BillSummary(0.0, 0.0, 0.0)
    ensures total >= 0.0 ==>
              0.0 <= Summarize(total).tax <= Summarize(total).total <= Summarize(total).totalWithTax
  {
  }

  /** A larger subtotal never gives a smaller bill. */
  lemma BillMonotone(t1: real, t2: real)
    requires t1 <= t2
    ensures Summarize(t1).tax <= Summarize(t2).tax
    ensures Summarize(t1).totalWithTax <= Summarize(t2).totalWithTax
  {
  }

  /** Two teas at 20: subtotal 40, tax 2.10, total 42.10. */
  lemma TwoTeas()
    ensures Summarize(20.0 * 2.0) == BillSummary(40.0, 2.1, 42.1)
  {
  }

  // ---------------------------------------------------------------------
  // Validation

  /** The outcome of `validateOrder`: accepted, or the first check that
      failed. */
  datatype Verdict = Accepted | NoPaymentMethod | EmptyCart | NoTable

  /** `customerData.table?.tableId` is present. */
  predicate HasTable(t: Option<TableRef>)
  {
    t.Some? && t.value.tableId != ""
  }

  /** `validateOrder()`: payment method first, then the cart, then the
      table. */
  function ValidateOrder(paymentMethod: string, cartSize: nat, table: Option<TableRef>): (v: Verdict)
    ensures v == Accepted <==> paymentMethod != "" && cartSize > 0 && HasTable(table)
    ensures v == NoPaymentMethod <==> paymentMethod == ""
    ensures v == EmptyCart <==> paymentMethod != "" && cartSize == 0
    ensures v == NoTable <==> paymentMethod != "" && cartSize > 0 && !HasTable(table)
  {
    if paymentMethod == "" then NoPaymentMethod
    else if cartSize == 0 then EmptyCart
    else if !HasTable(table) then NoTable
    else Accepted
  }

  /** A failed check that is about the table also sends the user to the
      tables page. */
  function RedirectFor(v: Verdict): Option<string>
  {
    if v == NoTable then Some("/tables") else None
  }

  // ---------------------------------------------------------------------
  // The order request

  datatype CustomerDetails = CustomerDetails(name: string, phone: string, guests: int)

  /** One ordered item; `notes` is only sent by the online variant. */
  datatype PayloadItem = PayloadItem(name: string, quantity: nat, price: real, notes: Option<string>)

  /** The gateway's ids for a verified online payment. */
  datatype GatewayIds = GatewayIds(gatewayOrderId: string, gatewayPaymentId: string)

  datatype OrderPayload = OrderPayload(
    customerDetails: CustomerDetails,
    orderStatus: string,
    bills: BillSummary,
    items: seq<PayloadItem>,
    table: string,
    paymentMethod: string,
    paymentData: Option<GatewayIds>)

  /** `guests || 1`. */
  function GuestsOrOne(g: int): int
  {
    if g != 0 then g else 1
  }

  function PayloadItems(lines: seq<CartLine>): seq<PayloadItem>
  {
    seq(|lines|, i requires 0 <= i < |lines| => PayloadItem(lines[i].name, lines[i].quantity, lines[i].pricePerQuantity, None))
  }

  /** The request `handlePlaceOrder` submits for session `s` and cart
      `lines`: a new order "In Progress" for the session's table, the
      customer filled in with defaults ("Guest", "", 1 guest), one item per
      cart line carrying its unit price, and the bill of `total`. */
  function OrderPayloadFor(s: Session, lines: seq<CartLine>, total: real, paymentMethod: string): (p: OrderPayload)
    requires s.table.Some?
    ensures p.orderStatus == InProgress && p.paymentData == None
    ensures p.customerDetails.name != "" && p.customerDetails.guests != 0
    ensures s.customerName != "" ==> p.customerDetails.name == s.customerName
    ensures s.customerName == "" ==> p.customerDetails.name == "Guest"
    ensures s.guests != 0 ==> p.customerDetails.guests == s.guests
    ensures s.guests == 0 ==> p.customerDetails.guests == 1
    ensures p.customerDetails.phone == s.customerPhone
    ensures p.bills == Summarize(total) && p.bills.totalWithTax == total + p.bills.tax
    ensures p.table == s.table.value.tableId && p.paymentMethod == paymentMethod
    ensures |p.items| == |lines|
    ensures forall i :: 0 <= i < |lines| ==>
              p.items[i].name == lines[i].name && p.items[i].quantity == lines[i].quantity
              && p.items[i].price == lines[i].pricePerQuantity
    ensures forall i :: 0 <= i < |lines| && WellFormedLine(lines[i]) ==>
              p.items[i].price * (p.items[i].quantity as real) == lines[i].price
  {
    OrderPayload(
      CustomerDetails(if s.customerName != "" then s.customerName else "Guest",
                      if s.customerPhone != "" then s.customerPhone else "",
                      GuestsOrOne(s.guests)),
      InProgress,
      Summarize(total),
      PayloadItems(lines),
      s.table.value.tableId,
      paymentMethod,
      None)
  }

  // ---------------------------------------------------------------------
  // The bill panel

  /** The order the backend created, as its answer carries it. */
  datatype CreatedOrder = CreatedOrder(id: string)

  /** The update that books the session's table for a created order. */
  function BookingFor(table: TableRef, created: CreatedOrder): (u: TableUpdate)
    ensures u.status == Booked && u.tableId == table.tableId && u.orderId == created.id
    ensures TableRequest(u).body == Some(TableBody(Booked, created.id))
  {
    TableUpdate(table.tableId, Booked, created.id)
  }

  class BillPanel {
    var paymentMethod: string
    var showInvoice: bool
    var orderInfo: Option<CreatedOrder>
    var isProcessing: bool
    /** The order requests submitted so far, oldest first. */
    var orderRequests: seq<OrderPayload>
    /** The table updates submitted so far, oldest first. */
    var tableRequests: seq<TableUpdate>

    /** The invoice is only shown for a created order. */
    ghost predicate Valid()
      reads this
    {
      showInvoice ==> orderInfo.Some?
    }

    constructor ()
      ensures Valid()
      ensures paymentMethod == "" && !showInvoice && orderInfo == None && !isProcessing
      ensures orderRequests == [] && tableRequests == []
    {
      paymentMethod := "";
      showInvoice := false;
      orderInfo := None;
      isProcessing := false;
      orderRequests := [];
      tableRequests := [];
    }

    /** The place-order button is disabled while an order is in flight or
        no payment method is chosen. */
    predicate PlaceOrderDisabled()
      reads this
    {
      isProcessing || paymentMethod == ""
    }

    /** A payment button. */
    method SelectPaymentMethod(m: string)
      modifies this
      ensures paymentMethod == m
      ensures showInvoice == old(showInvoice) && orderInfo == old(orderInfo) && isProcessing == old(isProcessing)
      ensures orderRequests == old(orderRequests) && tableRequests == old(tableRequests)
    {
      paymentMethod := m;
    }

    /** `handlePlaceOrder()` with the cart's `total`: when a check fails,
        nothing changes and no order is submitted; otherwise exactly one
        order request is submitted and the panel is processing. */
    method HandlePlaceOrder(store: CustomerStore, cart: CartStore, total: real)
      returns (verdict: Verdict, nav: Option<string>)
      requires Valid()
      modifies this
      ensures Valid()
      ensures verdict == ValidateOrder(old(paymentMethod), |cart.lines|, store.table)
      ensures nav == RedirectFor(verdict)
      ensures verdict != Accepted ==> unchanged(this)
      ensures verdict == Accepted ==> PlaceOrderDisabled()
      ensures verdict == Accepted ==>
                && isProcessing
                && orderRequests == old(orderRequests)
                     + [OrderPayloadFor(store.Snapshot(), cart.lines, total, old(paymentMethod))]
                && tableRequests == old(tableRequests)
                && paymentMethod == old(paymentMethod) && showInvoice == old(showInvoice)
                && orderInfo == old(orderInfo)
    {
      verdict := ValidateOrder(paymentMethod, |cart.lines|, store.table);
      nav := RedirectFor(verdict);
      if verdict != Accepted {
        return;
      }
      isProcessing := true;
      var payload := OrderPayloadFor(store.Snapshot(), cart.lines, total, paymentMethod);
      orderRequests := orderRequests + [payload];
    }

    /** The order mutation's success callback: keep the created order,
        submit exactly one table update booking the session's table for it,
        show the invoice and stop processing. The cart and the session are
        not touched here. */
    method OnOrderSuccess(store: CustomerStore, created: CreatedOrder)
      requires Valid() && store.table.Some?
      modifies this
      ensures Valid()
      ensures orderInfo == Some(created) && showInvoice && !isProcessing
      ensures tableRequests == old(tableRequests) + [BookingFor(store.table.value, created)]
      ensures orderRequests == old(orderRequests) && paymentMethod == old(paymentMethod)
    {
      orderInfo := Some(created);
      tableRequests := tableRequests + [BookingFor(store.table.value, created)];
      showInvoice := true;
      isProcessing := false;
    }

    /** The order mutation's error callback: only processing stops. */
    method OnOrderError()
      modifies this
      ensures !isProcessing
      ensures PlaceOrderDisabled() <==> paymentMethod == ""
      ensures paymentMethod == old(paymentMethod) && showInvoice == old(showInvoice) && orderInfo == old(orderInfo)
      ensures orderRequests == old(orderRequests) && tableRequests == old(tableRequests)
    {
      isProcessing := false;
    }

    /** The table update's success callback: the only place the cart and
        the session are cleared. (A failed table update has no callback.) */
    method OnTableUpdateSuccess(store: CustomerStore, cart: CartStore)
      modifies store, cart
      ensures cart.lines == [] && store.Snapshot() == Initial
    {
      cart.RemoveAllItems();
      store.RemoveCustomer();
    }

    /** Closing the invoice goes back home. */
    method CloseInvoice() returns (nav: Option<string>)
      modifies this
      ensures Valid() && !showInvoice && nav == Some("/")
      ensures paymentMethod == old(paymentMethod) && orderInfo == old(orderInfo) && isProcessing == old(isProcessing)
      ensures orderRequests == old(orderRequests) && tableRequests == old(tableRequests)
    {
      showInvoice := false;
      nav := Some("/");
    }
  }

  /** One attempt to place an order, with the backend's answers given: the
      order is created (`created`) or fails (`None`), and the table update
      succeeds or not (`tableUpdated`). A rejected attempt changes nothing.
      An accepted one submits exactly one order; a failed order leaves the
      cart and session intact for a retry; a created order is followed by
      exactly one table update for the session's table, status "Booked",
      carrying the new order's id; and the cart and session are cleared
      exactly when that update succeeds. */
  method PlaceOrder(bill: BillPanel, store: CustomerStore, cart: CartStore, total: real,
                    created: Option<CreatedOrder>, tableUpdated: bool)
    returns (verdict: Verdict)
    requires bill.Valid()
    modifies bill, store, cart
    ensures bill.Valid()
    ensures verdict == ValidateOrder(old(bill.paymentMethod), old(|cart.lines|), old(store.table))
    ensures verdict != Accepted ==> unchanged(bill) && unchanged(store) && unchanged(cart)
    ensures verdict == Accepted ==>
              bill.orderRequests == old(bill.orderRequests)
                + [OrderPayloadFor(old(store.Snapshot()), old(cart.lines), total, old(bill.paymentMethod))]
    ensures verdict == Accepted && created.None? ==>
              && !bill.isProcessing && bill.showInvoice == old(bill.showInvoice)
              && bill.tableRequests == old(bill.tableRequests)
              && unchanged(store) && unchanged(cart)
    ensures verdict == Accepted && created.Some? ==>
              && bill.tableRequests == old(bill.tableRequests)
                   + [TableUpdate(old(store.table).value.tableId, Booked, created.value.id)]
              && bill.showInvoice && bill.orderInfo == created && !bill.isProcessing
              && (tableUpdated ==> cart.lines == [] && store.Snapshot() == Initial)
              && (!tableUpdated ==> unchanged(store) && unchanged(cart))
  {
    var nav;
    verdict, nav := bill.HandlePlaceOrder(store, cart, total);
    if verdict != Accepted {
      return;
    }
    if created.None? {
      bill.OnOrderError();
      return;
    }
    bill.OnOrderSuccess(store, created.value);
    if tableUpdated {
      bill.OnTableUpdateSuccess(store, cart);
    }
  }

  // ---------------------------------------------------------------------
  // The older variant of the panel, with online payment through a hosted
  // gateway. Only the gateway's outcomes are modelled: the SDK failed to
  // load, the payment was verified or not, the widget was dismissed, or the
  // attempt threw.

  /** `item.pricePerQuantity || item.price / item.quantity`. */
  function VariantUnitPrice(l: CartLine): real
    requires l.quantity > 0
  {
    if l.pricePerQuantity != 0.0 then l.pricePerQuantity else l.price / (l.quantity as real)
  }

  /** On every line the menu builds, the fallback gives the unit price. */
  lemma VariantUnitPriceAgrees(l: CartLine)
    requires WellFormedLine(l)
    ensures VariantUnitPrice(l) == l.pricePerQuantity
  {
    if l.pricePerQuantity == 0.0 {
      assert l.price == 0.0;
    }
  }

  /** The variant's request: the customer's name defaults to a numbered
      guest label, and each item also carries its notes. */
  function VariantPayload(s: Session, lines: seq<CartLine>, total: real, paymentMethod: string,
                          n: nat, paymentData: Option<GatewayIds>): (p: OrderPayload)
    requires s.table.Some?
    requires forall i :: 0 <= i < |lines| ==> lines[i].quantity > 0
    ensures p.orderStatus == InProgress && p.paymentData == paymentData
    ensures p.customerDetails.name != "" && p.customerDetails.guests != 0
    ensures s.customerName != "" ==> p.customerDetails.name == s.customerName
    ensures s.customerName == "" ==> StartsWith(p.customerDetails.name, "Guest")
                                      && p.customerDetails.name == GuestLabel(n)
    ensures s.guests != 0 ==> p.customerDetails.guests == s.guests
    ensures s.guests == 0 ==> p.customerDetails.guests == 1
    ensures p.customerDetails.phone == s.customerPhone
    ensures p.table == s.table.value.tableId && |p.items| == |lines|
    ensures forall i :: 0 <= i < |lines| && WellFormedLine(lines[i]) ==>
              p.items[i].price == lines[i].pricePerQuantity && p.items[i].notes == Some(lines[i].notes)
  {
    StoredNameMatchesAnonymity(s.customerName, n);
    forall i | 0 <= i < |lines| && WellFormedLine(lines[i]) {
      VariantUnitPriceAgrees(lines[i]);
    }
    OrderPayload(
      CustomerDetails(StoredName(s.customerName, n),
                      if s.customerPhone != "" then s.customerPhone else "",
                      GuestsOrOne(s.guests)),
      InProgress,
      Summarize(total),
      seq(|lines|, i requires 0 <= i < |lines| =>
        PayloadItem(lines[i].name, lines[i].quantity, VariantUnitPrice(lines[i]), Some(lines[i].notes))),
      s.table.value.tableId,
      paymentMethod,
      paymentData)
  }

  /** Apart from the guest label, the notes and the gateway ids, the two
      panels send the same request for a named customer and a cart the menu
      built. */
  lemma VariantMatchesCurrent(s: Session, lines: seq<CartLine>, total: real, paymentMethod: string,
                              n: nat, paymentData: Option<GatewayIds>)
    requires s.table.Some? && s.customerName != ""
    requires forall i :: 0 <= i < |lines| ==> WellFormedLine(lines[i])
    ensures forall i :: 0 <= i < |lines| ==> lines[i].quantity > 0
    ensures var v := VariantPayload(s, lines, total, paymentMethod, n, paymentData);
            var p := OrderPayloadFor(s, lines, total, paymentMethod);
            v.(items := p.items, paymentData := None) == p
            && forall i :: 0 <= i < |lines| ==> v.items[i] == p.items[i].(notes := Some(lines[i].notes))
  {
    var v := VariantPayload(s, lines, total, paymentMethod, n, paymentData);
    var p := OrderPayloadFor(s, lines, total, paymentMethod);
    forall i | 0 <= i < |lines|
      ensures v.items[i] == p.items[i].(notes := Some(lines[i].notes))
    {
      VariantUnitPriceAgrees(lines[i]);
    }
  }

  class OnlineBillPanel {
    var isProcessing: bool
    var showInvoice: bool
    var orderInfo: Option<CreatedOrder>
    var orderRequests: seq<OrderPayload>
    var tableRequests: seq<TableUpdate>

    ghost predicate Valid()
      reads this
    {
      showInvoice ==> orderInfo.Some?
    }

    constructor ()
      ensures Valid() && !isProcessing && !showInvoice && orderInfo == None
      ensures orderRequests == [] && tableRequests == []
    {
      isProcessing := false;
      showInvoice := false;
      orderInfo := None;
      orderRequests := [];
      tableRequests := [];
    }

    /** Cash: the order is submitted directly. */
    method PlaceCashOrder(store: CustomerStore, cart: CartStore, total: real, paymentMethod: string, n: nat)
      requires store.table.Some?
      requires forall i :: 0 <= i < |cart.lines| ==> cart.lines[i].quantity > 0
      modifies this
      ensures orderRequests == old(orderRequests)
                + [VariantPayload(store.Snapshot(), cart.lines, total, paymentMethod, n, None)]
      ensures isProcessing == old(isProcessing) && showInvoice == old(showInvoice)
      ensures orderInfo == old(orderInfo) && tableRequests == old(tableRequests)
    {
      orderRequests := orderRequests + [VariantPayload(store.Snapshot(), cart.lines, total, paymentMethod, n, None)];
    }

    /** The gateway SDK did not load: processing stops, nothing is sent. */
    method OnSdkLoadFailed()
      modifies this
      ensures !isProcessing && orderRequests == old(orderRequests)
      ensures showInvoice == old(showInvoice) && orderInfo == old(orderInfo) && tableRequests == old(tableRequests)
    {
      isProcessing := false;
    }

    /** The gateway reported a payment and the backend checked it: a
        verified payment submits the order with the gateway's ids; a failed
        verification stops processing and submits nothing. */
    method OnPaymentChecked(verified: bool, ids: GatewayIds, store: CustomerStore, cart: CartStore,
                            total: real, paymentMethod: string, n: nat)
      requires store.table.Some?
      requires forall i :: 0 <= i < |cart.lines| ==> cart.lines[i].quantity > 0
      modifies this
      ensures verified ==>
                orderRequests == old(orderRequests)
                  + [VariantPayload(store.Snapshot(), cart.lines, total, paymentMethod, n, Some(ids))]
                && isProcessing == old(isProcessing)
      ensures !verified ==> !isProcessing && orderRequests == old(orderRequests)
      ensures showInvoice == old(showInvoice) && orderInfo == old(orderInfo) && tableRequests == old(tableRequests)
    {
      if verified {
        orderRequests := orderRequests + [VariantPayload(store.Snapshot(), cart.lines, total, paymentMethod, n, Some(ids))];
      } else {
        isProcessing := false;
      }
    }

    /** The user closed the gateway widget: processing stops, nothing is
        sent. */
    method OnGatewayDismissed()
      modifies this
      ensures !isProcessing && orderRequests == old(orderRequests)
      ensures showInvoice == old(showInvoice) && orderInfo == old(orderInfo) && tableRequests == old(tableRequests)
    {
      isProcessing := false;
    }

    /** Anything in the online path threw. */
    method OnPaymentError()
      modifies this
      ensures !isProcessing && orderRequests == old(orderRequests)
      ensures showInvoice == old(showInvoice) && orderInfo == old(orderInfo) && tableRequests == old(tableRequests)
    {
      isProcessing := false;
    }

    /** As in the current panel: one booking update, the invoice shown. */
    method OnOrderSuccess(store: CustomerStore, created: CreatedOrder)
      requires store.table.Some?
      modifies this
      ensures Valid()
      ensures orderInfo == Some(created) && showInvoice && !isProcessing
      ensures tableRequests == old(tableRequests) + [BookingFor(store.table.value, created)]
      ensures orderRequests == old(orderRequests)
    {
      orderInfo := Some(created);
      tableRequests := tableRequests + [BookingFor(store.table.value, created)];
      showInvoice := true;
      isProcessing := false;
    }

    method OnOrderError()
      modifies this
      ensures !isProcessing
      ensures showInvoice == old(showInvoice) && orderInfo == old(orderInfo)
      ensures orderRequests == old(orderRequests) && tableRequests == old(tableRequests)
    {
      isProcessing := false;
    }

    /** In this variant the cart and the session are cleared when the
        invoice is closed, whatever became of the table update. */
    method PrintAndClose(store: CustomerStore, cart: CartStore) returns (nav: Option<string>)
      modifies this, store, cart
      ensures Valid() && !showInvoice && nav == Some("/")
      ensures cart.lines == [] && store.Snapshot() == Initial
      ensures isProcessing == old(isProcessing) && orderInfo == old(orderInfo)
      ensures orderRequests == old(orderRequests) && tableRequests == old(tableRequests)
    {
      showInvoice := false;
      cart.RemoveAllItems();
      store.RemoveCustomer();
      nav := Some("/");
    }
  }
}
