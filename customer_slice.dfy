/** The customer/session store: who is being served, how many guests, at
    which table, under which provisional order number. Each reducer of the
    store assigns some of its fields in place; `Session` is the value of
    all six fields at once, used to say what a reducer leaves alone. */
module CustomerSlice {
  import opened Common

  /** The table bound to the session, as a table card dispatches it. */
  datatype TableRef = TableRef(tableId: string, tableNo: int)

  datatype Session = Session(
    orderId: string,
    customerName: string,
    customerPhone: string,
    guests: int,
    table: Option<TableRef>,
    isAnonymous: bool)

  /** The store's initial state: nobody, no guests, no table. */
  const Initial: Session := Session("", "", "", 0, None, false)

  /** The name given to a customer who did not give one; `n` stands for
      `Math.floor(Math.random() * 1000)`. */
  function GuestLabel(n: nat): string
  {
    "Guest " + NatToString(n)
  }

  /** The provisional order number; `now` stands for `Date.now()`. */
  function OrderIdFor(now: nat): string
  {
    "ORD" + NatToString(now)
  }

  /** A customer is anonymous when no name was given or the name is a
      guest label. */
  predicate IsAnonymousName(name: string)
  {
    name == "" || StartsWith(name, "Guest")
  }

  /** The name `setCustomer` stores: the given one, else a guest label. */
  function StoredName(name: string, n: nat): string
  {
    if name == "" then GuestLabel(n) else name
  }

  /** After `setCustomer`, the stored name carries the "Guest" prefix
      exactly when the session is marked anonymous, and it is never empty. */
  lemma StoredNameMatchesAnonymity(name: string, n: nat)
    ensures StoredName(name, n) != ""
    ensures StartsWith(StoredName(name, n), "Guest") <==> IsAnonymousName(name)
  {
    if name == "" {
      StartsWithAppend("Guest", " " + NatToString(n));
      assert "Guest " + NatToString(n) == "Guest" + (" " + NatToString(n));
    }
  }

  /** The provisional order number is "ORD" followed by the timestamp,
      which can be read back from it; distinct timestamps give distinct
      numbers. */
  lemma OrderIdEncodesTimestamp(now: nat)
    ensures StartsWith(OrderIdFor(now), "ORD")
    ensures AllDigits(OrderIdFor(now)[3..])
    ensures ParseDecimal(OrderIdFor(now)[3..]) == now
  {
    StartsWithAppend("ORD", NatToString(now));
    assert OrderIdFor(now)[3..] == NatToString(now);
    ParseNatToString(now);
  }

  lemma OrderIdInjective(m: nat, n: nat)
    requires OrderIdFor(m) == OrderIdFor(n)
    ensures m == n
  {
    OrderIdEncodesTimestamp(m);
    OrderIdEncodesTimestamp(n);
  }

  class CustomerStore {
    var orderId: string
    var customerName: string
    var customerPhone: string
    var guests: int
    var table: Option<TableRef>
    var isAnonymous: bool

    function Snapshot(): Session
      reads this
    {
      Session(orderId, customerName, customerPhone, guests, table, isAnonymous)
    }

    constructor ()
      ensures Snapshot() == Initial
    {
      orderId := "";
      customerName := "";
      customerPhone := "";
      guests := 0;
      table := None;
      isAnonymous := false;
    }

    /** `setCustomer({name, phone, guests})`, with the clock reading `now`
        and the random guest number `n` (0..999) passed in. The table is
        left as it was. */
    method SetCustomer(name: string, phone: string, guestCount: int, now: nat, n: nat)
      requires n < 1000
      modifies this
      ensures Snapshot() == old(Snapshot()).(
                orderId := OrderIdFor(now),
                customerName := StoredName(name, n),
                customerPhone := phone,
                guests := guestCount,
                isAnonymous := IsAnonymousName(name))
      ensures table == old(table)
      ensures isAnonymous <==> StartsWith(customerName, "Guest")
    {
      orderId := "ORD" + NatToString(now);
      customerName := if name != "" then name else "Guest " + NatToString(n);
      customerPhone := if phone != "" then phone else "";
      guests := guestCount;
      isAnonymous := name == "" || StartsWith(name, "Guest");
      StoredNameMatchesAnonymity(name, n);
    }

    /** `removeCustomer()`: every field back to its initial value, whatever
        the state was before, so a second call changes nothing. */
    method RemoveCustomer()
      modifies this
      ensures Snapshot() == Initial
    {
      orderId := "";
      customerName := "";
      customerPhone := "";
      guests := 0;
      table := None;
      isAnonymous := false;
    }

    /** `updateTable({table})`: only the table changes. */
    method UpdateTable(t: Option<TableRef>)
      modifies this
      ensures Snapshot() == old(Snapshot()).(table := t)
    {
      table := t;
    }

    /** `updateCustomerName(name)`: the name is set and the session is no
        longer anonymous, whatever the name. */
    method UpdateCustomerName(name: string)
      modifies this
      ensures Snapshot() == old(Snapshot()).(customerName := name, isAnonymous := false)
    {
      customerName := name;
      isAnonymous := false;
    }

    /** `updateCustomerPhone(phone)`: only the phone changes. */
    method UpdateCustomerPhone(phone: string)
      modifies this
      ensures Snapshot() == old(Snapshot()).(customerPhone := phone)
    {
      customerPhone := phone;
    }
  }
}
