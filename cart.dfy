/** The cart store, seen from the order-taking flow: an ordered list of
    lines that the menu appends to and a successful checkout empties. The
    store's own reducers are not part of this model; `AddItems` appends and
    `RemoveAllItems` empties, which is all the flow relies on. */
module Cart {

  /** A cart line as the menu builds it: `lineId` is the clock reading
      followed by the item id, `price` the line total. */
  datatype CartLine = CartLine(
    lineId: string,
    itemId: string,
    name: string,
    pricePerQuantity: real,
    quantity: nat,
    price: real,
    notes: string)

  const MaxPerLine: nat := 10

  /** A line whose total is its unit price times its quantity, with a
      quantity the picker allows (1..10). */
  predicate WellFormedLine(l: CartLine)
  {
    1 <= l.quantity <= MaxPerLine && l.price == l.pricePerQuantity * (l.quantity as real)
  }

  class CartStore {
    var lines: seq<CartLine>

    constructor ()
      ensures lines == []
    {
      lines := [];
    }

    /** `addItems(line)`: a new line at the end; lines are never merged. */
    method AddItems(line: CartLine)
      modifies this
      ensures lines == old(lines) + [line]
    {
      lines := lines + [line];
    }

    /** `removeAllItems()`. */
    method RemoveAllItems()
      modifies this
      ensures lines == []
    {
      lines := [];
    }
  }
}
